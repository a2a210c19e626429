/**
 * The in-memory price map loaded from `historical_prices.json`, how one batch's
 * results are merged into it, and the file itself, rewritten whole once per batch.
 * Keys are the requested timestamps (the file's decimal string keys).
 */
module Cache {
  import opened Wrappers

  /** Every date gets an answer from `getData`. */
  predicate Answered<R>(getData: int -> Option<R>, dates: seq<int>)
  {
    forall i :: 0 <= i < |dates| ==> getData(dates[i]).Some?
  }

  /** Two lists of dates are answered exactly when each of them is. */
  lemma AnsweredAppend<R>(getData: int -> Option<R>, front: seq<int>, back: seq<int>)
    ensures Answered(getData, front + back) <==> Answered(getData, front) && Answered(getData, back)
  {
    var all := front + back;
    if Answered(getData, all) {
      forall i | 0 <= i < |front| ensures getData(front[i]).Some? {
        assert all[i] == front[i];
      }
      forall i | 0 <= i < |back| ensures getData(back[i]).Some? {
        assert all[|front| + i] == back[i];
      }
    }
    if Answered(getData, front) && Answered(getData, back) {
      forall i | 0 <= i < |all| ensures getData(all[i]).Some? {
        if i >= |front| {
          assert all[i] == back[i - |front|];
        }
      }
    }
  }

  /**
   * `Promise.all(dates.map(getData))`, taken as an ordered map: the results in
   * the order of `dates`, or a rejection as soon as any one of them fails.
   */
  function PromiseAll<R>(getData: int -> Option<R>, dates: seq<int>): (r: Option<seq<R>>)
    ensures r.Some? <==> Answered(getData, dates)
    ensures r.Some? ==> |r.value| == |dates|
    ensures r.Some? ==> forall i :: 0 <= i < |dates| ==> getData(dates[i]) == Some(r.value[i])
  {
    if Answered(getData, dates) then Some(seq(|dates|, i requires 0 <= i < |dates| => getData(dates[i]).value))
    else None
  }

  /** Joining two lists of requests succeeds exactly when both do, with the results side by side. */
  lemma PromiseAllAppend<R>(getData: int -> Option<R>, front: seq<int>, back: seq<int>)
    ensures PromiseAll(getData, front + back).Some? <==>
      PromiseAll(getData, front).Some? && PromiseAll(getData, back).Some?
    ensures PromiseAll(getData, front + back).Some? ==>
      PromiseAll(getData, front + back).value == PromiseAll(getData, front).value + PromiseAll(getData, back).value
  {
    var all := front + back;
    AnsweredAppend(getData, front, back);
    if PromiseAll(getData, all).Some? {
      var whole, f, b := PromiseAll(getData, all).value, PromiseAll(getData, front).value, PromiseAll(getData, back).value;
      forall i | 0 <= i < |whole| ensures whole[i] == (f + b)[i] {
        if i < |front| {
          assert all[i] == front[i];
        } else {
          assert all[i] == back[i - |front|];
        }
      }
    }
  }

  /**
   * The map after `dates.forEach((date, i) => { json[date] = res[i]; })`:
   * results are stored by position, left to right, so a later date overwrites
   * an earlier equal one, and every other key keeps its value.
   */
  function Merge<R>(json: map<int, R>, dates: seq<int>, res: seq<R>): (r: map<int, R>)
    requires |dates| == |res|
    ensures forall key :: key in r <==> key in json || key in dates
    ensures forall key :: key in json && key !in dates ==> r[key] == json[key]
    decreases |dates|
  {
    if dates == [] then json
    else
      var n := |dates| - 1;
      Merge(json, dates[..n], res[..n])[dates[n] := res[n]]
  }

  /**
   * `after` is `before` with the results of `getData` stored under `dates`:
   * the keys are those of `before` plus `dates`, each date holds what
   * `getData` returned for it, and every other key keeps its old value.
   */
  ghost predicate MergedOver<R>(before: map<int, R>, after: map<int, R>, dates: seq<int>, getData: int -> Option<R>)
  {
    && (forall key :: key in after <==> key in before || key in dates)
    && (forall i :: 0 <= i < |dates| ==> dates[i] in after && getData(dates[i]) == Some(after[dates[i]]))
    && (forall key :: key in before && key !in dates ==> after[key] == before[key])
  }

  /** A prefix of answered dates is answered, with the matching prefix of the results. */
  lemma PromiseAllPrefix<R>(getData: int -> Option<R>, dates: seq<int>, res: seq<R>, n: nat)
    requires PromiseAll(getData, dates) == Some(res)
    requires n <= |dates|
    ensures PromiseAll(getData, dates[..n]) == Some(res[..n])
  {
    var front := dates[..n];
    assert Answered(getData, front) by {
      forall i | 0 <= i < n ensures getData(front[i]).Some? {
        assert front[i] == dates[i];
      }
    }
    var v := PromiseAll(getData, front).value;
    forall i | 0 <= i < n ensures v[i] == res[..n][i] {
      assert getData(front[i]) == Some(v[i]);
      assert front[i] == dates[i];
    }
    assert v == res[..n];
  }

  /**
   * Results are paired with dates by position: merging the results of a
   * successful `PromiseAll` stores `getData(date)` under each date, including
   * dates already present, which are overwritten.
   */
  lemma {:induction false} MergePairsByPosition<R>(json: map<int, R>, dates: seq<int>, res: seq<R>, getData: int -> Option<R>)
    requires PromiseAll(getData, dates) == Some(res)
    ensures MergedOver(json, Merge(json, dates, res), dates, getData)
    decreases |dates|
  {
    if dates != [] {
      var n := |dates| - 1;
      PromiseAllPrefix(getData, dates, res, n);
      MergePairsByPosition(json, dates[..n], res[..n], getData);
      var m := Merge(json, dates[..n], res[..n]);
      assert Merge(json, dates, res) == m[dates[n] := res[n]];
      StoreOne(m, dates[n], res[n], getData);
      MergedOverChain(json, m, m[dates[n] := res[n]], dates[..n], [dates[n]], getData);
      assert dates[..n] + [dates[n]] == dates;
    }
  }

  /** Storing one answered date over a map. */
  lemma StoreOne<R>(m: map<int, R>, date: int, value: R, getData: int -> Option<R>)
    requires getData(date) == Some(value)
    ensures MergedOver(m, m[date := value], [date], getData)
  {
  }

  /** Merging one more date stores its result over the merge of the dates before it. */
  lemma MergeSnoc<R>(json: map<int, R>, dates: seq<int>, res: seq<R>, i: nat)
    requires |dates| == |res| && i < |dates|
    ensures Merge(json, dates[..i + 1], res[..i + 1]) == Merge(json, dates[..i], res[..i])[dates[i] := res[i]]
  {
    assert dates[..i + 1][..i] == dates[..i] && res[..i + 1][..i] == res[..i];
  }

  /** `dates.forEach((date, i) => { json[date] = res[i]; })`, one key at a time. */
  method StoreResults<R>(json: map<int, R>, dates: seq<int>, res: seq<R>) returns (stored: map<int, R>)
    requires |dates| == |res|
    ensures stored == Merge(json, dates, res)
  {
    stored := json;
    var i := 0;
    while i < |dates|
      invariant 0 <= i <= |dates|
      invariant stored == Merge(json, dates[..i], res[..i])
    {
      MergeSnoc(json, dates, res, i);
      stored := stored[dates[i] := res[i]];
      i := i + 1;
    }
    assert dates[..|dates|] == dates && res[..|res|] == res;
  }

  /** Two merges in a row are one merge over both lists of dates. */
  lemma MergedOverChain<R>(a: map<int, R>, b: map<int, R>, c: map<int, R>, first: seq<int>, second: seq<int>, getData: int -> Option<R>)
    requires MergedOver(a, b, first, getData) && MergedOver(b, c, second, getData)
    ensures MergedOver(a, c, first + second, getData)
  {
    var both := first + second;
    forall key ensures key in c <==> key in a || key in both {
      assert key in both <==> key in first || key in second;
    }
    forall i | 0 <= i < |both| ensures both[i] in c && getData(both[i]) == Some(c[both[i]]) {
      if i < |first| {
        var d := first[i];
        assert both[i] == d;
        if d in second {
          var j :| 0 <= j < |second| && second[j] == d;
        }
      } else {
        assert both[i] == second[i - |first|];
      }
    }
    forall key | key in a && key !in both ensures c[key] == a[key] {
      assert key !in first && key !in second;
    }
  }

  /** `historical_prices.json`: its current contents and every snapshot written to it, in order. */
  class PriceFile<R> {
    var contents: map<int, R>
    var writes: seq<map<int, R>>

    /** `JSON.parse(fs.readFileSync(...))`: the whole map as stored. */
    method Read() returns (json: map<int, R>)
      ensures json == contents
    {
      json := contents;
    }

    /** `fs.writeFileSync(..., JSON.stringify(json))`: the file is replaced by a snapshot of `json`. */
    method Write(json: map<int, R>)
      modifies this
      ensures contents == json
      ensures writes == old(writes) + [json]
    {
      contents := json;
      writes := writes + [json];
    }
  }
}
