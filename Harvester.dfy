/**
 * `run()`: starting at the configured start timestamp, gather one batch of
 * day-step timestamps, fetch their prices together, store each result under
 * its timestamp in the map loaded from the price file, rewrite the file, and
 * move on to the next batch, while the next batch's first day ends by the end
 * timestamp.
 */
module Harvester {
  import opened Wrappers
  import opened Timeline
  import opened Cache
  import Prices

  /** The run's constants: first timestamp, end timestamp, timestamps per batch, step. */
  datatype Config = Config(startTimestamp: int, endTimestamp: int, noOfDays: nat, interval: int)

  const START_TIMESTAMP: int := 1701950400
  const END_TIMESTAMP: int := 1704888000
  const NO_OF_DAYS: nat := 5
  const INTERVAL: int := 24 * 3600

  const SOURCE_CONFIG: Config := Config(START_TIMESTAMP, END_TIMESTAMP, NO_OF_DAYS, INTERVAL)

  /** Configurations under which the loops end: at least one timestamp per batch and a positive step. */
  predicate Terminating(cfg: Config)
  {
    cfg.noOfDays >= 1 && cfg.interval > 0
  }

  /** What a run leaves behind: the snapshots written to the file, in order, and whether it got to the end. */
  datatype Trace<R> = Trace(writes: seq<map<int, R>>, completed: bool)

  /** The timestamps of the batch that starts at `start`: `noOfDays` consecutive steps. */
  function BatchDates(start: int, cfg: Config): seq<int>
  {
    Steps(start, cfg.noOfDays, cfg.interval)
  }

  /**
   * The batch that starts at `start`, run on the map `json`: `Promise.all`
   * over its timestamps, then each result stored under its timestamp;
   * nothing when the promise rejects.
   */
  function RunBatch<R>(json: map<int, R>, getData: int -> Option<R>, start: int, cfg: Config): Option<map<int, R>>
  {
    var dates := BatchDates(start, cfg);
    match PromiseAll(getData, dates)
    case None => None
    case Some(res) => Some(Merge(json, dates, res))
  }

  /** A batch goes through exactly when every one of its timestamps is answered. */
  lemma RunBatchAnswered<R>(json: map<int, R>, getData: int -> Option<R>, start: int, cfg: Config)
    ensures RunBatch(json, getData, start, cfg).Some? <==> Answered(getData, BatchDates(start, cfg))
  {
  }

  /**
   * A batch that goes through stores each timestamp's own answer: results
   * are paired with timestamps by position, present keys are overwritten,
   * all other keys kept.
   */
  lemma RunBatchMerged<R>(json: map<int, R>, getData: int -> Option<R>, start: int, cfg: Config)
    requires RunBatch(json, getData, start, cfg).Some?
    ensures MergedOver(json, RunBatch(json, getData, start, cfg).value, BatchDates(start, cfg), getData)
  {
    var dates := BatchDates(start, cfg);
    if PromiseAll(getData, dates).Some? {
      MergePairsByPosition(json, dates, PromiseAll(getData, dates).value, getData);
    }
  }

  /** A batch step: from the map and a batch's first timestamp to the map after the batch, or nothing on a rejection. */
  type BatchStep<!R> = (map<int, R>, int) -> Option<map<int, R>>

  /** The batch step of `run()` for the price lookup `getData`. */
  function BatchOf<R>(getData: int -> Option<R>, cfg: Config): BatchStep<R>
  {
    (json: map<int, R>, start: int) => RunBatch(json, getData, start, cfg)
  }

  /** `step` rejects exactly the batches holding a timestamp `getData` does not answer. */
  ghost predicate FailsOnUnanswered<R(!new)>(step: BatchStep<R>, getData: int -> Option<R>, cfg: Config)
  {
    forall json, start :: step(json, start).Some? <==> Answered(getData, BatchDates(start, cfg))
  }

  /** A batch that `step` lets through stores each of its timestamps' answers over the map it started from. */
  ghost predicate StoresAnswers<R(!new)>(step: BatchStep<R>, getData: int -> Option<R>, cfg: Config)
  {
    forall json, start :: step(json, start).Some? ==>
      MergedOver(json, step(json, start).value, BatchDates(start, cfg), getData)
  }

  /** The batch step of `run()` fails exactly on unanswered batches and stores the answers of the others. */
  lemma BatchOfRunsBatches<R(!new)>(getData: int -> Option<R>, cfg: Config)
    ensures FailsOnUnanswered(BatchOf(getData, cfg), getData, cfg)
    ensures StoresAnswers(BatchOf(getData, cfg), getData, cfg)
  {
    var step := BatchOf(getData, cfg);
    forall json, start ensures step(json, start).Some? <==> Answered(getData, BatchDates(start, cfg)) {
      RunBatchAnswered(json, getData, start, cfg);
    }
    forall json, start | step(json, start).Some?
      ensures MergedOver(json, step(json, start).value, BatchDates(start, cfg), getData)
    {
      RunBatchMerged(json, getData, start, cfg);
    }
  }

  /**
   * The run, batch by batch, from the batch starting at `start` with the map
   * `json`: a batch is started while `start + interval <= endTimestamp`; a
   * rejection ends the run with nothing more written; otherwise the merged
   * map is written and the next batch starts `noOfDays` steps later.
   */
  function Harvest<R>(json: map<int, R>, step: BatchStep<R>, start: int, cfg: Config): Trace<R>
    requires Terminating(cfg)
    decreases cfg.endTimestamp - start
  {
    if start + cfg.interval > cfg.endTimestamp then Trace([], true)
    else
      match step(json, start)
      case None => Trace([], false)
      case Some(next) =>
        var rest := Harvest(next, step, start + Stride(cfg.noOfDays, cfg.interval), cfg);
        Trace([next] + rest.writes, rest.completed)
  }

  /** One batch of `Harvest`, unfolded: what happens when the batch at `start` is started. */
  lemma HarvestStep<R>(json: map<int, R>, step: BatchStep<R>, start: int, cfg: Config)
    requires Terminating(cfg)
    requires start + cfg.interval <= cfg.endTimestamp
    ensures var batch := step(json, start);
      && (batch.None? ==> Harvest(json, step, start, cfg) == Trace([], false))
      && (batch.Some? ==>
            var rest := Harvest(batch.value, step, start + Stride(cfg.noOfDays, cfg.interval), cfg);
            Harvest(json, step, start, cfg) == Trace([batch.value] + rest.writes, rest.completed))
  {
  }

  /** The first timestamp of batch k: k strides after `start`. */
  function BatchStart(start: int, cfg: Config, k: nat): int
    decreases k
  {
    if k == 0 then start else BatchStart(start + Stride(cfg.noOfDays, cfg.interval), cfg, k - 1)
  }

  /** Batch k starts `k * noOfDays` steps after `start`. */
  lemma {:induction false} BatchStartSteps(start: int, cfg: Config, k: nat)
    ensures BatchStart(start, cfg, k) == start + (k * cfg.noOfDays) * cfg.interval
    decreases k
  {
    var n, interval := cfg.noOfDays, cfg.interval;
    if k > 0 {
      BatchStartSteps(start + Stride(n, interval), cfg, k - 1);
      StrideIsProduct(n, interval);
      var m := (k - 1) * n;
      assert k * n == n + m;
      assert (n + m) * interval == n * interval + m * interval;
    }
  }

  /** `NO_OF_DAYS * interval`: the span of one batch, `noOfDays` steps. */
  method BatchSpan(noOfDays: nat, interval: int) returns (span: int)
    ensures span == Stride(noOfDays, interval)
  {
    StrideIsProduct(noOfDays, interval);
    span := noOfDays * interval;
  }

  /**
   * The inner loop of `run()`: push `start` and step both ends one interval
   * on while `end` has not passed `iterationEndTimestamp`. From a batch start
   * `noOfDays` steps before `iterationEndTimestamp`, it gathers exactly that
   * batch's timestamps and leaves `start` at `iterationEndTimestamp`.
   */
  method GatherBatch(start: int, end: int, iterationEndTimestamp: int, interval: int, ghost noOfDays: nat)
    returns (dates: seq<int>, nextStart: int, nextEnd: int)
    requires interval > 0
    requires end == start + interval
    requires iterationEndTimestamp == start + Stride(noOfDays, interval)
    ensures dates == Steps(start, noOfDays, interval)
    ensures nextStart == iterationEndTimestamp && nextEnd == nextStart + interval
  {
    StrideIsProduct(noOfDays, interval);
    dates, nextStart, nextEnd := [], start, end;
    while nextEnd <= iterationEndTimestamp
      invariant 0 <= |dates| <= noOfDays
      invariant dates == Steps(start, |dates|, interval)
      invariant nextStart == start + |dates| * interval
      invariant nextEnd == nextStart + interval
      decreases iterationEndTimestamp - nextEnd
    {
      MulLeIff(|dates| + 1, noOfDays, interval);
      assert Steps(start, |dates|, interval) + [nextStart] == Steps(start, |dates| + 1, interval);
      dates := dates + [nextStart];
      nextStart := nextEnd;
      nextEnd := nextEnd + interval;
    }
    MulLeIff(|dates| + 1, noOfDays, interval);
  }

  /**
   * One batch of `run()`: `Promise.all` over the gathered dates, then each
   * result stored under its date; nothing when the promise rejects. It is
   * the batch step of `run()` at the batch's first timestamp.
   */
  method FetchAndStore<R>(json: map<int, R>, getData: int -> Option<R>, dates: seq<int>, ghost batchStart: int, ghost cfg: Config)
    returns (next: Option<map<int, R>>)
    requires dates == BatchDates(batchStart, cfg)
    ensures next == BatchOf(getData, cfg)(json, batchStart)
  {
    var res := PromiseAll(getData, dates);
    if res.None? {
      return None;
    }
    var stored := StoreResults(json, dates, res.value);
    next := Some(stored);
  }

  /**
   * The run so far has written `done` and is about to start the batch at
   * `start` on the map `json`: the whole run is `done` followed by the run
   * from there.
   */
  ghost predicate RunSoFar<R>(initial: map<int, R>, step: BatchStep<R>, cfg: Config, done: seq<map<int, R>>, json: map<int, R>, start: int)
    requires Terminating(cfg)
  {
    var rest := Harvest(json, step, start, cfg);
    Harvest(initial, step, cfg.startTimestamp, cfg) == Trace(done + rest.writes, rest.completed)
  }

  /** Past the end timestamp nothing more runs: the whole run is what has been written, and it completed. */
  lemma RunSoFarEnd<R>(initial: map<int, R>, step: BatchStep<R>, cfg: Config, done: seq<map<int, R>>, json: map<int, R>, start: int)
    requires Terminating(cfg)
    requires RunSoFar(initial, step, cfg, done, json, start)
    requires start + cfg.interval > cfg.endTimestamp
    ensures Harvest(initial, step, cfg.startTimestamp, cfg) == Trace(done, true)
  {
    assert done + [] == done;
  }

  /**
   * Running one more batch, whose outcome is `next`: a rejection ends the
   * run after `done`; otherwise the batch's map is written next and the run
   * goes on one stride later from it.
   */
  lemma RunSoFarAdvance<R>(
    initial: map<int, R>, step: BatchStep<R>, cfg: Config, done: seq<map<int, R>>, json: map<int, R>, start: int,
    next: Option<map<int, R>>, done': seq<map<int, R>>, json': map<int, R>, start': int
  )
    requires Terminating(cfg)
    requires RunSoFar(initial, step, cfg, done, json, start)
    requires start + cfg.interval <= cfg.endTimestamp
    requires next == step(json, start)
    requires next.Some? ==> done' == done + [next.value] && json' == next.value
    requires start' == start + Stride(cfg.noOfDays, cfg.interval)
    ensures next.None? ==> Harvest(initial, step, cfg.startTimestamp, cfg) == Trace(done, false)
    ensures next.Some? ==> RunSoFar(initial, step, cfg, done', json', start')
  {
    HarvestStep(json, step, start, cfg);
    if next.Some? {
      var rest := Harvest(json', step, start', cfg);
      assert done + ([json'] + rest.writes) == done' + rest.writes;
    } else {
      assert done + [] == done;
    }
  }

  /** What the file holds after the writes `done` over the loaded map `initial`. */
  ghost function LastWritten<R>(initial: map<int, R>, done: seq<map<int, R>>): map<int, R>
  {
    if done == [] then initial else done[|done| - 1]
  }

  /** The batch-planning and merge loop of `run()`, over the price file `file`. */
  method Run<R>(file: PriceFile<R>, getData: int -> Option<R>, cfg: Config) returns (completed: bool)
    requires Terminating(cfg)
    modifies file
    ensures var t := Harvest(old(file.contents), BatchOf(getData, cfg), cfg.startTimestamp, cfg);
      && file.writes == old(file.writes) + t.writes
      && completed == t.completed
      && file.contents == (if t.writes == [] then old(file.contents) else t.writes[|t.writes| - 1])
  {
    var n, interval := cfg.noOfDays, cfg.interval;
    ghost var step := BatchOf(getData, cfg);
    var json := file.Read();
    ghost var initial := json;
    ghost var done: seq<map<int, R>> := [];

    var dates: seq<int> := [];
    var start := cfg.startTimestamp;
    var span := BatchSpan(n, interval);
    var iterationEndTimestamp := cfg.startTimestamp + span;
    var end := start + interval;

    while end <= cfg.endTimestamp
      invariant iterationEndTimestamp == start + span
      invariant end == start + interval
      invariant dates == []
      invariant json == file.contents
      invariant file.writes == old(file.writes) + done
      invariant json == LastWritten(initial, done)
      invariant RunSoFar(initial, step, cfg, done, json, start)
      decreases cfg.endTimestamp - end
    {
      ghost var batchStart := start;
      dates, start, end := GatherBatch(start, end, iterationEndTimestamp, interval, n);

      var next := FetchAndStore(json, getData, dates, batchStart, cfg);
      if next.None? {
        RunSoFarAdvance(initial, step, cfg, done, json, batchStart, next, done, json, start);
        return false;
      }
      ghost var before, doneBefore := json, done;
      json := next.value;

      file.Write(json);
      done := done + [json];

      dates := [];
      start := iterationEndTimestamp;
      end := start + interval;
      iterationEndTimestamp := iterationEndTimestamp + span;
      RunSoFarAdvance(initial, step, cfg, doneBefore, before, batchStart, next, done, json, start);
    }
    RunSoFarEnd(initial, step, cfg, done, json, start);
    completed := true;
  }

  /** `run()` as the script invokes it: the fixed constants and the price lookup of `getData`. */
  method RunSource<A>(
    file: PriceFile<seq<A>>,
    blockTimestampAt: int -> Option<int>,
    fetchPackages: (int, seq<string>) -> Option<seq<Prices.SignedDataPackage<A>>>
  ) returns (completed: bool)
    modifies file
    ensures var getData := t => Prices.GetData(blockTimestampAt, fetchPackages, t);
      var t := Harvest(old(file.contents), BatchOf(getData, SOURCE_CONFIG), START_TIMESTAMP, SOURCE_CONFIG);
      && file.writes == old(file.writes) + t.writes
      && completed == t.completed
      && file.contents == (if t.writes == [] then old(file.contents) else t.writes[|t.writes| - 1])
  {
    completed := Run(file, t => Prices.GetData(blockTimestampAt, fetchPackages, t), SOURCE_CONFIG);
  }

  /** The timestamps requested by the first k batches: `k * noOfDays` steps from `start`. */
  function Requested(start: int, cfg: Config, k: nat): seq<int>
  {
    Steps(start, k * cfg.noOfDays, cfg.interval)
  }

  /** The first k + 1 batches request the first k batches' timestamps, then batch k's. */
  lemma RequestedGrows(start: int, cfg: Config, k: nat)
    ensures Requested(start, cfg, k + 1) == Requested(start, cfg, k) + BatchDates(BatchStart(start, cfg, k), cfg)
  {
    var n, interval := cfg.noOfDays, cfg.interval;
    BatchStartSteps(start, cfg, k);
    StepsSplit(start, k * n, n, interval);
    assert k * n + n == (k + 1) * n;
  }

  /** The first m + 1 batches request the first batch's timestamps, then those of m batches one stride later. */
  lemma RequestedFirst(start: int, cfg: Config, m: nat)
    ensures Requested(start, cfg, m + 1)
      == BatchDates(start, cfg) + Requested(start + Stride(cfg.noOfDays, cfg.interval), cfg, m)
  {
    var n, interval := cfg.noOfDays, cfg.interval;
    StrideIsProduct(n, interval);
    StepsSplit(start, n, m * n, interval);
    assert (m + 1) * n == n + m * n;
  }

  /**
   * One write per batch: a run that completes writes the file once for every
   * batch `BatchCount` plans; a run that fails stops at the first batch with
   * an unanswered timestamp, after writing once for each batch before it.
   */
  lemma {:induction false} WriteCount<R(!new)>(json: map<int, R>, step: BatchStep<R>, getData: int -> Option<R>, start: int, cfg: Config)
    requires Terminating(cfg)
    requires FailsOnUnanswered(step, getData, cfg)
    ensures var t := Harvest(json, step, start, cfg);
      var batches := BatchCount(start, cfg.endTimestamp, cfg.noOfDays, cfg.interval);
      && (t.completed ==> |t.writes| == batches)
      && (!t.completed ==>
            && |t.writes| < batches
            && !Answered(getData, BatchDates(BatchStart(start, cfg, |t.writes|), cfg)))
    decreases cfg.endTimestamp - start
  {
    if start + cfg.interval <= cfg.endTimestamp {
      HarvestStep(json, step, start, cfg);
      assert BatchCount(start, cfg.endTimestamp, cfg.noOfDays, cfg.interval)
             == 1 + BatchCount(start + Stride(cfg.noOfDays, cfg.interval), cfg.endTimestamp, cfg.noOfDays, cfg.interval);
      var batch := step(json, start);
      if batch.Some? {
        WriteCount(batch.value, step, getData, start + Stride(cfg.noOfDays, cfg.interval), cfg);
      } else {
        assert BatchStart(start, cfg, 0) == start;
      }
    }
  }

  /**
   * A run completes exactly when every requested timestamp, those of all
   * `BatchCount` batches, gets an answer.
   */
  lemma {:induction false} CompletedIffAllAnswered<R(!new)>(json: map<int, R>, step: BatchStep<R>, getData: int -> Option<R>, start: int, cfg: Config)
    requires Terminating(cfg)
    requires FailsOnUnanswered(step, getData, cfg)
    ensures Harvest(json, step, start, cfg).completed <==>
      Answered(getData, Requested(start, cfg, BatchCount(start, cfg.endTimestamp, cfg.noOfDays, cfg.interval)))
    decreases cfg.endTimestamp - start
  {
    var n, interval := cfg.noOfDays, cfg.interval;
    if start + interval <= cfg.endTimestamp {
      var later := start + Stride(n, interval);
      var laterBatches := BatchCount(later, cfg.endTimestamp, n, interval);
      assert BatchCount(start, cfg.endTimestamp, n, interval)
             == 1 + BatchCount(start + Stride(n, interval), cfg.endTimestamp, n, interval);
      RequestedFirst(start, cfg, laterBatches);
      AnsweredAppend(getData, BatchDates(start, cfg), Requested(later, cfg, laterBatches));
      HarvestStep(json, step, start, cfg);
      if step(json, start).Some? {
        CompletedIffAllAnswered(step(json, start).value, step, getData, later, cfg);
      }
    } else {
      assert Requested(start, cfg, 0) == [];
    }
  }

  /**
   * Write k stores batch k's results on top of the previous snapshot (the
   * loaded map for the first write): each of the batch's timestamps holds
   * its own result, re-requested keys are overwritten, and every other key,
   * loaded or written earlier, keeps its value.
   */
  lemma {:induction false} WriteMergesBatch<R(!new)>(json: map<int, R>, step: BatchStep<R>, getData: int -> Option<R>, start: int, cfg: Config, k: nat)
    requires Terminating(cfg)
    requires StoresAnswers(step, getData, cfg)
    requires k < |Harvest(json, step, start, cfg).writes|
    ensures var w := Harvest(json, step, start, cfg).writes;
      MergedOver(if k == 0 then json else w[k - 1], w[k], BatchDates(BatchStart(start, cfg, k), cfg), getData)
    decreases k
  {
    HarvestStep(json, step, start, cfg);
    var first := step(json, start).value;
    var later := start + Stride(cfg.noOfDays, cfg.interval);
    var rest := Harvest(first, step, later, cfg).writes;
    assert Harvest(json, step, start, cfg).writes == [first] + rest;
    if k > 0 {
      WriteMergesBatch(first, step, getData, later, cfg, k - 1);
      assert BatchStart(start, cfg, k) == BatchStart(later, cfg, k - 1);
    } else {
      assert BatchStart(start, cfg, 0) == start;
    }
  }

  /**
   * Write k holds the loaded map with the results of every timestamp requested
   * so far, the first `(k + 1) * noOfDays` steps from the start; keys outside
   * them keep the values they were loaded with.
   */
  lemma {:induction false} WriteCoversPrefix<R(!new)>(json: map<int, R>, step: BatchStep<R>, getData: int -> Option<R>, start: int, cfg: Config, k: nat)
    requires Terminating(cfg)
    requires StoresAnswers(step, getData, cfg)
    requires k < |Harvest(json, step, start, cfg).writes|
    ensures var w := Harvest(json, step, start, cfg).writes;
      MergedOver(json, w[k], Requested(start, cfg, k + 1), getData)
    decreases k
  {
    var w := Harvest(json, step, start, cfg).writes;
    WriteMergesBatch(json, step, getData, start, cfg, k);
    RequestedGrows(start, cfg, k);
    if k > 0 {
      WriteCoversPrefix(json, step, getData, start, cfg, k - 1);
      MergedOverChain(json, w[k - 1], w[k], Requested(start, cfg, k), BatchDates(BatchStart(start, cfg, k), cfg), getData);
    } else {
      assert Requested(start, cfg, 0) == [];
      assert BatchStart(start, cfg, 0) == start;
    }
  }

  /**
   * The run of `run()` itself, with its own batch step: a completed run writes
   * once per batch, it completes exactly when every requested timestamp is
   * answered, and write k is the loaded map with the answers of batches 0..k
   * stored over it.
   */
  lemma RunWritesPerBatch<R(!new)>(json: map<int, R>, getData: int -> Option<R>, cfg: Config)
    requires Terminating(cfg)
    ensures var t := Harvest(json, BatchOf(getData, cfg), cfg.startTimestamp, cfg);
      var batches := BatchCount(cfg.startTimestamp, cfg.endTimestamp, cfg.noOfDays, cfg.interval);
      && (t.completed ==> |t.writes| == batches)
      && (!t.completed ==> |t.writes| < batches)
      && (t.completed <==> Answered(getData, Requested(cfg.startTimestamp, cfg, batches)))
      && forall k :: 0 <= k < |t.writes| ==>
           MergedOver(json, t.writes[k], Requested(cfg.startTimestamp, cfg, k + 1), getData)
  {
    var step, start := BatchOf(getData, cfg), cfg.startTimestamp;
    BatchOfRunsBatches(getData, cfg);
    WriteCount(json, step, getData, start, cfg);
    CompletedIffAllAnswered(json, step, getData, start, cfg);
    var t := Harvest(json, step, start, cfg);
    forall k | 0 <= k < |t.writes|
      ensures MergedOver(json, t.writes[k], Requested(start, cfg, k + 1), getData)
    {
      WriteCoversPrefix(json, step, getData, start, cfg, k);
    }
  }

  /**
   * The script's own range: seven batches of five days, 35 timestamps, the
   * last of which is exactly `END_TIMESTAMP`.
   */
  lemma SourceSchedule()
    ensures BatchCount(START_TIMESTAMP, END_TIMESTAMP, NO_OF_DAYS, INTERVAL) == 7
    ensures Steps(START_TIMESTAMP, NO_OF_DAYS * 7, INTERVAL)[34] == END_TIMESTAMP
  {
    BatchRunsIff(START_TIMESTAMP, END_TIMESTAMP, NO_OF_DAYS, INTERVAL, 6);
    BatchRunsIff(START_TIMESTAMP, END_TIMESTAMP, NO_OF_DAYS, INTERVAL, 7);
  }

  /**
   * A three-day range (end two steps after the start) with batches of five:
   * one batch runs, the file is written once, and since the batch is not cut
   * off at the end timestamp an initially empty file ends up with five keys,
   * the last two past the end of the range.
   */
  lemma ThreeDayRange<R>(getData: int -> Option<R>)
    requires forall t :: getData(t).Some?
    ensures var cfg := Config(1701950400, 1701950400 + 2 * 86400, 5, 86400);
      var t := Harvest(map[], BatchOf(getData, cfg), cfg.startTimestamp, cfg);
      && t.completed
      && |t.writes| == 1
      && t.writes[0].Keys == {1701950400, 1702036800, 1702123200, 1702209600, 1702296000}
  {
    var cfg := Config(1701950400, 1701950400 + 2 * 86400, 5, 86400);
    var step := BatchOf(getData, cfg);
    var empty: map<int, R> := map[];
    var first := cfg.startTimestamp;
    var dates := BatchDates(first, cfg);
    assert dates == [1701950400, 1702036800, 1702123200, 1702209600, 1702296000];
    assert Answered(getData, dates);
    RunBatchAnswered(empty, getData, first, cfg);
    RunBatchMerged(empty, getData, first, cfg);
    var written := RunBatch(empty, getData, first, cfg).value;
    assert forall key :: key in written <==> key in dates;
    assert step(empty, first) == Some(written);
    assert Stride(5, 86400) == 432000;
    HarvestStep(empty, step, first, cfg);
    assert Harvest(written, step, first + 432000, cfg) == Trace([], true);
    KeysOfFive(written, 1701950400, 1702036800, 1702123200, 1702209600, 1702296000);
  }

  /** A map whose keys are exactly five listed dates has those five as its key set. */
  lemma KeysOfFive<R>(m: map<int, R>, a: int, b: int, c: int, d: int, e: int)
    requires forall key :: key in m <==> key in [a, b, c, d, e]
    ensures m.Keys == {a, b, c, d, e}
  {
    forall key ensures key in m.Keys <==> key in {a, b, c, d, e} {
      assert key in [a, b, c, d, e] <==> key == a || key == b || key == c || key == d || key == e;
    }
  }
}
