/**
 * The day-step timeline that `run` walks and the batches it cuts it into.
 * Batch k starts at `from + k * batchSize * interval`, holds `batchSize`
 * consecutive steps, and is started only while its first step ends by the
 * end timestamp; the last batch is not cut off there.
 */
module Timeline {

  /** The `count` timestamps `from, from + interval, ..., from + (count - 1) * interval`. */
  function Steps(from: int, count: nat, interval: int): seq<int>
  {
    seq(count, i requires 0 <= i < count => from + i * interval)
  }

  lemma MulMonotone(a: int, b: int, c: int)
    requires a <= b && 0 <= c
    ensures a * c <= b * c
  {
    assert b * c - a * c == (b - a) * c;
  }

  lemma MulStrict(a: int, b: int, c: int)
    requires a < b && 0 < c
    ensures a * c < b * c
  {
    assert b * c - a * c == (b - a) * c;
  }

  lemma MulLeIff(a: int, b: int, c: int)
    requires 0 < c
    ensures a * c <= b * c <==> a <= b
  {
    if a <= b {
      MulMonotone(a, b, c);
    } else {
      MulStrict(b, a, c);
    }
  }

  /** A run of a + b steps is a run of a steps followed by a run of b steps from where the first stopped. */
  lemma StepsSplit(from: int, a: nat, b: nat, interval: int)
    ensures Steps(from, a + b, interval) == Steps(from, a, interval) + Steps(from + a * interval, b, interval)
  {
    var whole, front, back := Steps(from, a + b, interval), Steps(from, a, interval), Steps(from + a * interval, b, interval);
    forall i | 0 <= i < a + b ensures whole[i] == (front + back)[i] {
      if a <= i {
        assert i * interval == a * interval + (i - a) * interval;
      }
    }
  }

  /** With a positive interval the timeline is strictly increasing, so it holds no timestamp twice. */
  lemma StepsIncreasing(from: int, count: nat, interval: int)
    requires interval > 0
    ensures forall i, j :: 0 <= i < j < count ==> Steps(from, count, interval)[i] < Steps(from, count, interval)[j]
  {
    var s := Steps(from, count, interval);
    forall i, j | 0 <= i < j < count ensures s[i] < s[j] {
      MulStrict(i, j, interval);
    }
  }

  /**
   * `batchSize * interval`, the distance from one batch start to the next,
   * added up one interval at a time (see `StrideIsProduct`).
   */
  function Stride(batchSize: nat, interval: int): (r: int)
    ensures batchSize >= 1 && interval > 0 ==> r >= interval
  {
    if batchSize == 0 then 0 else interval + Stride(batchSize - 1, interval)
  }

  lemma {:induction false} StrideIsProduct(batchSize: nat, interval: int)
    ensures Stride(batchSize, interval) == batchSize * interval
  {
    if batchSize > 0 {
      StrideIsProduct(batchSize - 1, interval);
      assert batchSize * interval == interval + (batchSize - 1) * interval;
    }
  }

  /** The number of batches started from `from`: one per batch start whose first step ends by `endTimestamp`. */
  function BatchCount(from: int, endTimestamp: int, batchSize: nat, interval: int): nat
    requires batchSize >= 1 && interval > 0
    decreases endTimestamp - from
  {
    if from + interval > endTimestamp then 0
    else 1 + BatchCount(from + Stride(batchSize, interval), endTimestamp, batchSize, interval)
  }

  /** Batch k is started exactly when its start plus one interval is at most `endTimestamp`. */
  lemma {:induction false} BatchRunsIff(from: int, endTimestamp: int, batchSize: nat, interval: int, k: nat)
    requires batchSize >= 1 && interval > 0
    ensures k < BatchCount(from, endTimestamp, batchSize, interval)
            <==> from + k * (batchSize * interval) + interval <= endTimestamp
    decreases k
  {
    MulMonotone(1, batchSize, interval);
    MulMonotone(0, k, batchSize * interval);
    StrideIsProduct(batchSize, interval);
    if k > 0 && from + interval <= endTimestamp {
      BatchRunsIff(from + batchSize * interval, endTimestamp, batchSize, interval, k - 1);
      assert (k - 1) * (batchSize * interval) + batchSize * interval == k * (batchSize * interval);
    }
  }

  /**
   * Every timestamp the batches request lies at most `batchSize - 2` intervals
   * past `endTimestamp`: the last batch may run up to `batchSize - 1` steps
   * beyond the last step whose day ends by `endTimestamp`.
   */
  lemma {:induction false} RequestedWithinReach(from: int, endTimestamp: int, batchSize: nat, interval: int, i: nat)
    requires batchSize >= 1 && interval > 0
    requires i < batchSize * BatchCount(from, endTimestamp, batchSize, interval)
    ensures from + i * interval <= endTimestamp + (batchSize - 2) * interval
    decreases endTimestamp - from
  {
    var b := BatchCount(from, endTimestamp, batchSize, interval);
    assert b > 0;
    MulMonotone(1, batchSize, interval);
    StrideIsProduct(batchSize, interval);
    if i < batchSize {
      MulMonotone(i, batchSize - 1, interval);
    } else {
      assert i - batchSize < batchSize * (b - 1);
      RequestedWithinReach(from + batchSize * interval, endTimestamp, batchSize, interval, i - batchSize);
      assert (i - batchSize) * interval + batchSize * interval == i * interval;
    }
  }

  /** No gap: every step whose day ends by `endTimestamp` is among the requested timestamps. */
  lemma {:induction false} CoveredUpToEnd(from: int, endTimestamp: int, batchSize: nat, interval: int, i: nat)
    requires batchSize >= 1 && interval > 0
    requires from + i * interval + interval <= endTimestamp
    ensures i < batchSize * BatchCount(from, endTimestamp, batchSize, interval)
    decreases endTimestamp - from
  {
    MulMonotone(0, i, interval);
    MulMonotone(1, batchSize, interval);
    StrideIsProduct(batchSize, interval);
    var b := BatchCount(from, endTimestamp, batchSize, interval);
    if i < batchSize {
      MulMonotone(1, b, batchSize);
    } else {
      assert (i - batchSize) * interval + batchSize * interval == i * interval;
      CoveredUpToEnd(from + batchSize * interval, endTimestamp, batchSize, interval, i - batchSize);
      assert batchSize * b == batchSize + batchSize * (b - 1);
    }
  }
}
