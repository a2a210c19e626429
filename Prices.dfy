/**
 * What `getData` computes for one requested timestamp: the block timestamp is
 * bucketed to the granularity of the historical price index, the index is asked
 * for the packages of the three oracle nodes at that bucket, and each decoded
 * package is projected to the numeric arguments of its first data point.
 *
 * The block search, the index query, the payload fetch and the decoder are
 * external; they enter as function parameters.
 */
module Prices {
  import opened Wrappers

  /** The index keys its packages by timestamps that are multiples of ten seconds. */
  const BUCKET_SECONDS: int := 10

  /** The oracle nodes whose packages are requested, in the order they are passed to the index. */
  const ORACLE_NODES: seq<string> := [
    "0x83cbA8c619fb629b81A65C2e67fE15cf3E3C9747",
    "0x2c59617248994D12816EE1Fa77CE0a64eEB456BF",
    "0x12470f7aBA85c8b81D63137DD5925D6EE114952b"
  ]

  /** A data point of a decoded package; `A` stands for its numeric arguments (feed id, value, decimals). */
  datatype DataPoint<A> = DataPoint(numericDataPointArgs: A)

  datatype DataPackage<A> = DataPackage(dataPoints: seq<DataPoint<A>>)

  /** A decoded package as the decoder returns it; the signature is not looked at. */
  datatype SignedDataPackage<A> = SignedDataPackage(dataPackage: DataPackage<A>)

  /**
   * The timestamp the index is queried with: the block timestamp divided by ten,
   * its fraction dropped by `parseInt` (so truncated toward zero), times ten.
   */
  function Bucket(blockTimestamp: int): (r: int)
    ensures r % BUCKET_SECONDS == 0
    ensures 0 <= blockTimestamp ==> r <= blockTimestamp < r + BUCKET_SECONDS
    ensures blockTimestamp < 0 ==> r - BUCKET_SECONDS < blockTimestamp <= r
  {
    if blockTimestamp >= 0 then
      (blockTimestamp / BUCKET_SECONDS) * BUCKET_SECONDS
    else
      -(((-blockTimestamp) / BUCKET_SECONDS) * BUCKET_SECONDS)
  }

  /** Bucketing a bucketed timestamp changes nothing. */
  lemma BucketIdempotent(blockTimestamp: int)
    ensures Bucket(Bucket(blockTimestamp)) == Bucket(blockTimestamp)
  {
  }

  /** For a non-negative block timestamp the bucket is the greatest multiple of ten not above it. */
  lemma BucketIsFloor(blockTimestamp: int, m: int)
    requires 0 <= blockTimestamp
    requires m % BUCKET_SECONDS == 0 && m <= blockTimestamp
    ensures m <= Bucket(blockTimestamp)
  {
    var r := Bucket(blockTimestamp);
    var q, p := m / BUCKET_SECONDS, r / BUCKET_SECONDS;
    assert m == q * BUCKET_SECONDS && r == p * BUCKET_SECONDS;
    assert q * BUCKET_SECONDS < (p + 1) * BUCKET_SECONDS;
  }

  /** The block at 1701950437 is looked up in the index at 1701950430. */
  lemma BucketExample()
    ensures Bucket(1701950437) == 1701950430
  {
  }

  /**
   * `packages.map(data => data.dataPackage.dataPoints).map(point => point[0].numericDataPointArgs)`:
   * one entry per package, in package order. A package without data points makes
   * `point[0]` undefined and the property access throw, so the whole result fails.
   */
  function Project<A>(packages: seq<SignedDataPackage<A>>): (r: Option<seq<A>>)
    ensures r.Some? <==> forall i :: 0 <= i < |packages| ==> |packages[i].dataPackage.dataPoints| > 0
    ensures r.Some? ==> |r.value| == |packages|
    ensures r.Some? ==> forall i :: 0 <= i < |packages| ==>
      r.value[i] == packages[i].dataPackage.dataPoints[0].numericDataPointArgs
  {
    if packages == [] then Some([])
    else
      var points := packages[0].dataPackage.dataPoints;
      if |points| == 0 then None
      else
        match Project(packages[1..])
        case None => None
        case Some(rest) => Some([points[0].numericDataPointArgs] + rest)
  }

  /** The projection works package by package: projecting a concatenation concatenates the projections. */
  lemma ProjectAppend<A>(front: seq<SignedDataPackage<A>>, back: seq<SignedDataPackage<A>>)
    ensures Project(front + back).Some? <==> Project(front).Some? && Project(back).Some?
    ensures Project(front + back).Some? ==>
      Project(front + back).value == Project(front).value + Project(back).value
  {
    var all := front + back;
    if Project(all).Some? {
      forall i | 0 <= i < |front| ensures |front[i].dataPackage.dataPoints| > 0 {
        assert all[i] == front[i];
      }
      forall i | 0 <= i < |back| ensures |back[i].dataPackage.dataPoints| > 0 {
        assert all[|front| + i] == back[i];
      }
      var whole, f, b := Project(all).value, Project(front).value, Project(back).value;
      assert |whole| == |f + b|;
      forall i | 0 <= i < |whole| ensures whole[i] == (f + b)[i] {
        if i < |front| {
          assert all[i] == front[i];
        } else {
          assert all[i] == back[i - |front|];
        }
      }
    } else if Project(front).Some? && Project(back).Some? {
      forall i | 0 <= i < |all| ensures |all[i].dataPackage.dataPoints| > 0 {
        if i < |front| {
          assert all[i] == front[i];
        } else {
          assert all[i] == back[i - |front|];
        }
      }
      assert false;
    }
  }

  /**
   * `getData(timestamp)`: the block found for `timestamp` (`blockTimestampAt`,
   * external), its bucket, the decoded packages the index returns for the
   * oracle nodes at that bucket (`fetchPackages`, external, one per feed in
   * feed order), and their projection. Any failure rejects the whole call.
   */
  function GetData<A>(
    blockTimestampAt: int -> Option<int>,
    fetchPackages: (int, seq<string>) -> Option<seq<SignedDataPackage<A>>>,
    timestamp: int
  ): (r: Option<seq<A>>)
    ensures r.Some? <==>
      && blockTimestampAt(timestamp).Some?
      && fetchPackages(Bucket(blockTimestampAt(timestamp).value), ORACLE_NODES).Some?
      && var packages := fetchPackages(Bucket(blockTimestampAt(timestamp).value), ORACLE_NODES).value;
         forall i :: 0 <= i < |packages| ==> |packages[i].dataPackage.dataPoints| > 0
    ensures r.Some? ==>
      var packages := fetchPackages(Bucket(blockTimestampAt(timestamp).value), ORACLE_NODES);
      && packages.Some?
      && |r.value| == |packages.value|
      && forall i :: 0 <= i < |packages.value| ==>
           && |packages.value[i].dataPackage.dataPoints| > 0
           && r.value[i] == packages.value[i].dataPackage.dataPoints[0].numericDataPointArgs
  {
    match blockTimestampAt(timestamp)
    case None => None
    case Some(blockTimestamp) =>
      match fetchPackages(Bucket(blockTimestamp), ORACLE_NODES)
      case None => None
      case Some(packages) => Project(packages)
  }

  /** The index is queried by bucket only: two blocks in the same ten-second bucket yield the same prices. */
  lemma GetDataDependsOnBucketOnly<A>(
    blockTimestampAt: int -> Option<int>,
    fetchPackages: (int, seq<string>) -> Option<seq<SignedDataPackage<A>>>,
    t1: int, t2: int
  )
    requires blockTimestampAt(t1).Some? && blockTimestampAt(t2).Some?
    requires Bucket(blockTimestampAt(t1).value) == Bucket(blockTimestampAt(t2).value)
    ensures GetData(blockTimestampAt, fetchPackages, t1) == GetData(blockTimestampAt, fetchPackages, t2)
  {
  }
}
