// lidar_conversion.hpp: sorts a batch stably by absolute point time and rebases the offsets.
module LidarConversion {
  import opened Words
  import opened LidarTypes

  /** An SDK return; the scaled coordinates stay opaque words. */
  datatype SdkPoint = SdkPoint(
    x: uint32, y: uint32, z: uint32, reflectivity: uint8, tag: uint8, ring: uint16,
    line: uint8, lineValid: bool, returnId: uint8, confidence: uint8)

  datatype SdkBatch = SdkBatch(
    batchId: uint32, timestampRaw: uint64, timestampUtcUs: uint64, timestampSynced: bool, points: seq<SdkPoint>)

  function Converted(p: SdkPoint, offset: uint32): LidarPoint {
    LidarPoint(p.x, p.y, p.z, p.reflectivity, p.tag, offset, p.ring, p.line,
               if p.lineValid then 1 else 0, p.returnId, p.confidence)
  }

  /** An entry of the `order` vector: a point's absolute time and its index. */
  datatype Keyed = Keyed(time: uint64, index: nat)

  function Keys(times: seq<uint64>): (r: seq<Keyed>)
    ensures |r| == |times| && forall i :: 0 <= i < |r| ==> r[i] == Keyed(times[i], i)
  {
    seq(|times|, i requires 0 <= i < |times| => Keyed(times[i], i))
  }

  // ---- std::stable_sort by absolute time ----

  /** Puts x before everything that is not smaller: x came first, so ties keep their order. */
  function Insert(x: Keyed, sorted: seq<Keyed>): seq<Keyed> {
    if sorted == [] then [x]
    else if sorted[0].time < x.time then [sorted[0]] + Insert(x, sorted[1..])
    else [x] + sorted
  }

  function StableSort(order: seq<Keyed>): seq<Keyed> {
    if order == [] then [] else Insert(order[0], StableSort(order[1..]))
  }

  predicate Before(a: Keyed, b: Keyed) {
    a.time < b.time || (a.time == b.time && a.index < b.index)
  }

  /** Every point once, by time, equal times in their original order. */
  ghost predicate IsStableOrder(times: seq<uint64>, order: seq<Keyed>) {
    && |order| == |times|
    && (forall k :: 0 <= k < |order| ==> order[k].index < |times| && order[k].time == times[order[k].index])
    && (forall i :: 0 <= i < |times| ==> Keyed(times[i], i) in order)
    && Ascending(order)
  }

  predicate Ascending(order: seq<Keyed>) {
    forall j, k :: 0 <= j < k < |order| ==> Before(order[j], order[k])
  }

  lemma {:induction false} InsertAscending(x: Keyed, s: seq<Keyed>)
    requires Ascending(s)
    requires forall y :: y in s ==> x.index < y.index
    ensures Ascending(Insert(x, s)) && |Insert(x, s)| == |s| + 1
    ensures forall y :: y in Insert(x, s) <==> y == x || y in s
  {
    if s != [] && s[0].time < x.time {
      InsertAscending(x, s[1..]);
      var tail := Insert(x, s[1..]);
      assert forall y :: y in s <==> y == s[0] || y in s[1..];
      forall y | y in tail ensures Before(s[0], y) {
        if y != x {
          var k :| 0 <= k < |s[1..]| && s[1..][k] == y;
          assert y == s[k + 1];
        }
      }
    } else if s != [] {
      forall y | y in s ensures Before(x, y) {
        var k :| 0 <= k < |s| && s[k] == y;
        assert k > 0 ==> Before(s[0], s[k]);
      }
    }
  }

  lemma {:induction false} SortAscending(s: seq<Keyed>)
    requires forall j, k :: 0 <= j < k < |s| ==> s[j].index < s[k].index
    ensures Ascending(StableSort(s)) && |StableSort(s)| == |s|
    ensures forall y :: y in StableSort(s) <==> y in s
  {
    if s != [] {
      SortAscending(s[1..]);
      InsertAscending(s[0], StableSort(s[1..]));
    }
  }

  lemma SortIsStable(times: seq<uint64>)
    ensures IsStableOrder(times, StableSort(Keys(times)))
  {
    SortAscending(Keys(times));
    var order := StableSort(Keys(times));
    forall k | 0 <= k < |order| ensures order[k].index < |times| && order[k].time == times[order[k].index] {
      assert order[k] in order;
    }
  }

  lemma NotBehind(order: seq<Keyed>, k: nat, j: nat)
    requires Ascending(order) && k <= j < |order|
    ensures !Before(order[j], order[k])
  {
  }

  /** The entry of b equal to a[k] cannot stand among the first k, which b shares with a. */
  lemma Locate(times: seq<uint64>, a: seq<Keyed>, b: seq<Keyed>, k: nat) returns (j: nat)
    requires IsStableOrder(times, a) && IsStableOrder(times, b) && k < |times|
    requires forall i :: 0 <= i < k ==> a[i] == b[i]
    ensures k <= j < |b| && b[j] == a[k]
  {
    assert Keyed(times[a[k].index], a[k].index) in b;
    j :| 0 <= j < |b| && b[j] == a[k];
  }

  lemma AgreeAt(times: seq<uint64>, a: seq<Keyed>, b: seq<Keyed>, k: nat)
    requires IsStableOrder(times, a) && IsStableOrder(times, b) && k < |times|
    requires forall i :: 0 <= i < k ==> a[i] == b[i]
    ensures a[k] == b[k]
  {
    var j := Locate(times, a, b, k);
    var i := Locate(times, b, a, k);
    NotBehind(b, k, j);
    NotBehind(a, k, i);
  }

  /** There is only one stable order, whichever algorithm finds it. */
  lemma {:induction false} StableOrderUnique(times: seq<uint64>, a: seq<Keyed>, b: seq<Keyed>, n: nat)
    requires IsStableOrder(times, a) && IsStableOrder(times, b) && n <= |times|
    ensures forall i :: 0 <= i < n ==> a[i] == b[i]
  {
    if n > 0 {
      StableOrderUnique(times, a, b, n - 1);
      AgreeAt(times, a, b, n - 1);
    }
  }

  // ---- the conversion ----

  /** The batch spans at most 2^32 - 1 ns. */
  ghost predicate Narrow(times: seq<uint64>) {
    forall i, j :: 0 <= i < |times| && 0 <= j < |times| ==> times[i] - times[j] <= U32_MAX
  }

  function First(order: seq<Keyed>, base: uint64): uint64 {
    if order == [] then base else order[0].time
  }

  lemma FirstIsLeast(order: seq<Keyed>, k: nat)
    requires Ascending(order) && k < |order|
    ensures order[0].time <= order[k].time
  {
  }

  lemma WideSpan(times: seq<uint64>, order: seq<Keyed>)
    requires IsStableOrder(times, order)
    ensures Narrow(times) <==> forall k :: 0 <= k < |order| ==> order[k].time - order[0].time <= U32_MAX
  {
    if Narrow(times) {
      forall k | 0 <= k < |order| ensures order[k].time - order[0].time <= U32_MAX {
        assert times[order[k].index] - times[order[0].index] <= U32_MAX;
      }
    }
    if forall k :: 0 <= k < |order| ==> order[k].time - order[0].time <= U32_MAX {
      forall i, j | 0 <= i < |times| && 0 <= j < |times| ensures times[i] - times[j] <= U32_MAX {
        var k :| 0 <= k < |order| && order[k] == Keyed(times[i], i);
        var l :| 0 <= l < |order| && order[l] == Keyed(times[j], j);
        FirstIsLeast(order, l);
      }
    }
  }

  method CollectKeys(times: seq<uint64>) returns (order: seq<Keyed>)
    ensures order == Keys(times)
  {
    order := [];
    for i := 0 to |times|
      invariant order == Keys(times)[..i]
    {
      order := order + [Keyed(times[i], i)];
    }
  }

  /** Rebases the offsets on the first entry; throws at the first one beyond 32 bits. */
  method Rebase(batch: SdkBatch, order: seq<Keyed>, base: uint64) returns (r: Result<LidarBatch>)
    requires Ascending(order) && forall k :: 0 <= k < |order| ==> order[k].index < |batch.points|
    ensures r.Ok? <==> forall k :: 0 <= k < |order| ==> order[k].time - order[0].time <= U32_MAX
    ensures r.Ok? ==>
      && r.value == LidarBatch(batch.batchId, First(order, base), batch.timestampRaw, 0, true, r.value.points)
      && |r.value.points| == |order|
      && forall k :: 0 <= k < |order| ==>
           && order[k].time - order[0].time <= U32_MAX
           && r.value.points[k] == Converted(batch.points[order[k].index], order[k].time - order[0].time)
  {
    var timestamp := base;
    if order != [] {
      timestamp := order[0].time;
    }
    var points: seq<LidarPoint> := [];
    for k := 0 to |order|
      invariant |points| == k
      invariant forall i :: 0 <= i < k ==>
        && order[i].time - order[0].time <= U32_MAX
        && points[i] == Converted(batch.points[order[i].index], order[i].time - order[0].time)
    {
      FirstIsLeast(order, k);
      var offset: nat := order[k].time - timestamp;
      if offset > U32_MAX {
        return Thrown;
      }
      points := points + [Converted(batch.points[order[k].index], offset)];
    }
    r := Ok(LidarBatch(batch.batchId, timestamp, batch.timestampRaw, 0, true, points));
  }

  /**
   * convertLidarBatch; times[i] is lidarPointTimestampNs of point i.
   * Rejects exactly the batches wider than 32 bits; otherwise the points come out in the stable
   * order, each with its own measurement and its own absolute time.
   */
  method ConvertLidarBatch(batch: SdkBatch, times: seq<uint64>, base: uint64) returns (r: Result<LidarBatch>)
    requires |times| == |batch.points|
    ensures r.Ok? <==> Narrow(times)
    ensures r.Ok? ==> IsConversion(batch, times, base, r.value)
  {
    var order := CollectKeys(times);
    order := StableSort(order);
    SortIsStable(times);
    WideSpan(times, order);
    r := Rebase(batch, order, base);
  }

  /** The rebased batch: explicit times, the stable order's points, the least time as timestamp. */
  ghost predicate IsConversion(batch: SdkBatch, times: seq<uint64>, base: uint64, out: LidarBatch)
    requires |times| == |batch.points|
  {
    var order := StableSort(Keys(times));
    SortIsStable(times);
    && out.explicitTimes && out.batchId == batch.batchId && out.raw == batch.timestampRaw && out.interval == 0
    && out.timestamp == First(order, base)
    && |out.points| == |order|
    && forall k :: 0 <= k < |order| ==>
         && out.timestamp + out.points[k].offset == order[k].time
         && Payload(out.points[k]) == Converted(batch.points[order[k].index], 0)
  }

  /** Offsets of a conversion start at 0 and never decrease. */
  lemma OffsetsAscend(batch: SdkBatch, times: seq<uint64>, base: uint64, out: LidarBatch)
    requires |times| == |batch.points| && IsConversion(batch, times, base, out)
    ensures out.points != [] ==> out.points[0].offset == 0
    ensures forall j, k :: 0 <= j < k < |out.points| ==> out.points[j].offset <= out.points[k].offset
  {
    SortIsStable(times);
    var order := StableSort(Keys(times));
    forall j, k | 0 <= j < k < |out.points| ensures out.points[j].offset <= out.points[k].offset {
      assert Before(order[j], order[k]);
    }
  }
}
