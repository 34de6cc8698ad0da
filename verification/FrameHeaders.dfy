// Which batch a frame belongs to, when a point throws, and when points happened.
module FrameHeaders {
  import opened Words
  import opened LidarTypes
  import opened PointOffset
  import opened FrameAccumulator
  import opened FrameLedger

  /** A point that joins the pending frame changes nothing but its points. */
  lemma JoiningKeepsTheHeader(acc: Acc, a: Arrival)
    requires Valid(acc) && acc.active && Feed(acc, a).ok && Feed(acc, a).closed == []
    ensures Feed(acc, a).acc.(frame := acc.frame) == acc
    ensures Feed(acc, a).acc.frame.(points := acc.frame.points) == acc.frame
    ensures |Feed(acc, a).acc.frame.points| == |acc.frame.points| + 1
  {
    FeedShape(acc, a);
  }

  /** The frame has the header of the batch whose point opened it, and that point's time. */
  predicate OpenedBy(frame: LidarBatch, a: Arrival) {
    frame.batchId == a.batchId && frame.raw == a.raw && frame.timestamp == a.time && !frame.explicitTimes
  }

  function PointsIn(log: seq<Closed>): nat {
    if log == [] then 0 else PointsIn(log[..|log| - 1]) + |log[|log| - 1].frame.points|
  }

  lemma PointsSnoc(log: seq<Closed>, c: Closed)
    ensures PointsIn(log + [c]) == PointsIn(log) + |c.frame.points|
  {
    assert (log + [c])[..|log|] == log;
  }

  /** Each closed frame was opened by the point of the stream at which its points begin. */
  predicate HeadsKept(log: seq<Closed>, s: seq<Arrival>) {
    log == [] ||
    (var before, last := log[..|log| - 1], log[|log| - 1];
     && HeadsKept(before, s)
     && PointsIn(before) < |s| && OpenedBy(last.frame, s[PointsIn(before)])
     && (last.Discarded? ==> last.frame.interval == 0))
  }

  lemma {:induction false} HeadsKeptLonger(log: seq<Closed>, s: seq<Arrival>, a: Arrival)
    requires HeadsKept(log, s)
    ensures HeadsKept(log, s + [a])
  {
    if log != [] {
      HeadsKeptLonger(log[..|log| - 1], s, a);
    }
  }

  /** And so was the pending one, which has no interval yet. */
  predicate Headed(run: Step, s: seq<Arrival>) {
    && HeadsKept(run.closed, s)
    && PointsIn(run.closed) + |run.acc.frame.points| == |s|
    && (run.acc.active ==>
          PointsIn(run.closed) < |s| && OpenedBy(run.acc.frame, s[PointsIn(run.closed)]) && run.acc.frame.interval == 0)
  }

  /**
   * Over every stream from a reset: each frame, closed or pending, carries the batch id, the raw timestamp
   * and the time of the very point at which its points begin.
   */
  lemma {:induction false} HeadersOfOpeners(s: seq<Arrival>)
    requires Run(IDLE, s).ok
    ensures Headed(Run(IDLE, s), s)
  {
    if s != [] {
      var n := |s| - 1;
      var run, a, fed := LastStep(IDLE, s);
      assert s == s[..n] + [a];
      HeadersOfOpeners(s[..n]);
      HeadersStep(run, a, Feed(run.acc, a), s[..n]);
    }
  }

  lemma HeadersStep(run: Step, a: Arrival, fed: Step, past: seq<Arrival>)
    requires Valid(run.acc) && Headed(run, past) && fed == Feed(run.acc, a) && fed.ok
    ensures Headed(Step(fed.acc, run.closed + fed.closed, true), past + [a])
  {
    HeadsKeptLonger(run.closed, past, a);
    FeedShape(run.acc, a);
    if run.acc.active && fed.closed == [] {
      JoiningKeepsTheHeader(run.acc, a);
      assert run.closed + fed.closed == run.closed;
    } else {
      OpeningHeads(run, a, fed, past);
    }
  }

  /** What a point that opens a frame leaves of the one before. */
  lemma OpeningCloses(acc: Acc, a: Arrival, fed: Step)
    requires Valid(acc) && fed == Feed(acc, a) && fed.ok && (!acc.active || fed.closed != [])
    ensures OpenedBy(fed.acc.frame, a) && fed.acc.frame.interval == 0 && |fed.acc.frame.points| == 1 && fed.acc.active
    ensures !acc.active ==> fed.closed == []
    ensures acc.active ==>
              && |fed.closed| == 1
              && fed.closed[0].frame.(interval := 0) == acc.frame.(interval := 0)
              && (fed.closed[0].Discarded? ==> fed.closed[0].frame == acc.frame)
  {
    FeedShape(acc, a);
  }

  lemma OpeningHeads(run: Step, a: Arrival, fed: Step, past: seq<Arrival>)
    requires Valid(run.acc) && Headed(run, past) && fed == Feed(run.acc, a) && fed.ok
    requires !run.acc.active || fed.closed != []
    requires HeadsKept(run.closed, past + [a])
    ensures Headed(Step(fed.acc, run.closed + fed.closed, true), past + [a])
  {
    OpeningCloses(run.acc, a, fed);
    if run.acc.active {
      var c := fed.closed[0];
      assert fed.closed == [c];
      assert (run.closed + [c])[..|run.closed|] == run.closed;
      PointsSnoc(run.closed, c);
    } else {
      assert run.closed + fed.closed == run.closed;
    }
  }

  // ---- throws ----

  /** The window that a point falls in: its own start if it opens a new grid. */
  function WindowFor(acc: Acc, a: Arrival): nat
    requires a.time <= U64_MAX
  {
    if !acc.active || a.time < acc.windowStart then a.time else WindowOf(acc.windowStart, a.time)
  }

  /**
   * A point throws exactly if its time does not fit 64 bits, or a window it has to open does not end
   * within them. A time that does not fit changes nothing; otherwise the pending points are gone, and the
   * window has begun but not ended (its end is what it was, or has wrapped around).
   */
  lemma ThrowsExactly(acc: Acc, a: Arrival)
    requires Valid(acc)
    ensures var fed := Feed(acc, a);
            var stays := acc.active && acc.windowStart <= a.time < acc.windowEnd;
            && (fed.ok <==> a.time <= U64_MAX && (stays || WindowFor(acc, a) + FRAME_PERIOD <= U64_MAX))
            && (a.time > U64_MAX ==> fed.acc == acc && fed.closed == [])
            && (!fed.ok && a.time <= U64_MAX ==>
                  && fed.acc.active && fed.acc.windowStart == WindowFor(acc, a) && fed.acc.frame.points == []
                  && fed.acc.windowEnd == if !acc.active then acc.windowEnd
                                          else if a.time < acc.windowStart then 0
                                          else Wrap64(WindowFor(acc, a) + FRAME_PERIOD))
  {
  }

  // ---- when the points of a batch happened ----

  /** A batch with explicit point times is taken at its word; every arrival keeps its point and header. */
  lemma ExplicitArrivals(b: LidarBatch, i: nat)
    requires i < |b.points|
    ensures var a := Arrivals(b)[i];
            && a.point == b.points[i] && a.batchId == b.batchId && a.raw == b.raw
            && (b.explicitTimes ==> a.time == b.timestamp + b.points[i].offset)
  {
  }

  /**
   * Otherwise its points are spread evenly over its interval: the first at its timestamp, the last exactly
   * at the end, neighbours the floor or the ceiling of the mean distance apart (while the sums fit 64 bits).
   */
  lemma ImplicitArrivals(b: LidarBatch, i: nat)
    requires !b.explicitTimes && 2 <= |b.points| <= MAX_POINTS && i + 1 < |b.points|
    requires Numerator(|b.points| - 1, |b.points|, b.interval) <= U64_MAX
    ensures var all, n := Arrivals(b), |b.points| - 1;
            && all[0].time == b.timestamp && all[n].time == b.timestamp + b.interval * 100
            && EvenStep(all[i + 1].time - all[i].time, b.interval * 100, n)
  {
    var n := |b.points| - 1;
    Endpoints(|b.points|, b.interval);
    EvenSteps(i, |b.points|, b.interval);
    NumeratorsFit(i, |b.points|, b.interval);
    NumeratorsFit(i + 1, |b.points|, b.interval);
  }

  lemma NumeratorsFit(i: nat, count: nat, interval: uint32)
    requires 2 <= count && i < count && Numerator(count - 1, count, interval) <= U64_MAX
    ensures 0 <= Numerator(i, count, interval) <= U64_MAX
    ensures Numerator(i, count, interval) / WORD == 0
  {
    NumeratorPositive(i, count, interval);
    MulMonotone(i, count - 1, interval * 100);
  }

  /** A batch of one point, or without an interval, happened at its timestamp. */
  lemma InstantArrivals(b: LidarBatch, i: nat)
    requires i < |b.points| && !b.explicitTimes && (|b.points| == 1 || b.interval == 0)
    ensures Arrivals(b)[i].time == b.timestamp
  {
  }
}
