// lidar_frame_accumulator.cpp: cuts a stream of LiDAR batches into 100 ms frames.
module FrameAccumulator {
  import opened Words
  import opened LidarTypes
  import opened PointOffset

  const FRAME_PERIOD: uint64 := 100_000_000

  /** One point on its way in: its absolute time (before any overflow check) and its batch's header. */
  datatype Arrival = Arrival(time: nat, point: LidarPoint, batchId: uint32, raw: uint64)

  function SourceOffset(b: LidarBatch, i: nat): uint64
    requires i < |b.points|
  {
    if b.explicitTimes then b.points[i].offset else PointOffsetNs(i, |b.points|, b.interval)
  }

  function ArrivalAt(b: LidarBatch, i: nat): Arrival
    requires i < |b.points|
  {
    Arrival(b.timestamp + SourceOffset(b, i), b.points[i], b.batchId, b.raw)
  }

  function Arrivals(b: LidarBatch): (r: seq<Arrival>)
    ensures |r| == |b.points|
    ensures forall i :: 0 <= i < |r| ==> r[i] == ArrivalAt(b, i)
  {
    seq(|b.points|, i requires 0 <= i < |b.points| => ArrivalAt(b, i))
  }

  // ---- one point, as a function of the accumulator's fields ----

  /** The accumulator's fields as a value. */
  datatype Acc = Acc(active: bool, windowStart: uint64, windowEnd: uint64, frame: LidarBatch)

  const IDLE := Acc(false, 0, 0, NO_BATCH)

  /** What became of a frame that is no longer pending. */
  datatype Closed = Published(frame: LidarBatch) | Discarded(frame: LidarBatch)

  datatype Step = Step(acc: Acc, closed: seq<Closed>, ok: bool)

  /** beginFrame; not ok is the overflow exception, which leaves the frame alone. */
  function Begin(acc: Acc, start: uint64, first: uint64, batchId: uint32, raw: uint64): Step {
    var entered := acc.(active := true, windowStart := start);
    if start > U64_MAX - FRAME_PERIOD then Step(entered, [], false)
    else Step(entered.(windowEnd := start + FRAME_PERIOD,
                       frame := LidarBatch(batchId, first, raw, 0, false, [])), [], true)
  }

  /** finishFrame's result. */
  function Finish(frame: LidarBatch): LidarBatch {
    if frame.points == [] then frame
    else frame.(interval := Wrap32((frame.points[|frame.points| - 1].offset + 99) / 100))
  }

  function Place(acc: Acc, a: Arrival): Acc
    requires a.time <= U64_MAX
  {
    var placed := a.point.(offset := Wrap32(Wrap64(a.time - acc.frame.timestamp)));
    acc.(frame := acc.frame.(points := acc.frame.points + [placed]))
  }

  /** The window of the grid anchored at windowStart that holds the time. */
  function WindowOf(windowStart: uint64, time: uint64): (r: uint64)
    requires windowStart <= time
    ensures windowStart <= r <= time < r + FRAME_PERIOD
  {
    windowStart + (time - windowStart) / FRAME_PERIOD * FRAME_PERIOD
  }

  /** The point lies behind the open window: that frame is closed, and the window holding the point opens. */
  function Advance(acc: Acc, a: Arrival): Step
    requires a.time <= U64_MAX && acc.windowStart <= a.time
  {
    var finished := Finish(acc.frame);
    var closed := if acc.frame.points == [] then [] else [Published(finished)];
    var start := WindowOf(acc.windowStart, a.time);
    var emptied := if acc.frame.points == [] then acc else acc.(frame := finished.(points := []));
    var begun := Begin(emptied.(windowStart := start, windowEnd := Wrap64(start + FRAME_PERIOD)),
                       start, a.time, a.batchId, a.raw);
    Step(begun.acc, closed, begun.ok)
  }

  /** One round of append's loop. */
  function Feed(acc: Acc, a: Arrival): Step {
    if a.time > U64_MAX then Step(acc, [], false)
    else
      var backward := acc.active && a.time < acc.windowStart;
      var gone := if backward then [Discarded(acc.frame)] else [];
      var kept := if backward then IDLE else acc;
      var begun := if kept.active then Step(kept, [], true) else Begin(kept, a.time, a.time, a.batchId, a.raw);
      if !begun.ok then Step(begun.acc, gone, false)
      else if a.time < begun.acc.windowEnd then Step(Place(begun.acc, a), gone, true)
      else
        var moved := Advance(begun.acc, a);
        if !moved.ok then Step(moved.acc, gone + moved.closed, false)
        else Step(Place(moved.acc, a), gone + moved.closed, true)
  }

  /** Whatever happens after a throw does not happen. */
  function Then(first: Step, second: Step): Step {
    if !first.ok then first else Step(second.acc, first.closed + second.closed, second.ok)
  }

  /** A whole stream of points. */
  function Run(acc: Acc, stream: seq<Arrival>): Step {
    if stream == [] then Step(acc, [], true)
    else
      var before := Run(acc, stream[..|stream| - 1]);
      Then(before, Feed(before.acc, stream[|stream| - 1]))
  }

  function PublishedOf(log: seq<Closed>): seq<LidarBatch> {
    if log == [] then []
    else
      var rest := PublishedOf(log[..|log| - 1]);
      match log[|log| - 1]
      case Published(frame) => rest + [frame]
      case Discarded(_) => rest
  }

  lemma {:induction false} PublishedConcat(a: seq<Closed>, b: seq<Closed>)
    ensures PublishedOf(a + b) == PublishedOf(a) + PublishedOf(b)
  {
    if b == [] {
      assert a + b == a;
    } else {
      assert (a + b)[..|a + b| - 1] == a + b[..|b| - 1];
      PublishedConcat(a, b[..|b| - 1]);
    }
  }

  lemma ThenAssociative(a: Step, b: Step, c: Step)
    ensures Then(Then(a, b), c) == Then(a, Then(b, c))
  {
    assert a.closed + b.closed + c.closed == a.closed + (b.closed + c.closed);
  }

  lemma {:induction false} RunConcat(acc: Acc, s: seq<Arrival>, t: seq<Arrival>)
    ensures Run(acc, s + t) == Then(Run(acc, s), Run(Run(acc, s).acc, t))
  {
    var first := Run(acc, s);
    if t == [] {
      assert s + t == s;
      assert first.closed + [] == first.closed;
    } else {
      var u, a := t[..|t| - 1], t[|t| - 1];
      assert (s + t)[..|s + t| - 1] == s + u;
      RunConcat(acc, s, u);
      var second := Run(first.acc, u);
      ThenAssociative(first, second, Feed(second.acc, a));
    }
  }

  lemma RunSnoc(acc: Acc, s: seq<Arrival>, n: nat)
    requires n < |s| && Run(acc, s[..n]).ok
    ensures var before := Run(acc, s[..n]);
            Run(acc, s[..n + 1]) == Then(before, Feed(before.acc, s[n]))
  {
    assert s[..n + 1][..n] == s[..n];
  }

  /** A failed prefix decides the run. */
  lemma {:induction false} RunStuck(acc: Acc, s: seq<Arrival>, n: nat)
    requires n <= |s| && !Run(acc, s[..n]).ok
    ensures Run(acc, s) == Run(acc, s[..n])
  {
    assert s == s[..n] + s[n..];
    RunConcat(acc, s[..n], s[n..]);
  }

  // ---- the class ----

  class LidarFrameAccumulator {
    var active: bool
    var windowStart: uint64
    var windowEnd: uint64
    var frame: LidarBatch

    ghost function State(): Acc
      reads this
    {
      Acc(active, windowStart, windowEnd, frame)
    }

    constructor ()
      ensures State() == IDLE
    {
      active, windowStart, windowEnd, frame := false, 0, 0, NO_BATCH;
    }

    method Reset()
      modifies this
      ensures State() == IDLE
    {
      active := false;
      windowStart := 0;
      windowEnd := 0;
      frame := NO_BATCH;
    }

    method PendingPointCount() returns (n: nat)
      ensures n == |State().frame.points|
    {
      n := |frame.points|;
    }

    method BeginFrame(start: uint64, first: uint64, source: LidarBatch) returns (ok: bool)
      modifies this
      ensures Begin(old(State()), start, first, source.batchId, source.raw) == Step(State(), [], ok)
    {
      active := true;
      windowStart := start;
      if windowStart > U64_MAX - FRAME_PERIOD {
        return false;
      }
      windowEnd := windowStart + FRAME_PERIOD;
      frame := LidarBatch(source.batchId, first, source.raw, 0, false, []);
      ok := true;
    }

    method FinishFrame() returns (finished: LidarBatch)
      modifies this
      ensures finished == Finish(old(frame))
      ensures State() == old(State()).(frame := finished.(points := []))
    {
      if frame.points != [] {
        var span: nat := frame.points[|frame.points| - 1].offset;
        frame := frame.(interval := Wrap32((span + 99) / 100));
      }
      finished := frame;
      frame := frame.(points := []);
    }

    /** Closes the frame and opens the window that holds the point. */
    method AdvanceWindow(time: uint64, batch: LidarBatch, ghost a: Arrival)
      returns (ok: bool, completed: seq<LidarBatch>)
      requires windowStart <= time && a.time == time && a.batchId == batch.batchId && a.raw == batch.raw
      modifies this
      ensures var moved := Advance(old(State()), a);
              && State() == moved.acc && ok == moved.ok && completed == PublishedOf(moved.closed)
    {
      completed := [];
      if frame.points != [] {
        var finished := FinishFrame();
        completed := [finished];
        assert [Published(finished)][..0] == [];
      }
      var elapsedPeriods := (time - windowStart) / FRAME_PERIOD;
      windowStart := windowStart + elapsedPeriods * FRAME_PERIOD;
      windowEnd := Wrap64(windowStart + FRAME_PERIOD);
      ok := BeginFrame(windowStart, time, batch);
    }

    /** One round of Append's loop; not ok is a throw. */
    method Ingest(batch: LidarBatch, index: nat, ghost fed: Step) returns (ok: bool, completed: seq<LidarBatch>)
      requires index < |batch.points|
      requires fed == Feed(State(), ArrivalAt(batch, index))
      modifies this
      ensures State() == fed.acc && ok == fed.ok
      ensures ok ==> completed == PublishedOf(fed.closed)
    {
      completed := [];
      var sourceOffset := if batch.explicitTimes then batch.points[index].offset
                          else PointOffsetNs(index, |batch.points|, batch.interval);
      if batch.timestamp > U64_MAX - sourceOffset {
        return false, completed;
      }
      var time: uint64 := batch.timestamp + sourceOffset;
      ghost var gone := if active && time < windowStart then [Discarded(frame)] else [];
      if active && time < windowStart {
        Reset();
      }
      if !active {
        ok := BeginFrame(time, time, batch);
        if !ok {
          return;
        }
      }
      if time >= windowEnd {
        ghost var moved := Advance(State(), ArrivalAt(batch, index));
        ok, completed := AdvanceWindow(time, batch, ArrivalAt(batch, index));
        if !ok {
          return;
        }
        PublishedConcat(gone, moved.closed);
      }
      assert PublishedOf(gone) == [];
      var point := batch.points[index].(offset := Wrap32(Wrap64(time - frame.timestamp)));
      frame := frame.(points := frame.points + [point]);
      ok := true;
    }

    /** Feeds every point of the batch; a throw loses the frames this call had completed. */
    method Append(batch: LidarBatch) returns (r: Result<seq<LidarBatch>>)
      modifies this
      ensures var run := Run(old(State()), Arrivals(batch));
              && State() == run.acc
              && r == if run.ok then Ok(PublishedOf(run.closed)) else Thrown
    {
      var completed: seq<LidarBatch> := [];
      if batch.points == [] {
        return Ok(completed);
      }
      ghost var start, stream := State(), Arrivals(batch);
      for index := 0 to |batch.points|
        invariant Run(start, stream[..index]).ok
        invariant State() == Run(start, stream[..index]).acc
        invariant completed == PublishedOf(Run(start, stream[..index]).closed)
      {
        ghost var before := Run(start, stream[..index]);
        ghost var fed := Feed(before.acc, stream[index]);
        RunSnoc(start, stream, index);
        PublishedConcat(before.closed, fed.closed);
        var ok, done := Ingest(batch, index, fed);
        if !ok {
          RunStuck(start, stream, index + 1);
          return Thrown;
        }
        completed := completed + done;
      }
      assert stream[..|batch.points|] == stream;
      r := Ok(completed);
    }
  }
}
