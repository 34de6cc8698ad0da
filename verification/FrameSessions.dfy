// Whole sessions of the accumulator: batches come in, and stream starts and stops reset it.
module FrameSessions {
  import opened LidarTypes
  import opened FrameAccumulator
  import opened FrameLedger

  /** append, or the reset that goes with a LiDAR start or stop. */
  datatype Deed = Batch(batch: LidarBatch) | Restart

  /** An external reset discards whatever is pending. */
  function ResetStep(acc: Acc): Step {
    Step(IDLE, if acc.frame.points == [] then [] else [Discarded(acc.frame)], true)
  }

  function StepOf(acc: Acc, deed: Deed): Step {
    match deed
    case Batch(batch) => Run(acc, Arrivals(batch))
    case Restart => ResetStep(acc)
  }

  function Session(acc: Acc, deeds: seq<Deed>): Step {
    if deeds == [] then Step(acc, [], true)
    else
      var before := Session(acc, deeds[..|deeds| - 1]);
      Then(before, StepOf(before.acc, deeds[|deeds| - 1]))
  }

  function PointsOf(deed: Deed): seq<Arrival> {
    if deed.Batch? then Arrivals(deed.batch) else []
  }

  /** Every point of the session, as it came. */
  function Inputs(deeds: seq<Deed>): seq<Arrival> {
    if deeds == [] then [] else Inputs(deeds[..|deeds| - 1]) + PointsOf(deeds[|deeds| - 1])
  }

  /** What the accumulator makes of the points' times. */
  function SessionRecorded(acc: Acc, deeds: seq<Deed>): seq<Sighting> {
    if deeds == [] then []
    else SessionRecorded(acc, deeds[..|deeds| - 1])
         + Recorded(Session(acc, deeds[..|deeds| - 1]).acc, PointsOf(deeds[|deeds| - 1]))
  }

  /** No point of the session is early when it comes in. */
  predicate SessionOrderly(acc: Acc, deeds: seq<Deed>) {
    deeds == [] ||
    (var before, last := deeds[..|deeds| - 1], deeds[|deeds| - 1];
     SessionOrderly(acc, before) && Orderly(Session(acc, before).acc, PointsOf(last)))
  }

  /** The frames that the append calls of the session return; ok is false if one of them throws. */
  function Returned(acc: Acc, deeds: seq<Deed>): Calls {
    if deeds == [] then Calls(acc, [], true)
    else
      var before := Returned(acc, deeds[..|deeds| - 1]);
      if !before.ok then before
      else
        match deeds[|deeds| - 1]
        case Restart => before.(acc := IDLE)
        case Batch(batch) =>
          var run := Run(before.acc, Arrivals(batch));
          Calls(run.acc, before.frames + (if run.ok then PublishedOf(run.closed) else []), run.ok)
  }

  lemma ResetPublishesNothing(acc: Acc)
    ensures PublishedOf(ResetStep(acc).closed) == []
    ensures Book(ResetStep(acc).closed) == FrameSightings(acc.frame)
  {
    var gone := [Discarded(acc.frame)];
    assert gone[..0] == [];
    assert Book(gone) == [] + FrameSightings(acc.frame) == FrameSightings(acc.frame);
  }

  lemma {:induction false} ReturnedIsPublished(acc: Acc, deeds: seq<Deed>)
    ensures var calls, run := Returned(acc, deeds), Session(acc, deeds);
            && calls.ok == run.ok && calls.acc == run.acc
            && (calls.ok ==> calls.frames == PublishedOf(run.closed))
  {
    if deeds != [] {
      var before, last := deeds[..|deeds| - 1], deeds[|deeds| - 1];
      ReturnedIsPublished(acc, before);
      var run := Session(acc, before);
      PublishedConcat(run.closed, StepOf(run.acc, last).closed);
      ResetPublishesNothing(run.acc);
    }
  }

  lemma StepValid(acc: Acc, deed: Deed)
    requires Valid(acc) && StepOf(acc, deed).ok
    ensures Valid(StepOf(acc, deed).acc)
  {
    if deed.Batch? {
      RunValid(acc, Arrivals(deed.batch));
    }
  }

  /** One deed adds to the books exactly what is recorded of its points. */
  lemma StepBooks(acc: Acc, deed: Deed)
    requires Valid(acc) && StepOf(acc, deed).ok
    ensures Books(StepOf(acc, deed)) == FrameSightings(acc.frame) + Recorded(acc, PointsOf(deed))
  {
    match deed
    case Batch(batch) => Conservation(acc, Arrivals(batch));
    case Restart =>
      ResetPublishesNothing(acc);
      assert FrameSightings(IDLE.frame) == [] && Recorded(acc, []) == [];
  }

  lemma BooksThen(run: Step, next: Step)
    requires run.ok
    ensures Books(Then(run, next)) == Book(run.closed) + Books(next)
  {
    BookConcat(run.closed, next.closed);
  }

  /** Conservation over any session: published, discarded and pending frames hold every point once, in order. */
  lemma {:induction false} SessionConservation(acc: Acc, deeds: seq<Deed>)
    requires Valid(acc) && Session(acc, deeds).ok
    ensures Valid(Session(acc, deeds).acc)
    ensures Books(Session(acc, deeds)) == FrameSightings(acc.frame) + SessionRecorded(acc, deeds)
  {
    if deeds == [] {
      assert Book([]) + FrameSightings(acc.frame) == FrameSightings(acc.frame) + [];
    } else {
      var before, last := deeds[..|deeds| - 1], deeds[|deeds| - 1];
      var run := Session(acc, before);
      SessionConservation(acc, before);
      StepValid(run.acc, last);
      StepBooks(run.acc, last);
      BooksThen(run, StepOf(run.acc, last));
      Regroup(Book(run.closed), FrameSightings(run.acc.frame), Recorded(run.acc, PointsOf(last)),
              FrameSightings(acc.frame), SessionRecorded(acc, before));
    }
  }

  lemma Regroup<T>(booked: seq<T>, pending: seq<T>, more: seq<T>, base: seq<T>, past: seq<T>)
    requires booked + pending == base + past
    ensures booked + (pending + more) == base + (past + more)
  {
    assert booked + (pending + more) == (booked + pending) + more;
  }

  lemma SightingsConcat(s: seq<Arrival>, t: seq<Arrival>)
    ensures Sightings(s + t) == Sightings(s) + Sightings(t)
  {
  }

  lemma {:induction false} SessionRecordedExactly(acc: Acc, deeds: seq<Deed>)
    ensures |SessionRecorded(acc, deeds)| == |Inputs(deeds)|
    ensures SessionRecorded(acc, deeds) == Sightings(Inputs(deeds)) <==> SessionOrderly(acc, deeds)
  {
    if deeds != [] {
      var before, points := deeds[..|deeds| - 1], PointsOf(deeds[|deeds| - 1]);
      var now := Session(acc, before).acc;
      SessionRecordedExactly(acc, before);
      RecordedExactly(now, points);
      SightingsConcat(Inputs(before), points);
      SplitEqual(SessionRecorded(acc, before), Recorded(now, points), Sightings(Inputs(before)), Sightings(points));
    }
  }

  lemma SplitEqual<T>(a: seq<T>, b: seq<T>, c: seq<T>, d: seq<T>)
    requires |a| == |c|
    ensures a + b == c + d <==> a == c && b == d
  {
    if a + b == c + d {
      assert (a + b)[..|a|] == a && (c + d)[..|a|] == c;
      assert (a + b)[|a|..] == b && (c + d)[|a|..] == d;
    }
  }

  /** Every point of a session keeps its absolute time exactly when no point was early. */
  lemma SessionTimes(acc: Acc, deeds: seq<Deed>)
    requires Valid(acc) && Session(acc, deeds).ok
    ensures Books(Session(acc, deeds)) == FrameSightings(acc.frame) + Sightings(Inputs(deeds))
            <==> SessionOrderly(acc, deeds)
  {
    SessionConservation(acc, deeds);
    SessionRecordedExactly(acc, deeds);
    SplitEqual(FrameSightings(acc.frame), SessionRecorded(acc, deeds),
               FrameSightings(acc.frame), Sightings(Inputs(deeds)));
  }

  lemma StepOffsets(acc: Acc, deed: Deed)
    requires Valid(acc) && StepOf(acc, deed).ok
    ensures AllInPeriod(StepOf(acc, deed).closed) && OffsetsInPeriod(StepOf(acc, deed).acc.frame)
            <==> OffsetsInPeriod(acc.frame) && Orderly(acc, PointsOf(deed))
  {
    match deed
    case Batch(batch) => OffsetsBelowPeriod(acc, Arrivals(batch));
    case Restart =>
      if acc.frame.points != [] {
        assert ResetStep(acc).closed[0].frame == acc.frame;
      }
  }

  /** Every offset of every frame of a session stays below 100 ms exactly when no point was early. */
  lemma {:induction false} SessionOffsets(acc: Acc, deeds: seq<Deed>)
    requires Valid(acc) && Session(acc, deeds).ok
    ensures AllInPeriod(Session(acc, deeds).closed) && OffsetsInPeriod(Session(acc, deeds).acc.frame)
            <==> OffsetsInPeriod(acc.frame) && SessionOrderly(acc, deeds)
  {
    if deeds != [] {
      var before, last := deeds[..|deeds| - 1], deeds[|deeds| - 1];
      var run := Session(acc, before);
      SessionOffsets(acc, before);
      SessionConservation(acc, before);
      StepOffsets(run.acc, last);
      PeriodsConcat(run.closed, StepOf(run.acc, last).closed);
    }
  }

  // ---- the measurements, whatever became of the times ----

  function Payloads(s: seq<Sighting>): (r: seq<LidarPoint>)
    ensures |r| == |s| && forall i :: 0 <= i < |r| ==> r[i] == s[i].payload
  {
    seq(|s|, i requires 0 <= i < |s| => s[i].payload)
  }

  lemma PayloadsConcat(s: seq<Sighting>, t: seq<Sighting>)
    ensures Payloads(s + t) == Payloads(s) + Payloads(t)
  {
  }

  lemma {:induction false} RecordedPayloads(acc: Acc, s: seq<Arrival>)
    ensures Payloads(Recorded(acc, s)) == Payloads(Sightings(s))
  {
    if s != [] {
      var before, a := s[..|s| - 1], s[|s| - 1];
      RecordedPayloads(acc, before);
      PayloadsConcat(Recorded(acc, before), [Noted(Run(acc, before).acc, a)]);
      assert Sightings(s) == Sightings(before) + [Sight(a)];
      PayloadsConcat(Sightings(before), [Sight(a)]);
    }
  }

  lemma {:induction false} SessionRecordedPayloads(acc: Acc, deeds: seq<Deed>)
    ensures Payloads(SessionRecorded(acc, deeds)) == Payloads(Sightings(Inputs(deeds)))
  {
    if deeds != [] {
      var before, points := deeds[..|deeds| - 1], PointsOf(deeds[|deeds| - 1]);
      var now := Session(acc, before).acc;
      SessionRecordedPayloads(acc, before);
      RecordedPayloads(now, points);
      PayloadsConcat(SessionRecorded(acc, before), Recorded(now, points));
      SightingsConcat(Inputs(before), points);
      PayloadsConcat(Sightings(Inputs(before)), Sightings(points));
    }
  }

  /** Early points or not: every measurement of the session comes out once, in order. */
  lemma SessionKeepsPayloads(acc: Acc, deeds: seq<Deed>)
    requires Valid(acc) && Session(acc, deeds).ok
    ensures Payloads(Books(Session(acc, deeds)))
         == Payloads(FrameSightings(acc.frame)) + Payloads(Sightings(Inputs(deeds)))
  {
    SessionConservation(acc, deeds);
    SessionRecordedPayloads(acc, deeds);
    PayloadsConcat(FrameSightings(acc.frame), SessionRecorded(acc, deeds));
  }

  lemma {:induction false} FreshSession(deeds: seq<Deed>, points: seq<Sighting>)
    requires Session(IDLE, deeds).ok && points == Sightings(Inputs(deeds))
    ensures Payloads(Books(Session(IDLE, deeds))) == Payloads(points)
    ensures Books(Session(IDLE, deeds)) == points <==> SessionOrderly(IDLE, deeds)
  {
    assert FrameSightings(IDLE.frame) == [] && [] + points == points;
    assert Payloads([]) + Payloads(points) == Payloads(points);
    SessionTimes(IDLE, deeds);
    SessionKeepsPayloads(IDLE, deeds);
  }

  // ---- the frames ----

  lemma StepWellFormed(acc: Acc, deed: Deed)
    requires Valid(acc) && StepOf(acc, deed).ok
    ensures forall i :: 0 <= i < |StepOf(acc, deed).closed| ==> WellFormed(StepOf(acc, deed).closed[i])
  {
    if deed.Batch? {
      FramesWellFormed(acc, Arrivals(deed.batch));
    }
  }

  /** Over any session no frame is empty, each starts at offset 0, and published ones state their span. */
  lemma {:induction false} SessionFramesWellFormed(acc: Acc, deeds: seq<Deed>)
    requires Valid(acc) && Session(acc, deeds).ok
    ensures forall i :: 0 <= i < |Session(acc, deeds).closed| ==> WellFormed(Session(acc, deeds).closed[i])
  {
    if deeds != [] {
      var before, last := deeds[..|deeds| - 1], deeds[|deeds| - 1];
      SessionFramesWellFormed(acc, before);
      SessionConservation(acc, before);
      StepWellFormed(Session(acc, before).acc, last);
    }
  }
}
