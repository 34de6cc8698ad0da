// What the frame accumulator keeps over every stream of points: conservation, order,
// the recovered times, and independence from how the stream was cut into batches.
module FrameLedger {
  import opened Words
  import opened LidarTypes
  import opened FrameAccumulator

  /** Between two points, as long as nothing was thrown. */
  predicate Valid(acc: Acc) {
    if acc.active then
      && acc.windowEnd == acc.windowStart + FRAME_PERIOD
      && acc.windowStart <= acc.frame.timestamp < acc.windowEnd
      && acc.frame.points != []
      && acc.frame.points[0].offset == 0
    else
      acc.frame.points == []
  }

  /** The point lies in the open window but before the frame's first point. */
  predicate Early(acc: Acc, a: Arrival) {
    acc.active && acc.windowStart <= a.time < acc.frame.timestamp
  }

  /** No point of the stream is early when it comes in. */
  predicate Orderly(acc: Acc, s: seq<Arrival>) {
    s == [] || (var before := s[..|s| - 1];
                Orderly(acc, before) && !Early(Run(acc, before).acc, s[|s| - 1]))
  }

  function Sight(a: Arrival): Sighting {
    Sighting(a.time, Payload(a.point))
  }

  function Sightings(s: seq<Arrival>): (r: seq<Sighting>)
    ensures |r| == |s| && forall i :: 0 <= i < |s| ==> r[i] == Sight(s[i])
  {
    seq(|s|, i requires 0 <= i < |s| => Sight(s[i]))
  }

  function FrameSightings(frame: LidarBatch): seq<Sighting> {
    Decode(frame.timestamp, frame.points)
  }

  /** All points of the closed frames, in closing order, as a consumer reads them. */
  function Book(log: seq<Closed>): seq<Sighting> {
    if log == [] then []
    else Book(log[..|log| - 1]) + FrameSightings(log[|log| - 1].frame)
  }

  lemma {:induction false} BookConcat(a: seq<Closed>, b: seq<Closed>)
    ensures Book(a + b) == Book(a) + Book(b)
  {
    if b == [] {
      assert a + b == a;
    } else {
      assert (a + b)[..|a + b| - 1] == a + b[..|b| - 1];
      BookConcat(a, b[..|b| - 1]);
    }
  }

  /** What the accumulator makes of a point's time: an early one comes out 2^32 ns late. */
  function Noted(acc: Acc, a: Arrival): Sighting {
    Sighting(a.time + (if Early(acc, a) then 0x1_0000_0000 else 0), Payload(a.point))
  }

  function Recorded(acc: Acc, s: seq<Arrival>): (r: seq<Sighting>)
    ensures |r| == |s|
  {
    if s == [] then []
    else
      var before, a := s[..|s| - 1], s[|s| - 1];
      Recorded(acc, before) + [Noted(Run(acc, before).acc, a)]
  }

  // ---- one step ----

  /** The point joins the pending frame. */
  predicate Joins(acc: Acc, a: Arrival, fed: Step)
    requires a.time <= U64_MAX
  {
    && acc.active
    && acc.windowStart <= a.time < acc.windowEnd
    && fed.closed == []
    && fed.acc == Place(acc, a)
  }

  /** The point opens a frame with its batch's header; the pending one, if any, is closed, its points untouched. */
  predicate Opens(acc: Acc, a: Arrival, fed: Step) {
    && !Early(acc, a)
    && fed.acc.frame.timestamp == a.time
    && fed.acc.frame.points == [Payload(a.point)]
    && fed.acc.frame.batchId == a.batchId && fed.acc.frame.raw == a.raw
    && |fed.closed| == (if acc.active then 1 else 0)
    && (acc.active ==>
          var c := fed.closed[0];
          && Strip(c.frame).(interval := 0) == Strip(acc.frame).(interval := 0)
          && c.frame.batchId == acc.frame.batchId && c.frame.raw == acc.frame.raw
          && WellFormed(c))
  }

  /** Never empty, starts at offset 0, and states the ceiling of its span in 100 ns units. */
  predicate WellFormed(c: Closed) {
    && c.frame.points != []
    && c.frame.points[0].offset == 0
    && (c.Published? ==>
          var span := c.frame.points[|c.frame.points| - 1].offset;
          c.frame.interval * 100 - 100 < span <= c.frame.interval * 100)
  }

  lemma FeedThrows(acc: Acc, a: Arrival)
    requires Valid(acc)
    requires a.time <= U64_MAX - FRAME_PERIOD
    ensures Feed(acc, a).ok
  {
  }

  lemma FeedShape(acc: Acc, a: Arrival)
    requires Valid(acc) && Feed(acc, a).ok
    ensures a.time <= U64_MAX && Valid(Feed(acc, a).acc) && Feed(acc, a).acc.active
    ensures Joins(acc, a, Feed(acc, a)) || Opens(acc, a, Feed(acc, a))
  {
    if !acc.active || a.time < acc.windowStart {
      assert Opens(acc, a, Feed(acc, a));
    } else if a.time < acc.windowEnd {
      assert Joins(acc, a, Feed(acc, a));
    } else {
      assert Opens(acc, a, Feed(acc, a));
    }
  }

  /** The word arithmetic of Place: exact forwards, 2^32 too much backwards. */
  lemma PlacedTime(time: uint64, first: uint64)
    requires -(FRAME_PERIOD as int) < time - first < FRAME_PERIOD
    ensures first + Wrap32(Wrap64(time - first)) == if time < first then time + 0x1_0000_0000 else time
  {
  }

  lemma DecodeSnoc(timestamp: nat, points: seq<LidarPoint>, p: LidarPoint)
    ensures Decode(timestamp, points + [p]) == Decode(timestamp, points) + [Sighted(timestamp, p)]
  {
  }

  /** One point in, one point more on the books, at the end; nothing else moves. */
  lemma FeedBook(acc: Acc, a: Arrival, fed: Step)
    requires Valid(acc) && a.time <= U64_MAX
    requires Joins(acc, a, fed) || Opens(acc, a, fed)
    ensures Book(fed.closed) + FrameSightings(fed.acc.frame)
         == FrameSightings(acc.frame) + [Noted(acc, a)]
  {
    if Joins(acc, a, fed) {
      PlacedTime(a.time, acc.frame.timestamp);
      var placed := a.point.(offset := Wrap32(Wrap64(a.time - acc.frame.timestamp)));
      DecodeSnoc(acc.frame.timestamp, acc.frame.points, placed);
      assert Book(fed.closed) == [];
    } else {
      assert Decode(a.time, [Payload(a.point)]) == [Sighting(a.time, Payload(a.point))];
      if acc.active {
        assert fed.closed == [fed.closed[0]];
        assert Book(fed.closed) == Book([]) + FrameSightings(acc.frame);
      }
    }
  }

  // ---- whole streams ----

  lemma {:induction false} RunValid(acc: Acc, s: seq<Arrival>)
    requires Valid(acc) && Run(acc, s).ok
    ensures Valid(Run(acc, s).acc)
  {
    if s != [] {
      RunValid(acc, s[..|s| - 1]);
      FeedShape(Run(acc, s[..|s| - 1]).acc, s[|s| - 1]);
    }
  }

  /** Streams that stay a frame below the end of the 64-bit clock never throw. */
  lemma {:induction false} RunCompletes(acc: Acc, s: seq<Arrival>)
    requires Valid(acc)
    requires forall a :: a in s ==> a.time <= U64_MAX - FRAME_PERIOD
    ensures Run(acc, s).ok
  {
    if s != [] {
      RunCompletes(acc, s[..|s| - 1]);
      RunValid(acc, s[..|s| - 1]);
      FeedThrows(Run(acc, s[..|s| - 1]).acc, s[|s| - 1]);
    }
  }

  /** The last step of a completed run. */
  lemma LastStep(acc: Acc, s: seq<Arrival>) returns (run: Step, a: Arrival, fed: Step)
    requires Valid(acc) && s != [] && Run(acc, s).ok
    ensures run == Run(acc, s[..|s| - 1]) && run.ok && Valid(run.acc)
    ensures a == s[|s| - 1] && a.time <= U64_MAX
    ensures Joins(run.acc, a, fed) || Opens(run.acc, a, fed)
    ensures Run(acc, s) == Step(fed.acc, run.closed + fed.closed, true)
  {
    RunValid(acc, s[..|s| - 1]);
    run, a := Run(acc, s[..|s| - 1]), s[|s| - 1];
    fed := Feed(run.acc, a);
    FeedShape(run.acc, a);
  }

  lemma AddUp<T>(booked: seq<T>, closing: seq<T>, pending: seq<T>, was: seq<T>, base: seq<T>, past: seq<T>, one: T)
    requires booked + was == base + past
    requires closing + pending == was + [one]
    ensures (booked + closing) + pending == base + (past + [one])
  {
    assert (booked + closing) + pending == booked + (closing + pending);
    assert booked + (was + [one]) == (booked + was) + [one];
  }

  lemma RecordedSnoc(acc: Acc, s: seq<Arrival>, run: Step, a: Arrival)
    requires s != [] && run == Run(acc, s[..|s| - 1]) && a == s[|s| - 1]
    ensures Recorded(acc, s)
         == Recorded(acc, s[..|s| - 1]) + [Noted(run.acc, a)]
  {
  }

  /** The books of a run: everything closed, then what is pending. */
  function Books(run: Step): seq<Sighting> {
    Book(run.closed) + FrameSightings(run.acc.frame)
  }

  lemma BooksSnoc(run: Step, a: Arrival, fed: Step, base: seq<Sighting>, past: seq<Sighting>)
    requires Valid(run.acc) && a.time <= U64_MAX
    requires Joins(run.acc, a, fed) || Opens(run.acc, a, fed)
    requires Books(run) == base + past
    ensures Books(Step(fed.acc, run.closed + fed.closed, true))
         == base + (past + [Noted(run.acc, a)])
  {
    FeedBook(run.acc, a, fed);
    BookConcat(run.closed, fed.closed);
    AddUp(Book(run.closed), Book(fed.closed), FrameSightings(fed.acc.frame), FrameSightings(run.acc.frame),
          base, past, Noted(run.acc, a));
  }

  /** Conservation: closed frames then the pending one hold every point exactly once, in order. */
  lemma {:induction false} Conservation(acc: Acc, s: seq<Arrival>)
    requires Valid(acc) && Run(acc, s).ok
    ensures Books(Run(acc, s)) == FrameSightings(acc.frame) + Recorded(acc, s)
  {
    if s != [] {
      var run, a, fed := LastStep(acc, s);
      Conservation(acc, s[..|s| - 1]);
      BooksSnoc(run, a, fed, FrameSightings(acc.frame), Recorded(acc, s[..|s| - 1]));
      RecordedSnoc(acc, s, run, a);
    }
  }

  lemma {:induction false} RecordedExactly(acc: Acc, s: seq<Arrival>)
    ensures Recorded(acc, s) == Sightings(s) <==> Orderly(acc, s)
  {
    if s != [] {
      var before, a := s[..|s| - 1], s[|s| - 1];
      RecordedExactly(acc, before);
      assert Sightings(s) == Sightings(before) + [Sight(a)];
      assert Recorded(acc, s)[..|before|] == Recorded(acc, before);
      assert Sightings(s)[..|before|] == Sightings(before);
      assert Recorded(acc, s)[|before|] == Noted(Run(acc, before).acc, a);
      assert Sightings(s)[|before|] == Sight(a);
    }
  }

  /** Every point keeps its absolute time exactly when no point was early. */
  lemma TimesPreserved(acc: Acc, s: seq<Arrival>)
    requires Valid(acc) && Run(acc, s).ok
    ensures Books(Run(acc, s)) == FrameSightings(acc.frame) + Sightings(s) <==> Orderly(acc, s)
  {
    Conservation(acc, s);
    RecordedExactly(acc, s);
    var kept := FrameSightings(acc.frame);
    assert (kept + Recorded(acc, s))[|kept|..] == Recorded(acc, s);
    assert (kept + Sightings(s))[|kept|..] == Sightings(s);
  }

  // ---- the shape of the frames ----

  predicate OffsetsInPeriod(frame: LidarBatch) {
    forall i :: 0 <= i < |frame.points| ==> frame.points[i].offset < FRAME_PERIOD
  }

  predicate AllInPeriod(log: seq<Closed>) {
    forall i :: 0 <= i < |log| ==> OffsetsInPeriod(log[i].frame)
  }

  lemma {:induction false} FramesWellFormed(acc: Acc, s: seq<Arrival>)
    requires Valid(acc) && Run(acc, s).ok
    ensures forall i :: 0 <= i < |Run(acc, s).closed| ==> WellFormed(Run(acc, s).closed[i])
  {
    if s != [] {
      var run, a, fed := LastStep(acc, s);
      FramesWellFormed(acc, s[..|s| - 1]);
      ClosedWellFormed(run.acc, a, fed);
    }
  }

  lemma ClosedWellFormed(acc: Acc, a: Arrival, fed: Step)
    requires a.time <= U64_MAX && (Joins(acc, a, fed) || Opens(acc, a, fed))
    ensures forall i :: 0 <= i < |fed.closed| ==> WellFormed(fed.closed[i])
  {
  }

  lemma FeedOffsets(acc: Acc, a: Arrival, fed: Step)
    requires Valid(acc) && a.time <= U64_MAX
    requires Joins(acc, a, fed) || Opens(acc, a, fed)
    ensures (AllInPeriod(fed.closed) && OffsetsInPeriod(fed.acc.frame))
            <==> (OffsetsInPeriod(acc.frame) && !Early(acc, a))
  {
    var points := fed.acc.frame.points;
    if Joins(acc, a, fed) {
      PlacedTime(a.time, fed.acc.frame.timestamp);
      assert points[|points| - 1].offset < FRAME_PERIOD <==> !Early(acc, a);
      assert points[..|points| - 1] == acc.frame.points;
      assert forall i :: 0 <= i < |acc.frame.points| ==> acc.frame.points[i] == points[i];
    } else if acc.active {
      assert fed.closed == [fed.closed[0]];
      assert fed.closed[0].frame.points == acc.frame.points;
      assert OffsetsInPeriod(fed.closed[0].frame) <==> OffsetsInPeriod(acc.frame);
    }
  }

  /** Every offset of every frame stays below 100 ms exactly when no point was early. */
  lemma {:induction false} OffsetsBelowPeriod(acc: Acc, s: seq<Arrival>)
    requires Valid(acc) && Run(acc, s).ok
    ensures AllInPeriod(Run(acc, s).closed) && OffsetsInPeriod(Run(acc, s).acc.frame)
            <==> OffsetsInPeriod(acc.frame) && Orderly(acc, s)
  {
    if s != [] {
      var run, a, fed := LastStep(acc, s);
      OffsetsBelowPeriod(acc, s[..|s| - 1]);
      FeedOffsets(run.acc, a, fed);
      PeriodsConcat(run.closed, fed.closed);
    }
  }

  lemma PeriodsConcat(a: seq<Closed>, b: seq<Closed>)
    ensures AllInPeriod(a + b) <==> AllInPeriod(a) && AllInPeriod(b)
  {
    var all := a + b;
    assert all[..|a|] == a && all[|a|..] == b;
  }

  /** Two points, the second in the next window but not at its start. */
  lemma {:induction false} TwoPoints(a: Arrival, b: Arrival)
    requires a.time == 100 && b.time == 100_000_150
    ensures var run := Run(IDLE, [a, b]);
            && run.ok && Valid(run.acc) && run.acc.active
            && run.acc.windowStart == 100_000_100 && run.acc.frame.timestamp == 100_000_150
  {
    assert [a, b][..1] == [a] && [a][..0] == [];
    FeedThrows(IDLE, a);
    FeedShape(IDLE, a);
    var one := Feed(IDLE, a).acc;
    assert Run(IDLE, [a]) == Then(Step(IDLE, [], true), Feed(IDLE, a));
    assert one.windowStart == 100 && one.windowEnd == 100_000_100;
    FeedThrows(one, b);
    FeedShape(one, b);
    assert Feed(one, b).acc.windowStart == WindowOf(100, 100_000_150);
  }

  /** Two points on, a third behind them in the same window: its time comes out 2^32 ns late. */
  lemma {:induction false} EarlyPointCounterexample(p: LidarPoint)
    ensures ThirdComesOutAt([Arrival(100, p, 0, 0), Arrival(100_000_150, p, 0, 0), Arrival(100_000_120, p, 0, 0)],
                            100_000_120 + 0x1_0000_0000)
  {
    var a, b, c := Arrival(100, p, 0, 0), Arrival(100_000_150, p, 0, 0), Arrival(100_000_120, p, 0, 0);
    TwoPoints(a, b);
    ThirdPointEarly(Run(IDLE, [a, b]), [a, b], c);
    assert [a, b] + [c] == [a, b, c];
  }

  predicate ThirdComesOutAt(s: seq<Arrival>, time: nat) {
    var run := Run(IDLE, s);
    run.ok && !Orderly(IDLE, s) && |Books(run)| == |s| == 3 && Books(run)[2].time == time
  }

  lemma {:induction false} ThirdPointEarly(run: Step, before: seq<Arrival>, c: Arrival)
    requires run == Run(IDLE, before) && run.ok && Valid(run.acc) && |before| == 2
    requires Early(run.acc, c) && c.time <= U64_MAX - FRAME_PERIOD
    ensures ThirdComesOutAt(before + [c], c.time + 0x1_0000_0000)
  {
    var s := before + [c];
    assert s[..|s| - 1] == before;
    FeedThrows(run.acc, c);
    Conservation(IDLE, s);
    RecordedSnoc(IDLE, s, run, c);
    assert FrameSightings(IDLE.frame) == [];
  }

  // ---- restarts ----

  /** A point below the window discards the pending frame; from then on the accumulator is as new. */
  lemma {:induction false} RestartsAfterBackwardClock(acc: Acc, s: seq<Arrival>)
    requires acc.active && s != [] && s[0].time < acc.windowStart
    ensures Run(acc, s) == Then(Step(IDLE, [Discarded(acc.frame)], true), Run(IDLE, s))
  {
    var discard := Step(IDLE, [Discarded(acc.frame)], true);
    var before, a := s[..|s| - 1], s[|s| - 1];
    if |s| == 1 {
      assert before == [];
      assert Run(acc, s) == Then(Step(acc, [], true), Feed(acc, a));
      assert Run(IDLE, s) == Then(Step(IDLE, [], true), Feed(IDLE, a));
      assert [] + Feed(acc, a).closed == Feed(acc, a).closed == [Discarded(acc.frame)] + Feed(IDLE, a).closed;
      assert [] + Feed(IDLE, a).closed == Feed(IDLE, a).closed;
    } else {
      RestartsAfterBackwardClock(acc, before);
      ThenAssociative(discard, Run(IDLE, before), Feed(Run(IDLE, before).acc, a));
    }
  }

  // ---- batch boundaries do not matter ----

  /** A frame without the header fields copied from whichever batch opened it. */
  function Strip(frame: LidarBatch): LidarBatch {
    frame.(batchId := 0, raw := 0)
  }

  function StripAll(frames: seq<LidarBatch>): (r: seq<LidarBatch>)
    ensures |r| == |frames| && forall i :: 0 <= i < |r| ==> r[i] == Strip(frames[i])
  {
    seq(|frames|, i requires 0 <= i < |frames| => Strip(frames[i]))
  }

  function StripAcc(acc: Acc): Acc {
    acc.(frame := Strip(acc.frame))
  }

  function Bare(c: Closed): Closed {
    match c
    case Published(f) => Published(Strip(f))
    case Discarded(f) => Discarded(Strip(f))
  }

  predicate SameClosed(a: seq<Closed>, b: seq<Closed>) {
    |a| == |b| && forall i :: 0 <= i < |a| ==> Bare(a[i]) == Bare(b[i])
  }

  predicate SameTimeline(s: seq<Arrival>, t: seq<Arrival>) {
    |s| == |t| && forall i :: 0 <= i < |s| ==> Sight(s[i]) == Sight(t[i])
  }

  lemma PlaceStripped(acc: Acc, bcc: Acc, a: Arrival, b: Arrival)
    requires StripAcc(acc) == StripAcc(bcc) && Sight(a) == Sight(b) && a.time <= U64_MAX
    ensures StripAcc(Place(acc, a)) == StripAcc(Place(bcc, b))
  {
    assert acc.frame.points == bcc.frame.points && acc.frame.timestamp == bcc.frame.timestamp;
    var offset := Wrap32(Wrap64(a.time - acc.frame.timestamp));
    assert a.point.(offset := offset) == Payload(a.point).(offset := offset);
    assert b.point.(offset := offset) == Payload(b.point).(offset := offset);
  }

  lemma AdvanceStripped(acc: Acc, bcc: Acc, a: Arrival, b: Arrival)
    requires StripAcc(acc) == StripAcc(bcc) && Sight(a) == Sight(b)
    requires a.time <= U64_MAX && acc.windowStart <= a.time
    ensures var f, g := Advance(acc, a), Advance(bcc, b);
            f.ok == g.ok && StripAcc(f.acc) == StripAcc(g.acc) && SameClosed(f.closed, g.closed)
  {
    assert acc.frame.points == bcc.frame.points && acc.frame.timestamp == bcc.frame.timestamp;
  }

  lemma FeedStripped(acc: Acc, bcc: Acc, a: Arrival, b: Arrival)
    requires StripAcc(acc) == StripAcc(bcc) && Sight(a) == Sight(b)
    ensures var f, g := Feed(acc, a), Feed(bcc, b);
            f.ok == g.ok && StripAcc(f.acc) == StripAcc(g.acc) && SameClosed(f.closed, g.closed)
  {
    if a.time <= U64_MAX {
      var backward := acc.active && a.time < acc.windowStart;
      var kept, lept := if backward then IDLE else acc, if backward then IDLE else bcc;
      var begun := if kept.active then Step(kept, [], true) else Begin(kept, a.time, a.time, a.batchId, a.raw);
      var cegun := if lept.active then Step(lept, [], true) else Begin(lept, b.time, b.time, b.batchId, b.raw);
      assert begun.ok == cegun.ok && StripAcc(begun.acc) == StripAcc(cegun.acc);
      if begun.ok {
        if a.time < begun.acc.windowEnd {
          PlaceStripped(begun.acc, cegun.acc, a, b);
        } else {
          AdvanceStripped(begun.acc, cegun.acc, a, b);
          var moved, noved := Advance(begun.acc, a), Advance(cegun.acc, b);
          if moved.ok {
            PlaceStripped(moved.acc, noved.acc, a, b);
          }
        }
      }
    }
  }

  lemma {:induction false} RunStripped(acc: Acc, s: seq<Arrival>, t: seq<Arrival>)
    requires SameTimeline(s, t)
    ensures var f, g := Run(acc, s), Run(acc, t);
            f.ok == g.ok && StripAcc(f.acc) == StripAcc(g.acc) && SameClosed(f.closed, g.closed)
  {
    if s != [] {
      var n := |s| - 1;
      RunStripped(acc, s[..n], t[..n]);
      if Run(acc, s[..n]).ok {
        FeedStripped(Run(acc, s[..n]).acc, Run(acc, t[..n]).acc, s[n], t[n]);
      }
    }
  }

  lemma {:induction false} PublishedStripped(a: seq<Closed>, b: seq<Closed>)
    requires SameClosed(a, b)
    ensures StripAll(PublishedOf(a)) == StripAll(PublishedOf(b))
  {
    if a != [] {
      var n := |a| - 1;
      assert Bare(a[n]) == Bare(b[n]);
      PublishedStripped(a[..n], b[..n]);
      var p, q := PublishedOf(a[..n]), PublishedOf(b[..n]);
      assert |StripAll(p)| == |StripAll(q)|;
      if a[n].Published? {
        assert StripAll(p + [a[n].frame]) == StripAll(p) + [Strip(a[n].frame)];
        assert StripAll(q + [b[n].frame]) == StripAll(q) + [Strip(b[n].frame)];
      }
    }
  }

  /** A sequence of append calls: the accumulator after them and all the frames they returned. */
  datatype Calls = Calls(acc: Acc, frames: seq<LidarBatch>, ok: bool)

  function AppendAll(acc: Acc, batches: seq<LidarBatch>): Calls {
    if batches == [] then Calls(acc, [], true)
    else
      var before := AppendAll(acc, batches[..|batches| - 1]);
      if !before.ok then before
      else
        var run := Run(before.acc, Arrivals(batches[|batches| - 1]));
        Calls(run.acc, before.frames + (if run.ok then PublishedOf(run.closed) else []), run.ok)
  }

  function Flatten(batches: seq<LidarBatch>): seq<Arrival> {
    if batches == [] then []
    else Flatten(batches[..|batches| - 1]) + Arrivals(batches[|batches| - 1])
  }

  lemma {:induction false} CallsRunTheFlattenedStream(acc: Acc, batches: seq<LidarBatch>)
    ensures var calls, run := AppendAll(acc, batches), Run(acc, Flatten(batches));
            && calls.ok == run.ok && calls.acc == run.acc
            && (calls.ok ==> calls.frames == PublishedOf(run.closed))
  {
    if batches != [] {
      var before, last := batches[..|batches| - 1], Arrivals(batches[|batches| - 1]);
      CallsRunTheFlattenedStream(acc, before);
      RunConcat(acc, Flatten(before), last);
      var run := Run(acc, Flatten(before));
      PublishedConcat(run.closed, Run(run.acc, last).closed);
    }
  }

  /** Two ways of cutting one point stream into batches give the same frames, headers aside. */
  lemma ChunkingIndependence(acc: Acc, xs: seq<LidarBatch>, ys: seq<LidarBatch>)
    requires SameTimeline(Flatten(xs), Flatten(ys))
    ensures var a, b := AppendAll(acc, xs), AppendAll(acc, ys);
            && a.ok == b.ok && StripAcc(a.acc) == StripAcc(b.acc)
            && (a.ok ==> StripAll(a.frames) == StripAll(b.frames))
  {
    CallsRunTheFlattenedStream(acc, xs);
    CallsRunTheFlattenedStream(acc, ys);
    RunStripped(acc, Flatten(xs), Flatten(ys));
    PublishedStripped(Run(acc, Flatten(xs)).closed, Run(acc, Flatten(ys)).closed);
  }
}
