// What the sequence and timestamp checks count over whole histories of samples.
module SequenceHistories {
  import opened Words
  import opened SensorHealth
  import PointOffset

  predicate Width(bits: nat) {
    bits == 16 || bits == 32 || bits == 64
  }

  /** An unbounded source id as it is transmitted. */
  function Sent(id: int, bits: nat): uint64
    requires Width(bits)
  {
    id % Modulus(bits)
  }

  /** A sample with its true id, or something else that happens to the stream in between. */
  datatype Event = Sample(now: uint64, stamp: uint64, id: int, equalValid: bool) | Other(op: Op)

  function OpOf(e: Event, bits: nat): Op
    requires Width(bits)
  {
    match e
    case Sample(now, stamp, id, equalValid) => OpObserve(now, stamp, Some(Sent(id, bits)), bits, equalValid)
    case Other(op) => op
  }

  /** Leaves the baselines and the period alone and counts none of the first seven issues. */
  predicate Neutral(op: Op) {
    match op
    case OpReset(_, _, _) => false
    case OpSession(_) => false
    case OpObserve(_, _, _, _, _) => false
    case OpAdd(issue, _) => issue > TIMESTAMP_BACKWARD
    case OpCondition(issue, _) => issue > TIMESTAMP_BACKWARD
    case OpCounter(issue, _, _) => issue > TIMESTAMP_BACKWARD
    case _ => true
  }

  predicate Undisturbed(events: seq<Event>) {
    forall i :: 0 <= i < |events| && events[i].Other? ==> Neutral(events[i].op)
  }

  function Play(s: StreamHealth, events: seq<Event>, bits: nat): StreamHealth
    requires Width(bits)
  {
    if events == [] then s
    else Apply(Play(s, events[..|events| - 1], bits), OpOf(events[|events| - 1], bits))
  }

  function Ids(events: seq<Event>): seq<int> {
    if events == [] then []
    else Ids(events[..|events| - 1])
         + (if events[|events| - 1].Sample? then [events[|events| - 1].id] else [])
  }

  // ---- modular distance ----

  lemma ModUnique(a: int, m: int, q: int, r: int)
    requires 0 < m && a == q * m + r && 0 <= r < m
    ensures a % m == r
  {
    PointOffset.DivisionUnique(a, m, q);
  }

  lemma ModOfWrapped(x: int, bits: nat)
    requires Width(bits)
    ensures Wrap64(x) % Modulus(bits) == x % Modulus(bits)
  {
    var m := Modulus(bits);
    var k := if bits == 16 then 0x1_0000_0000_0000 else if bits == 32 then 0x1_0000_0000 else 1;
    var q := x / 0x1_0000_0000_0000_0000;
    assert Wrap64(x) == x - q * 0x1_0000_0000_0000_0000 == x - (q * k) * m;
    var p := x / m;
    assert x == p * m + x % m;
    assert (p - q * k) * m == p * m - (q * k) * m;
    ModUnique(Wrap64(x), m, p - q * k, x % m);
  }

  /** The distance of two transmitted ids is the true distance modulo 2^bits. */
  lemma DeltaOfSent(from: int, to: int, bits: nat)
    requires Width(bits)
    ensures Delta(Sent(from, bits), Sent(to, bits), bits) == (to - from) % Modulus(bits)
  {
    var m := Modulus(bits);
    var a, b := Sent(from, bits), Sent(to, bits);
    ModOfWrapped(b - a, bits);
    var p, q := from / m, to / m;
    assert from == p * m + a && to == q * m + b;
    var t := (b - a) / m;
    assert b - a == t * m + (b - a) % m;
    assert (q - p + t) * m == q * m - p * m + t * m;
    ModUnique(to - from, m, q - p + t, (b - a) % m);
  }

  predicate HalfRange(step: int, bits: nat) {
    -(Modulus(bits) / 2) <= step < Modulus(bits) / 2
  }

  lemma SmallMod(step: int, m: int)
    requires 0 < m && -m <= step < m
    ensures step % m == if step >= 0 then step else step + m
  {
    if step >= 0 {
      ModUnique(step, m, 0, step);
    } else {
      ModUnique(step, m, -1, step + m);
    }
  }

  // ---- what the ids say, step by step ----

  function Missing(ids: seq<int>): nat {
    if |ids| <= 1 then 0
    else
      var step := ids[|ids| - 1] - ids[|ids| - 2];
      Missing(ids[..|ids| - 1]) + (if step > 1 then step - 1 else 0)
  }

  function Repeats(ids: seq<int>): nat {
    if |ids| <= 1 then 0
    else Repeats(ids[..|ids| - 1]) + (if ids[|ids| - 1] == ids[|ids| - 2] then 1 else 0)
  }

  function Backsteps(ids: seq<int>): nat {
    if |ids| <= 1 then 0
    else Backsteps(ids[..|ids| - 1]) + (if ids[|ids| - 1] < ids[|ids| - 2] then 1 else 0)
  }

  predicate StepsInHalfRange(ids: seq<int>, bits: nat) {
    forall i :: 0 <= i < |ids| - 1 ==> HalfRange(ids[i + 1] - ids[i], bits)
  }

  /** The baseline is the last transmitted id, and the three counts are what the ids say. */
  predicate Tracks(start: StreamHealth, s: StreamHealth, ids: seq<int>, bits: nat)
    requires Width(bits)
  {
    && s.sequence == (if ids == [] then None else Some(Sent(ids[|ids| - 1], bits)))
    && s.total[SEQUENCE_MISSING] == start.total[SEQUENCE_MISSING] + Missing(ids)
    && s.total[SEQUENCE_DUPLICATE] == start.total[SEQUENCE_DUPLICATE] + Repeats(ids)
    && s.total[SEQUENCE_RESET] == start.total[SEQUENCE_RESET] + Backsteps(ids)
  }

  lemma NeutralStep(s: StreamHealth, op: Op)
    requires Neutral(op)
    ensures var next := Apply(s, op);
            next.sequence == s.sequence && next.stamp == s.stamp && next.period == s.period
    ensures forall i :: 0 <= i <= TIMESTAMP_BACKWARD ==> Apply(s, op).total[i] == s.total[i]
  {
  }

  /** The stamp checks do not touch the sequence counts, nor the sequence checks the stamp counts. */
  lemma ClassifyLocal(s: StreamHealth, sequence: uint64, bits: nat)
    ensures var next := Classify(s, sequence, bits);
            next.stamp == s.stamp && next.period == s.period
            && forall i :: TIMESTAMP_GAP <= i <= TIMESTAMP_BACKWARD ==> next.total[i] == s.total[i]
  {
  }

  lemma CheckStampLocal(s: StreamHealth, stamp: uint64, skip: bool, equalValid: bool)
    ensures var next := CheckStamp(s, stamp, skip, equalValid);
            next.sequence == s.sequence && next.period == s.period
            && forall i :: 0 <= i <= SEQUENCE_RESET ==> next.total[i] == s.total[i]
  {
  }

  /** The stamp counts depend on the stamp, the period and their own totals only. */
  lemma CheckStampSame(s: StreamHealth, t: StreamHealth, stamp: uint64, skip: bool, equalValid: bool)
    requires s.stamp == t.stamp && s.period == t.period
    requires forall i :: TIMESTAMP_GAP <= i <= TIMESTAMP_BACKWARD ==> s.total[i] == t.total[i]
    ensures var x, y := CheckStamp(s, stamp, skip, equalValid), CheckStamp(t, stamp, skip, equalValid);
            forall i :: TIMESTAMP_GAP <= i <= TIMESTAMP_BACKWARD ==> x.total[i] == y.total[i]
  {
  }

  lemma ObserveSequencePart(s: StreamHealth, e: Event, bits: nat)
    requires Width(bits) && e.Sample?
    ensures var next, sent := Apply(s, OpOf(e, bits)), Sent(e.id, bits);
            && next.sequence == Some(sent) && next.period == s.period
            && next.stamp == (if e.stamp != 0 then Some(e.stamp) else None)
            && forall i :: 0 <= i <= SEQUENCE_RESET ==> next.total[i] == Classify(Touch(s, e.now), sent, bits).total[i]
  {
    var sent, touched := Sent(e.id, bits), Touch(s, e.now);
    var classified := Classify(touched, sent, bits);
    ClassifyLocal(touched, sent, bits);
    CheckStampLocal(classified.(sequence := Some(sent)), e.stamp, IsReset(s, Some(sent), bits), e.equalValid);
  }

  lemma ObserveStampPart(s: StreamHealth, e: Event, bits: nat)
    requires Width(bits) && e.Sample?
    ensures var next, skip := Apply(s, OpOf(e, bits)), IsReset(s, Some(Sent(e.id, bits)), bits);
            forall i :: TIMESTAMP_GAP <= i <= TIMESTAMP_BACKWARD ==>
              next.total[i] == CheckStamp(s, e.stamp, skip, e.equalValid).total[i]
  {
    var sent, touched := Sent(e.id, bits), Touch(s, e.now);
    var classified := Classify(touched, sent, bits).(sequence := Some(sent));
    ClassifyLocal(touched, sent, bits);
    CheckStampSame(classified, s, e.stamp, IsReset(s, Some(sent), bits), e.equalValid);
  }

  lemma ClassifyStep(s: StreamHealth, from: int, to: int, bits: nat)
    requires Width(bits) && HalfRange(to - from, bits) && s.sequence == Some(Sent(from, bits))
    ensures var next, step := Classify(s, Sent(to, bits), bits), to - from;
            && next.total[SEQUENCE_MISSING] == s.total[SEQUENCE_MISSING] + (if step > 1 then step - 1 else 0)
            && next.total[SEQUENCE_DUPLICATE] == s.total[SEQUENCE_DUPLICATE] + (if step == 0 then 1 else 0)
            && next.total[SEQUENCE_RESET] == s.total[SEQUENCE_RESET] + (if step < 0 then 1 else 0)
            && (IsReset(s, Some(Sent(to, bits)), bits) <==> step < 0)
  {
    DeltaOfSent(from, to, bits);
    SmallMod(to - from, Modulus(bits));
  }

  lemma SampleTracks(start: StreamHealth, s: StreamHealth, past: seq<int>, e: Event, bits: nat)
    requires Width(bits) && e.Sample? && Tracks(start, s, past, bits)
    requires past != [] ==> HalfRange(e.id - past[|past| - 1], bits)
    ensures Tracks(start, Apply(s, OpOf(e, bits)), past + [e.id], bits)
  {
    ObserveSequencePart(s, e, bits);
    var ids := past + [e.id];
    assert ids[..|past|] == past;
    if past != [] {
      ClassifyStep(Touch(s, e.now), past[|past| - 1], e.id, bits);
    }
  }

  lemma HalfRangePrefix(past: seq<int>, id: int, bits: nat)
    requires StepsInHalfRange(past + [id], bits)
    ensures StepsInHalfRange(past, bits)
    ensures past != [] ==> HalfRange(id - past[|past| - 1], bits)
  {
    var ids := past + [id];
    assert forall i :: 0 <= i < |past| ==> past[i] == ids[i];
    if past != [] {
      assert ids[|past| - 1 + 1] == id;
    }
  }

  /**
   * For every history of samples whose true ids move by less than half the range (wrap-around
   * included), with anything neutral in between: forward jumps count as that many missing samples,
   * repetitions as duplicates, and steps back only as resets.
   */
  lemma {:induction false} CountsFollowTrueIds(s: StreamHealth, events: seq<Event>, bits: nat)
    requires Width(bits) && s.sequence.None? && Undisturbed(events)
    requires StepsInHalfRange(Ids(events), bits)
    ensures Tracks(s, Play(s, events, bits), Ids(events), bits)
  {
    if events != [] {
      var before, e := events[..|events| - 1], events[|events| - 1];
      var past, mid := Ids(before), Play(s, before, bits);
      if e.Other? {
        assert past + [] == past;
        CountsFollowTrueIds(s, before, bits);
        NeutralStep(mid, e.op);
      } else {
        HalfRangePrefix(past, e.id, bits);
        CountsFollowTrueIds(s, before, bits);
        SampleTracks(s, mid, past, e, bits);
      }
    }
  }

  lemma {:induction false} Telescope(ids: seq<int>)
    requires ids != [] && forall i :: 0 <= i < |ids| - 1 ==> ids[i] < ids[i + 1]
    ensures Missing(ids) == (ids[|ids| - 1] - ids[0]) - (|ids| - 1)
    ensures Repeats(ids) == 0 && Backsteps(ids) == 0
  {
    if |ids| > 1 {
      Telescope(ids[..|ids| - 1]);
    }
  }

  /** Increasing ids: exactly the samples that did not arrive are counted missing, and nothing else. */
  lemma MissingIsExact(s: StreamHealth, events: seq<Event>, bits: nat)
    requires Width(bits) && s.sequence.None? && Undisturbed(events)
    requires Ids(events) != [] && StepsInHalfRange(Ids(events), bits)
    requires Increasing(Ids(events))
    ensures var ids, end := Ids(events), Play(s, events, bits);
            && end.total[SEQUENCE_MISSING] - s.total[SEQUENCE_MISSING] as int
               == (ids[|ids| - 1] - ids[0]) - (|ids| - 1)
            && end.total[SEQUENCE_DUPLICATE] == s.total[SEQUENCE_DUPLICATE]
            && end.total[SEQUENCE_RESET] == s.total[SEQUENCE_RESET]
  {
    CountsFollowTrueIds(s, events, bits);
    Telescope(Ids(events));
  }

  // ---- the estimate from timestamps ----

  function Capped(n: nat): nat {
    if n < ESTIMATE_CAP then n else ESTIMATE_CAP
  }

  /** The missing samples, each gap capped. */
  function CappedMissing(ids: seq<int>): nat {
    if |ids| <= 1 then 0
    else
      var step := ids[|ids| - 1] - ids[|ids| - 2];
      CappedMissing(ids[..|ids| - 1]) + (if step > 1 then Capped(step - 1) else 0)
  }

  function Gaps(ids: seq<int>): nat {
    if |ids| <= 1 then 0
    else Gaps(ids[..|ids| - 1]) + (if ids[|ids| - 1] - ids[|ids| - 2] > 1 then 1 else 0)
  }

  /** The stamp is nonzero and less than a quarter period from the sample's place on the time grid. */
  predicate OnGrid(e: Event, origin: real, period: real) {
    e.Sample? && e.stamp != 0
    && -(period / 4.0) < e.stamp as real - (origin + e.id as real * period) < period / 4.0
  }

  predicate Timed(events: seq<Event>, origin: real, period: real) {
    forall i :: 0 <= i < |events| && events[i].Sample? ==> OnGrid(events[i], origin, period)
  }

  /** Two stamps on the grid differ by step periods, to less than half a period. */
  lemma GridGap(a: Event, b: Event, origin: real, period: real) returns (span: real)
    requires period > 0.0 && OnGrid(a, origin, period) && OnGrid(b, origin, period)
    ensures span == (b.id - a.id) as real * period
    ensures span - period / 2.0 < (b.stamp - a.stamp) as real < span + period / 2.0
  {
    span := (b.id - a.id) as real * period;
    Spread((b.id - a.id) as real, a.id as real, period);
    assert (b.id - a.id) as real + a.id as real == b.id as real;
    assert (b.stamp - a.stamp) as real == b.stamp as real - a.stamp as real;
  }

  /** A span of one period, or of at least two. */
  lemma SpanOf(step: int, period: real, span: real)
    requires period > 0.0 && step >= 1 && span == step as real * period
    ensures step == 1 ==> span == period
    ensures step > 1 ==> span >= period + period
  {
    if step > 1 {
      var rest := step as real - 2.0;
      Sign(rest, period);
      Spread(rest, 2.0, period);
      Spread(1.0, 1.0, period);
    }
  }

  lemma Spread(a: real, b: real, c: real)
    ensures (a + b) * c == a * c + b * c
  {
  }

  /** The stamps increase, and a gap is seen exactly when samples are missing. */
  lemma GapSeenExactly(gap: int, step: int, span: real, period: real)
    requires period > 0.0 && step >= 1
    requires span - period / 2.0 < gap as real < span + period / 2.0
    requires step == 1 ==> span == period
    requires step > 1 ==> span >= period + period
    ensures gap > 0
    ensures gap as real > 1.5 * period <==> step > 1
  {
  }

  /** And then it is rounded to the right number of periods. */
  lemma EstimateExact(gap: int, step: int, span: real, period: real)
    requires period > 0.0 && step > 1 && gap > 0 && gap as real > 1.5 * period
    requires span == step as real * period
    requires span - period / 2.0 < gap as real < span + period / 2.0
    ensures Estimate(gap, period) == Capped(step - 1)
  {
    Spread(step as real, 0.5, period);
    Spread(step as real, -0.5, period);
    Quotient(gap as real, period, step as real + 0.5);
    Quotient(gap as real, period, step as real - 0.5);
    assert Round(gap as real / period) == step;
  }

  predicate TracksTime(start: StreamHealth, s: StreamHealth, ids: seq<int>) {
    && s.total[ESTIMATED_MISSING] == start.total[ESTIMATED_MISSING] + CappedMissing(ids)
    && s.total[TIMESTAMP_GAP] == start.total[TIMESTAMP_GAP] + Gaps(ids)
    && s.total[TIMESTAMP_BACKWARD] == start.total[TIMESTAMP_BACKWARD]
    && s.total[TIMESTAMP_DUPLICATE] == start.total[TIMESTAMP_DUPLICATE]
    && s.period == start.period
  }

  function LastSample(events: seq<Event>): (r: Option<Event>)
    ensures r.Some? ==> r.value.Sample? && r.value in events
  {
    if events == [] then None
    else if events[|events| - 1].Sample? then Some(events[|events| - 1])
    else LastSample(events[..|events| - 1])
  }

  lemma {:induction false} LastSampleId(events: seq<Event>)
    ensures LastSample(events).Some? <==> Ids(events) != []
    ensures LastSample(events).Some? ==> LastSample(events).value.id == Ids(events)[|Ids(events)| - 1]
  {
    if events != [] {
      LastSampleId(events[..|events| - 1]);
    }
  }

  lemma NoReset(s: StreamHealth, from: int, to: int, bits: nat)
    requires Width(bits) && HalfRange(to - from, bits) && from < to && s.sequence == Some(Sent(from, bits))
    ensures !IsReset(s, Some(Sent(to, bits)), bits)
  {
    ClassifyStep(s, from, to, bits);
  }

  lemma GridStep(a: Event, b: Event, origin: real, period: real)
    requires period > 0.0 && OnGrid(a, origin, period) && OnGrid(b, origin, period) && a.id < b.id
    ensures a.stamp < b.stamp
    ensures (b.stamp - a.stamp) as real > 1.5 * period <==> b.id - a.id > 1
    ensures b.id - a.id > 1 ==> Estimate(b.stamp - a.stamp, period) == Capped(b.id - a.id - 1)
  {
    var gap, step := b.stamp - a.stamp, b.id - a.id;
    var span := GridGap(a, b, origin, period);
    SpanOf(step, period, span);
    GapSeenExactly(gap, step, span, period);
    if step > 1 {
      EstimateExact(gap, step, span, period);
    }
  }

  lemma StampStep(s: StreamHealth, a: Event, b: Event, origin: real, bits: nat)
    requires Width(bits) && s.period > 0.0 && OnGrid(a, origin, s.period) && OnGrid(b, origin, s.period)
    requires a.id < b.id && HalfRange(b.id - a.id, bits)
    requires s.stamp == Some(a.stamp) && s.sequence == Some(Sent(a.id, bits))
    ensures var step := b.id - a.id;
            var next := CheckStamp(s, b.stamp, IsReset(s, Some(Sent(b.id, bits)), bits), b.equalValid);
            && next.total[ESTIMATED_MISSING] == s.total[ESTIMATED_MISSING] + (if step > 1 then Capped(step - 1) else 0)
            && next.total[TIMESTAMP_GAP] == s.total[TIMESTAMP_GAP] + (if step > 1 then 1 else 0)
            && next.total[TIMESTAMP_BACKWARD] == s.total[TIMESTAMP_BACKWARD]
            && next.total[TIMESTAMP_DUPLICATE] == s.total[TIMESTAMP_DUPLICATE]
  {
    NoReset(s, a.id, b.id, bits);
    GridStep(a, b, origin, s.period);
    GapCounted(s, b.stamp, b.id - a.id, b.equalValid);
  }

  lemma GapCounted(s: StreamHealth, stamp: uint64, step: int, equalValid: bool)
    requires s.stamp.Some? && stamp > s.stamp.value && s.period > 0.0 && step >= 1
    requires (stamp - s.stamp.value) as real > 1.5 * s.period <==> step > 1
    requires step > 1 ==> Estimate(stamp - s.stamp.value, s.period) == Capped(step - 1)
    ensures var next := CheckStamp(s, stamp, false, equalValid);
            && next.total[ESTIMATED_MISSING] == s.total[ESTIMATED_MISSING] + (if step > 1 then Capped(step - 1) else 0)
            && next.total[TIMESTAMP_GAP] == s.total[TIMESTAMP_GAP] + (if step > 1 then 1 else 0)
            && next.total[TIMESTAMP_BACKWARD] == s.total[TIMESTAMP_BACKWARD]
            && next.total[TIMESTAMP_DUPLICATE] == s.total[TIMESTAMP_DUPLICATE]
  {
  }

  /** The stamp baseline is the last sample's stamp. */
  predicate Stamped(s: StreamHealth, last: Option<Event>) {
    match last
    case None => s.stamp.None?
    case Some(e) => e.Sample? && s.stamp == Some(e.stamp)
  }

  lemma SampleTracksTime(start: StreamHealth, s: StreamHealth, past: seq<int>, last: Option<Event>, e: Event,
                         origin: real, bits: nat)
    requires Width(bits) && start.period > 0.0 && TracksTime(start, s, past) && Stamped(s, last)
    requires OnGrid(e, origin, start.period)
    requires last.None? <==> past == []
    requires last.Some? ==>
               && OnGrid(last.value, origin, start.period) && last.value.id == past[|past| - 1]
               && last.value.id < e.id && HalfRange(e.id - last.value.id, bits)
               && s.sequence == Some(Sent(last.value.id, bits))
    ensures TracksTime(start, Apply(s, OpOf(e, bits)), past + [e.id])
    ensures Stamped(Apply(s, OpOf(e, bits)), Some(e))
  {
    var ids := past + [e.id];
    assert ids[..|past|] == past;
    ObserveSequencePart(s, e, bits);
    ObserveStampPart(s, e, bits);
    if last.Some? {
      StampStep(s, last.value, e, origin, bits);
    }
  }

  predicate Increasing(ids: seq<int>) {
    forall i :: 0 <= i < |ids| - 1 ==> ids[i] < ids[i + 1]
  }

  lemma IncreasingPrefix(past: seq<int>, id: int)
    requires Increasing(past + [id])
    ensures Increasing(past) && (past != [] ==> past[|past| - 1] < id)
  {
    var ids := past + [id];
    assert forall i :: 0 <= i < |past| ==> past[i] == ids[i];
    if past != [] {
      assert ids[|past| - 1 + 1] == id;
    }
  }

  /** Over every forward history of samples on a time grid: the timestamp estimate is the capped id count. */
  lemma {:induction false} EstimateFollowsIds(s: StreamHealth, events: seq<Event>, origin: real, bits: nat)
    requires Width(bits) && s.sequence.None? && s.stamp.None? && s.period > 0.0
    requires Undisturbed(events) && Timed(events, origin, s.period)
    requires StepsInHalfRange(Ids(events), bits) && Increasing(Ids(events))
    ensures TracksTime(s, Play(s, events, bits), Ids(events))
    ensures Stamped(Play(s, events, bits), LastSample(events))
  {
    if events != [] {
      var before, e := events[..|events| - 1], events[|events| - 1];
      if e.Other? {
        assert Ids(before) + [] == Ids(before);
        EstimateFollowsIds(s, before, origin, bits);
        NeutralStep(Play(s, before, bits), e.op);
      } else {
        HalfRangePrefix(Ids(before), e.id, bits);
        IncreasingPrefix(Ids(before), e.id);
        EstimateFollowsIds(s, before, origin, bits);
        EstimateSample(s, before, e, Play(s, before, bits), Ids(before), origin, bits);
      }
    }
  }

  /** The sample case: what the id history says about the baseline carries over to the stamps. */
  lemma EstimateSample(s: StreamHealth, before: seq<Event>, e: Event, mid: StreamHealth, past: seq<int>,
                       origin: real, bits: nat)
    requires Width(bits) && s.sequence.None? && s.period > 0.0
    requires Undisturbed(before) && Timed(before, origin, s.period) && OnGrid(e, origin, s.period)
    requires past == Ids(before) && mid == Play(s, before, bits)
    requires StepsInHalfRange(past, bits) && StepsInHalfRange(past + [e.id], bits)
    requires past != [] ==> past[|past| - 1] < e.id
    requires TracksTime(s, mid, past) && Stamped(mid, LastSample(before))
    ensures TracksTime(s, Apply(mid, OpOf(e, bits)), past + [e.id])
    ensures Stamped(Apply(mid, OpOf(e, bits)), Some(e))
  {
    HalfRangePrefix(past, e.id, bits);
    CountsFollowTrueIds(s, before, bits);
    LastSampleId(before);
    SampleTracksTime(s, mid, past, LastSample(before), e, origin, bits);
  }

  /** No single gap is longer than the estimate can say. */
  predicate WithinCap(ids: seq<int>) {
    forall i :: 0 <= i < |ids| - 1 ==> ids[i + 1] - ids[i] - 1 <= ESTIMATE_CAP
  }

  lemma {:induction false} CapExactly(ids: seq<int>)
    ensures CappedMissing(ids) <= Missing(ids)
    ensures CappedMissing(ids) == Missing(ids) <==> WithinCap(ids)
  {
    if |ids| > 1 {
      var n := |ids| - 1;
      var past := ids[..n];
      CapExactly(past);
      assert forall i :: 0 <= i < n ==> past[i] == ids[i];
      assert ids[n - 1 + 1] - ids[n - 1] - 1 <= ESTIMATE_CAP || !WithinCap(ids);
      assert WithinCap(ids) <==> WithinCap(past) && ids[n] - ids[n - 1] - 1 <= ESTIMATE_CAP;
    }
  }

  /** The two loss estimates agree exactly when no single gap exceeds the cap. */
  lemma EstimatesAgree(s: StreamHealth, events: seq<Event>, origin: real, bits: nat)
    requires Width(bits) && s.sequence.None? && s.stamp.None? && s.period > 0.0
    requires Undisturbed(events) && Timed(events, origin, s.period)
    requires StepsInHalfRange(Ids(events), bits) && Increasing(Ids(events))
    ensures var end := Play(s, events, bits);
            var estimated, counted := end.total[ESTIMATED_MISSING] as int - s.total[ESTIMATED_MISSING],
                                      end.total[SEQUENCE_MISSING] as int - s.total[SEQUENCE_MISSING];
            && (estimated == counted <==> WithinCap(Ids(events)))
            && end.total[TIMESTAMP_GAP] == s.total[TIMESTAMP_GAP] + Gaps(Ids(events))
  {
    EstimateFollowsIds(s, events, origin, bits);
    CountsFollowTrueIds(s, events, bits);
    CapExactly(Ids(events));
  }

  /** A gap of 1e9 + 1 samples, in ids and in stamps: the estimate stops at the cap, one short. */
  lemma CapExample()
    ensures var s := FRESH.(period := 1000.0);
            var events := [Sample(0, 1000, 0, false), Sample(1, 1_000_000_003_000, 1_000_000_002, false)];
            var end := Play(s, events, 32);
            && end.total[SEQUENCE_MISSING] == 1_000_000_001
            && end.total[ESTIMATED_MISSING] == 1_000_000_000
  {
    var s := FRESH.(period := 1000.0);
    var events := [Sample(0, 1000, 0, false), Sample(1, 1_000_000_003_000, 1_000_000_002, false)];
    TwoIds(events[0], events[1]);
    assert [events[0], events[1]] == events;
    EstimateFollowsIds(s, events, 1000.0, 32);
    CountsFollowTrueIds(s, events, 32);
    TwoMissing(0, 1_000_000_002);
  }

  lemma TwoIds(a: Event, b: Event)
    requires a.Sample? && b.Sample?
    ensures Ids([a, b]) == [a.id, b.id]
  {
    assert [a, b][..1] == [a] && [a][..0] == [];
    assert Ids([a]) == Ids([]) + [a.id];
  }

  lemma TwoMissing(a: int, b: int)
    requires a + 1 < b
    ensures Missing([a, b]) == b - a - 1 && CappedMissing([a, b]) == Capped(b - a - 1)
  {
    assert [a, b][..1] == [a];
  }

  // ---- new baselines ----

  /** A restart, or a session with another id. */
  predicate NewBaseline(s: StreamHealth, op: Op) {
    op.OpReset? || (op.OpSession? && s.session.Some? && s.session.value != op.id)
  }

  /** The first sample after a new baseline counts nothing, whatever its id and stamp. */
  lemma NewBaselineForgets(s: StreamHealth, op: Op, now: uint64, stamp: uint64, sequence: Option<uint64>,
                           bits: nat, equalValid: bool)
    requires NewBaseline(s, op)
    ensures var based := Apply(s, op);
            && based.sequence.None? && based.stamp.None? && based.conditions == CLEAR
            && Apply(based, OpObserve(now, stamp, sequence, bits, equalValid)).total == based.total
            && based.counters == s.counters
            && based.total == (if op.OpReset? then s.total
                               else s.total[SESSION_CHANGED := s.total[SESSION_CHANGED] + 1])
  {
  }

  /** What a sequence of device counter readings adds: the increases; a lower reading is a new baseline. */
  function Increases(values: seq<nat>): nat {
    if |values| <= 1 then 0
    else
      var last, previous := values[|values| - 1], values[|values| - 2];
      Increases(values[..|values| - 1]) + (if last > previous then last - previous else 0)
  }

  function Read(s: StreamHealth, issue: Issue, values: seq<nat>): StreamHealth {
    if values == [] then s
    else Apply(Read(s, issue, values[..|values| - 1]), OpCounter(issue, values[|values| - 1], false))
  }

  /** The first reading of a device counter is history; from then on exactly its increases are counted. */
  lemma {:induction false} CounterCountsIncreases(s: StreamHealth, issue: Issue, values: seq<nat>)
    requires s.counters[issue].None?
    ensures var end := Read(s, issue, values);
            && end.total[issue] == s.total[issue] + Increases(values)
            && end.counters[issue] == (if values == [] then None else Some(values[|values| - 1]))
  {
    if values != [] {
      CounterCountsIncreases(s, issue, values[..|values| - 1]);
    }
  }

  /** Without a step back the increases are last minus first. */
  lemma {:induction false} IncreasesTelescope(values: seq<nat>)
    requires values != [] && forall i :: 0 <= i < |values| - 1 ==> values[i] <= values[i + 1]
    ensures values[0] <= values[|values| - 1]
    ensures Increases(values) == values[|values| - 1] - values[0]
  {
    if |values| > 1 {
      IncreasesTelescope(values[..|values| - 1]);
    }
  }

  // ---- conditions ----

  /** How often the readings turn from clear to active, starting from clear. */
  function Onsets(readings: seq<bool>): nat {
    if readings == [] then 0
    else
      var n := |readings| - 1;
      Onsets(readings[..n]) + (if readings[n] && !(n > 0 && readings[n - 1]) then 1 else 0)
  }

  function Sense(s: StreamHealth, issue: Issue, readings: seq<bool>): StreamHealth {
    if readings == [] then s
    else Apply(Sense(s, issue, readings[..|readings| - 1]), OpCondition(issue, readings[|readings| - 1]))
  }

  /** A lasting condition is counted once, when it sets in; other conditions are not touched. */
  lemma {:induction false} ConditionCountsOnsets(s: StreamHealth, issue: Issue, readings: seq<bool>)
    requires !s.conditions[issue]
    ensures var end := Sense(s, issue, readings);
            && end.total == s.total[issue := s.total[issue] + Onsets(readings)]
            && end.conditions == s.conditions[issue := readings != [] && readings[|readings| - 1]]
  {
    if readings != [] {
      ConditionCountsOnsets(s, issue, readings[..|readings| - 1]);
    }
  }
}
