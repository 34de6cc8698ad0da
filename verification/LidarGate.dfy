// Which LiDAR batches get through, at what time, and what is counted on the way.
module LidarGate {
  import opened Words
  import opened LidarTypes
  import opened LidarConversion
  import opened SensorHealth
  import opened LossAccounting
  import opened LidarDispatch
  import DeviceTime

  /** There is a reference, not from the future and at most five seconds old. */
  predicate Referenced(reference: DeviceTime.Reference, now: nat) {
    reference.source != DeviceTime.NoSource && reference.arrival <= now <= reference.arrival + 5_000_000_000
  }

  predicate CloseTo(time: nat, expected: nat) {
    time != 0 && time <= expected + 2_000_000_000 && expected <= time + 2_000_000_000
  }

  /** Carried forward to now, the reference time is within two seconds of one of the batch's clocks. */
  predicate OnDeviceClock(reference: DeviceTime.Reference, batch: SdkBatch, now: nat) {
    && Referenced(reference, now)
    && var expected := reference.timestamp + (now - reference.arrival);
       && expected <= U64_MAX
       && (CloseTo(SdkTimestamp(batch), expected) || CloseTo(batch.timestampRaw, expected))
  }

  function Apart(a: nat, b: nat): nat {
    if a < b then b - a else a - b
  }

  /**
   * The gate, for every reference, batch and setting. Without required synchronization every batch
   * passes. With it, exactly the synchronized ones pass that show the device's clock, or for which there
   * is no usable reference by the second reading. The base time is the clock of the batch that is nearer
   * to the device's, the SDK time on a tie; without such a clock it is the SDK time.
   */
  lemma GateExactly(reference: DeviceTime.Reference, batch: SdkBatch, requireSync: bool, clock: Clock)
    ensures var base := SelectedBase(reference, batch, requireSync, clock);
            var onClock := OnDeviceClock(reference, batch, clock.resolve);
            && (base.Some? <==> !requireSync
                                || (batch.timestampSynced && (onClock || !Referenced(reference, clock.check))))
            && (base.Some? && !onClock ==> base.value == SdkTimestamp(batch))
            && (base.Some? && onClock ==>
                  var sdk, raw, expected := SdkTimestamp(batch), batch.timestampRaw,
                                            reference.timestamp + (clock.resolve - reference.arrival);
                  && CloseTo(base.value, expected)
                  && base.value == if raw != 0 && (sdk == 0 || Apart(raw, expected) < Apart(sdk, expected))
                                   then raw else sdk)
  {
    DeviceTime.ResolvesExactly(reference, SdkTimestamp(batch), batch.timestampRaw, clock.resolve);
  }

  /** LiDAR alone, with required synchronization: no reference ever, and every synchronized batch passes. */
  lemma LidarAloneExample(clock: Clock)
    ensures var batch := SdkBatch(1, 77, 1_000_000, true, []);
            SelectedBase(DeviceTime.NO_REFERENCE, batch, true, clock) == Some(1_000_000_000)
  {
  }

  /** The SDK time is the batch's UTC microseconds in nanoseconds, while they fit 64 bits. */
  lemma SdkTimeExactly(batch: SdkBatch)
    ensures SdkTimestamp(batch) == batch.timestampUtcUs * 1000 <==> batch.timestampUtcUs * 1000 <= U64_MAX
  {
  }

  /** The raw clock is counted as selected exactly if it is the nearer one on the device's clock. */
  lemma RawSelectedExactly(reference: DeviceTime.Reference, batch: SdkBatch, clock: Clock)
    ensures PicksRaw(reference, batch, clock) <==>
              && OnDeviceClock(reference, batch, clock.resolve)
              && var sdk, raw, expected := SdkTimestamp(batch), batch.timestampRaw,
                                           reference.timestamp + (clock.resolve - reference.arrival);
                 raw != 0 && (sdk == 0 || Apart(raw, expected) < Apart(sdk, expected))
  {
    DeviceTime.ResolvesExactly(reference, SdkTimestamp(batch), batch.timestampRaw, clock.resolve);
  }

  // ---- what is counted ----

  /**
   * A dispatched batch is one arrival: its id is the new baseline, and its time if it is synchronized.
   * Exactly an empty one counts as incomplete, exactly a dropped one as unsynchronized; one id missing
   * before it counts so, modulo 2^32; equal times are no fault.
   */
  lemma HealthOfBatch(s: StreamHealth, batch: SdkBatch, dropped: bool, clock: Clock)
    ensures var next := After(s, HealthOps(batch, dropped, clock));
            && next.sequence == Some(batch.batchId) && next.lastArrival == clock.observe
            && next.stamp == (if batch.timestampSynced && SdkTimestamp(batch) != 0 then Some(SdkTimestamp(batch))
                              else None)
            && next.total[INCOMPLETE] == s.total[INCOMPLETE] + (if batch.points == [] then 1 else 0)
            && next.total[UNSYNCHRONIZED] == s.total[UNSYNCHRONIZED] + (if dropped then 1 else 0)
            && next.total[TIMESTAMP_DUPLICATE] == s.total[TIMESTAMP_DUPLICATE]
            && (forall id: uint32 :: s.sequence == Some(id) ==>
                  next.total[SEQUENCE_MISSING] == s.total[SEQUENCE_MISSING] + MissingIds(id, batch.batchId))
  {
    var stamp := if batch.timestampSynced then SdkTimestamp(batch) else 0;
    ArrivalCounts(s, clock.observe, stamp, batch.batchId);
    BatchAfter(s, batch, dropped, clock, stamp);
  }

  /** One arrival, and an issue more if it is empty, and if it was dropped. */
  lemma BatchAfter(s: StreamHealth, batch: SdkBatch, dropped: bool, clock: Clock, stamp: uint64)
    requires stamp == if batch.timestampSynced then SdkTimestamp(batch) else 0
    ensures AddedTwice(Observe(s, clock.observe, stamp, Some(batch.batchId), 32, true),
                       After(s, HealthOps(batch, dropped, clock)), batch.points == [], dropped)
  {
    var seen := [OpObserve(clock.observe, stamp, Some(batch.batchId), 32, true)];
    OneOp(s, seen[0]);
    TwoMaybe(s, seen, batch.points == [], dropped);
    assert HealthOps(batch, dropped, clock) == seen + MaybeOp(INCOMPLETE, batch.points == [])
                                               + MaybeOp(UNSYNCHRONIZED, dropped);
  }

  function MaybeOp(issue: Issue, add: bool): seq<Op> {
    if add then [OpAdd(issue, 1)] else []
  }

  predicate Adds(before: StreamHealth, next: StreamHealth, issue: Issue, add: bool) {
    next == if add then Add(before, issue, 1) else before
  }

  lemma MaybeAdd(s: StreamHealth, ops: seq<Op>, issue: Issue, add: bool)
    ensures Adds(After(s, ops), After(s, ops + MaybeOp(issue, add)), issue, add)
  {
    if add {
      AfterSnoc(s, ops, OpAdd(issue, 1));
    } else {
      assert ops + [] == ops;
    }
  }

  lemma TwoMaybe(s: StreamHealth, ops: seq<Op>, incomplete: bool, dropped: bool)
    ensures AddedTwice(After(s, ops),
                       After(s, ops + MaybeOp(INCOMPLETE, incomplete) + MaybeOp(UNSYNCHRONIZED, dropped)),
                       incomplete, dropped)
  {
    MaybeAdd(s, ops, INCOMPLETE, incomplete);
    MaybeAdd(s, ops + MaybeOp(INCOMPLETE, incomplete), UNSYNCHRONIZED, dropped);
  }

  predicate AddedTwice(seen: StreamHealth, next: StreamHealth, incomplete: bool, dropped: bool) {
    && next.(total := seen.total, pending := seen.pending) == seen
    && next.total == seen.total[INCOMPLETE := seen.total[INCOMPLETE] + (if incomplete then 1 else 0)]
                               [UNSYNCHRONIZED := seen.total[UNSYNCHRONIZED] + (if dropped then 1 else 0)]
  }

  lemma OneOp(s: StreamHealth, op: Op)
    ensures After(s, [op]) == Apply(s, op)
  {
    assert [op][..0] == [];
  }

  /** The ids skipped from one batch to the next, modulo 2^32; a step of half the range or more is a reset. */
  function MissingIds(from: uint32, to: uint32): nat {
    var step := (to - from) % 0x1_0000_0000;
    if 1 < step < 0x8000_0000 then step - 1 else 0
  }

  lemma ArrivalCounts(s: StreamHealth, now: uint64, stamp: uint64, id: uint32)
    ensures var next := Observe(s, now, stamp, Some(id), 32, true);
            && next.sequence == Some(id) && next.lastArrival == now
            && next.stamp == (if stamp != 0 then Some(stamp) else None)
            && next.total[INCOMPLETE] == s.total[INCOMPLETE]
            && next.total[UNSYNCHRONIZED] == s.total[UNSYNCHRONIZED]
            && next.total[TIMESTAMP_DUPLICATE] == s.total[TIMESTAMP_DUPLICATE]
            && (forall from: uint32 :: s.sequence == Some(from) ==>
                  next.total[SEQUENCE_MISSING] == s.total[SEQUENCE_MISSING] + MissingIds(from, id))
  {
    var touched := Touch(s, now);
    var classified := Classify(touched, id, 32).(sequence := Some(id));
    if s.sequence.Some? && s.sequence.value < 0x1_0000_0000 {
      IdStep(s.sequence.value, id);
    }
    ClassifiedCounts(touched, id);
    StampedCounts(classified, stamp, IsReset(s, Some(id), 32));
  }

  lemma IdStep(from: uint32, to: uint32)
    ensures Delta(from, to, 32) == (to - from) % 0x1_0000_0000
  {
  }

  lemma ClassifiedCounts(s: StreamHealth, id: uint32)
    ensures var next := Classify(s, id, 32);
            && next.(total := s.total, pending := s.pending) == s
            && (forall i :: TIMESTAMP_GAP <= i < ISSUES ==> next.total[i] == s.total[i])
            && next.total[SEQUENCE_MISSING] == s.total[SEQUENCE_MISSING]
                 + (if s.sequence.Some? && 1 < Delta(s.sequence.value, id, 32) < 0x8000_0000
                    then Delta(s.sequence.value, id, 32) - 1 else 0)
  {
  }

  lemma StampedCounts(s: StreamHealth, stamp: uint64, skip: bool)
    ensures var next := CheckStamp(s, stamp, skip, true);
            && next.(total := s.total, pending := s.pending) == s
            && next.total[SEQUENCE_MISSING] == s.total[SEQUENCE_MISSING]
            && next.total[TIMESTAMP_DUPLICATE] == s.total[TIMESTAMP_DUPLICATE]
            && next.total[INCOMPLETE] == s.total[INCOMPLETE]
            && next.total[UNSYNCHRONIZED] == s.total[UNSYNCHRONIZED]
  {
  }

  /** What can become of a batch, as the counters see it. */
  datatype Passage = Dropped | TooWide | Through(raw: bool, points: nat)

  function Count(t: Traffic, p: Passage): Traffic {
    match p
    case Dropped => CountDropped(t)
    case TooWide => t
    case Through(raw, points) => Counted(t, raw, points)
  }

  function CountAll(ps: seq<Passage>): Traffic {
    if ps == [] then Traffic(0, 0, 0, 0, 0) else Count(CountAll(ps[..|ps| - 1]), ps[|ps| - 1])
  }

  function Points(ps: seq<Passage>): nat {
    if ps == [] then 0
    else Points(ps[..|ps| - 1]) + (if ps[|ps| - 1].Through? then ps[|ps| - 1].points else 0)
  }

  function Raws(ps: seq<Passage>): nat {
    if ps == [] then 0
    else Raws(ps[..|ps| - 1]) + (if ps[|ps| - 1].Through? && ps[|ps| - 1].raw then 1 else 0)
  }

  function Wide(ps: seq<Passage>): nat {
    if ps == [] then 0 else Wide(ps[..|ps| - 1]) + (if ps[|ps| - 1].TooWide? then 1 else 0)
  }

  /** Over any run every batch is counted once: dropped, too wide, or through with one of the two clocks. */
  lemma {:induction false} TrafficAddsUp(ps: seq<Passage>)
    ensures var t := CountAll(ps);
            && t.dropped + Wide(ps) + t.batches == |ps|
            && t.rawSelected + t.sdkSelected == t.batches
            && t.rawSelected == Raws(ps) && t.points == Points(ps)
  {
    if ps != [] {
      TrafficAddsUp(ps[..|ps| - 1]);
    }
  }
}
