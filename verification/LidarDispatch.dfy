// driver.cpp, dispatchLidarPoints: health, clock selection, conversion, accumulation, publish queue.
module LidarDispatch {
  import opened Words
  import opened LidarTypes
  import opened LidarConversion
  import opened FrameAccumulator
  import opened SensorHealth
  import opened LossAccounting
  import Queues = DispatchQueues
  import DeviceTime

  function SdkTimestamp(batch: SdkBatch): uint64 {
    Wrap64(batch.timestampUtcUs * 1000)
  }

  /** The times at which one call reads the steady clock. */
  datatype Clock = Clock(observe: uint64, resolve: uint64, check: uint64)

  /** The base time of the batch; None drops it as unsynchronized. */
  function SelectedBase(reference: DeviceTime.Reference, batch: SdkBatch, requireSync: bool, clock: Clock)
    : Option<uint64>
  {
    var sdk := SdkTimestamp(batch);
    var resolved := DeviceTime.Resolve(reference, sdk, batch.timestampRaw, clock.resolve);
    if requireSync && !batch.timestampSynced then None
    else if resolved.None? && DeviceTime.Fresh(reference, clock.check) && requireSync then None
    else Some(if resolved.Some? then resolved.value.timestamp else sdk)
  }

  /**
   * Where synchronization is required, exactly those batches pass that are synchronized and either show
   * the device's clock, or find no reference fresh enough any more. The former get that clock's time.
   */
  lemma RequiredSyncGate(reference: DeviceTime.Reference, batch: SdkBatch, clock: Clock)
    requires DeviceTime.Fresh(reference, clock.resolve) && clock.resolve <= clock.check
    ensures var expected := DeviceTime.Expected(reference, clock.resolve);
            var near := expected <= U64_MAX && (DeviceTime.Near(SdkTimestamp(batch), expected)
                                                || DeviceTime.Near(batch.timestampRaw, expected));
            var base := SelectedBase(reference, batch, true, clock);
            && (base.Some? <==> batch.timestampSynced
                                && (near || clock.check - reference.arrival > DeviceTime.MAX_AGE))
            && (base.Some? && near ==> DeviceTime.Near(base.value, expected))
  {
    DeviceTime.ResolvesExactly(reference, SdkTimestamp(batch), batch.timestampRaw, clock.resolve);
  }

  /** What the batch means for the LiDAR stream's health. */
  function HealthOps(batch: SdkBatch, dropped: bool, clock: Clock): seq<Op> {
    [OpObserve(clock.observe, if batch.timestampSynced then SdkTimestamp(batch) else 0, Some(batch.batchId), 32, true)]
    + (if batch.points == [] then [OpAdd(INCOMPLETE, 1)] else [])
    + (if dropped then [OpAdd(UNSYNCHRONIZED, 1)] else [])
  }

  /** The traffic counters of the driver that LiDAR batches touch. */
  datatype Traffic = Traffic(dropped: nat, rawSelected: nat, sdkSelected: nat, batches: nat, points: nat)

  function Counted(t: Traffic, raw: bool, points: nat): Traffic {
    t.(rawSelected := t.rawSelected + (if raw then 1 else 0), sdkSelected := t.sdkSelected + (if raw then 0 else 1),
       batches := t.batches + 1, points := t.points + points)
  }

  function CountDropped(t: Traffic): Traffic {
    t.(dropped := t.dropped + 1)
  }

  /** The batch resolves to the raw LiDAR clock. */
  predicate PicksRaw(reference: DeviceTime.Reference, batch: SdkBatch, clock: Clock) {
    var resolved := DeviceTime.Resolve(reference, SdkTimestamp(batch), batch.timestampRaw, clock.resolve);
    resolved.Some? && resolved.value.candidate.LidarRaw?
  }

  /** What a batch that gets through changes: the accumulator, the publish queue, the counters. */
  datatype Fields = Fields(acc: Acc, queue: Queues.Core<LidarBatch>, traffic: Traffic)

  /** The batch was converted to out and appended; the frames that completed were pushed unless append threw. */
  predicate Appended(before: Fields, out: LidarBatch, raw: bool, queueRunning: bool, after: Fields, ok: bool) {
    var run := Run(before.acc, Arrivals(out));
    && after.acc == run.acc && ok == run.ok
    && before.queue.capacity > 0
    && after.queue == (if ok && queueRunning then Queues.PushAll(before.queue, PublishedOf(run.closed))
                       else before.queue)
    && after.traffic == Counted(before.traffic, raw, |out.points|)
  }

  /** A batch too wide to convert changes nothing; any other is appended, converted. */
  ghost predicate Passes(before: Fields, batch: SdkBatch, times: seq<uint64>, base: uint64, raw: bool,
                         queueRunning: bool, after: Fields, ok: bool)
    requires |times| == |batch.points|
  {
    if !Narrow(times) then !ok && after == before
    else exists out :: IsConversion(batch, times, base, out) && Appended(before, out, raw, queueRunning, after, ok)
  }

  class LidarDispatcher {
    const resolver: DeviceTime.DeviceTimeResolver
    const accumulator: LidarFrameAccumulator
    const health: SensorDataHealth
    const frames: Queues.DispatchQueue<LidarBatch>
    var traffic: Traffic

    ghost function State(): Fields
      reads this, accumulator, frames
    {
      Fields(accumulator.State(), frames.State(), traffic)
    }

    constructor (resolver: DeviceTime.DeviceTimeResolver, accumulator: LidarFrameAccumulator,
                 health: SensorDataHealth, frames: Queues.DispatchQueue<LidarBatch>)
      ensures this.resolver == resolver && this.accumulator == accumulator
      ensures this.health == health && this.frames == frames && traffic == Traffic(0, 0, 0, 0, 0)
    {
      this.resolver, this.accumulator, this.health, this.frames := resolver, accumulator, health, frames;
      traffic := Traffic(0, 0, 0, 0, 0);
    }

    /** The batch as the health check sees it when it comes in. */
    method NoteArrival(batch: SdkBatch, clock: Clock)
      modifies health
      ensures health.states == old(health.states)[LIDAR_POINTS :=
        After(old(health.states)[LIDAR_POINTS], HealthOps(batch, false, clock))]
    {
      ghost var s := health.states[LIDAR_POINTS];
      var stamp := if batch.timestampSynced then SdkTimestamp(batch) else 0;
      health.ObserveSample(LIDAR_POINTS, clock.observe, stamp, Some(batch.batchId), 32, true);
      ghost var seen := OpObserve(clock.observe, stamp, Some(batch.batchId), 32, true);
      AfterSnoc(s, [], seen);
      assert [] + [seen] == [seen];
      if batch.points == [] {
        health.AddIssue(LIDAR_POINTS, INCOMPLETE);
        AfterSnoc(s, [seen], OpAdd(INCOMPLETE, 1));
        assert HealthOps(batch, false, clock) == [seen] + [OpAdd(INCOMPLETE, 1)];
      } else {
        assert HealthOps(batch, false, clock) == [seen];
      }
    }

    /** Drops the batch as unsynchronized. */
    method Drop(ghost s: StreamHealth, batch: SdkBatch, clock: Clock)
      requires health.states[LIDAR_POINTS] == After(s, HealthOps(batch, false, clock))
      modifies health, this`traffic
      ensures health.states == old(health.states)[LIDAR_POINTS := After(s, HealthOps(batch, true, clock))]
      ensures traffic == CountDropped(old(traffic))
    {
      health.AddIssue(LIDAR_POINTS, UNSYNCHRONIZED);
      AfterSnoc(s, HealthOps(batch, false, clock), OpAdd(UNSYNCHRONIZED, 1));
      assert HealthOps(batch, true, clock) == HealthOps(batch, false, clock) + [OpAdd(UNSYNCHRONIZED, 1)];
      traffic := CountDropped(traffic);
    }

    /** Pushes the completed frames in order; a queue that is not running takes nothing. */
    method PushFrames(completed: seq<LidarBatch>, queueRunning: bool)
      requires frames.capacity > 0
      modifies frames
      ensures frames.State() == if queueRunning then Queues.PushAll(old(frames.State()), completed)
                                else old(frames.State())
    {
      ghost var before := frames.State();
      for i := 0 to |completed|
        invariant frames.State() == if queueRunning then Queues.PushAll(before, completed[..i]) else before
      {
        assert completed[..i + 1][..i] == completed[..i];
        if queueRunning {
          var pushed := frames.Push(completed[i]);
        }
      }
      assert completed[..|completed|] == completed;
    }

    /** Converts, appends and pushes. */
    method ConvertAndPush(batch: SdkBatch, times: seq<uint64>, base: uint64, raw: bool, queueRunning: bool)
      returns (ok: bool)
      requires |times| == |batch.points| && frames.capacity > 0
      modifies accumulator, frames, this`traffic
      ensures Passes(old(State()), batch, times, base, raw, queueRunning, State(), ok)
    {
      ghost var before := State();
      var converted := ConvertLidarBatch(batch, times, base);
      if converted.Thrown? {
        return false;
      }
      traffic := Counted(traffic, raw, |converted.value.points|);
      var appended := accumulator.Append(converted.value);
      ok := appended.Ok?;
      if ok {
        PushFrames(appended.value, queueRunning);
      }
      assert Appended(before, converted.value, raw, queueRunning, State(), ok);
    }

    /**
     * dispatchLidarPoints; times gives the absolute point times for a base time. Not ok is a throw.
     * A dropped batch touches health and the drop counter only; a batch too wide to convert only health;
     * any other one runs through the accumulator, and its frames go to the publish queue.
     */
    method DispatchLidarPoints(batch: SdkBatch, times: (SdkBatch, uint64) -> seq<uint64>, requireSync: bool,
                               clock: Clock, queueRunning: bool) returns (ok: bool)
      requires forall base :: |times(batch, base)| == |batch.points|
      requires frames.capacity > 0
      modifies health, accumulator, frames, this`traffic
      ensures var base := SelectedBase(resolver.reference, batch, requireSync, clock);
              && health.states == old(health.states)[LIDAR_POINTS :=
                   After(old(health.states)[LIDAR_POINTS], HealthOps(batch, base.None?, clock))]
              && match base
                 case None => ok && State() == old(State()).(traffic := CountDropped(old(traffic)))
                 case Some(time) =>
                   Passes(old(State()), batch, times(batch, time), time,
                          PicksRaw(resolver.reference, batch, clock), queueRunning, State(), ok)
    {
      ghost var s := health.states[LIDAR_POINTS];
      NoteArrival(batch, clock);
      if requireSync && !batch.timestampSynced {
        Drop(s, batch, clock);
        return true;
      }
      var sdk := SdkTimestamp(batch);
      var resolved := DeviceTime.Resolve(resolver.reference, sdk, batch.timestampRaw, clock.resolve);
      var referenceRequired := DeviceTime.Fresh(resolver.reference, clock.check);
      if resolved.None? && referenceRequired && requireSync {
        Drop(s, batch, clock);
        return true;
      }
      var base := if resolved.Some? then resolved.value.timestamp else sdk;
      var raw := resolved.Some? && resolved.value.candidate.LidarRaw?;
      ok := ConvertAndPush(batch, times(batch, base), base, raw, queueRunning);
    }
  }
}
