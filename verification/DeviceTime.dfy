// device_time_resolver.hpp: picks the LiDAR timestamp that belongs to the sensor board's clock.
module DeviceTime {
  import opened Words

  const SECOND: nat := 1_000_000_000
  const BOARD_HOLD: nat := 2 * SECOND
  const MAX_AGE: nat := 5 * SECOND
  const MAX_DELTA: nat := 2 * SECOND

  datatype Source = NoSource | Camera | BoardImu
  datatype Reference = Reference(timestamp: uint64, arrival: uint64, source: Source)
  datatype Candidate = SdkNormalized | LidarRaw
  datatype Resolution = Resolution(timestamp: uint64, candidate: Candidate)

  const NO_REFERENCE := Reference(0, 0, NoSource)

  function Observed(r: Reference, timestamp: uint64, arrival: uint64, source: Source): Reference {
    if timestamp == 0 || arrival == 0 then r else Reference(timestamp, arrival, source)
  }

  function CameraObserved(r: Reference, timestamp: uint64, arrival: uint64): Reference {
    if r.source.BoardImu? && arrival >= r.arrival && arrival - r.arrival <= BOARD_HOLD then r
    else Observed(r, timestamp, arrival, Camera)
  }

  predicate Fresh(r: Reference, now: uint64) {
    !r.source.NoSource? && now >= r.arrival && now - r.arrival <= MAX_AGE
  }

  /** candidateDelta; a zero candidate is infinitely far away. */
  function Distance(candidate: uint64, expected: uint64): uint64 {
    if candidate == 0 then U64_MAX
    else if candidate >= expected then candidate - expected else expected - candidate
  }

  function Resolve(r: Reference, sdk: uint64, raw: uint64, arrival: uint64): Option<Resolution> {
    if r.source.NoSource? || arrival < r.arrival then None
    else
      var elapsed := arrival - r.arrival;
      if elapsed > MAX_AGE || r.timestamp > U64_MAX - elapsed then None
      else
        var expected: uint64 := r.timestamp + elapsed;
        var useRaw := Distance(raw, expected) < Distance(sdk, expected);
        var best := if useRaw then Distance(raw, expected) else Distance(sdk, expected);
        if best > MAX_DELTA then None
        else Some(if useRaw then Resolution(raw, LidarRaw) else Resolution(sdk, SdkNormalized))
  }

  class DeviceTimeResolver {
    var reference: Reference

    constructor ()
      ensures reference == NO_REFERENCE
    {
      reference := NO_REFERENCE;
    }

    method Reset()
      modifies this
      ensures reference == NO_REFERENCE
    {
      reference := NO_REFERENCE;
    }

    method Observe(timestamp: uint64, arrival: uint64, source: Source)
      modifies this
      ensures reference == Observed(old(reference), timestamp, arrival, source)
    {
      if timestamp == 0 || arrival == 0 {
        return;
      }
      reference := Reference(timestamp, arrival, source);
    }

    method ObserveBoard(timestamp: uint64, arrival: uint64)
      modifies this
      ensures reference == Next(old(reference), Board(timestamp, arrival))
    {
      Observe(timestamp, arrival, BoardImu);
    }

    method ObserveCamera(timestamp: uint64, arrival: uint64)
      modifies this
      ensures reference == Next(old(reference), CameraMeta(timestamp, arrival))
    {
      if reference.source.BoardImu? && arrival >= reference.arrival
         && arrival - reference.arrival <= BOARD_HOLD {
        return;
      }
      Observe(timestamp, arrival, Camera);
    }
  }

  // ---- runs ----

  datatype Event =
    | Board(timestamp: uint64, arrival: uint64)
    | CameraMeta(timestamp: uint64, arrival: uint64)
    | Lidar(sdk: uint64, raw: uint64, arrival: uint64)

  function Next(r: Reference, e: Event): Reference {
    match e
    case Board(timestamp, arrival) => Observed(r, timestamp, arrival, BoardImu)
    case CameraMeta(timestamp, arrival) => CameraObserved(r, timestamp, arrival)
    case Lidar(_, _, _) => r
  }

  function After(r: Reference, events: seq<Event>): Reference {
    if events == [] then r else Next(After(r, events[..|events| - 1]), events[|events| - 1])
  }

  /** Arrivals start at or after `from` and never run back. */
  predicate Ordered(events: seq<Event>, from: nat) {
    && (forall i :: 0 <= i < |events| ==> from <= events[i].arrival)
    && (forall i, j :: 0 <= i < j < |events| ==> events[i].arrival <= events[j].arrival)
  }

  /** After a valid board observation the reference stays board-sourced for two seconds, cameras or not. */
  lemma {:induction false} BoardHolds(r: Reference, timestamp: uint64, arrival: uint64, events: seq<Event>)
    requires timestamp != 0 && arrival != 0
    requires Ordered(events, arrival)
    requires events != [] ==> events[|events| - 1].arrival <= arrival + BOARD_HOLD
    ensures var end := After(Next(r, Board(timestamp, arrival)), events);
            end.source.BoardImu? && arrival <= end.arrival
            && end.arrival <= (if events == [] then arrival else events[|events| - 1].arrival)
  {
    if events != [] {
      var n := |events| - 1;
      if n > 0 {
        assert events[n - 1].arrival <= events[n].arrival;
      }
      BoardHolds(r, timestamp, arrival, events[..n]);
    }
  }

  /** And no longer: the first valid camera observation after the hold takes over. */
  lemma CameraTakesOverExactly(r: Reference, timestamp: uint64, arrival: uint64)
    requires r.source.BoardImu? && timestamp != 0 && arrival != 0
    ensures Next(r, CameraMeta(timestamp, arrival)).source.Camera?
            <==> !(r.arrival <= arrival <= r.arrival + BOARD_HOLD)
  {
  }

  function Gap(a: nat, b: nat): nat {
    if a >= b then a - b else b - a
  }

  predicate Near(candidate: uint64, expected: nat) {
    candidate != 0 && Gap(candidate, expected) <= MAX_DELTA
  }

  /** The reference time carried forward to now. */
  function Expected(r: Reference, now: uint64): nat
    requires r.arrival <= now
  {
    r.timestamp + (now - r.arrival)
  }

  /** Resolution succeeds exactly when the reference is fresh and some nonzero candidate is near it. */
  lemma ResolvesExactly(r: Reference, sdk: uint64, raw: uint64, now: uint64)
    ensures Resolve(r, sdk, raw, now).Some? <==>
              Fresh(r, now) && Expected(r, now) <= U64_MAX
              && (Near(sdk, Expected(r, now)) || Near(raw, Expected(r, now)))
    ensures Resolve(r, sdk, raw, now).Some? ==>
              var expected, x := Expected(r, now), Resolve(r, sdk, raw, now).value;
              match x.candidate
              case SdkNormalized =>
                x.timestamp == sdk && Near(sdk, expected) && (raw != 0 ==> Gap(sdk, expected) <= Gap(raw, expected))
              case LidarRaw =>
                x.timestamp == raw && Near(raw, expected) && (sdk != 0 ==> Gap(raw, expected) < Gap(sdk, expected))
  {
  }

  function ValueOf(e: Event, c: Candidate): uint64
    requires e.Lidar?
  {
    if c.LidarRaw? then e.raw else e.sdk
  }

  function OtherOf(e: Event, c: Candidate): uint64
    requires e.Lidar?
  {
    if c.LidarRaw? then e.sdk else e.raw
  }

  /** At this moment clock c is within 2 s of the reference and the other (if any) is more than 4 s from it. */
  predicate Belongs(r: Reference, e: Event, c: Candidate) {
    e.Lidar? && Fresh(r, e.arrival) && Expected(r, e.arrival) <= U64_MAX ==>
      && Near(ValueOf(e, c), Expected(r, e.arrival))
      && (OtherOf(e, c) != 0 ==> Gap(OtherOf(e, c), ValueOf(e, c)) > 2 * MAX_DELTA)
  }

  /** Such a clock is the one selected. */
  lemma ClockSelected(r: Reference, e: Event, c: Candidate)
    requires e.Lidar? && Belongs(r, e, c)
    ensures Resolve(r, e.sdk, e.raw, e.arrival) ==
              if Fresh(r, e.arrival) && Expected(r, e.arrival) <= U64_MAX
              then Some(Resolution(ValueOf(e, c), c)) else None
  {
    ResolvesExactly(r, e.sdk, e.raw, e.arrival);
  }

  predicate Within(a: int, b: int, bound: nat) {
    b - bound <= a <= b + bound
  }

  /** A valid observation shows the device clock. */
  predicate Shows(timestamp: uint64, arrival: uint64, offset: int) {
    timestamp != 0 && arrival != 0 ==> Within(timestamp, arrival + offset, SECOND)
  }

  /**
   * The device clock is the host's steady clock plus an unknown offset, read to within a second: every
   * valid reference observation and LiDAR clock c show it. The other LiDAR clock is somewhere else.
   */
  predicate Disciplined(e: Event, offset: int, c: Candidate) {
    match e
    case Board(timestamp, arrival) => Shows(timestamp, arrival, offset)
    case CameraMeta(timestamp, arrival) => Shows(timestamp, arrival, offset)
    case Lidar(_, _, arrival) =>
      && ValueOf(e, c) != 0 && Within(ValueOf(e, c), arrival + offset, SECOND)
      && (OtherOf(e, c) != 0 ==> Gap(OtherOf(e, c), ValueOf(e, c)) > 2 * MAX_DELTA)
  }

  /** The reference, carried forward, stays within a second of the device clock. */
  predicate OnClock(r: Reference, offset: int) {
    r.source.NoSource? || Within(r.timestamp, r.arrival + offset, SECOND)
  }

  lemma {:induction false} ReferenceFollowsClock(r: Reference, events: seq<Event>, offset: int, c: Candidate)
    requires OnClock(r, offset)
    requires forall i :: 0 <= i < |events| ==> Disciplined(events[i], offset, c)
    ensures OnClock(After(r, events), offset)
  {
    if events != [] {
      var n := |events| - 1;
      ReferenceFollowsClock(r, events[..n], offset, c);
      assert Disciplined(events[n], offset, c);
    }
  }

  /**
   * Over every run from a reset, in any order of arrivals: each resolution picks the clock that is the
   * device's, exactly while the reference is fresh (and its extrapolation fits 64 bits). It never switches.
   */
  lemma NeverSwitches(events: seq<Event>, offset: int, c: Candidate, i: nat)
    requires i < |events| && events[i].Lidar?
    requires forall k :: 0 <= k < |events| ==> Disciplined(events[k], offset, c)
    ensures var r, e := After(NO_REFERENCE, events[..i]), events[i];
            Resolve(r, e.sdk, e.raw, e.arrival) ==
              if Fresh(r, e.arrival) && Expected(r, e.arrival) <= U64_MAX
              then Some(Resolution(ValueOf(e, c), c)) else None
  {
    var r, e := After(NO_REFERENCE, events[..i]), events[i];
    ReferenceFollowsClock(NO_REFERENCE, events[..i], offset, c);
    assert Disciplined(e, offset, c);
    ClockSelected(r, e, c);
  }

  // ---- which observation the reference is ----

  /** Some time and arrival are known. */
  predicate Valid(e: Event) {
    !e.Lidar? && e.timestamp != 0 && e.arrival != 0
  }

  predicate Refers(r: Reference, e: Event) {
    && !e.Lidar? && r.timestamp == e.timestamp && r.arrival == e.arrival
    && r.source == (if e.Board? then BoardImu else Camera)
  }

  /** A camera observation within two seconds after a board observation is not taken. */
  predicate Overruled(later: Event, e: Event) {
    later.CameraMeta? && e.Board? && e.arrival <= later.arrival <= e.arrival + 2_000_000_000
  }

  /**
   * Over every run from a reset: the reference is the last valid observation, camera ones within two
   * seconds after the board observation that it is aside; without valid observations there is none.
   */
  lemma {:induction false} ReferenceIsLatest(events: seq<Event>) returns (i: nat)
    ensures After(NO_REFERENCE, events) == NO_REFERENCE ==> forall k :: 0 <= k < |events| ==> !Valid(events[k])
    ensures After(NO_REFERENCE, events) != NO_REFERENCE ==>
              && i < |events| && Valid(events[i]) && Refers(After(NO_REFERENCE, events), events[i])
              && forall k :: i < k < |events| && Valid(events[k]) ==> Overruled(events[k], events[i])
  {
    i := 0;
    if events != [] {
      var n := |events| - 1;
      i := ReferenceIsLatest(events[..n]);
      var before, after := After(NO_REFERENCE, events[..n]), After(NO_REFERENCE, events);
      if after != before || (Valid(events[n]) && Refers(after, events[n])) {
        i := n;
      }
    }
  }

  /** A reference can be used for five seconds from its arrival, and one that does not exist never. */
  lemma FreshExactly(r: Reference, now: uint64)
    ensures Fresh(r, now) <==> r.source != NoSource && r.arrival <= now <= r.arrival + 5_000_000_000
  {
  }

  /** A clock is the device's if it is known and at most two seconds from it. */
  lemma NearExactly(candidate: uint64, expected: nat)
    ensures Near(candidate, expected) <==>
              candidate != 0 && candidate <= expected + 2_000_000_000 && expected <= candidate + 2_000_000_000
  {
  }
}
