// driver.cpp: how starting and stopping streams arms and disarms their health checks.
module CaptureHealth {
  import opened Words
  import opened SensorHealth
  import PointOffset

  const CAMERAS: nat := 4
  const CAMERA_METADATA: Stream := 4
  const BOARD_IMUS: nat := 2
  const BOARD_IMU: Stream := 5
  const LIDAR_IMU: Stream := 8
  const ROVER_RTCM: Stream := 16
  const LOST_BYTES: Issue := 10
  const SILENCE: uint64 := 5_000_000_000

  function Power2(i: nat): (r: nat)
    ensures r > 0
  {
    if i == 0 then 1 else 2 * Power2(i - 1)
  }

  /** mask & (1 << slot) */
  predicate Present(mask: uint8, slot: nat) {
    mask / Power2(slot) % 2 == 1
  }

  /** The silence limit of a slot; an absent one is never reported silent. */
  function SlotSilence(mask: uint8, slot: nat): uint64 {
    if Present(mask, slot) then SILENCE else 0
  }

  /** One sensor slot after another is reset; the rest stays. */
  predicate SlotsReset(before: States, after: States, first: Stream, slots: nat, mask: uint8, rate: Option<real>,
                       nows: seq<uint64>)
    requires slots <= |nows|
  {
    forall k :: 0 <= k < STREAMS ==>
      after[k] == if first <= k < first + slots
                  then Apply(before[k], OpReset(nows[k - first], rate, SlotSilence(mask, k - first)))
                  else before[k]
  }

  /** The loops over camera and IMU slots; the steady clock is read anew for each. */
  method ResetSlots(health: SensorDataHealth, first: Stream, slots: nat, mask: uint8, rate: Option<real>,
                    nows: seq<uint64>)
    requires first + slots <= STREAMS && slots <= |nows|
    modifies health
    ensures SlotsReset(old(health.states), health.states, first, slots, mask, rate, nows)
  {
    for i := 0 to slots
      invariant SlotsReset(old(health.states), health.states, first, i, mask, rate, nows)
    {
      health.ResetStream(first + i, nows[i], rate, if Present(mask, i) then SILENCE else 0);
    }
  }

  /** After the camera start was acknowledged with fps. */
  method ArmCamera(health: SensorDataHealth, fps: Option<real>, mask: uint8, nows: seq<uint64>)
    requires |nows| == CAMERAS + 1
    modifies health
    ensures forall k :: 0 <= k < STREAMS ==>
      health.states[k] == if k < CAMERAS then Apply(old(health.states)[k], OpReset(nows[k], fps, SlotSilence(mask, k)))
                          else if k == CAMERA_METADATA
                          then Apply(old(health.states)[k], OpReset(nows[k], fps, SILENCE))
                          else old(health.states)[k]
  {
    ResetSlots(health, 0, CAMERAS, mask, fps, nows);
    health.ResetStream(CAMERA_METADATA, nows[CAMERAS], fps, SILENCE);
  }

  /** Before the board IMU is started; a configured rate of 0 stands for the detected one. */
  method ArmBoardImu(health: SensorDataHealth, configuredHz: nat, detected: Option<real>, mask: uint8,
                     nows: seq<uint64>)
    requires |nows| == BOARD_IMUS
    modifies health
    ensures SlotsReset(old(health.states), health.states, BOARD_IMU, BOARD_IMUS, mask,
                       if configuredHz != 0 then Some(configuredHz as real) else detected, nows)
  {
    var rate := if configuredHz != 0 then Some(configuredHz as real) else detected;
    ResetSlots(health, BOARD_IMU, BOARD_IMUS, mask, rate, nows);
  }

  /** Before the rover RTCM start: no rate, no silence limit, and a new baseline for lost bytes. */
  method ArmRover(health: SensorDataHealth, now: uint64)
    modifies health
    ensures health.states == old(health.states)[ROVER_RTCM :=
      Apply(Apply(old(health.states)[ROVER_RTCM], OpReset(now, Some(0.0), 0)), OpResetCounter(LOST_BYTES))]
  {
    health.ResetStream(ROVER_RTCM, now, Some(0.0), 0);
    health.ResetCounter(ROVER_RTCM, LOST_BYTES);
  }

  /** Before the LiDAR start; an XT32 has no IMU to go silent. */
  method ArmLidar(health: SensorDataHealth, xt32: bool, pointsNow: uint64, imuNow: uint64)
    modifies health
    ensures health.states == old(health.states)
      [LIDAR_POINTS := Apply(old(health.states)[LIDAR_POINTS], OpReset(pointsNow, Some(0.0), SILENCE))]
      [LIDAR_IMU := Apply(old(health.states)[LIDAR_IMU], OpReset(imuNow, Some(0.0), if xt32 then 0 else SILENCE))]
  {
    health.ResetStream(LIDAR_POINTS, pointsNow, Some(0.0), SILENCE);
    health.ResetStream(LIDAR_IMU, imuNow, Some(0.0), if xt32 then 0 else SILENCE);
  }

  /** disableCaptureHealth */
  method DisarmCapture(health: SensorDataHealth)
    modifies health
    ensures forall k :: 0 <= k < STREAMS ==>
      health.states[k] == if k <= LIDAR_IMU then Apply(old(health.states)[k], OpDisable) else old(health.states)[k]
  {
    for i := 0 to LIDAR_IMU + 1
      invariant forall k :: 0 <= k < STREAMS ==>
        health.states[k] == if k < i then Apply(old(health.states)[k], OpDisable) else old(health.states)[k]
    {
      health.Disable(i);
    }
  }

  function BitsFrom(mask: uint8, slot: nat): nat
    requires slot <= 8
    decreases 8 - slot
  {
    if slot == 8 then 0 else (if Present(mask, slot) then Power2(slot) else 0) + BitsFrom(mask, slot + 1)
  }

  lemma NextBit(mask: nat, p: nat)
    requires p > 0
    ensures mask / p == 2 * (mask / (2 * p)) + mask / p % 2
  {
    var q := mask / p;
    PointOffset.DivisionUnique(mask, p, q);
    PointOffset.DivisionUnique(mask, 2 * p, q / 2);
    assert q == 2 * (q / 2) + q % 2;
    assert q * p == q / 2 * (2 * p) + q % 2 * p;
  }

  lemma Recombine(q: nat, r: nat, bit: nat, p: nat)
    requires q == 2 * r + bit
    ensures q * p == r * (2 * p) + bit * p
  {
  }

  lemma {:induction false} BitsAbove(mask: uint8, slot: nat)
    requires slot <= 8
    ensures BitsFrom(mask, slot) == mask / Power2(slot) * Power2(slot)
    decreases 8 - slot
  {
    if slot == 8 {
      Power2Of8();
    } else {
      var p := Power2(slot);
      BitsAbove(mask, slot + 1);
      NextBit(mask, p);
      Recombine(mask / p, mask / (2 * p), mask / p % 2, p);
    }
  }

  lemma Power2Of8()
    ensures Power2(8) == 256
  {
    assert Power2(4) == 16;
    assert Power2(8) == 2 * (2 * (2 * (2 * Power2(4))));
  }

  /** A mask is the sum of the bits of its slots. */
  lemma MaskIsItsSlots(mask: uint8)
    ensures BitsFrom(mask, 0) == mask
  {
    BitsAbove(mask, 0);
    assert Power2(0) == 1;
  }

  // ---- what a stream's check does from then on ----

  /** Some moment from now on would find the stream silent if nothing else happened to it. */
  ghost predicate CanGoSilent(s: StreamHealth) {
    exists later: uint64 :: Stale(s, later)
  }

  /** A slot is watched after its start exactly when its sensor is present, while the clock leaves room. */
  lemma SlotWatchedExactly(s: StreamHealth, now: uint64, rate: Option<real>, mask: uint8, slot: nat)
    ensures var armed := Apply(s, OpReset(now, rate, SlotSilence(mask, slot)));
            CanGoSilent(armed) <==> Present(mask, slot) && now + armed.silence <= U64_MAX
  {
    var armed := Apply(s, OpReset(now, rate, SlotSilence(mask, slot)));
    if Present(mask, slot) && now + armed.silence <= U64_MAX {
      assert Stale(armed, now + armed.silence);
    }
  }

  /** Nothing but a reset arms a disarmed check: over any other history the stream is never silent. */
  lemma {:induction false} StaysDisarmed(s: StreamHealth, ops: seq<Op>)
    requires forall i :: 0 <= i < |ops| ==> !ops[i].OpReset?
    ensures var end := After(Apply(s, OpDisable), ops);
            end.silence == 0 && !CanGoSilent(end)
  {
    if ops != [] {
      var before, op := ops[..|ops| - 1], ops[|ops| - 1];
      StaysDisarmed(s, before);
      KeepsSilence(After(Apply(s, OpDisable), before), op);
    }
  }

  lemma KeepsSilence(s: StreamHealth, op: Op)
    requires !op.OpReset? && s.silence == 0
    ensures Apply(s, op).silence == 0
  {
    match op
    case OpObserve(now, stamp, sequence, bits, equalValid) =>
      ObserveKeepsSilence(s, now, stamp, sequence, bits, equalValid);
    case _ =>
  }

  lemma ObserveKeepsSilence(s: StreamHealth, now: uint64, stamp: uint64, sequence: Option<uint64>, bits: nat,
                            equalValid: bool)
    ensures Observe(s, now, stamp, sequence, bits, equalValid).silence == s.silence
  {
    var touched := Touch(s, now);
    var classified := if sequence.Some? then Classify(touched, sequence.value, bits).(sequence := sequence)
                      else touched;
    assert classified.silence == s.silence;
  }
}
