// sensor_data_health.hpp: per-stream evidence of lost, duplicated and late data.
// Counts are unbounded; sequence ids, stamps and clocks are 64-bit; the period is a real.
module SensorHealth {
  import opened Words

  const ISSUES: nat := 24
  const STREAMS: nat := 22

  type Issue = i: nat | i < ISSUES
  type Stream = i: nat | i < STREAMS

  const LIDAR_POINTS: Stream := 7

  const SEQUENCE_MISSING: Issue := 0
  const SEQUENCE_DUPLICATE: Issue := 1
  const SEQUENCE_RESET: Issue := 2
  const TIMESTAMP_GAP: Issue := 3
  const ESTIMATED_MISSING: Issue := 4
  const TIMESTAMP_DUPLICATE: Issue := 5
  const TIMESTAMP_BACKWARD: Issue := 6
  const INCOMPLETE: Issue := 8
  const UNSYNCHRONIZED: Issue := 11
  const QUEUE_DROP: Issue := 12
  const CALLBACK_ERROR: Issue := 13
  const QUERY_ERROR: Issue := 14
  const SESSION_CHANGED: Issue := 15

  const REPORT_INTERVAL: nat := 5_000_000_000
  const ESTIMATE_CAP: nat := 1_000_000_000

  type Counts = s: seq<nat> | |s| == ISSUES witness seq(ISSUES, _ => 0)
  type Flags = s: seq<bool> | |s| == ISSUES witness seq(ISSUES, _ => false)
  type Baselines = s: seq<Option<nat>> | |s| == ISSUES witness seq(ISSUES, _ => None)

  function ForEachIssue<T>(x: T): (r: seq<T>)
    ensures |r| == ISSUES && forall i :: 0 <= i < ISSUES ==> r[i] == x
  {
    seq(ISSUES, _ => x)
  }

  const ZEROS: Counts := ForEachIssue(0)
  const CLEAR: Flags := ForEachIssue(false)
  const UNSET: Baselines := ForEachIssue(None)

  datatype StreamHealth = StreamHealth(
    sequence: Option<uint64>, stamp: Option<uint64>, session: Option<uint64>,
    counters: Baselines, conditions: Flags, pending: Counts, total: Counts,
    period: real, silence: uint64, lastArrival: uint64, lastReport: uint64,
    reported: bool, staleReported: bool, detail: seq<uint8>)

  const FRESH := StreamHealth(None, None, None, UNSET, CLEAR, ZEROS, ZEROS, 0.0, 0, 0, 0, false, false, [])

  /** What a log line says: increments and totals, how long the stream was silent, last id, last error. */
  datatype Warning = Warning(at: uint64, forced: bool, counts: Counts, totals: Counts,
                             noDataMs: Option<nat>, lastSequence: Option<uint64>, lastError: seq<uint8>)

  // ---- one stream, as functions ----

  function Add(s: StreamHealth, issue: Issue, count: nat): StreamHealth {
    s.(pending := s.pending[issue := s.pending[issue] + count],
       total := s.total[issue := s.total[issue] + count])
  }

  /** rate is None for an infinite or NaN rate_hz. */
  function PeriodOf(rate: Option<real>): real {
    match rate
    case Some(hz) => if 0.001 <= hz <= 1000000.0 then 1000000000.0 / hz else 0.0
    case None => 0.0
  }

  lemma PeriodBound(rate: Option<real>)
    ensures 0.0 <= PeriodOf(rate) <= 1000000000000.0
  {
    if rate.Some? && 0.001 <= rate.value <= 1000000.0 {
      Quotient(1000000000.0, rate.value, 1000000000000.0);
      assert 1000000000000.0 * rate.value >= 1000000000.0;
    }
  }

  /** Comparing a quotient with a bound. */
  lemma Quotient(a: real, b: real, bound: real)
    requires 0.0 < b
    ensures a / b <= bound <==> a <= bound * b
    ensures a / b < bound <==> a < bound * b
    ensures 0.0 <= a ==> 0.0 <= a / b
  {
    assert a / b * b == a;
    var d := bound - a / b;
    assert d * b == bound * b - a;
    Sign(d, b);
    Sign(a / b, b);
  }

  lemma Sign(d: real, b: real)
    requires 0.0 < b
    ensures 0.0 <= d <==> 0.0 <= d * b
    ensures 0.0 < d <==> 0.0 < d * b
  {
    if d > 0.0 {
      assert d * b > 0.0;
    } else if d < 0.0 {
      assert (-d) * b > 0.0;
    }
  }

  function Reset(s: StreamHealth, now: uint64, rate: Option<real>, silence: uint64): StreamHealth {
    var period := PeriodOf(rate);
    PeriodBound(rate);
    var three: nat := (3.0 * period).Floor;
    var longer: uint64 := if period > 0.0 && silence > 0 && three > silence then three else silence;
    s.(sequence := None, stamp := None, session := None, conditions := CLEAR,
       lastArrival := now, staleReported := false, period := period, silence := longer)
  }

  function Touch(s: StreamHealth, now: uint64): StreamHealth {
    s.(lastArrival := now, staleReported := false)
  }

  function Session(s: StreamHealth, id: uint64): StreamHealth {
    var changed := s.session.Some? && s.session.value != id;
    var started := if changed then Add(s, SESSION_CHANGED, 1).(sequence := None, stamp := None, conditions := CLEAR)
                   else s;
    started.(session := Some(id))
  }

  function Condition(s: StreamHealth, issue: Issue, active: bool): StreamHealth {
    var edge := if active && !s.conditions[issue] then Add(s, issue, 1) else s;
    edge.(conditions := s.conditions[issue := active])
  }

  const DETAIL_LIMIT: nat := 256
  const SPACE: uint8 := 32

  function Printable(c: uint8): uint8 {
    if c < SPACE then SPACE else c
  }

  /** The first 256 bytes, control characters blanked. */
  function Cleaned(detail: seq<uint8>): (r: seq<uint8>)
    ensures |r| == if |detail| < DETAIL_LIMIT then |detail| else DETAIL_LIMIT
    ensures forall i :: 0 <= i < |r| ==> r[i] == Printable(detail[i])
  {
    var kept := if |detail| < DETAIL_LIMIT then detail else detail[..DETAIL_LIMIT];
    seq(|kept|, i requires 0 <= i < |kept| => Printable(kept[i]))
  }

  function Counter(s: StreamHealth, issue: Issue, value: nat, initialIsNew: bool): StreamHealth {
    var previous := s.counters[issue];
    var counted :=
      if previous.Some? && value >= previous.value then Add(s, issue, value - previous.value)
      else if previous.None? && initialIsNew then Add(s, issue, value)
      else s;
    counted.(counters := s.counters[issue := Some(value)])
  }

  // ---- observe ----

  function Modulus(bits: nat): nat {
    if bits == 16 then 0x1_0000 else if bits == 32 then 0x1_0000_0000 else 0x1_0000_0000_0000_0000
  }

  /** The modular distance from one id to the next. */
  function Delta(from: uint64, to: uint64, bits: nat): nat {
    Wrap64(to - from) % Modulus(bits)
  }

  /** Counts an id as duplicate, reset or gap against the last one; storing it is the caller's part. */
  function Classify(s: StreamHealth, sequence: uint64, bits: nat): StreamHealth {
    if s.sequence.None? then s
    else
      var delta := Delta(s.sequence.value, sequence, bits);
      if delta == 0 then Add(s, SEQUENCE_DUPLICATE, 1)
      else if delta >= Modulus(bits) / 2 then Add(s, SEQUENCE_RESET, 1)
      else if delta > 1 then Add(s, SEQUENCE_MISSING, delta - 1)
      else s
  }

  predicate IsReset(s: StreamHealth, sequence: Option<uint64>, bits: nat) {
    s.sequence.Some? && sequence.Some?
    && Delta(s.sequence.value, sequence.value, bits) >= Modulus(bits) / 2
  }

  /** std::round of a non-negative value. */
  function Round(x: real): int {
    (x + 0.5).Floor
  }

  lemma GapRounds(gap: nat, period: real)
    requires period > 0.0 && gap as real > 1.5 * period
    ensures Round(gap as real / period) >= 2
  {
    Quotient(gap as real, period, 1.5);
  }

  function Estimate(gap: nat, period: real): nat
    requires period > 0.0 && gap as real > 1.5 * period
  {
    GapRounds(gap, period);
    var estimate := Round(gap as real / period) - 1;
    if estimate < ESTIMATE_CAP then estimate else ESTIMATE_CAP
  }

  /** Counts a stamp as backward, duplicate or gap against the last one, unless the id was reset. */
  function CheckStamp(s: StreamHealth, stamp: uint64, skip: bool, equalValid: bool): StreamHealth {
    if stamp == 0 || s.stamp.None? || skip then s
    else
      var last := s.stamp.value;
      if stamp < last then Add(s, TIMESTAMP_BACKWARD, 1)
      else if stamp == last then (if equalValid then s else Add(s, TIMESTAMP_DUPLICATE, 1))
      else if s.period > 0.0 && (stamp - last) as real > 1.5 * s.period then
        Add(Add(s, TIMESTAMP_GAP, 1), ESTIMATED_MISSING, Estimate(stamp - last, s.period))
      else s
  }

  function Observe(s: StreamHealth, now: uint64, stamp: uint64, sequence: Option<uint64>, bits: nat,
                   equalValid: bool): StreamHealth
  {
    var touched := Touch(s, now);
    var skip := IsReset(s, sequence, bits);
    var classified := if sequence.Some? then Classify(touched, sequence.value, bits).(sequence := sequence)
                      else touched;
    CheckStamp(classified, stamp, skip, equalValid).(stamp := if stamp != 0 then Some(stamp) else None)
  }

  // ---- reports ----

  predicate Stale(s: StreamHealth, now: uint64) {
    s.silence > 0 && now >= s.lastArrival && now - s.lastArrival >= s.silence
  }

  predicate AnyPending(s: StreamHealth) {
    exists j :: 0 <= j < ISSUES && s.pending[j] != 0
  }

  predicate Due(s: StreamHealth, now: uint64, force: bool) {
    && (AnyPending(s) || (Stale(s, now) && !s.staleReported))
    && (force || !s.reported || Wrap64(now - s.lastReport) >= REPORT_INTERVAL)
  }

  function Line(s: StreamHealth, now: uint64, force: bool): Warning {
    Warning(now, force, s.pending, s.total,
            if Stale(s, now) then Some((now - s.lastArrival) / 1_000_000) else None, s.sequence, s.detail)
  }

  function Reported(s: StreamHealth, now: uint64, force: bool): StreamHealth {
    if !Due(s, now, force) then s
    else s.(pending := ZEROS, lastReport := now, reported := true, detail := [], staleReported := Stale(s, now))
  }

  // ---- operations on one stream, and their histories ----

  datatype Op =
    | OpReset(now: uint64, rate: Option<real>, silence: uint64)
    | OpDisable
    | OpTouch(now: uint64)
    | OpSession(id: uint64)
    | OpAdd(issue: Issue, count: nat)
    | OpCondition(issue: Issue, active: bool)
    | OpResetCounter(issue: Issue)
    | OpQueryError(text: seq<uint8>)
    | OpCounter(issue: Issue, value: nat, initialIsNew: bool)
    | OpObserve(now: uint64, stamp: uint64, sequence: Option<uint64>, bits: nat, equalValid: bool)
    | OpReport(now: uint64, force: bool)

  function Apply(s: StreamHealth, op: Op): StreamHealth {
    match op
    case OpReset(now, rate, silence) => Reset(s, now, rate, silence)
    case OpDisable => s.(silence := 0)
    case OpTouch(now) => Touch(s, now)
    case OpSession(id) => Session(s, id)
    case OpAdd(issue, count) => Add(s, issue, count)
    case OpCondition(issue, active) => Condition(s, issue, active)
    case OpResetCounter(issue) => s.(counters := s.counters[issue := None])
    case OpQueryError(text) => Add(s, QUERY_ERROR, 1).(detail := Cleaned(text))
    case OpCounter(issue, value, initialIsNew) => Counter(s, issue, value, initialIsNew)
    case OpObserve(now, stamp, sequence, bits, equalValid) => Observe(s, now, stamp, sequence, bits, equalValid)
    case OpReport(now, force) => Reported(s, now, force)
  }

  /** The log line an operation prints, if any. */
  function Printed(s: StreamHealth, op: Op): seq<Warning> {
    if op.OpReport? && Due(s, op.now, op.force) then [Line(s, op.now, op.force)] else []
  }

  function After(s: StreamHealth, ops: seq<Op>): StreamHealth {
    if ops == [] then s else Apply(After(s, ops[..|ops| - 1]), ops[|ops| - 1])
  }

  function Log(s: StreamHealth, ops: seq<Op>): seq<Warning> {
    if ops == [] then []
    else Log(s, ops[..|ops| - 1]) + Printed(After(s, ops[..|ops| - 1]), ops[|ops| - 1])
  }

  // ---- the class ----

  type States = s: seq<StreamHealth> | |s| == STREAMS witness seq(STREAMS, _ => FRESH)

  /** The lines of the first n streams. */
  function LinesOf(states: States, now: uint64, force: bool, n: nat): seq<(Stream, Warning)>
    requires n <= STREAMS
  {
    if n == 0 then []
    else LinesOf(states, now, force, n - 1)
         + (if Due(states[n - 1], now, force) then [(n - 1, Line(states[n - 1], now, force))] else [])
  }

  class SensorDataHealth {
    var states: States

    constructor ()
      ensures forall i :: 0 <= i < STREAMS ==> states[i] == FRESH
    {
      states := seq(STREAMS, _ => FRESH);
    }

    method ResetStream(stream: Stream, now: uint64, rate: Option<real>, silence: uint64)
      modifies this
      ensures states == old(states)[stream := Apply(old(states)[stream], OpReset(now, rate, silence))]
    {
      var s := states[stream];
      s := s.(sequence := None, stamp := None, session := None);
      s := s.(conditions := CLEAR);
      s := s.(lastArrival := now, staleReported := false);
      s := s.(period := PeriodOf(rate));
      s := s.(silence := silence);
      if s.period > 0.0 && silence != 0 {
        PeriodBound(rate);
        var three: nat := (3.0 * s.period).Floor;
        s := s.(silence := if three > silence then three else silence);
      }
      states := states[stream := s];
    }

    method Disable(stream: Stream)
      modifies this
      ensures states == old(states)[stream := Apply(old(states)[stream], OpDisable)]
    {
      states := states[stream := states[stream].(silence := 0)];
    }

    method TouchStream(stream: Stream, now: uint64)
      modifies this
      ensures states == old(states)[stream := Apply(old(states)[stream], OpTouch(now))]
    {
      states := states[stream := states[stream].(lastArrival := now, staleReported := false)];
    }

    method AddIssue(stream: Stream, issue: Issue, count: nat := 1)
      modifies this
      ensures states == old(states)[stream := Apply(old(states)[stream], OpAdd(issue, count))]
    {
      var s := states[stream];
      s := s.(pending := s.pending[issue := s.pending[issue] + count]);
      s := s.(total := s.total[issue := s.total[issue] + count]);
      states := states[stream := s];
    }

    method BeginSession(stream: Stream, id: uint64)
      modifies this
      ensures states == old(states)[stream := Apply(old(states)[stream], OpSession(id))]
    {
      if states[stream].session.Some? && states[stream].session.value != id {
        AddIssue(stream, SESSION_CHANGED);
        states := states[stream := states[stream].(sequence := None, stamp := None)];
        states := states[stream := states[stream].(conditions := CLEAR)];
      }
      states := states[stream := states[stream].(session := Some(id))];
    }

    method SetCondition(stream: Stream, issue: Issue, active: bool)
      modifies this
      ensures states == old(states)[stream := Apply(old(states)[stream], OpCondition(issue, active))]
    {
      if active && !states[stream].conditions[issue] {
        AddIssue(stream, issue);
      }
      var s := states[stream];
      states := states[stream := s.(conditions := s.conditions[issue := active])];
    }

    method ResetCounter(stream: Stream, issue: Issue)
      modifies this
      ensures states == old(states)[stream := Apply(old(states)[stream], OpResetCounter(issue))]
    {
      var s := states[stream];
      states := states[stream := s.(counters := s.counters[issue := None])];
    }

    method QueryError(stream: Stream, detail: seq<uint8>)
      modifies this
      ensures states == old(states)[stream := Apply(old(states)[stream], OpQueryError(detail))]
    {
      AddIssue(stream, QUERY_ERROR);
      var text := if |detail| < 256 then detail else detail[..256];
      ghost var kept := text;
      for i := 0 to |text|
        invariant |text| == |kept|
        invariant forall k :: 0 <= k < i ==> text[k] == Printable(kept[k])
        invariant forall k :: i <= k < |text| ==> text[k] == kept[k]
      {
        if text[i] < 32 {
          text := text[i := 32];
        }
      }
      assert text == Cleaned(detail);
      states := states[stream := states[stream].(detail := text)];
    }

    method CountTo(stream: Stream, issue: Issue, value: nat, initialIsNew: bool := false)
      modifies this
      ensures states == old(states)[stream := Apply(old(states)[stream], OpCounter(issue, value, initialIsNew))]
    {
      var previous := states[stream].counters[issue];
      if previous.Some? && value >= previous.value {
        AddIssue(stream, issue, value - previous.value);
      } else if previous.None? && initialIsNew {
        AddIssue(stream, issue, value);
      }
      var s := states[stream];
      states := states[stream := s.(counters := s.counters[issue := Some(value)])];
    }

    /** The distance of two ids at their width, and half of their range. */
    static method ModularDelta(from: uint64, to: uint64, bits: nat) returns (delta: nat, half: nat)
      ensures delta == Delta(from, to, bits) && half == Modulus(bits) / 2
    {
      var rawDelta := Wrap64(to - from);
      delta := if bits == 16 then rawDelta % 0x1_0000
               else if bits == 32 then rawDelta % 0x1_0000_0000 else rawDelta;
      half := if bits == 16 then 0x8000
              else if bits == 32 then 0x8000_0000 else 0x8000_0000_0000_0000;
    }

    /** The id part of observe. */
    method ObserveSequence(stream: Stream, sequence: uint64, bits: nat) returns (resetSequence: bool)
      modifies this
      ensures resetSequence == IsReset(old(states)[stream], Some(sequence), bits)
      ensures states == old(states)[stream :=
        Classify(old(states)[stream], sequence, bits).(sequence := Some(sequence))]
    {
      resetSequence := false;
      if states[stream].sequence.Some? {
        var delta, half := ModularDelta(states[stream].sequence.value, sequence, bits);
        if delta == 0 {
          AddIssue(stream, SEQUENCE_DUPLICATE);
        } else if delta >= half {
          AddIssue(stream, SEQUENCE_RESET);
          resetSequence := true;
        } else if delta > 1 {
          AddIssue(stream, SEQUENCE_MISSING, delta - 1);
        }
      }
      states := states[stream := states[stream].(sequence := Some(sequence))];
    }

    /** The stamp part of observe. */
    method ObserveStamp(stream: Stream, stamp: uint64, resetSequence: bool, equalValid: bool)
      modifies this
      ensures states == old(states)[stream :=
        CheckStamp(old(states)[stream], stamp, resetSequence, equalValid)
          .(stamp := if stamp != 0 then Some(stamp) else None)]
    {
      var s := states[stream];
      if stamp != 0 && s.stamp.Some? && !resetSequence {
        if stamp < s.stamp.value {
          AddIssue(stream, TIMESTAMP_BACKWARD);
        } else if stamp == s.stamp.value {
          if !equalValid {
            AddIssue(stream, TIMESTAMP_DUPLICATE);
          }
        } else if s.period > 0.0 && (stamp - s.stamp.value) as real > 1.5 * s.period {
          AddIssue(stream, TIMESTAMP_GAP);
          AddIssue(stream, ESTIMATED_MISSING, Estimate(stamp - s.stamp.value, s.period));
        }
      }
      states := states[stream := states[stream].(stamp := if stamp != 0 then Some(stamp) else None)];
    }

    method ObserveSample(stream: Stream, now: uint64, stamp: uint64, sequence: Option<uint64> := None,
                         bits: nat := 32, equalValid: bool := false)
      modifies this
      ensures states == old(states)[stream :=
        Apply(old(states)[stream], OpObserve(now, stamp, sequence, bits, equalValid))]
    {
      TouchStream(stream, now);
      var resetSequence := false;
      if sequence.Some? {
        resetSequence := ObserveSequence(stream, sequence.value, bits);
      }
      ObserveStamp(stream, stamp, resetSequence, equalValid);
    }

    /** The body of the loop of reports. */
    method ReportStream(i: Stream, now: uint64, force: bool) returns (lines: seq<(Stream, Warning)>)
      modifies this
      ensures states == old(states)[i := Apply(old(states)[i], OpReport(now, force))]
      ensures lines == if Due(old(states)[i], now, force) then [(i, Line(old(states)[i], now, force))] else []
    {
      lines := [];
      var s := states[i];
      var stale := s.silence != 0 && now >= s.lastArrival && now - s.lastArrival >= s.silence;
      var pending := exists j :: 0 <= j < ISSUES && s.pending[j] != 0;
      if !pending && !(stale && !s.staleReported) {
        return;
      }
      if !force && s.reported && Wrap64(now - s.lastReport) < REPORT_INTERVAL {
        return;
      }
      var noDataMs := if stale then Some((now - s.lastArrival) / 1_000_000) else None;
      lines := [(i, Warning(now, force, s.pending, s.total, noDataMs, s.sequence, s.detail))];
      s := s.(pending := ZEROS, lastReport := now, reported := true);
      s := s.(detail := []);
      states := states[i := s.(staleReported := stale)];
    }

    method Reports(now: uint64, force: bool := false) returns (result: seq<(Stream, Warning)>)
      modifies this
      ensures forall i :: 0 <= i < STREAMS ==> states[i] == Apply(old(states)[i], OpReport(now, force))
      ensures result == LinesOf(old(states), now, force, STREAMS)
    {
      result := [];
      for i := 0 to STREAMS
        invariant forall k :: 0 <= k < i ==> states[k] == Apply(old(states)[k], OpReport(now, force))
        invariant forall k :: i <= k < STREAMS ==> states[k] == old(states)[k]
        invariant result == LinesOf(old(states), now, force, i)
      {
        var lines := ReportStream(i, now, force);
        result := result + lines;
      }
    }
  }
}
