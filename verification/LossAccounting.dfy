// Over every history of one stream's health: no count is lost, warnings are throttled,
// and silence is reported once.
module LossAccounting {
  import opened Words
  import opened SensorHealth

  lemma AfterSnoc(s: StreamHealth, ops: seq<Op>, op: Op)
    ensures After(s, ops + [op]) == Apply(After(s, ops), op)
  {
    assert (ops + [op])[..|ops|] == ops;
  }

  lemma AfterTwo(s: StreamHealth, a: Op, b: Op)
    ensures After(s, [a, b]) == Apply(Apply(s, a), b)
  {
    assert [a, b][..1] == [a] && [a][..0] == [];
    assert After(s, [a]) == Apply(After(s, []), a);
  }

  /** What the warnings say about an issue, added up. */
  function PrintedCount(log: seq<Warning>, issue: Issue): nat {
    if log == [] then 0
    else PrintedCount(log[..|log| - 1], issue) + log[|log| - 1].counts[issue]
  }

  lemma PrintedSnoc(log: seq<Warning>, w: Warning, issue: Issue)
    ensures PrintedCount(log + [w], issue) == PrintedCount(log, issue) + w.counts[issue]
  {
    assert (log + [w])[..|log|] == log;
  }

  /** Total and pending move together, upwards. */
  predicate Together(s: StreamHealth, next: StreamHealth, issue: Issue) {
    && next.total[issue] + s.pending[issue] == s.total[issue] + next.pending[issue]
    && next.total[issue] >= s.total[issue]
  }

  lemma AddTogether(s: StreamHealth, issue: Issue, count: nat, other: Issue)
    ensures Together(s, Add(s, issue, count), other)
  {
  }

  lemma ClassifyTogether(s: StreamHealth, sequence: uint64, bits: nat, issue: Issue)
    ensures Together(s, Classify(s, sequence, bits), issue)
  {
  }

  lemma CheckStampTogether(s: StreamHealth, stamp: uint64, skip: bool, equalValid: bool, issue: Issue)
    ensures Together(s, CheckStamp(s, stamp, skip, equalValid), issue)
  {
  }

  lemma ObserveTogether(s: StreamHealth, now: uint64, stamp: uint64, sequence: Option<uint64>, bits: nat,
                        equalValid: bool, issue: Issue)
    ensures Together(s, Observe(s, now, stamp, sequence, bits, equalValid), issue)
  {
    var touched := Touch(s, now);
    var skip := IsReset(s, sequence, bits);
    var classified := if sequence.Some? then Classify(touched, sequence.value, bits).(sequence := sequence)
                      else touched;
    if sequence.Some? {
      ClassifyTogether(touched, sequence.value, bits, issue);
    }
    CheckStampTogether(classified, stamp, skip, equalValid, issue);
  }

  lemma ReportBalance(s: StreamHealth, now: uint64, force: bool, issue: Issue)
    ensures var op := OpReport(now, force);
            && Apply(s, op).total == s.total
            && s.pending[issue] == Apply(s, op).pending[issue] + PrintedCount(Printed(s, op), issue)
  {
    if Due(s, now, force) {
      var line := Line(s, now, force);
      assert Printed(s, OpReport(now, force)) == [line] && line.counts == s.pending;
      assert Reported(s, now, force).pending == ZEROS;
      PrintedSnoc([], line, issue);
      assert [] + [line] == [line];
    } else {
      assert Printed(s, OpReport(now, force)) == [];
      assert Apply(s, OpReport(now, force)) == s;
    }
  }

  lemma CountTogether(s: StreamHealth, op: Op, issue: Issue)
    requires !op.OpReport? && !op.OpObserve?
    ensures Together(s, Apply(s, op), issue)
  {
    match op
    case OpSession(_) => AddTogether(s, SESSION_CHANGED, 1, issue);
    case OpCondition(which, _) => AddTogether(s, which, 1, issue);
    case _ =>
  }

  /** One operation moves total and printed + pending by the same amount. */
  lemma StepBalance(s: StreamHealth, op: Op, issue: Issue)
    ensures var next := Apply(s, op);
            && next.total[issue] + s.pending[issue]
               == s.total[issue] + next.pending[issue] + PrintedCount(Printed(s, op), issue)
            && next.total[issue] >= s.total[issue]
  {
    match op
    case OpReport(now, force) => ReportBalance(s, now, force, issue);
    case OpObserve(now, stamp, sequence, bits, equalValid) =>
      ObserveTogether(s, now, stamp, sequence, bits, equalValid, issue);
    case _ => CountTogether(s, op, issue);
  }

  /** For every history: total = printed + pending, issue by issue. */
  lemma {:induction false} NothingLost(s: StreamHealth, ops: seq<Op>, issue: Issue)
    ensures var end := After(s, ops);
            && end.total[issue] + s.pending[issue]
               == s.total[issue] + end.pending[issue] + PrintedCount(Log(s, ops), issue)
            && end.total[issue] >= s.total[issue]
  {
    if ops != [] {
      var before, op := ops[..|ops| - 1], ops[|ops| - 1];
      var mid := After(s, before);
      NothingLost(s, before, issue);
      StepBalance(mid, op, issue);
      if op.OpReport? && Due(mid, op.now, op.force) {
        PrintedSnoc(Log(s, before), Line(mid, op.now, op.force), issue);
        PrintedSnoc([], Line(mid, op.now, op.force), issue);
        assert [] + [Line(mid, op.now, op.force)] == [Line(mid, op.now, op.force)];
      } else {
        assert Log(s, before) + [] == Log(s, before);
      }
    }
  }

  /** A forced report leaves nothing pending: from a fresh stream everything counted has been printed. */
  lemma FlushPrintsEverything(ops: seq<Op>, now: uint64, issue: Issue)
    ensures var all := ops + [OpReport(now, true)];
            && After(FRESH, all).pending == ZEROS
            && PrintedCount(Log(FRESH, all), issue) == After(FRESH, all).total[issue]
            && After(FRESH, all).total[issue] == After(FRESH, ops).total[issue]
  {
    var all := ops + [OpReport(now, true)];
    assert all[..|ops|] == ops;
    NothingLost(FRESH, all, issue);
    var end := After(FRESH, ops);
    if !AnyPending(end) {
      assert end.pending == ZEROS;
    }
  }

  // ---- throttling ----

  /** Report clocks never run back. */
  predicate ClockForward(ops: seq<Op>) {
    forall i, j :: 0 <= i < j < |ops| && ops[i].OpReport? && ops[j].OpReport? ==> ops[i].now <= ops[j].now
  }

  function LatestReport(ops: seq<Op>): nat {
    if ops == [] then 0
    else if ops[|ops| - 1].OpReport? then ops[|ops| - 1].now
    else LatestReport(ops[..|ops| - 1])
  }

  lemma {:induction false} LatestBound(ops: seq<Op>)
    requires ClockForward(ops)
    ensures forall i :: 0 <= i < |ops| && ops[i].OpReport? ==> ops[i].now <= LatestReport(ops)
    ensures LatestReport(ops) == 0 || exists i :: 0 <= i < |ops| && ops[i].OpReport? && ops[i].now == LatestReport(ops)
  {
    if ops != [] {
      LatestBound(ops[..|ops| - 1]);
      if !ops[|ops| - 1].OpReport? && LatestReport(ops) != 0 {
        var i :| 0 <= i < |ops| - 1 && ops[..|ops| - 1][i].OpReport? && ops[..|ops| - 1][i].now == LatestReport(ops);
        assert ops[i].now == LatestReport(ops);
      }
    }
  }

  lemma LatestForward(ops: seq<Op>)
    requires ClockForward(ops) && ops != [] && ops[|ops| - 1].OpReport?
    ensures LatestReport(ops[..|ops| - 1]) <= ops[|ops| - 1].now
  {
    LatestBound(ops[..|ops| - 1]);
  }

  /** The last line was printed at lastReport, at or before `latest`; unforced lines keep their distance. */
  predicate Spaced(s: StreamHealth, log: seq<Warning>, latest: nat) {
    && (log != [] ==> s.reported && s.lastReport == log[|log| - 1].at <= latest)
    && SpacedLog(log)
  }

  predicate SpacedLog(log: seq<Warning>) {
    && (forall i, j :: 0 <= i < j < |log| ==> log[i].at <= log[j].at)
    && (forall i, j :: 0 <= i < j < |log| && !log[j].forced ==> log[j].at - log[i].at >= REPORT_INTERVAL)
  }

  /** Every unforced warning comes at least five seconds after every earlier warning. */
  lemma {:induction false} WarningsSpaced(s: StreamHealth, ops: seq<Op>)
    requires ClockForward(ops)
    ensures Spaced(After(s, ops), Log(s, ops), LatestReport(ops))
  {
    if ops != [] {
      var before, op := ops[..|ops| - 1], ops[|ops| - 1];
      WarningsSpaced(s, before);
      var mid, log := After(s, before), Log(s, before);
      if op.OpReport? {
        LatestForward(ops);
      }
      if op.OpReport? && Due(mid, op.now, op.force) {
        NextWarningSpaced(mid, log, op, LatestReport(before));
      } else {
        assert log + [] == log;
        StepKeepsReport(mid, op);
      }
    }
  }

  lemma StepKeepsReport(s: StreamHealth, op: Op)
    requires op.OpReport? ==> !Due(s, op.now, op.force)
    ensures Apply(s, op).reported == s.reported && Apply(s, op).lastReport == s.lastReport
  {
  }

  lemma NextWarningSpaced(s: StreamHealth, log: seq<Warning>, op: Op, latest: nat)
    requires op.OpReport? && Due(s, op.now, op.force) && Spaced(s, log, latest) && latest <= op.now
    ensures Spaced(Apply(s, op), log + [Line(s, op.now, op.force)], op.now)
  {
    forall i | 0 <= i < |log|
      ensures log[i].at <= op.now && (!op.force ==> op.now - log[i].at >= REPORT_INTERVAL)
    {
      assert log[i].at <= log[|log| - 1].at;
    }
  }

  /** Unforced warnings in the clock interval [from, to]. */
  function UnforcedWithin(log: seq<Warning>, from: nat, to: nat): nat {
    if log == [] then 0
    else
      var w := log[|log| - 1];
      UnforcedWithin(log[..|log| - 1], from, to) + (if !w.forced && from <= w.at <= to then 1 else 0)
  }

  lemma {:induction false} SpacedCount(log: seq<Warning>, from: nat, to: nat, last: nat)
    requires SpacedLog(log)
    requires from <= last && (log != [] ==> log[|log| - 1].at <= last || last == to) && last <= to
    ensures UnforcedWithin(log, from, to) <= (last - from) / REPORT_INTERVAL + 1
    decreases |log|
  {
    if log != [] {
      var rest, w := log[..|log| - 1], log[|log| - 1];
      if !w.forced && from <= w.at <= to {
        if rest != [] && rest[|rest| - 1].at >= from {
          assert w.at - rest[|rest| - 1].at >= REPORT_INTERVAL;
          SpacedCount(rest, from, to, rest[|rest| - 1].at);
          assert (w.at - from) / REPORT_INTERVAL >= (rest[|rest| - 1].at - from) / REPORT_INTERVAL + 1;
          assert (last - from) / REPORT_INTERVAL >= (w.at - from) / REPORT_INTERVAL;
        } else {
          NoneBefore(rest, from, to);
        }
      } else {
        SpacedCount(rest, from, to, last);
      }
    }
  }

  lemma {:induction false} NoneBefore(log: seq<Warning>, from: nat, to: nat)
    requires SpacedLog(log)
    requires log != [] ==> log[|log| - 1].at < from
    ensures UnforcedWithin(log, from, to) == 0
  {
    if log != [] {
      NoneBefore(log[..|log| - 1], from, to);
    }
  }

  /** Any window of length T holds at most T / 5 s + 1 unforced warnings of the stream. */
  lemma ThrottledRate(s: StreamHealth, ops: seq<Op>, from: nat, to: nat)
    requires ClockForward(ops) && from <= to
    ensures UnforcedWithin(Log(s, ops), from, to) <= (to - from) / REPORT_INTERVAL + 1
  {
    WarningsSpaced(s, ops);
    SpacedCount(Log(s, ops), from, to, to);
  }

  // ---- silence ----

  /**
   * After a restart the stream is silent once both its limit and three periods (rounded down to whole
   * nanoseconds) have passed without data; a limit of 0 switches the check off.
   */
  lemma SilentExactly(s: StreamHealth, now: uint64, rate: Option<real>, limit: uint64, later: uint64)
    ensures var started := Reset(s, now, rate, limit);
            Stale(started, later) <==>
              && limit > 0 && later >= now && later - now >= limit
              && (later - now) as real > 3.0 * started.period - 1.0
  {
    PeriodBound(rate);
  }

  predicate SilenceOnly(w: Warning) {
    w.counts == ZEROS
  }

  function SilenceWarnings(log: seq<Warning>): nat {
    if log == [] then 0
    else SilenceWarnings(log[..|log| - 1]) + (if SilenceOnly(log[|log| - 1]) then 1 else 0)
  }

  /** Operations that neither deliver data nor restart the stream. */
  predicate Idle(op: Op) {
    !op.OpReset? && !op.OpTouch? && !op.OpObserve?
  }

  /** Nothing is left to say about silence, now or later. */
  predicate Muted(s: StreamHealth, now: nat) {
    s.staleReported && (s.silence == 0 || (now >= s.lastArrival && now - s.lastArrival >= s.silence))
  }

  lemma MutedStep(s: StreamHealth, op: Op, now: nat)
    requires Muted(s, now) && Idle(op) && (op.OpReport? ==> now <= op.now)
    ensures var later := if op.OpReport? then op.now else now;
            Muted(Apply(s, op), later) || Apply(s, op).silence == 0
    ensures forall w :: w in Printed(s, op) ==> !SilenceOnly(w)
  {
    if op.OpReport? && Due(s, op.now, op.force) && AnyPending(s) {
      var j :| 0 <= j < ISSUES && s.pending[j] != 0;
      assert ZEROS[j] == 0;
    }
  }

  lemma DeafStep(s: StreamHealth, op: Op)
    requires s.silence == 0 && Idle(op)
    ensures Apply(s, op).silence == 0
    ensures forall w :: w in Printed(s, op) ==> !SilenceOnly(w)
  {
    if op.OpReport? && Due(s, op.now, op.force) {
      var j :| 0 <= j < ISSUES && s.pending[j] != 0;
      assert ZEROS[j] == 0;
    }
  }

  lemma FirstSilence(s: StreamHealth, op: Op)
    requires op.OpReport? && Due(s, op.now, op.force) && SilenceOnly(Line(s, op.now, op.force))
    ensures Muted(Apply(s, op), op.now)
  {
    assert forall j :: 0 <= j < ISSUES ==> s.pending[j] == ZEROS[j] == 0;
  }

  /** Without data or restart in between, at most one warning is due to silence alone. */
  lemma {:induction false} SilenceReportedOnce(s: StreamHealth, ops: seq<Op>)
    requires ClockForward(ops) && forall i :: 0 <= i < |ops| ==> Idle(ops[i])
    ensures SilenceWarnings(Log(s, ops)) <= 1
    ensures SilenceWarnings(Log(s, ops)) == 1 ==>
              Muted(After(s, ops), LatestReport(ops)) || After(s, ops).silence == 0
  {
    if ops != [] {
      var before, op := ops[..|ops| - 1], ops[|ops| - 1];
      var mid, log, out := After(s, before), Log(s, before), Printed(After(s, before), op);
      SilenceReportedOnce(s, before);
      LatestBound(before);
      if SilenceWarnings(log) == 1 {
        if mid.silence == 0 {
          DeafStep(mid, op);
        } else {
          MutedStep(mid, op, LatestReport(before));
        }
      }
      if out == [] {
        assert log + out == log;
      } else {
        assert (log + out)[..|log|] == log;
        assert out[0] in out;
        if SilenceOnly(out[0]) {
          FirstSilence(mid, op);
        }
      }
    }
  }

  // ---- the last error ----

  /** The text of a log line: at most 256 bytes, none of them a control character. */
  predicate Readable(text: seq<uint8>) {
    |text| <= DETAIL_LIMIT && forall i :: 0 <= i < |text| ==> text[i] >= SPACE
  }

  /** The last query error since the last warning, if any. */
  function LastError(s: StreamHealth, ops: seq<Op>): seq<uint8> {
    if ops == [] then []
    else
      var before, op := ops[..|ops| - 1], ops[|ops| - 1];
      if op.OpQueryError? then Cleaned(op.text)
      else if Printed(After(s, before), op) != [] then []
      else LastError(s, before)
  }

  /** The i-th warning was printed by operation k, with the latest error before that. */
  predicate Reports(ops: seq<Op>, i: nat, k: nat) {
    && k < |ops| && i < |Log(FRESH, ops)| && ops[k].OpReport?
    && |Log(FRESH, ops[..k])| == i
    && Log(FRESH, ops)[i].lastError == LastError(FRESH, ops[..k])
  }

  lemma {:induction false} DetailIsLastError(ops: seq<Op>)
    ensures After(FRESH, ops).detail == LastError(FRESH, ops) && Readable(LastError(FRESH, ops))
  {
    if ops != [] {
      DetailIsLastError(ops[..|ops| - 1]);
      DetailStep(After(FRESH, ops[..|ops| - 1]), ops[|ops| - 1]);
    }
  }

  /** Over every history each warning carries the latest error since the warning before it, readable. */
  lemma {:induction false} ErrorsReportedOnce(ops: seq<Op>, i: nat) returns (k: nat)
    requires i < |Log(FRESH, ops)|
    ensures Reports(ops, i, k) && Readable(Log(FRESH, ops)[i].lastError)
  {
    k := |ops| - 1;
    var before := ops[..k];
    DetailIsLastError(before);
    if i < |Log(FRESH, before)| {
      k := ErrorsReportedOnce(before, i);
      assert before[..k] == ops[..k];
    } else {
      DetailStep(After(FRESH, before), ops[k]);
    }
  }

  lemma DetailStep(s: StreamHealth, op: Op)
    ensures Apply(s, op).detail == if op.OpQueryError? then Cleaned(op.text)
                                   else if Printed(s, op) != [] then [] else s.detail
    ensures forall i :: 0 <= i < |Printed(s, op)| ==> Printed(s, op)[i].lastError == s.detail
  {
    match op
    case OpObserve(now, stamp, sequence, bits, equalValid) =>
      ObserveDetail(s, now, stamp, sequence, bits, equalValid);
    case _ =>
  }

  lemma ObserveDetail(s: StreamHealth, now: uint64, stamp: uint64, sequence: Option<uint64>, bits: nat,
                      equalValid: bool)
    ensures Observe(s, now, stamp, sequence, bits, equalValid).detail == s.detail
  {
    var touched := Touch(s, now);
    var classified := if sequence.Some? then Classify(touched, sequence.value, bits).(sequence := sequence)
                      else touched;
    assert classified.detail == s.detail;
  }
}
