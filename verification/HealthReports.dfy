// What a stream's warnings say and when they are printed, told by the history alone.
module HealthReports {
  import opened Words
  import opened SensorHealth
  import opened LossAccounting

  // ---- what the history says ----

  /** When data last came in, or the stream was restarted. */
  function LastData(ops: seq<Op>): nat {
    if ops == [] then 0
    else
      match ops[|ops| - 1]
      case OpReset(now, _, _) => now
      case OpTouch(now) => now
      case OpObserve(now, _, _, _, _) => now
      case _ => LastData(ops[..|ops| - 1])
  }

  /** How long it may stay silent: as restarted, but at least three periods; 0 is for ever. */
  function Limit(ops: seq<Op>): nat {
    if ops == [] then 0
    else
      match ops[|ops| - 1]
      case OpReset(_, rate, limit) =>
        if limit > 0 && PeriodOf(rate) > 0.0 && (3.0 * PeriodOf(rate)).Floor > limit
        then (3.0 * PeriodOf(rate)).Floor else limit
      case OpDisable => 0
      case _ => Limit(ops[..|ops| - 1])
  }

  predicate Silent(ops: seq<Op>, now: nat) {
    Limit(ops) > 0 && now >= LastData(ops) + Limit(ops)
  }

  /** The last warning since data came in said that the stream is silent. */
  function SilenceTold(ops: seq<Op>): bool {
    if ops == [] then false
    else
      var before, op := ops[..|ops| - 1], ops[|ops| - 1];
      if op.OpReset? || op.OpTouch? || op.OpObserve? then false
      else if |Log(FRESH, ops)| > |Log(FRESH, before)| then Log(FRESH, ops)[|Log(FRESH, ops)| - 1].noDataMs.Some?
      else SilenceTold(before)
  }

  /** The session the stream is in, since its last restart. */
  function LastSession(ops: seq<Op>): Option<uint64> {
    if ops == [] then None
    else
      match ops[|ops| - 1]
      case OpReset(_, _, _) => None
      case OpSession(id) => Some(id)
      case _ => LastSession(ops[..|ops| - 1])
  }

  /** The operation begins a session other than the one before. */
  predicate ChangesSession(before: seq<Op>, op: Op) {
    op.OpSession? && LastSession(before).Some? && LastSession(before).value != op.id
  }

  /** The last id of the session. */
  function LastId(ops: seq<Op>): Option<uint64> {
    if ops == [] then None
    else
      var before, op := ops[..|ops| - 1], ops[|ops| - 1];
      if op.OpReset? || ChangesSession(before, op) then None
      else if op.OpObserve? && op.sequence.Some? then op.sequence
      else LastId(before)
  }

  function SessionChanges(ops: seq<Op>): nat {
    if ops == [] then 0
    else SessionChanges(ops[..|ops| - 1])
         + (if ChangesSession(ops[..|ops| - 1], ops[|ops| - 1]) then 1 else 0)
  }

  // ---- the state follows it ----

  predicate Follows(s: StreamHealth, ops: seq<Op>) {
    && s.lastArrival == LastData(ops) && s.silence == Limit(ops)
    && s.session == LastSession(ops) && s.sequence == LastId(ops)
  }

  lemma ObserveFollows(s: StreamHealth, now: uint64, stamp: uint64, sequence: Option<uint64>, bits: nat,
                       equalValid: bool)
    ensures var next := Observe(s, now, stamp, sequence, bits, equalValid);
            && next.lastArrival == now && next.silence == s.silence && next.session == s.session
            && next.sequence == (if sequence.Some? then sequence else s.sequence)
            && !next.staleReported && next.reported == s.reported && next.lastReport == s.lastReport
  {
    var touched := Touch(s, now);
    var skip := IsReset(s, sequence, bits);
    var classified := if sequence.Some? then Classify(touched, sequence.value, bits).(sequence := sequence)
                      else touched;
    ClassifyFields(touched, if sequence.Some? then sequence.value else 0, bits);
    StampFields(classified, stamp, skip, equalValid);
  }

  lemma ClassifyFields(s: StreamHealth, sequence: uint64, bits: nat)
    ensures var next := Classify(s, sequence, bits); next.(total := s.total, pending := s.pending) == s
  {
  }

  lemma StampFields(s: StreamHealth, stamp: uint64, skip: bool, equalValid: bool)
    ensures var next := CheckStamp(s, stamp, skip, equalValid); next.(total := s.total, pending := s.pending) == s
  {
  }

  lemma StepFollows(s: StreamHealth, before: seq<Op>, op: Op)
    requires Follows(s, before)
    ensures Follows(Apply(s, op), before + [op])
  {
    assert (before + [op])[..|before|] == before;
    match op
    case OpObserve(now, stamp, sequence, bits, equalValid) =>
      ObserveFollows(s, now, stamp, sequence, bits, equalValid);
    case OpReset(now, rate, limit) => PeriodBound(rate);
    case _ =>
  }

  lemma {:induction false} StateFollows(ops: seq<Op>)
    ensures Follows(After(FRESH, ops), ops)
  {
    if ops != [] {
      var before, op := ops[..|ops| - 1], ops[|ops| - 1];
      assert ops == before + [op];
      StateFollows(before);
      StepFollows(After(FRESH, before), before, op);
    }
  }

  /** The log's last line, as the stream remembers it. */
  predicate Remembers(s: StreamHealth, log: seq<Warning>, told: bool) {
    && (s.reported <==> log != [])
    && (log != [] ==> s.lastReport == log[|log| - 1].at)
    && s.staleReported == told
  }

  lemma StepRemembers(s: StreamHealth, op: Op)
    ensures var next := Apply(s, op);
            && next.reported == (s.reported || Printed(s, op) != [])
            && next.lastReport == (if Printed(s, op) != [] then op.now else s.lastReport)
            && next.staleReported == (if op.OpReset? || op.OpTouch? || op.OpObserve? then false
                                      else if Printed(s, op) != [] then Printed(s, op)[0].noDataMs.Some?
                                      else s.staleReported)
  {
    match op
    case OpObserve(now, stamp, sequence, bits, equalValid) =>
      ObserveFollows(s, now, stamp, sequence, bits, equalValid);
    case _ =>
  }

  lemma RemembersStep(s: StreamHealth, log: seq<Warning>, told: bool, op: Op)
    requires Remembers(s, log, told)
    ensures Remembers(Apply(s, op), log + Printed(s, op),
                      if op.OpReset? || op.OpTouch? || op.OpObserve? then false
                      else if Printed(s, op) != [] then Printed(s, op)[0].noDataMs.Some? else told)
  {
    StepRemembers(s, op);
    if Printed(s, op) == [] {
      assert log + [] == log;
    } else {
      LinePrinted(s, op);
    }
  }

  lemma {:induction false} LogRemembered(ops: seq<Op>)
    ensures Remembers(After(FRESH, ops), Log(FRESH, ops), SilenceTold(ops))
  {
    if ops != [] {
      var before, op := ops[..|ops| - 1], ops[|ops| - 1];
      assert ops == before + [op];
      LogRemembered(before);
      LogSnoc(before, op);
      LinePrinted(After(FRESH, before), op);
      RemembersStep(After(FRESH, before), Log(FRESH, before), SilenceTold(before), op);
    }
  }

  // ---- when a warning is printed ----

  /** Something was counted that no warning has said yet. */
  ghost predicate Unsaid(ops: seq<Op>) {
    exists issue: Issue :: After(FRESH, ops).total[issue] > PrintedCount(Log(FRESH, ops), issue)
  }

  lemma UnsaidIsPending(ops: seq<Op>)
    ensures Unsaid(ops) <==> AnyPending(After(FRESH, ops))
  {
    forall issue: Issue
      ensures After(FRESH, ops).total[issue]
           == After(FRESH, ops).pending[issue] + PrintedCount(Log(FRESH, ops), issue)
    {
      NothingLost(FRESH, ops, issue);
    }
    if AnyPending(After(FRESH, ops)) {
      var j :| 0 <= j < ISSUES && After(FRESH, ops).pending[j] != 0;
      var issue: Issue := j;
      assert After(FRESH, ops).total[issue] > PrintedCount(Log(FRESH, ops), issue);
    }
  }

  lemma ReportLog(ops: seq<Op>, now: uint64, force: bool)
    ensures var s := After(FRESH, ops);
            Log(FRESH, ops + [OpReport(now, force)])
              == Log(FRESH, ops) + (if Due(s, now, force) then [Line(s, now, force)] else [])
    ensures After(FRESH, ops + [OpReport(now, force)]) == Reported(After(FRESH, ops), now, force)
  {
    assert (ops + [OpReport(now, force)])[..|ops|] == ops;
  }

  /** There is something to say, and it is time: a report is forced, the first, or five seconds after the last. */
  predicate Sayable(unsaid: bool, silent: bool, told: bool, log: seq<Warning>, now: nat, force: bool) {
    && (unsaid || (silent && !told))
    && (force || log == [] || now >= log[|log| - 1].at + 5_000_000_000)
  }

  lemma DueExactly(s: StreamHealth, ops: seq<Op>, log: seq<Warning>, told: bool, now: uint64, force: bool)
    requires s == After(FRESH, ops) && log == Log(FRESH, ops) && told == SilenceTold(ops)
    requires log != [] ==> log[|log| - 1].at <= now
    ensures Due(s, now, force) <==> Sayable(Unsaid(ops), Silent(ops, now), told, log, now, force)
  {
    StateFollows(ops);
    LogRemembered(ops);
    UnsaidIsPending(ops);
    SilentIsStale(s, ops, now);
    DueFrom(s, log, told, now, force);
  }

  lemma SilentIsStale(s: StreamHealth, ops: seq<Op>, now: uint64)
    requires Follows(s, ops)
    ensures Stale(s, now) <==> Silent(ops, now)
    ensures Stale(s, now) ==> now - s.lastArrival == now - LastData(ops)
  {
  }

  lemma DueFrom(s: StreamHealth, log: seq<Warning>, told: bool, now: uint64, force: bool)
    requires Remembers(s, log, told) && (log != [] ==> log[|log| - 1].at <= now)
    ensures Due(s, now, force) <==> Sayable(AnyPending(s), Stale(s, now), told, log, now, force)
  {
  }

  /**
   * Over every history, a report prints a warning exactly if there is something to say - a count that no
   * warning has said, or a silence not yet told - and it is forced, the first one, or at least five
   * seconds after the one before. Then it prints one line, and nothing is left unsaid.
   */
  lemma PrintsExactly(ops: seq<Op>, now: uint64, force: bool)
    requires var log := Log(FRESH, ops); log != [] ==> log[|log| - 1].at <= now
    ensures var log, after := Log(FRESH, ops), Log(FRESH, ops + [OpReport(now, force)]);
            var due := Sayable(Unsaid(ops), Silent(ops, now), SilenceTold(ops), log, now, force);
            && |after| == |log| + (if due then 1 else 0) && after[..|log|] == log
            && (due ==> !Unsaid(ops + [OpReport(now, force)]))
  {
    ReportLog(ops, now, force);
    DueExactly(After(FRESH, ops), ops, Log(FRESH, ops), SilenceTold(ops), now, force);
    UnsaidIsPending(ops + [OpReport(now, force)]);
  }

  // ---- what it says ----

  /** Warning i was printed by report k. */
  predicate PrintedBy(ops: seq<Op>, i: nat, k: nat) {
    && k < |ops| && i < |Log(FRESH, ops)| && ops[k].OpReport?
    && |Log(FRESH, ops[..k])| == i
    && Log(FRESH, ops[..k + 1]) == Log(FRESH, ops)[..i + 1]
  }

  /** What a line says, given the log up to it, the history before it and the report that printed it. */
  predicate Tells(w: Warning, log: seq<Warning>, past: seq<Op>, op: Op)
    requires op.OpReport?
  {
    && w.at == op.now && w.forced == op.force
    && (forall issue: Issue :: w.totals[issue] == PrintedCount(log, issue))
    && w.noDataMs == (if Silent(past, op.now) then Some((op.now - LastData(past)) / 1_000_000) else None)
    && w.lastSequence == LastId(past)
  }

  lemma LineTells(before: seq<Op>, op: Op)
    requires op.OpReport? && Due(After(FRESH, before), op.now, op.force)
    ensures var line := Line(After(FRESH, before), op.now, op.force);
            Tells(line, Log(FRESH, before) + [line], before, op)
  {
    StateFollows(before);
    SilentIsStale(After(FRESH, before), before, op.now);
    LineTotals(before, op);
  }

  /** The last operation printed the last warning. */
  lemma LastPrinted(before: seq<Op>, op: Op, line: Warning)
    requires op.OpReport? && Log(FRESH, before + [op]) == Log(FRESH, before) + [line]
    ensures PrintedBy(before + [op], |Log(FRESH, before)|, |before|)
  {
    var ops, k := before + [op], |before|;
    assert ops[..k] == before;
    assert ops[..k + 1] == ops;
    var all, log := Log(FRESH, ops), Log(FRESH, before);
    assert all[..|log| + 1] == all;
  }

  lemma LogSnoc(before: seq<Op>, op: Op)
    ensures Log(FRESH, before + [op]) == Log(FRESH, before) + Printed(After(FRESH, before), op)
  {
    assert (before + [op])[..|before|] == before;
  }

  lemma LinePrinted(s: StreamHealth, op: Op)
    ensures Printed(s, op) != [] ==>
              op.OpReport? && Due(s, op.now, op.force) && Printed(s, op) == [Line(s, op.now, op.force)]
  {
  }

  lemma PrintedLonger(ops: seq<Op>, before: seq<Op>, i: nat, k: nat)
    requires ops != [] && before == ops[..|ops| - 1] && PrintedBy(before, i, k)
    ensures PrintedBy(ops, i, k) && ops[k] == before[k] && ops[..k] == before[..k]
    ensures Log(FRESH, ops)[i] == Log(FRESH, before)[i] && Log(FRESH, ops)[..i + 1] == Log(FRESH, before)[..i + 1]
  {
    assert before[..k] == ops[..k] && before[..k + 1] == ops[..k + 1];
  }

  /**
   * Over every history each warning was printed by some report, at its time and with its force; its totals
   * are all that was printed up to and including it; it tells the milliseconds without data exactly if
   * the stream was silent, and the last id of the session.
   */
  lemma {:induction false} WarningTells(ops: seq<Op>, i: nat) returns (k: nat)
    requires i < |Log(FRESH, ops)|
    ensures PrintedBy(ops, i, k)
    ensures Tells(Log(FRESH, ops)[i], Log(FRESH, ops)[..i + 1], ops[..k], ops[k])
  {
    k := |ops| - 1;
    var before, op := ops[..k], ops[k];
    assert ops == before + [op];
    var log := Log(FRESH, before);
    if i < |log| {
      k := WarningTells(before, i);
      PrintedLonger(ops, before, i, k);
    } else {
      LogSnoc(before, op);
      LinePrinted(After(FRESH, before), op);
      var line := Line(After(FRESH, before), op.now, op.force);
      LastPrinted(before, op, line);
      LineTells(before, op);
      assert (log + [line])[..|log| + 1] == log + [line];
    }
  }

  lemma LineTotals(before: seq<Op>, op: Op)
    requires op.OpReport? && Due(After(FRESH, before), op.now, op.force)
    ensures var line := Line(After(FRESH, before), op.now, op.force);
            forall issue: Issue :: line.totals[issue] == PrintedCount(Log(FRESH, before) + [line], issue)
  {
    var line := Line(After(FRESH, before), op.now, op.force);
    forall issue: Issue ensures line.totals[issue] == PrintedCount(Log(FRESH, before) + [line], issue) {
      NothingLost(FRESH, before, issue);
      PrintedSnoc(Log(FRESH, before), line, issue);
    }
  }

  // ---- sessions ----

  /** Does not count changes of the session itself. */
  predicate LeavesSessionCount(op: Op) {
    match op
    case OpAdd(issue, _) => issue != SESSION_CHANGED
    case OpCondition(issue, _) => issue != SESSION_CHANGED
    case OpCounter(issue, _, _) => issue != SESSION_CHANGED
    case _ => true
  }

  /** Over every history exactly the changes of the session id are counted; the first id is none. */
  lemma {:induction false} SessionChangesCounted(ops: seq<Op>)
    requires forall i :: 0 <= i < |ops| ==> LeavesSessionCount(ops[i])
    ensures After(FRESH, ops).total[SESSION_CHANGED] == SessionChanges(ops)
  {
    if ops != [] {
      var before, op := ops[..|ops| - 1], ops[|ops| - 1];
      SessionChangesCounted(before);
      StateFollows(before);
      SessionStep(After(FRESH, before), op);
    }
  }

  lemma SessionStep(s: StreamHealth, op: Op)
    requires LeavesSessionCount(op)
    ensures Apply(s, op).total[SESSION_CHANGED] == s.total[SESSION_CHANGED]
              + (if op.OpSession? && s.session.Some? && s.session.value != op.id then 1 else 0)
  {
    match op
    case OpObserve(now, stamp, sequence, bits, equalValid) =>
      ObserveLeavesSession(s, now, stamp, sequence, bits, equalValid);
    case _ =>
  }

  lemma ObserveLeavesSession(s: StreamHealth, now: uint64, stamp: uint64, sequence: Option<uint64>, bits: nat,
                             equalValid: bool)
    ensures Observe(s, now, stamp, sequence, bits, equalValid).total[SESSION_CHANGED] == s.total[SESSION_CHANGED]
  {
    var touched := Touch(s, now);
    var classified := if sequence.Some? then Classify(touched, sequence.value, bits).(sequence := sequence)
                      else touched;
    assert classified.total[SESSION_CHANGED] == s.total[SESSION_CHANGED];
  }

  /** The period of a rate is exact, for rates from a thousandth to a million a second; others have none. */
  lemma PeriodExactly(rate: Option<real>)
    ensures match rate
            case None => PeriodOf(rate) == 0.0
            case Some(hz) =>
              if 0.001 <= hz <= 1_000_000.0 then PeriodOf(rate) * hz == 1_000_000_000.0 else PeriodOf(rate) == 0.0
  {
  }

  // ---- stamps ----

  /** A sample without an id: its stamp, and whether it may equal the one before. */
  datatype Stamped = Stamped(now: uint64, stamp: uint64, equalValid: bool)

  function StampOps(xs: seq<Stamped>): (r: seq<Op>)
    ensures |r| == |xs|
    ensures forall i :: 0 <= i < |r| ==> r[i] == OpObserve(xs[i].now, xs[i].stamp, None, 32, xs[i].equalValid)
  {
    seq(|xs|, i requires 0 <= i < |xs| => OpObserve(xs[i].now, xs[i].stamp, None, 32, xs[i].equalValid))
  }

  /** The two stamps can be compared: both are known. */
  predicate Comparable(a: Stamped, b: Stamped) {
    a.stamp != 0 && b.stamp != 0
  }

  function Backward(xs: seq<Stamped>): nat {
    if |xs| <= 1 then 0
    else
      var a, b := xs[|xs| - 2], xs[|xs| - 1];
      Backward(xs[..|xs| - 1]) + (if Comparable(a, b) && b.stamp < a.stamp then 1 else 0)
  }

  function Repeated(xs: seq<Stamped>): nat {
    if |xs| <= 1 then 0
    else
      var a, b := xs[|xs| - 2], xs[|xs| - 1];
      Repeated(xs[..|xs| - 1]) + (if Comparable(a, b) && b.stamp == a.stamp && !b.equalValid then 1 else 0)
  }

  function Jumps(xs: seq<Stamped>, period: real): nat {
    if |xs| <= 1 then 0
    else
      var a, b := xs[|xs| - 2], xs[|xs| - 1];
      Jumps(xs[..|xs| - 1], period)
      + (if Comparable(a, b) && period > 0.0 && (b.stamp - a.stamp) as real > 1.5 * period then 1 else 0)
  }

  /** After the samples: what was counted, and the baseline. */
  predicate StampCounts(s: StreamHealth, end: StreamHealth, xs: seq<Stamped>) {
    && end.total[TIMESTAMP_BACKWARD] == s.total[TIMESTAMP_BACKWARD] + Backward(xs)
    && end.total[TIMESTAMP_DUPLICATE] == s.total[TIMESTAMP_DUPLICATE] + Repeated(xs)
    && end.total[TIMESTAMP_GAP] == s.total[TIMESTAMP_GAP] + Jumps(xs, s.period)
    && end.period == s.period
    && end.stamp == (if xs == [] || xs[|xs| - 1].stamp == 0 then None else Some(xs[|xs| - 1].stamp))
  }

  /**
   * Over every history of samples: stamps that run back, stamps that repeat where they may not, and gaps
   * of more than one and a half periods are counted one by one; an unknown stamp is a new baseline.
   */
  lemma {:induction false} StampsCounted(s: StreamHealth, xs: seq<Stamped>)
    requires s.stamp.None?
    ensures StampCounts(s, After(s, StampOps(xs)), xs)
  {
    if xs != [] {
      var before, x := xs[..|xs| - 1], xs[|xs| - 1];
      var op := OpObserve(x.now, x.stamp, None, 32, x.equalValid);
      assert StampOps(xs) == StampOps(before) + [op];
      assert xs == before + [x];
      AfterSnoc(s, StampOps(before), op);
      StampsCounted(s, before);
      StampStep(s, After(s, StampOps(before)), before, x);
    }
  }

  lemma StampStep(s: StreamHealth, mid: StreamHealth, before: seq<Stamped>, x: Stamped)
    requires StampCounts(s, mid, before)
    ensures StampCounts(s, Apply(mid, OpObserve(x.now, x.stamp, None, 32, x.equalValid)), before + [x])
  {
    var xs := before + [x];
    assert xs[..|before|] == before && xs[|xs| - 1] == x;
    StampCompared(mid, x);
    if before != [] {
      assert xs[|xs| - 2] == before[|before| - 1];
    }
  }

  lemma StampCompared(s: StreamHealth, x: Stamped)
    ensures var next := Apply(s, OpObserve(x.now, x.stamp, None, 32, x.equalValid));
            var known := x.stamp != 0 && s.stamp.Some?;
            && next.total[TIMESTAMP_BACKWARD]
               == s.total[TIMESTAMP_BACKWARD] + (if known && x.stamp < s.stamp.value then 1 else 0)
            && next.total[TIMESTAMP_DUPLICATE]
               == s.total[TIMESTAMP_DUPLICATE] + (if known && x.stamp == s.stamp.value && !x.equalValid then 1 else 0)
            && next.total[TIMESTAMP_GAP] == s.total[TIMESTAMP_GAP]
               + (if known && s.period > 0.0 && (x.stamp - s.stamp.value) as real > 1.5 * s.period then 1 else 0)
            && next.period == s.period && next.stamp == (if x.stamp == 0 then None else Some(x.stamp))
  {
    if x.stamp != 0 && s.stamp.Some? && x.stamp <= s.stamp.value && s.period > 0.0 {
      assert (x.stamp - s.stamp.value) as real <= 0.0;
    }
  }

  /** A sample whose id was reset is not held against its stamp, but its stamp is the new baseline. */
  lemma ResetSkipsStamp(s: StreamHealth, now: uint64, stamp: uint64, sequence: uint64, bits: nat, equalValid: bool)
    requires s.sequence.Some? && Delta(s.sequence.value, sequence, bits) >= Modulus(bits) / 2
    ensures var next := Observe(s, now, stamp, Some(sequence), bits, equalValid);
            && (forall i :: TIMESTAMP_GAP <= i <= TIMESTAMP_BACKWARD ==> next.total[i] == s.total[i])
            && next.stamp == (if stamp == 0 then None else Some(stamp))
  {
  }

  // ---- all streams ----

  /** One line for each of the first n streams that is due, in the order of the streams, and no other. */
  predicate LinesFit(lines: seq<(Stream, Warning)>, states: States, now: uint64, force: bool, n: nat)
    requires n <= STREAMS
  {
    && (forall i :: 0 <= i < |lines| ==>
          lines[i].0 < n && Printed(states[lines[i].0], OpReport(now, force)) == [lines[i].1])
    && (forall k :: 0 <= k < n ==> (Printed(states[k], OpReport(now, force)) == [] || HasLine(lines, k)))
    && (forall i, j :: 0 <= i < j < |lines| ==> lines[i].0 < lines[j].0)
  }

  predicate HasLine(lines: seq<(Stream, Warning)>, k: nat) {
    exists i :: 0 <= i < |lines| && lines[i].0 == k
  }

  lemma HasLineLonger(lines: seq<(Stream, Warning)>, more: seq<(Stream, Warning)>, k: nat)
    requires HasLine(lines, k)
    ensures HasLine(lines + more, k)
  {
    var i :| 0 <= i < |lines| && lines[i].0 == k;
    assert (lines + more)[i].0 == k;
  }

  lemma LinesStep(lines: seq<(Stream, Warning)>, more: seq<(Stream, Warning)>, states: States, now: uint64,
                  force: bool, n: nat)
    requires n < STREAMS && LinesFit(lines, states, now, force, n)
    requires var printed := Printed(states[n], OpReport(now, force));
             more == if printed == [] then [] else [(n, printed[0])]
    ensures LinesFit(lines + more, states, now, force, n + 1)
  {
    forall k | 0 <= k < n + 1
      ensures Printed(states[k], OpReport(now, force)) == [] || HasLine(lines + more, k)
    {
      if k < n && HasLine(lines, k) {
        HasLineLonger(lines, more, k);
      } else if k == n && more != [] {
        assert (lines + more)[|lines|].0 == k;
      }
    }
  }

  /** The lines of a report are exactly those of the streams that are due. */
  lemma {:induction false} LinesExactly(states: States, now: uint64, force: bool, n: nat)
    requires n <= STREAMS
    ensures LinesFit(LinesOf(states, now, force, n), states, now, force, n)
  {
    if n > 0 {
      LinesExactly(states, now, force, n - 1);
      var printed := Printed(states[n - 1], OpReport(now, force));
      LinesStep(LinesOf(states, now, force, n - 1), if printed == [] then [] else [(n - 1, printed[0])],
                states, now, force, n - 1);
    }
  }
}
