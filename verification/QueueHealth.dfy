// driver.cpp, checkDispatch and reportHealth: the losses of a dispatch queue, as printed over one run.
module QueueHealth {
  import opened Words
  import opened DispatchQueues
  import opened SensorHealth
  import opened LossAccounting
  import HealthReports

  /** Anything that happens to the queue's threads, to its health stream, or a checkDispatch. */
  datatype Event<T> = QueueEvent(action: Action<T>) | HealthEvent(op: Op) | CheckDispatch

  /** The two counters that checkDispatch watches. */
  function Watched<T>(q: State<T>, issue: Issue): nat {
    if issue == QUEUE_DROP then q.core.dropped else q.errors
  }

  /** Other uses of the stream: restarts, samples, reports, but not these two counts. */
  predicate LeavesCounts(op: Op) {
    match op
    case OpAdd(issue, _) => issue != QUEUE_DROP && issue != CALLBACK_ERROR
    case OpCondition(issue, _) => issue != QUEUE_DROP && issue != CALLBACK_ERROR
    case OpResetCounter(issue) => issue != QUEUE_DROP && issue != CALLBACK_ERROR
    case OpCounter(issue, _, _) => issue != QUEUE_DROP && issue != CALLBACK_ERROR
    case _ => true
  }

  function CheckOps<T>(q: State<T>): seq<Op> {
    CounterOps(q.core.dropped, q.errors)
  }

  function CounterOps(dropped: nat, errors: nat): seq<Op> {
    [OpCounter(QUEUE_DROP, dropped, true), OpCounter(CALLBACK_ERROR, errors, true)]
  }

  lemma TwoCounters(s: StreamHealth, dropped: nat, errors: nat)
    ensures After(s, CounterOps(dropped, errors))
         == Counter(Counter(s, QUEUE_DROP, dropped, true), CALLBACK_ERROR, errors, true)
  {
    AfterTwo(s, OpCounter(QUEUE_DROP, dropped, true), OpCounter(CALLBACK_ERROR, errors, true));
  }

  /** checkDispatch, with the values read from the queue's atomics. */
  method CheckDispatchCounters(health: SensorDataHealth, stream: Stream, dropped: nat, errors: nat)
    modifies health
    ensures health.states == old(health.states)[stream :=
      After(old(health.states)[stream], CounterOps(dropped, errors))]
  {
    ghost var before := health.states;
    ghost var s := before[stream];
    health.CountTo(stream, QUEUE_DROP, dropped, true);
    health.CountTo(stream, CALLBACK_ERROR, errors, true);
    TwoCounters(s, dropped, errors);
    assert health.states == before[stream := After(s, CounterOps(dropped, errors))];
  }

  /** What a queue shows when it is checked. */
  datatype QueueReading = QueueReading(stream: Stream, dropped: nat, errors: nat)

  function ReportOps(r: QueueReading, now: uint64, final: bool): seq<Op> {
    CounterOps(r.dropped, r.errors) + (if final then [OpDisable] else []) + [OpReport(now, final)]
  }

  method DisableAll(health: SensorDataHealth)
    modifies health
    ensures forall k :: 0 <= k < STREAMS ==> health.states[k] == Apply(old(health.states)[k], OpDisable)
  {
    ghost var before := health.states;
    for i := 0 to STREAMS
      invariant forall k :: 0 <= k < i ==> health.states[k] == Apply(before[k], OpDisable)
      invariant forall k :: i <= k < STREAMS ==> health.states[k] == before[k]
    {
      health.Disable(i);
    }
  }

  /** The streams after every queue was checked. */
  function CheckedStates(states: States, readings: seq<QueueReading>): States {
    if readings == [] then states
    else
      var before, r := CheckedStates(states, readings[..|readings| - 1]), readings[|readings| - 1];
      before[r.stream := After(before[r.stream], CounterOps(r.dropped, r.errors))]
  }

  method CheckAll(health: SensorDataHealth, readings: seq<QueueReading>)
    modifies health
    ensures health.states == CheckedStates(old(health.states), readings)
  {
    ghost var before := health.states;
    for i := 0 to |readings|
      invariant health.states == CheckedStates(before, readings[..i])
    {
      CheckDispatchCounters(health, readings[i].stream, readings[i].dropped, readings[i].errors);
      assert readings[..i + 1][..i] == readings[..i];
    }
    assert readings[..|readings|] == readings;
  }

  /** The streams just before the report: checked, and at the end of a run disabled. */
  function ReadyState(states: States, readings: seq<QueueReading>, final: bool, stream: Stream): StreamHealth {
    var checked := CheckedStates(states, readings)[stream];
    if final then Apply(checked, OpDisable) else checked
  }

  function ReadyStates(states: States, readings: seq<QueueReading>, final: bool): (r: States)
    ensures forall k :: 0 <= k < STREAMS ==> r[k] == ReadyState(states, readings, final, k)
  {
    seq(STREAMS, k requires 0 <= k < STREAMS => ReadyState(states, readings, final, k))
  }

  /** reportHealth: the new state of every stream, and the lines that are logged. */
  method ReportHealth(health: SensorDataHealth, readings: seq<QueueReading>, now: uint64, final: bool)
    returns (lines: seq<(Stream, Warning)>)
    modifies health
    ensures forall k :: 0 <= k < STREAMS ==>
      health.states[k] == Apply(ReadyStates(old(health.states), readings, final)[k], OpReport(now, final))
    ensures lines == LinesOf(ReadyStates(old(health.states), readings, final), now, final, STREAMS)
  {
    ghost var ready := ReadyStates(health.states, readings, final);
    CheckAll(health, readings);
    if final {
      DisableAll(health);
    }
    assert health.states == ready;
    lines := health.Reports(now, final);
  }

  /** The final report never calls a stream silent: every check was switched off before it. */
  lemma FinalReportTellsNoSilence(states: States, readings: seq<QueueReading>, now: uint64, i: nat)
    requires i < |LinesOf(ReadyStates(states, readings, true), now, true, STREAMS)|
    ensures LinesOf(ReadyStates(states, readings, true), now, true, STREAMS)[i].1.noDataMs == None
  {
    HealthReports.LinesExactly(ReadyStates(states, readings, true), now, true, STREAMS);
    var ready := ReadyStates(states, readings, true);
    var line := LinesOf(ready, now, true, STREAMS)[i];
    assert Printed(ready[line.0], OpReport(now, true)) == [line.1];
  }

  predicate OwnStreams(readings: seq<QueueReading>) {
    forall i, j :: 0 <= i < j < |readings| ==> readings[i].stream != readings[j].stream
  }

  lemma {:induction false} CheckedLast(states: States, readings: seq<QueueReading>, stream: Stream)
    requires readings != []
    ensures var before, last := CheckedStates(states, readings[..|readings| - 1])[stream], readings[|readings| - 1];
            CheckedStates(states, readings)[stream]
              == if last.stream == stream then After(before, CounterOps(last.dropped, last.errors)) else before
  {
  }

  lemma {:induction false} CheckedStream(states: States, readings: seq<QueueReading>, stream: Stream)
    requires OwnStreams(readings)
    ensures (forall i :: 0 <= i < |readings| ==> readings[i].stream != stream) ==>
              CheckedStates(states, readings)[stream] == states[stream]
    ensures forall i :: 0 <= i < |readings| && readings[i].stream == stream ==>
              CheckedStates(states, readings)[stream]
                == After(states[stream], CounterOps(readings[i].dropped, readings[i].errors))
  {
    if readings != [] {
      var n := |readings| - 1;
      CheckedStream(states, readings[..n], stream);
      CheckedLast(states, readings, stream);
      assert forall i :: 0 <= i < n ==> readings[..n][i] == readings[i];
      if readings[n].stream == stream {
        assert forall i :: 0 <= i < n ==> readings[i].stream != stream;
      }
    }
  }

  /** With a stream of its own, each queue's report is exactly the operations ReportOps on that stream. */
  lemma ReportIsOps(states: States, readings: seq<QueueReading>, i: nat, now: uint64, final: bool)
    requires i < |readings| && OwnStreams(readings)
    ensures var stream := readings[i].stream;
            Apply(ReadyStates(states, readings, final)[stream], OpReport(now, final))
              == After(states[stream], ReportOps(readings[i], now, final))
  {
    var stream := readings[i].stream;
    CheckedStream(states, readings, stream);
    ReportOpsAfter(states[stream], readings[i], now, final);
  }

  lemma ReportOpsAfter(s: StreamHealth, r: QueueReading, now: uint64, final: bool)
    ensures var counted := After(s, CounterOps(r.dropped, r.errors));
            After(s, ReportOps(r, now, final))
              == Apply(if final then Apply(counted, OpDisable) else counted, OpReport(now, final))
  {
    var ops := CounterOps(r.dropped, r.errors);
    AfterSnoc(s, ops, OpDisable);
    AfterSnoc(s, ops + (if final then [OpDisable] else []), OpReport(now, final));
    assert ops + [] == ops;
  }

  datatype Replayed<T> = Replayed(queue: State<T>, ops: seq<Op>)

  /** The queue after the events, and the operations its health stream saw. */
  function Replay<T>(q: State<T>, events: seq<Event<T>>): (r: Option<Replayed<T>>)
    requires q.core.capacity > 0
    ensures r.Some? ==> r.value.queue.core.capacity == q.core.capacity
  {
    if events == [] then Some(Replayed(q, []))
    else
      match Replay(q, events[..|events| - 1])
      case None => None
      case Some(before) =>
        match events[|events| - 1]
        case QueueEvent(a) =>
          (match Next(before.queue, a)
           case None => None
           case Some(next) => Some(Replayed(next, before.ops)))
        case HealthEvent(op) => Some(before.(ops := before.ops + [op]))
        case CheckDispatch => Some(before.(ops := before.ops + CheckOps(before.queue)))
  }

  /** The stream has counted exactly what it last read, and that is no more than the queue's counter. */
  predicate InStep<T>(q: State<T>, s: StreamHealth, issue: Issue) {
    s.total[issue] == (if s.counters[issue].None? then 0 else s.counters[issue].value) <= Watched(q, issue)
  }

  lemma CountersGrow<T>(q: State<T>, a: Action<T>)
    requires q.core.capacity > 0 && Next(q, a).Some?
    ensures Next(q, a).value.core.dropped >= q.core.dropped
    ensures Next(q, a).value.errors >= q.errors
  {
  }

  lemma ObserveKeeps(s: StreamHealth, now: uint64, stamp: uint64, sequence: Option<uint64>, bits: nat,
                     equalValid: bool, issue: Issue)
    requires issue > TIMESTAMP_BACKWARD
    ensures var next := Observe(s, now, stamp, sequence, bits, equalValid);
            next.total[issue] == s.total[issue] && next.counters == s.counters
  {
    var touched := Touch(s, now);
    var classified := if sequence.Some? then Classify(touched, sequence.value, bits).(sequence := sequence)
                      else touched;
    assert classified.total[issue] == s.total[issue] && classified.counters == s.counters;
  }

  lemma OtherOpKeeps(s: StreamHealth, op: Op, issue: Issue)
    requires LeavesCounts(op) && (issue == QUEUE_DROP || issue == CALLBACK_ERROR)
    ensures Apply(s, op).total[issue] == s.total[issue] && Apply(s, op).counters[issue] == s.counters[issue]
  {
    match op
    case OpObserve(now, stamp, sequence, bits, equalValid) =>
      ObserveKeeps(s, now, stamp, sequence, bits, equalValid, issue);
    case _ =>
  }

  lemma CheckCatchesUp<T>(q: State<T>, ops: seq<Op>, issue: Issue)
    requires issue == QUEUE_DROP || issue == CALLBACK_ERROR
    requires InStep(q, After(FRESH, ops), QUEUE_DROP) && InStep(q, After(FRESH, ops), CALLBACK_ERROR)
    ensures var end := After(FRESH, ops + CheckOps(q));
            InStep(q, end, issue) && end.total[issue] == Watched(q, issue)
  {
    var one := ops + [CheckOps(q)[0]];
    assert ops + CheckOps(q) == one + [CheckOps(q)[1]];
    AfterSnoc(FRESH, ops, CheckOps(q)[0]);
    AfterSnoc(FRESH, one, CheckOps(q)[1]);
  }

  lemma {:induction false} AlwaysInStep<T>(q: State<T>, events: seq<Event<T>>, issue: Issue)
    requires q.core.capacity > 0 && Replay(q, events).Some?
    requires issue == QUEUE_DROP || issue == CALLBACK_ERROR
    requires forall i :: 0 <= i < |events| && events[i].HealthEvent? ==> LeavesCounts(events[i].op)
    ensures InStep(Replay(q, events).value.queue, After(FRESH, Replay(q, events).value.ops), issue)
  {
    if events != [] {
      var before := Replay(q, events[..|events| - 1]).value;
      AlwaysInStep(q, events[..|events| - 1], QUEUE_DROP);
      AlwaysInStep(q, events[..|events| - 1], CALLBACK_ERROR);
      match events[|events| - 1]
      case QueueEvent(a) => CountersGrow(before.queue, a);
      case HealthEvent(op) =>
        AfterSnoc(FRESH, before.ops, op);
        OtherOpKeeps(After(FRESH, before.ops), op, issue);
      case CheckDispatch => CheckCatchesUp(before.queue, before.ops, issue);
    }
  }

  /**
   * One run, from fresh health and any state of the queue: whatever happens in between - stream
   * restarts included - the drops (and the callback errors) printed by the end of the final flush
   * add up to the queue's own counter.
   */
  lemma PrintedDropsAreAllDrops<T>(q: State<T>, events: seq<Event<T>>, now: uint64, issue: Issue)
    requires q.core.capacity > 0 && Replay(q, events).Some?
    requires issue == QUEUE_DROP || issue == CALLBACK_ERROR
    requires forall i :: 0 <= i < |events| && events[i].HealthEvent? ==> LeavesCounts(events[i].op)
    ensures var end := Replay(q, events).value;
            PrintedCount(Log(FRESH, end.ops + CheckOps(end.queue) + [OpDisable] + [OpReport(now, true)]), issue)
              == Watched(end.queue, issue)
  {
    var end := Replay(q, events).value;
    var checked := end.ops + CheckOps(end.queue);
    AlwaysInStep(q, events, QUEUE_DROP);
    AlwaysInStep(q, events, CALLBACK_ERROR);
    CheckCatchesUp(end.queue, end.ops, issue);
    AfterSnoc(FRESH, checked, OpDisable);
    FlushPrintsEverything(checked + [OpDisable], now, issue);
  }

  /** So the printed drops are those of this run exactly when the queue's counter started at zero. */
  lemma PrintedDropsOfThisRun<T>(q: State<T>, events: seq<Event<T>>, now: uint64)
    requires q.core.capacity > 0 && Replay(q, events).Some?
    requires forall i :: 0 <= i < |events| && events[i].HealthEvent? ==> LeavesCounts(events[i].op)
    ensures var end := Replay(q, events).value;
            var log := Log(FRESH, end.ops + CheckOps(end.queue) + [OpDisable] + [OpReport(now, true)]);
            PrintedCount(log, QUEUE_DROP) == end.queue.core.dropped as int - q.core.dropped <==> q.core.dropped == 0
  {
    PrintedDropsAreAllDrops(q, events, now, QUEUE_DROP);
  }

  /** A queue of capacity 1 that overflowed once; the next run of the driver does nothing with it. */
  lemma CarriedDropsExample(now: uint64)
    ensures var q := DispatchQueues.Run(1, OVERFLOW);
            && q.Some? && q.value.core.dropped == 1 && Replay(q.value, []).Some?
            && PrintedCount(Log(FRESH, [] + CheckOps(q.value) + [OpDisable] + [OpReport(now, true)]), QUEUE_DROP) == 1
  {
    OverflowedQueue();
    PrintedDropsAreAllDrops(DispatchQueues.Run(1, OVERFLOW).value, [], now, QUEUE_DROP);
  }

  const OVERFLOW: seq<Action<int>> :=
    [Start, Spawn, Admit(0, 1), Enqueue(0), NotifyOne(0), Admit(0, 2), Enqueue(0)]

  lemma RunStep<T>(capacity: nat, schedule: seq<Action<T>>, n: nat)
    requires capacity > 0 && n < |schedule| && DispatchQueues.Run(capacity, schedule[..n]).Some?
    ensures DispatchQueues.Run(capacity, schedule[..n + 1])
         == Next(DispatchQueues.Run(capacity, schedule[..n]).value, schedule[n])
  {
    assert schedule[..n + 1][..n] == schedule[..n];
  }

  lemma {:induction false} LaunchedQueue()
    ensures DispatchQueues.Run(1, OVERFLOW[..2])
         == Some(DispatchQueues.Initial(1).(running := true, worker := LoopTop, control := Running))
  {
    RunStep(1, OVERFLOW, 0);
    RunStep(1, OVERFLOW, 1);
  }

  lemma {:induction false} AdmittedValue()
    ensures var q := DispatchQueues.Run(1, OVERFLOW[..3]);
            q.Some? && q.value.core == Core(1, [], 0, 0, 0) && q.value.running && q.value.worker == LoopTop
            && q.value.pushers == map[0 := Admitted(1)]
  {
    LaunchedQueue();
    RunStep(1, OVERFLOW, 2);
  }

  /** The queue holds the first value and its worker has not moved. */
  lemma {:induction false} FilledQueue()
    ensures var q := DispatchQueues.Run(1, OVERFLOW[..4]);
            q.Some? && q.value.core == Core(1, [1], 0, 1, 1) && q.value.running && q.value.worker == LoopTop
            && q.value.pushers == map[0 := Enqueued]
  {
    AdmittedValue();
    RunStep(1, OVERFLOW, 3);
    assert [] + [1] == [1];
    assert map[0 := Admitted(1)][0 := Enqueued] == map[0 := Enqueued];
  }

  lemma {:induction false} OverflowedQueue()
    ensures var q := DispatchQueues.Run(1, OVERFLOW);
            q.Some? && q.value.core == Core(1, [2], 1, 1, 1)
  {
    FilledQueue();
    RunStep(1, OVERFLOW, 4);
    RunStep(1, OVERFLOW, 5);
    RunStep(1, OVERFLOW, 6);
    assert [1][1..] + [2] == [2];
    assert OVERFLOW[..7] == OVERFLOW;
  }
}
