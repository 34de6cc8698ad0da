// driver.cpp, invokeControl / enableControls / cancelControls / processControls:
// ROS threads hand commands to the receive thread and block on their promises.
module ControlMailbox {
  import opened Words

  const LIMIT: nat := 64

  // ---- the regions under control_mutex ----

  /** Commands are identified by the order in which they were accepted. */
  datatype Box = Box(accepting: bool, commands: seq<nat>)

  datatype Reply = Accepted | NotAccepting | Full

  function ReplyTo(b: Box): Reply {
    if !b.accepting then NotAccepting else if |b.commands| >= LIMIT then Full else Accepted
  }

  function SubmitRegion(b: Box, id: nat): Box {
    if ReplyTo(b).Accepted? then b.(commands := b.commands + [id]) else b
  }

  class Mailbox {
    var accepting: bool
    var commands: seq<nat>

    ghost function State(): Box
      reads this
    {
      Box(accepting, commands)
    }

    constructor ()
      ensures State() == Box(false, [])
    {
      accepting, commands := false, [];
    }

    /** The locked part of invokeControl. */
    method Submit(id: nat) returns (reply: Reply)
      modifies this
      ensures reply == ReplyTo(old(State())) && State() == SubmitRegion(old(State()), id)
    {
      if !accepting {
        return NotAccepting;
      }
      if |commands| >= 64 {
        return Full;
      }
      commands := commands + [id];
      reply := Accepted;
    }

    method EnableControls()
      modifies this
      ensures State() == Box(true, old(commands))
    {
      accepting := true;
    }

    /** The locked part of processControls: swaps the queue out. */
    method TakeAll() returns (pending: seq<nat>)
      modifies this
      ensures pending == old(commands) && State() == Box(old(accepting), [])
    {
      pending := commands;
      commands := [];
    }

    /** The locked part of cancelControls: closes the box and swaps the queue out. */
    method CloseAndTakeAll() returns (pending: seq<nat>)
      modifies this
      ensures pending == old(commands) && State() == Box(false, [])
    {
      accepting := false;
      pending := commands;
      commands := [];
    }
  }

  // ---- threads ----

  /** Where the receive thread is in run(). */
  datatype Receiver =
    | Outside        // not inside run
    | Starting       // inside the try block, before enableControls
    | Serving        // at the loop head
    | Executing      // in processControls, working through its batch
    | Failing        // an exception was thrown; before cancelControls
    | Leaving        // the loop ended; before cancelControls
    | Cancelling     // in cancelControls, working through its batch

  datatype Client = Idle | Blocked(id: nat)

  datatype Resolution = Executed(id: nat) | Cancelled(id: nat)

  datatype State = State(
    box: Box, receiver: Receiver, fatal: bool,
    batch: seq<nat>,               // the receive thread's local deque
    clients: map<nat, Client>,
    accepted: nat,                 // history: commands accepted so far
    owners: seq<nat>,              // history: the client of each accepted command
    escaped: bool,                 // history: run was left past its handler after enableControls,
                                   //   and the box has not been closed since
    resolved: seq<Resolution>)     // history: promises fulfilled, in order

  const INITIAL := State(Box(false, []), Outside, false, [], map[], 0, [], false, [])

  function ClientOf(s: State, t: nat): Client {
    if t in s.clients then s.clients[t] else Idle
  }

  datatype Action =
    | Invoke(t: nat) | Return(t: nat)
    | EnterRun | Enable | TakeBatch | ExecuteOne(fatal: bool) | EndBatch
    | Throw | StopRequested | CloseBox | CancelOne | LeaveRun
    | Escape         // an exception that is not a std::exception leaves run uncaught

  function ClientStep(s: State, t: nat): State {
    var box := SubmitRegion(s.box, s.accepted);
    if ReplyTo(s.box).Accepted? then
      s.(box := box, clients := s.clients[t := Blocked(s.accepted)], accepted := s.accepted + 1,
        owners := s.owners + [t])
    else s
  }

  function CloseStep(s: State): State {
    s.(receiver := Cancelling, batch := s.box.commands, box := Box(false, []), escaped := false)
  }

  function Next(s: State, a: Action): Option<State> {
    match (a, s.receiver)
    case (Invoke(t), _) => if ClientOf(s, t).Idle? then Some(ClientStep(s, t)) else None
    case (Return(t), _) =>
      (match ClientOf(s, t)
       case Blocked(id) =>
         if exists k :: 0 <= k < |s.resolved| && s.resolved[k].id == id
         then Some(s.(clients := s.clients[t := Idle])) else None
       case Idle => None)
    case (EnterRun, Outside) => Some(s.(receiver := Starting, fatal := false))
    case (Enable, Starting) => Some(s.(receiver := Serving, box := s.box.(accepting := true)))
    case (TakeBatch, Serving) =>
      Some(s.(receiver := Executing, batch := s.box.commands, box := s.box.(commands := [])))
    case (ExecuteOne(fatal), Executing) =>
      if s.batch == [] then None
      else Some(s.(batch := s.batch[1..], resolved := s.resolved + [Executed(s.batch[0])],
                   fatal := s.fatal || fatal))
    case (EndBatch, Executing) =>
      if s.batch != [] then None else Some(s.(receiver := if s.fatal then Failing else Serving))
    case (Throw, Starting) => Some(s.(receiver := Failing))
    case (Throw, Serving) => Some(s.(receiver := Failing))
    case (StopRequested, Serving) => Some(s.(receiver := Leaving))
    case (Escape, Starting) => Some(s.(receiver := Outside))
    case (Escape, Serving) => Some(s.(receiver := Outside, escaped := true))
    case (CloseBox, Failing) => Some(CloseStep(s))
    case (CloseBox, Leaving) => Some(CloseStep(s))
    case (CancelOne, Cancelling) =>
      if s.batch == [] then None
      else Some(s.(batch := s.batch[1..], resolved := s.resolved + [Cancelled(s.batch[0])]))
    case (LeaveRun, Cancelling) => if s.batch != [] then None else Some(s.(receiver := Outside))
    case _ => None
  }

  function Run(schedule: seq<Action>): Option<State> {
    if schedule == [] then Some(INITIAL)
    else
      match Run(schedule[..|schedule| - 1])
      case None => None
      case Some(s) => Next(s, schedule[|schedule| - 1])
  }

  // ---- what holds in every reachable state ----

  /** The commands from..to in acceptance order. */
  predicate Consecutive(ids: seq<nat>, from: nat) {
    forall k :: 0 <= k < |ids| ==> ids[k] == from + k
  }

  /** Resolved, then being worked on, then queued: every accepted command once, in order. */
  predicate Lined(s: State) {
    && |s.resolved| + |s.batch| + |s.box.commands| == s.accepted
    && (forall k :: 0 <= k < |s.resolved| ==> s.resolved[k].id == k)
    && Consecutive(s.batch, |s.resolved|)
    && Consecutive(s.box.commands, |s.resolved| + |s.batch|)
  }

  predicate Closed(r: Receiver) {
    r.Outside? || r.Starting? || r.Cancelling?
  }

  predicate Inv(s: State) {
    && Lined(s)
    && |s.box.commands| <= LIMIT
    && (s.receiver.Cancelling? ==> !s.escaped)
    && (s.receiver.Serving? || s.receiver.Executing? ==> s.box.accepting)
    && (s.receiver.Starting? || s.receiver.Serving? || s.receiver.Leaving? ==> !s.fatal)
    && (Closed(s.receiver) ==> (s.box.accepting <==> s.escaped))
    && (!s.receiver.Executing? && !s.receiver.Cancelling? ==> s.batch == [])
    && (!s.box.accepting ==> s.box.commands == [])
    && Owned(s)
  }

  /** Every blocked client waits for a command it submitted; every open command has its client waiting. */
  predicate Owned(s: State) {
    && |s.owners| == s.accepted
    && (forall t :: t in s.clients && s.clients[t].Blocked? ==>
          s.clients[t].id < s.accepted && s.owners[s.clients[t].id] == t)
    && (forall id :: |s.resolved| <= id < s.accepted ==>
          s.owners[id] in s.clients && s.clients[s.owners[id]] == Blocked(id))
  }

  lemma InvokePreserves(s: State, t: nat)
    requires Inv(s) && ClientOf(s, t).Idle?
    ensures Inv(ClientStep(s, t))
  {
  }

  lemma ReturnPreserves(s: State, t: nat)
    requires Inv(s) && Next(s, Return(t)).Some?
    ensures Inv(Next(s, Return(t)).value)
  {
    ReturnsExactly(s, t);
  }

  /** The receive thread fulfils the promise at the head of its batch. */
  lemma ResolvePreserves(s: State, a: Action)
    requires Inv(s) && (a.ExecuteOne? || a.CancelOne?) && Next(s, a).Some?
    ensures Inv(Next(s, a).value)
  {
  }

  lemma ReceiverPreserves(s: State, a: Action)
    requires Inv(s) && Next(s, a).Some?
    requires !a.Invoke? && !a.Return? && !a.ExecuteOne? && !a.CancelOne?
    ensures Inv(Next(s, a).value)
  {
    var next := Next(s, a).value;
    assert Lined(next);
    assert Owned(next);
  }

  lemma NextPreserves(s: State, a: Action)
    requires Inv(s) && Next(s, a).Some?
    ensures Inv(Next(s, a).value)
  {
    match a
    case Invoke(t) => InvokePreserves(s, t);
    case Return(t) => ReturnPreserves(s, t);
    case ExecuteOne(_) => ResolvePreserves(s, a);
    case CancelOne => ResolvePreserves(s, a);
    case _ => ReceiverPreserves(s, a);
  }

  lemma {:induction false} AlwaysInv(schedule: seq<Action>)
    requires Run(schedule).Some?
    ensures Inv(Run(schedule).value)
  {
    if schedule != [] {
      AlwaysInv(schedule[..|schedule| - 1]);
      NextPreserves(Run(schedule[..|schedule| - 1]).value, schedule[|schedule| - 1]);
    }
  }

  // ---- the main results ----

  /** Exactly once, in acceptance order, at most 64 queued - after every schedule. */
  lemma ExactlyOnceInOrder(schedule: seq<Action>)
    requires Run(schedule).Some?
    ensures var s := Run(schedule).value;
            && (forall k :: 0 <= k < |s.resolved| ==> s.resolved[k].id == k)
            && |s.resolved| + |s.batch| + |s.box.commands| == s.accepted
            && Consecutive(s.batch + s.box.commands, |s.resolved|)
            && |s.box.commands| <= LIMIT
  {
    AlwaysInv(schedule);
  }

  /**
   * Once run has been left by either of its own paths, no command is open: every waiting client can
   * return. Left by an escaping exception, the box stays open, and precisely the commands in it are open.
   */
  lemma NobodyLeftWaiting(schedule: seq<Action>, t: nat)
    requires Run(schedule).Some? && Run(schedule).value.receiver.Outside?
    ensures var s := Run(schedule).value;
            && |s.resolved| + |s.box.commands| == s.accepted
            && (!s.escaped ==> |s.resolved| == s.accepted && !s.box.accepting)
            && (ClientOf(s, t).Blocked? ==>
                  (Next(s, Return(t)).Some? <==> ClientOf(s, t).id !in s.box.commands))
  {
    AlwaysInv(schedule);
    var s := Run(schedule).value;
    if ClientOf(s, t).Blocked? {
      ReturnsExactly(s, t);
    }
  }

  lemma ReturnsExactly(s: State, t: nat)
    requires Inv(s) && ClientOf(s, t).Blocked?
    ensures Next(s, Return(t)).Some? <==> ClientOf(s, t).id < |s.resolved|
    ensures s.batch == [] ==> (ClientOf(s, t).id < |s.resolved| <==> ClientOf(s, t).id !in s.box.commands)
  {
    var id := ClientOf(s, t).id;
    if id < |s.resolved| {
      assert s.resolved[id].id == id;
    } else if s.batch == [] {
      assert s.box.commands[id - |s.resolved|] == id;
    }
  }

  /** A client that could wait for ever: blocked outside run, on a promise that is not fulfilled. */
  ghost predicate Stuck(s: State) {
    exists t: nat :: ClientOf(s, t).Blocked? && Next(s, Return(t)).None?
  }

  /**
   * Outside run nobody is stuck, and no new client gets stuck by calling, exactly when run was not
   * left by an exception escaping after enableControls.
   */
  lemma StuckExactly(schedule: seq<Action>, t: nat)
    requires Run(schedule).Some? && Run(schedule).value.receiver.Outside?
    requires ClientOf(Run(schedule).value, t).Idle?
    ensures var s := Run(schedule).value;
            s.escaped <==> Stuck(s) || Stuck(ClientStep(s, t))
  {
    AlwaysInv(schedule);
    var s := Run(schedule).value;
    if s.escaped && s.box.commands == [] {
      InvokePreserves(s, t);
      ReturnsExactly(ClientStep(s, t), t);
      assert ClientOf(ClientStep(s, t), t).Blocked?;
    } else if s.escaped {
      var owner := s.owners[|s.resolved|];
      ReturnsExactly(s, owner);
      assert ClientOf(s, owner).Blocked?;
    } else {
      assert ClientStep(s, t) == s;
      if Stuck(s) {
        var u: nat :| ClientOf(s, u).Blocked? && Next(s, Return(u)).None?;
        ReturnsExactly(s, u);
      }
    }
  }

  lemma EscapedRun()
    ensures Run([EnterRun, Enable, Escape])
         == Some(INITIAL.(box := Box(true, []), escaped := true))
  {
    RunSnoc([], EnterRun);
    assert [] + [EnterRun] == [EnterRun] && [EnterRun] + [Enable] == [EnterRun, Enable];
    RunSnoc([EnterRun], Enable);
    assert [EnterRun, Enable] + [Escape] == [EnterRun, Enable, Escape];
    RunSnoc([EnterRun, Enable], Escape);
  }

  /** A callback throws an int after enableControls; the next client is accepted and waits for nobody. */
  lemma EscapeExample()
    ensures var s := Run([EnterRun, Enable, Escape, Invoke(7)]);
            s.Some? && s.value.receiver.Outside? && Stuck(s.value)
  {
    EscapedRun();
    RunSnoc([EnterRun, Enable, Escape], Invoke(7));
    assert [EnterRun, Enable, Escape] + [Invoke(7)] == [EnterRun, Enable, Escape, Invoke(7)];
    var s := Run([EnterRun, Enable, Escape, Invoke(7)]).value;
    assert ClientOf(s, 7) == Blocked(0) && s.resolved == [];
    assert Next(s, Return(7)).None?;
  }

  lemma RunSnoc(schedule: seq<Action>, a: Action)
    requires Run(schedule).Some?
    ensures Run(schedule + [a]) == Next(Run(schedule).value, a)
  {
    assert (schedule + [a])[..|schedule|] == schedule;
  }

  /** From the moment the box is closed until the next enableControls nothing is accepted. */
  lemma NothingAcceptedWhileClosed(schedule: seq<Action>, t: nat)
    requires Run(schedule).Some? && Closed(Run(schedule).value.receiver)
    ensures var s := Run(schedule).value;
            && (s.box.accepting <==> s.escaped)
            && (!s.escaped && Next(s, Invoke(t)).Some? ==> Next(s, Invoke(t)).value == s)
  {
    AlwaysInv(schedule);
  }

  // ---- what became of the commands ----

  /** The commands that were in the box when it was closed, along the schedule. */
  function ClosedOver(schedule: seq<Action>): set<nat>
    requires Run(schedule).Some?
  {
    if schedule == [] then {}
    else
      var before := schedule[..|schedule| - 1];
      var commands := Run(before).value.box.commands;
      ClosedOver(before) + (if schedule[|schedule| - 1].CloseBox? then set id | id in commands else {})
  }

  /** Resolved commands were cancelled exactly if the box was closed over them; so will the batch be. */
  predicate Sorted(s: State, closed: set<nat>) {
    && (forall k :: 0 <= k < |s.resolved| ==> s.resolved[k] == if k in closed then Cancelled(k) else Executed(k))
    && (s.receiver.Cancelling? ==> forall k :: 0 <= k < |s.batch| ==> s.batch[k] in closed)
    && (!s.receiver.Cancelling? ==> forall k :: 0 <= k < |s.batch| ==> s.batch[k] !in closed)
    && (forall k :: 0 <= k < |s.box.commands| ==> s.box.commands[k] !in closed)
    && (forall id :: id in closed ==> id < |s.resolved| + |s.batch|)
  }

  lemma SortedStep(s: State, a: Action, closed: set<nat>)
    requires Inv(s) && Sorted(s, closed) && Next(s, a).Some? && !a.CloseBox?
    ensures Sorted(Next(s, a).value, closed)
  {
    match a
    case Invoke(t) => SortedInvoke(s, t, closed);
    case ExecuteOne(_) => SortedResolve(s, a, closed);
    case CancelOne => SortedResolve(s, a, closed);
    case _ =>
  }

  lemma SortedInvoke(s: State, t: nat, closed: set<nat>)
    requires Inv(s) && Sorted(s, closed)
    ensures Sorted(ClientStep(s, t), closed)
  {
  }

  lemma SortedResolve(s: State, a: Action, closed: set<nat>)
    requires Inv(s) && Sorted(s, closed) && (a.ExecuteOne? || a.CancelOne?) && Next(s, a).Some?
    ensures Sorted(Next(s, a).value, closed)
  {
    var next := Next(s, a).value;
    assert s.batch[0] == |s.resolved|;
    assert forall k :: 0 <= k < |next.batch| ==> next.batch[k] == s.batch[k + 1];
  }

  lemma SortedClose(s: State, closed: set<nat>)
    requires Inv(s) && Sorted(s, closed) && (s.receiver.Failing? || s.receiver.Leaving?)
    ensures var commands := s.box.commands;
            Sorted(CloseStep(s), closed + set id | id in commands)
  {
    var commands := s.box.commands;
    var more := closed + set id | id in commands;
    forall k | 0 <= k < |s.resolved| ensures k in more <==> k in closed {
      assert k !in commands;
    }
  }

  lemma {:induction false} AlwaysSorted(schedule: seq<Action>)
    requires Run(schedule).Some?
    ensures Sorted(Run(schedule).value, ClosedOver(schedule))
  {
    if schedule != [] {
      var before, a := schedule[..|schedule| - 1], schedule[|schedule| - 1];
      var s := Run(before).value;
      AlwaysSorted(before);
      AlwaysInv(before);
      if a.CloseBox? {
        SortedClose(s, ClosedOver(before));
      } else {
        SortedStep(s, a, ClosedOver(before));
        assert ClosedOver(before) + {} == ClosedOver(before);
      }
    }
  }

  lemma {:induction false} NeverClosed(schedule: seq<Action>)
    requires Run(schedule).Some? && forall i :: 0 <= i < |schedule| ==> !schedule[i].CloseBox?
    ensures ClosedOver(schedule) == {}
  {
    if schedule != [] {
      NeverClosed(schedule[..|schedule| - 1]);
    }
  }

  /**
   * After every schedule: a resolved command was cancelled exactly if it was in the box when that was
   * closed, and executed otherwise. While the box is never closed, every resolved command was executed.
   */
  lemma ExecutedUnlessClosedOver(schedule: seq<Action>, k: nat)
    requires Run(schedule).Some? && k < |Run(schedule).value.resolved|
    ensures Run(schedule).value.resolved[k] == if k in ClosedOver(schedule) then Cancelled(k) else Executed(k)
    ensures (forall i :: 0 <= i < |schedule| ==> !schedule[i].CloseBox?) ==>
              Run(schedule).value.resolved[k] == Executed(k)
  {
    AlwaysSorted(schedule);
    if forall i :: 0 <= i < |schedule| ==> !schedule[i].CloseBox? {
      NeverClosed(schedule);
    }
  }

  /** A client whose command went through a running driver gets its result: one schedule, to the letter. */
  lemma ExecutionExample()
    ensures var s := Run([EnterRun, Enable, Invoke(7), TakeBatch, ExecuteOne(false)]);
            s.Some? && s.value.resolved == [Executed(0)] && Next(s.value, Return(7)).Some?
  {
    InvokedExample();
    assert [EnterRun, Enable, Invoke(7)] + [TakeBatch] == [EnterRun, Enable, Invoke(7), TakeBatch];
    RunSnoc([EnterRun, Enable, Invoke(7)], TakeBatch);
    assert [EnterRun, Enable, Invoke(7), TakeBatch] + [ExecuteOne(false)]
        == [EnterRun, Enable, Invoke(7), TakeBatch, ExecuteOne(false)];
    RunSnoc([EnterRun, Enable, Invoke(7), TakeBatch], ExecuteOne(false));
    var s := Run([EnterRun, Enable, Invoke(7), TakeBatch, ExecuteOne(false)]).value;
    assert s.resolved[0].id == 0;
  }

  lemma InvokedExample()
    ensures var s := Run([EnterRun, Enable, Invoke(7)]);
            s.Some? && s.value.box == Box(true, [0]) && s.value.receiver == Serving && s.value.batch == []
            && s.value.resolved == [] && s.value.clients == map[7 := Blocked(0)]
  {
    RunSnoc([], EnterRun);
    assert [] + [EnterRun] == [EnterRun] && [EnterRun] + [Enable] == [EnterRun, Enable];
    RunSnoc([EnterRun], Enable);
    assert Run([EnterRun, Enable]).value.box == Box(true, []);
    assert [EnterRun, Enable] + [Invoke(7)] == [EnterRun, Enable, Invoke(7)];
    RunSnoc([EnterRun, Enable], Invoke(7));
  }

  /** A batch taken for execution is executed to its end, in order, by the receive thread alone. */
  function Process(n: nat): seq<Action> {
    if n == 0 then [EndBatch] else [ExecuteOne(false)] + Process(n - 1)
  }

  lemma {:induction false} ExecutionDrains(s: State)
    requires Inv(s) && s.receiver.Executing?
    ensures var end := Continue(s, Process(|s.batch|));
            && end.Some? && end.value.batch == []
            && end.value.receiver == (if s.fatal then Failing else Serving)
            && |end.value.resolved| == |s.resolved| + |s.batch| && end.value.box == s.box
            && (forall k :: |s.resolved| <= k < |s.resolved| + |s.batch| ==> end.value.resolved[k] == Executed(k))
            && (forall k :: 0 <= k < |s.resolved| ==> end.value.resolved[k] == s.resolved[k])
    decreases |s.batch|
  {
    if s.batch == [] {
      assert Process(0)[1..] == [];
    } else {
      var next := Next(s, ExecuteOne(false)).value;
      NextPreserves(s, ExecuteOne(false));
      assert Process(|s.batch|)[1..] == Process(|s.batch| - 1);
      ExecutionDrains(next);
    }
  }

  // ---- how run is left ----

  /** The receive thread alone: it closes the box, cancels what is in it, and leaves. */
  lemma LeavesInOrder(s: State)
    requires Inv(s) && (s.receiver.Failing? || s.receiver.Leaving?)
    ensures var end := Continue(s, [CloseBox] + Drain(|s.box.commands|));
            && end.Some? && end.value.receiver.Outside? && |end.value.resolved| == s.accepted
            && !end.value.box.accepting && !end.value.escaped
            && (forall k :: |s.resolved| <= k < s.accepted ==> end.value.resolved[k] == Cancelled(k))
  {
    NextPreserves(s, CloseBox);
    CancellationDrains(CloseStep(s));
    CancellationCloses(CloseStep(s), |s.box.commands|);
    assert ([CloseBox] + Drain(|s.box.commands|))[1..] == Drain(|s.box.commands|);
  }

  lemma {:induction false} CancellationCloses(s: State, n: nat)
    requires s.receiver.Cancelling? && |s.batch| == n
    ensures var end := Continue(s, Drain(n));
            end.Some? && end.value.box == s.box && end.value.escaped == s.escaped
    decreases n
  {
    if n == 0 {
      assert Drain(0)[1..] == [];
    } else {
      assert Drain(n)[1..] == Drain(n - 1);
      CancellationCloses(Next(s, CancelOne).value, n - 1);
    }
  }

  /** A throw, a stop and an escape each take run where it is left; a client that returns is idle again. */
  lemma WaysOut(s: State, t: nat)
    ensures s.receiver.Starting? || s.receiver.Serving? ==>
              && Next(s, Throw).Some? && Next(s, Throw).value.receiver.Failing?
              && Next(s, Escape).Some? && Next(s, Escape).value.receiver.Outside?
    ensures s.receiver.Serving? ==> Next(s, StopRequested).Some? && Next(s, StopRequested).value.receiver.Leaving?
    ensures Next(s, Return(t)).Some? ==> ClientOf(Next(s, Return(t)).value, t).Idle?
  {
  }

  // ---- what ends run, and what a client is told ----

  /** Some command executed since run was entered left the driver unable to go on. */
  function FatalSince(schedule: seq<Action>): bool {
    if schedule == [] then false
    else
      match schedule[|schedule| - 1]
      case EnterRun => false
      case ExecuteOne(fatal) => FatalSince(schedule[..|schedule| - 1]) || fatal
      case _ => FatalSince(schedule[..|schedule| - 1])
  }

  lemma {:induction false} FatalExactly(schedule: seq<Action>)
    requires Run(schedule).Some?
    ensures Run(schedule).value.fatal <==> FatalSince(schedule)
  {
    if schedule != [] {
      FatalExactly(schedule[..|schedule| - 1]);
      FatalStep(Run(schedule[..|schedule| - 1]).value, schedule[|schedule| - 1]);
    }
  }

  lemma FatalStep(s: State, a: Action)
    requires Next(s, a).Some?
    ensures Next(s, a).value.fatal == match a
                                      case EnterRun => false
                                      case ExecuteOne(fatal) => s.fatal || fatal
                                      case _ => s.fatal
  {
  }

  /** A command that leaves the driver unable to go on ends the run: the loop is never entered again. */
  lemma FatalEndsTheRun(schedule: seq<Action>)
    requires Run(schedule).Some? && Run(schedule).value.fatal
    ensures var r := Run(schedule).value.receiver;
            r.Executing? || r.Failing? || r.Cancelling? || r.Outside?
  {
    AlwaysInv(schedule);
  }

  /** A command is refused exactly if the driver does not accept any, or 64 are waiting; else it goes last. */
  lemma ReplyExactly(b: Box, id: nat)
    ensures ReplyTo(b) == NotAccepting <==> !b.accepting
    ensures ReplyTo(b) == Full <==> b.accepting && |b.commands| >= 64
    ensures SubmitRegion(b, id).commands == if b.accepting && |b.commands| < 64 then b.commands + [id] else b.commands
    ensures SubmitRegion(b, id).accepting == b.accepting
  {
  }

  /** Two clients never wait for the same command. */
  lemma ClientsWaitForTheirOwn(schedule: seq<Action>, t: nat, u: nat)
    requires Run(schedule).Some? && t != u
    ensures var s := Run(schedule).value;
            ClientOf(s, t).Blocked? && ClientOf(s, u).Blocked? ==> ClientOf(s, t).id != ClientOf(s, u).id
  {
    AlwaysInv(schedule);
  }

  /** The receive thread alone, once it has closed the box: the last |batch| cancellations and out. */
  function Drain(n: nat): seq<Action> {
    if n == 0 then [LeaveRun] else [CancelOne] + Drain(n - 1)
  }

  function Continue(s: State, more: seq<Action>): Option<State>
    decreases |more|
  {
    if more == [] then Some(s)
    else
      match Next(s, more[0])
      case None => None
      case Some(next) => Continue(next, more[1..])
  }

  /** Whatever is pending when the box closes is cancelled, in order, and run is left. */
  lemma {:induction false} CancellationDrains(s: State)
    requires Inv(s) && s.receiver.Cancelling?
    ensures var end := Continue(s, Drain(|s.batch|));
            && end.Some? && end.value.receiver.Outside? && |end.value.resolved| == s.accepted
            && (forall k :: |s.resolved| <= k < s.accepted ==> end.value.resolved[k] == Cancelled(k))
            && (forall k :: 0 <= k < |s.resolved| ==> end.value.resolved[k] == s.resolved[k])
    decreases |s.batch|
  {
    if s.batch == [] {
      assert Drain(0)[1..] == [];
    } else {
      var next := Next(s, CancelOne).value;
      NextPreserves(s, CancelOne);
      assert Drain(|s.batch|)[1..] == Drain(|s.batch| - 1);
      CancellationDrains(next);
    }
  }
}
