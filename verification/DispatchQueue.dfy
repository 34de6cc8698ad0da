// driver.cpp, DispatchQueue: a bounded drop-oldest queue with one worker thread.
// The lock regions are methods of a class; the interleavings are a transition system over them.
module DispatchQueues {
  import opened Words

  // ---- the regions under the mutex ----

  /** The fields guarded by the mutex, and the counters written inside it. */
  datatype Core<T> = Core(capacity: nat, queue: seq<T>, dropped: nat, depth: nat, peak: nat)

  function Max(a: nat, b: nat): nat {
    if a < b then b else a
  }

  /** With no room and nothing to drop, pop_front of the empty deque is undefined. */
  predicate CanPush<T>(c: Core<T>) {
    c.capacity > 0 || c.queue != []
  }

  function PushRegion<T>(c: Core<T>, value: T): Core<T>
    requires CanPush(c)
  {
    var full := |c.queue| >= c.capacity;
    var queue := (if full then c.queue[1..] else c.queue) + [value];
    Core(c.capacity, queue, c.dropped + (if full then 1 else 0), |queue|, Max(c.peak, |queue|))
  }

  function ClearRegion<T>(c: Core<T>): Core<T> {
    c.(queue := [], depth := 0)
  }

  function PopRegion<T>(c: Core<T>): Core<T>
    requires c.queue != []
  {
    c.(queue := c.queue[1..], depth := |c.queue| - 1)
  }

  class DispatchQueue<T> {
    const capacity: nat
    var queue: seq<T>
    var dropped: nat
    var depth: nat
    var peak: nat

    ghost function State(): Core<T>
      reads this
    {
      Core(capacity, queue, dropped, depth, peak)
    }

    constructor (capacity: nat)
      ensures State() == Core(capacity, [], 0, 0, 0)
    {
      this.capacity := capacity;
      queue, dropped, depth, peak := [], 0, 0, 0;
    }

    /** The locked part of push: the oldest value makes room, never the new one. Not ok is undefined. */
    method Push(value: T) returns (ok: bool)
      modifies this
      ensures ok <==> CanPush(old(State()))
      ensures ok ==> State() == PushRegion(old(State()), value)
    {
      if |queue| >= capacity {
        if queue == [] {
          return false;
        }
        queue := queue[1..];
        dropped := dropped + 1;
      }
      queue := queue + [value];
      depth := |queue|;
      peak := Max(peak, |queue|);
      ok := true;
    }

    /** The locked part of stop. */
    method Clear()
      modifies this
      ensures State() == ClearRegion(old(State()))
    {
      queue := [];
      depth := 0;
    }

    /** The end of the worker's locked part. */
    method Pop() returns (value: T)
      requires queue != []
      modifies this
      ensures State() == PopRegion(old(State())) && value == old(queue[0])
    {
      value := queue[0];
      queue := queue[1..];
      depth := |queue|;
    }
  }

  /** A run of pushes. */
  function PushAll<T>(c: Core<T>, values: seq<T>): (r: Core<T>)
    requires c.capacity > 0
    ensures r.capacity == c.capacity
  {
    if values == [] then c else PushRegion(PushAll(c, values[..|values| - 1]), values[|values| - 1])
  }

  /** What a run of pushes drops is exactly the oldest part; the rest stays, in order. */
  lemma {:induction false} PushAllKeepsTheNewest<T>(c: Core<T>, values: seq<T>) returns (lost: seq<T>)
    requires c.capacity > 0 && |c.queue| <= c.capacity
    ensures var after := PushAll(c, values);
            && lost + after.queue == c.queue + values
            && after.dropped == c.dropped + |lost|
            && |after.queue| <= c.capacity
            && (lost != [] ==> |after.queue| == c.capacity)
  {
    if values == [] {
      lost := [];
      assert c.queue + values == c.queue;
    } else {
      var n := |values| - 1;
      lost := PushAllKeepsTheNewest(c, values[..n]);
      var before := PushAll(c, values[..n]);
      assert c.queue + values == (lost + before.queue) + [values[n]];
      if |before.queue| >= c.capacity {
        lost := lost + [before.queue[0]];
      }
    }
  }

  // ---- threads ----

  datatype Worker<T> =
    | Absent                 // no thread
    | LoopTop                // before while (running_.load())
    | WantLock               // before the unique_lock
    | CheckRunning           // holds the lock; wait's predicate, first operand
    | CheckQueue             // holds the lock; wait's predicate, second operand
    | Waiting                // blocked on the condition variable, lock released
    | Woken                  // notified, wants the lock back
    | Recheck                // holds the lock; before if (!running_.load()) break
    | Popping                // holds the lock; before front()
    | Handling(value: T)     // inside handler_

  datatype Pusher<T> =
    | Outside
    | Admitted(value: T)     // saw running_, wants the lock
    | Enqueued               // released the lock, has not notified yet

  /** The thread that starts and stops the queue. */
  datatype Control = Stopped | Launching | Running | FlagCleared | QueueCleared | Joining

  /** What became of a value that left the queue. */
  datatype Fate = Taken | Dropped | Cleared

  datatype State<T> = State(
    core: Core<T>, running: bool, errors: nat,
    worker: Worker<T>, control: Control, pushers: map<nat, Pusher<T>>,
    pushed: seq<T>,          // history: every value that entered the queue
    settled: seq<Fate>,      // history: the fates of the values that left it, oldest first
    taken: seq<T>,           // history: the values handed to the handler
    handled: nat)            // history: handler calls that returned

  function Initial<T>(capacity: nat): State<T> {
    State(Core(capacity, [], 0, 0, 0), false, 0, Absent, Stopped, map[], [], [], [], 0)
  }

  function PusherOf<T>(s: State<T>, t: nat): Pusher<T> {
    if t in s.pushers then s.pushers[t] else Outside
  }

  /** The pushers and the stopper hold the lock only within one step. */
  predicate LockFree<T>(s: State<T>) {
    !s.worker.CheckRunning? && !s.worker.CheckQueue? && !s.worker.Recheck? && !s.worker.Popping?
  }

  datatype Action<T> =
    | Start | Spawn | ClearFlag | ClearQueue | NotifyAll | Join
    | Admit(t: nat, value: T) | Enqueue(t: nat) | NotifyOne(t: nat)
    | Spurious | Work(throws: bool)

  function Notified<T>(w: Worker<T>): Worker<T> {
    if w.Waiting? then Woken else w
  }

  /** One step of the worker; None while it must wait. */
  function WorkerStep<T>(s: State<T>, throws: bool): Option<State<T>> {
    match s.worker
    case LoopTop => Some(s.(worker := if s.running then WantLock else Absent))
    case WantLock => Some(s.(worker := CheckRunning))
    case Woken => Some(s.(worker := CheckRunning))
    case CheckRunning => Some(s.(worker := if s.running then CheckQueue else Recheck))
    case CheckQueue => Some(s.(worker := if s.core.queue == [] then Waiting else Recheck))
    case Recheck => Some(s.(worker := if s.running then Popping else Absent))
    case Popping =>
      if s.core.queue == [] then None
      else
        var value := s.core.queue[0];
        Some(s.(core := PopRegion(s.core), worker := Handling(value),
                settled := s.settled + [Taken], taken := s.taken + [value]))
    case Handling(_) =>
      Some(s.(worker := LoopTop, handled := s.handled + 1, errors := s.errors + (if throws then 1 else 0)))
    case Absent => None
    case Waiting => None
  }

  /** start and stop, run by one thread. */
  function ControlStep<T>(s: State<T>, a: Action<T>): Option<State<T>> {
    match (a, s.control)
    case (Start, Stopped) => Some(s.(running := true, control := Launching))
    case (Spawn, Launching) => Some(s.(worker := LoopTop, control := Running))
    case (ClearFlag, Running) => Some(s.(running := false, control := FlagCleared))
    case (ClearQueue, FlagCleared) =>
      if !LockFree(s) then None
      else Some(s.(core := ClearRegion(s.core), control := QueueCleared,
                   settled := s.settled + seq(|s.core.queue|, _ => Cleared)))
    case (NotifyAll, QueueCleared) => Some(s.(worker := Notified(s.worker), control := Joining))
    case (Join, Joining) => if s.worker.Absent? then Some(s.(control := Stopped)) else None
    case _ => None
  }

  function PushStep<T>(s: State<T>, t: nat, value: T): State<T>
    requires s.core.capacity > 0
  {
    var full := |s.core.queue| >= s.core.capacity;
    s.(core := PushRegion(s.core, value), pushers := s.pushers[t := Enqueued],
       pushed := s.pushed + [value], settled := s.settled + (if full then [Dropped] else []))
  }

  /** One step of some thread; None if that thread cannot take it. */
  function Next<T>(s: State<T>, a: Action<T>): Option<State<T>>
    requires s.core.capacity > 0
  {
    match a
    case Admit(t, value) =>
      if !PusherOf(s, t).Outside? then None
      else Some(if s.running then s.(pushers := s.pushers[t := Admitted(value)]) else s)
    case Enqueue(t) =>
      (match PusherOf(s, t)
       case Admitted(value) => if LockFree(s) then Some(PushStep(s, t, value)) else None
       case _ => None)
    case NotifyOne(t) =>
      if PusherOf(s, t).Enqueued? then Some(s.(worker := Notified(s.worker), pushers := s.pushers[t := Outside]))
      else None
    case Spurious => if s.worker.Waiting? then Some(s.(worker := Woken)) else None
    case Work(throws) => WorkerStep(s, throws)
    case _ => ControlStep(s, a)
  }

  /** The state after a schedule; None if some step was not possible. */
  function Run<T>(capacity: nat, schedule: seq<Action<T>>): Option<State<T>>
    requires capacity > 0
    ensures Run(capacity, schedule).Some? ==> Run(capacity, schedule).value.core.capacity == capacity
  {
    if schedule == [] then Some(Initial(capacity))
    else
      match Run(capacity, schedule[..|schedule| - 1])
      case None => None
      case Some(s) => Next(s, schedule[|schedule| - 1])
  }

  // ---- what holds in every reachable state ----

  function Select<T>(values: seq<T>, fates: seq<Fate>): seq<T>
    requires |fates| <= |values|
  {
    if fates == [] then []
    else
      var n := |fates| - 1;
      Select(values[..n], fates[..n]) + (if fates[n] == Taken then [values[n]] else [])
  }

  function Count(fates: seq<Fate>, f: Fate): nat {
    if fates == [] then 0
    else Count(fates[..|fates| - 1], f) + (if fates[|fates| - 1] == f then 1 else 0)
  }

  /** Nothing is lost, duplicated or reordered. */
  ghost predicate Accounted<T>(s: State<T>) {
    && |s.settled| + |s.core.queue| == |s.pushed|
    && s.core.queue == s.pushed[|s.settled|..]
    && s.taken == Select(s.pushed, s.settled)
    && s.core.dropped == Count(s.settled, Dropped)
    && |s.taken| == s.handled + (if s.worker.Handling? then 1 else 0)
    && (s.worker.Handling? ==> s.taken != [] && s.taken[|s.taken| - 1] == s.worker.value)
    && s.errors <= s.handled
  }

  predicate Bounded<T>(c: Core<T>) {
    c.depth == |c.queue| <= c.peak <= c.capacity
  }

  ghost predicate Notifying<T>(s: State<T>) {
    exists t :: t in s.pushers && s.pushers[t].Enqueued?
  }

  predicate Stopping(c: Control) {
    c.FlagCleared? || c.QueueCleared?
  }

  ghost predicate Coordinated<T>(s: State<T>) {
    && (s.running <==> s.control.Launching? || s.control.Running?)
    && (s.control.Stopped? || s.control.Launching? ==> s.worker.Absent?)
    && (s.control.Running? ==> !s.worker.Absent?)
    && (s.worker.CheckQueue? ==> s.running || s.control.FlagCleared?)
    && (s.worker.Waiting? ==> (s.core.queue == [] || Notifying(s)) && (s.running || Stopping(s.control)))
    && (s.worker.Recheck? && s.running ==> s.core.queue != [])
    && (s.worker.Popping? ==> s.core.queue != [])
    && (s.worker.Popping? ==> s.running || s.control.FlagCleared?)
  }

  ghost predicate Inv<T>(s: State<T>) {
    s.core.capacity > 0 && Bounded(s.core) && Accounted(s) && Coordinated(s)
  }

  lemma SelectLonger<T>(values: seq<T>, more: T, fates: seq<Fate>)
    requires |fates| <= |values|
    ensures Select(values + [more], fates) == Select(values, fates)
  {
    if fates != [] {
      assert (values + [more])[..|fates| - 1] == values[..|fates| - 1];
    }
  }

  lemma SelectSnoc<T>(values: seq<T>, fates: seq<Fate>, f: Fate)
    requires |fates| < |values|
    ensures Select(values, fates + [f]) == Select(values, fates) + (if f == Taken then [values[|fates|]] else [])
  {
    assert (fates + [f])[..|fates|] == fates;
    SelectPrefix(values, fates, |fates|);
  }

  lemma SelectPrefix<T>(values: seq<T>, fates: seq<Fate>, n: nat)
    requires |fates| <= n <= |values|
    ensures Select(values[..n], fates) == Select(values, fates)
  {
    if fates != [] {
      assert values[..n][..|fates| - 1] == values[..|fates| - 1];
    }
  }

  lemma CountSnoc(fates: seq<Fate>, f: Fate, g: Fate)
    ensures Count(fates + [f], g) == Count(fates, g) + (if f == g then 1 else 0)
  {
    assert (fates + [f])[..|fates|] == fates;
  }

  lemma {:induction false} SettleCleared<T>(values: seq<T>, fates: seq<Fate>, n: nat)
    requires |fates| + n == |values|
    ensures var all := fates + seq(n, _ => Cleared);
            && Select(values, all) == Select(values, fates)
            && Count(all, Dropped) == Count(fates, Dropped)
  {
    var all := fates + seq(n, _ => Cleared);
    if n == 0 {
      assert all == fates;
    } else {
      var less := fates + seq(n - 1, _ => Cleared);
      assert all == less + [Cleared];
      SettleCleared(values[..|values| - 1], fates, n - 1);
      SelectPrefix(values, less, |values| - 1);
      SelectPrefix(values, fates, |values| - 1);
      SelectSnoc(values, less, Cleared);
      CountSnoc(less, Cleared, Dropped);
    }
  }

  lemma PushPreserves<T>(s: State<T>, t: nat, value: T)
    requires Inv(s) && LockFree(s)
    ensures Inv(PushStep(s, t, value))
  {
    var s' := PushStep(s, t, value);
    SelectLonger(s.pushed, value, s.settled);
    if |s.core.queue| >= s.core.capacity {
      SelectSnoc(s.pushed + [value], s.settled, Dropped);
      CountSnoc(s.settled, Dropped, Dropped);
    } else {
      assert s.settled + [] == s.settled;
    }
    assert s'.pushers[t].Enqueued?;
    assert Notifying(s');
  }

  lemma WorkPreserves<T>(s: State<T>, throws: bool)
    requires Inv(s) && WorkerStep(s, throws).Some?
    ensures Inv(WorkerStep(s, throws).value)
  {
    if s.worker.Popping? {
      SelectSnoc(s.pushed, s.settled, Taken);
      CountSnoc(s.settled, Taken, Dropped);
    }
  }

  lemma ControlPreserves<T>(s: State<T>, a: Action<T>)
    requires Inv(s) && ControlStep(s, a).Some?
    ensures Inv(ControlStep(s, a).value)
  {
    if a.ClearQueue? {
      SettleCleared(s.pushed, s.settled, |s.core.queue|);
    }
  }

  lemma NextPreserves<T>(s: State<T>, a: Action<T>)
    requires Inv(s) && Next(s, a).Some?
    ensures Inv(Next(s, a).value)
  {
    match a
    case Admit(t, value) =>
      var s' := Next(s, a).value;
      if Notifying(s) {
        var u :| u in s.pushers && s.pushers[u].Enqueued?;
        assert u in s'.pushers && s'.pushers[u].Enqueued?;
      }
    case Enqueue(t) => PushPreserves(s, t, PusherOf(s, t).value);
    case NotifyOne(t) =>
    case Spurious =>
    case Work(throws) => WorkPreserves(s, throws);
    case _ => ControlPreserves(s, a);
  }

  lemma {:induction false} AlwaysInv<T>(capacity: nat, schedule: seq<Action<T>>)
    requires capacity > 0 && Run(capacity, schedule).Some?
    ensures Inv(Run(capacity, schedule).value)
  {
    if schedule != [] {
      AlwaysInv(capacity, schedule[..|schedule| - 1]);
      NextPreserves(Run(capacity, schedule[..|schedule| - 1]).value, schedule[|schedule| - 1]);
    }
  }

  // ---- the main results ----

  lemma {:induction false} CountsPartition(fates: seq<Fate>)
    ensures Count(fates, Taken) + Count(fates, Dropped) + Count(fates, Cleared) == |fates|
  {
    if fates != [] {
      CountsPartition(fates[..|fates| - 1]);
    }
  }

  lemma {:induction false} SelectLength<T>(values: seq<T>, fates: seq<Fate>)
    requires |fates| <= |values|
    ensures |Select(values, fates)| == Count(fates, Taken)
  {
    if fates != [] {
      SelectLength(values[..|fates| - 1], fates[..|fates| - 1]);
    }
  }

  /**
   * Conservation and order after every schedule: each pushed value is delivered, in flight, dropped,
   * cleared at a stop or still queued; the queue is the newest part of what was pushed; the handler
   * saw a subsequence of it; the bound and the published depth and peak hold.
   */
  lemma ConservationAndOrder<T>(capacity: nat, schedule: seq<Action<T>>)
    requires capacity > 0 && Run(capacity, schedule).Some?
    ensures var s := Run(capacity, schedule).value;
            && |s.pushed| == s.handled + (if s.worker.Handling? then 1 else 0)
                             + s.core.dropped + Count(s.settled, Cleared) + |s.core.queue|
            && |s.settled| <= |s.pushed| && s.core.queue == s.pushed[|s.settled|..]
            && s.taken == Select(s.pushed, s.settled)
            && s.core.depth == |s.core.queue| <= s.core.peak <= capacity
  {
    AlwaysInv(capacity, schedule);
    var s := Run(capacity, schedule).value;
    CountsPartition(s.settled);
    SelectLength(s.pushed, s.settled);
  }

  /** An overflow drops the oldest value; the pushed one is always the newest in the queue. */
  lemma OverflowKeepsTheNewest<T>(c: Core<T>, value: T)
    requires c.capacity > 0 && Bounded(c)
    ensures var after := PushRegion(c, value);
            && Bounded(after)
            && after.queue[|after.queue| - 1] == value
            && (after.dropped == c.dropped ==> after.queue == c.queue + [value])
            && (after.dropped != c.dropped ==> after.dropped == c.dropped + 1 && c.queue != []
                                               && [c.queue[0]] + after.queue == c.queue + [value])
            && (after.dropped != c.dropped <==> |c.queue| == c.capacity)
  {
  }

  /**
   * No lost wakeup, after every schedule: a blocked worker with no notification still to come has
   * nothing to do. In particular it is not blocked once stop waits in join.
   */
  lemma NoLostWakeup<T>(capacity: nat, schedule: seq<Action<T>>)
    requires capacity > 0 && Run(capacity, schedule).Some?
    ensures var s := Run(capacity, schedule).value;
            && (s.worker.Waiting? && !Notifying(s) && !Stopping(s.control) ==> s.core.queue == [] && s.running)
            && (s.control.Joining? ==> !s.worker.Waiting?)
            && (s.worker.Popping? ==> s.core.queue != [])
  {
    AlwaysInv(capacity, schedule);
  }

  /** Worker steps left once running_ is false. */
  function StepsToExit<T>(w: Worker<T>): nat {
    match w
    case Absent => 0
    case Recheck => 1
    case LoopTop => 1
    case Handling(_) => 2
    case CheckRunning => 2
    case Popping => 3
    case WantLock => 3
    case Woken => 3
    case CheckQueue => 4
    case Waiting => 4
  }

  /**
   * join returns: while stop waits, the worker can always move, and is gone after at most 3 moves;
   * no other thread moves it or ends the wait.
   */
  lemma JoinTerminates<T>(capacity: nat, schedule: seq<Action<T>>, throws: bool)
    requires capacity > 0 && Run(capacity, schedule).Some?
    requires Run(capacity, schedule).value.control.Joining?
    ensures var s := Run(capacity, schedule).value;
            && StepsToExit(s.worker) <= 3
            && (s.worker.Absent? ==> Next(s, Join).Some?)
            && (!s.worker.Absent? ==>
                  var next := Next(s, Work(throws));
                  next.Some? && next.value.control.Joining?
                  && StepsToExit(next.value.worker) < StepsToExit(s.worker))
            && (forall a: Action<T> :: !a.Work? && !a.Join? && Next(s, a).Some? ==>
                  Next(s, a).value.worker == s.worker && Next(s, a).value.control.Joining?)
  {
    AlwaysInv(capacity, schedule);
  }

  // ---- counters, and what becomes of a value ----

  /** How often the handler threw. */
  function Failures<T>(capacity: nat, schedule: seq<Action<T>>): nat
    requires capacity > 0
  {
    if schedule == [] then 0
    else
      var before, a := schedule[..|schedule| - 1], schedule[|schedule| - 1];
      var failed := a == Work(true) && Run(capacity, before).Some? && Run(capacity, before).value.worker.Handling?;
      Failures(capacity, before) + (if failed then 1 else 0)
  }

  lemma StepErrors<T>(s: State<T>, a: Action<T>)
    requires s.core.capacity > 0 && Next(s, a).Some?
    ensures Next(s, a).value.errors == s.errors + (if a == Work(true) && s.worker.Handling? then 1 else 0)
  {
  }

  /** After every schedule exactly the handler calls that threw are counted as callback errors. */
  lemma {:induction false} ErrorsExactly<T>(capacity: nat, schedule: seq<Action<T>>)
    requires capacity > 0 && Run(capacity, schedule).Some?
    ensures Run(capacity, schedule).value.errors == Failures(capacity, schedule)
  {
    if schedule != [] {
      ErrorsExactly(capacity, schedule[..|schedule| - 1]);
      StepErrors(Run(capacity, schedule[..|schedule| - 1]).value, schedule[|schedule| - 1]);
    }
  }

  /** The longest that the queue has ever been. */
  function Longest<T>(capacity: nat, schedule: seq<Action<T>>): nat
    requires capacity > 0
  {
    var before := if schedule == [] then 0 else Longest(capacity, schedule[..|schedule| - 1]);
    match Run(capacity, schedule)
    case None => before
    case Some(s) => if |s.core.queue| > before then |s.core.queue| else before
  }

  lemma StepPeak<T>(s: State<T>, a: Action<T>)
    requires Inv(s) && Next(s, a).Some?
    ensures var next := Next(s, a).value.core;
            next.peak == if |next.queue| > s.core.peak then |next.queue| else s.core.peak
  {
  }

  /** After every schedule the peak is the longest that the queue has ever been. */
  lemma {:induction false} PeakExactly<T>(capacity: nat, schedule: seq<Action<T>>)
    requires capacity > 0 && Run(capacity, schedule).Some?
    ensures Run(capacity, schedule).value.core.peak == Longest(capacity, schedule)
  {
    if schedule != [] {
      var before, a := schedule[..|schedule| - 1], schedule[|schedule| - 1];
      PeakExactly(capacity, before);
      AlwaysInv(capacity, before);
      StepPeak(Run(capacity, before).value, a);
    }
  }

  /** A push on a queue that does not run changes nothing; on a running one it will enter the queue. */
  lemma PushNeedsARunningQueue<T>(s: State<T>, t: nat, value: T)
    requires s.core.capacity > 0 && PusherOf(s, t).Outside?
    ensures Next(s, Admit(t, value)).Some?
    ensures !s.running ==> Next(s, Admit(t, value)).value == s
    ensures s.running ==> PusherOf(Next(s, Admit(t, value)).value, t) == Admitted(value)
  {
  }

  /** Worker steps left until it takes a value, while the queue runs and is not empty. */
  function StepsToTake<T>(w: Worker<T>): nat {
    match w
    case Popping => 1
    case Recheck => 2
    case CheckQueue => 3
    case CheckRunning => 4
    case WantLock => 5
    case Woken => 5
    case LoopTop => 6
    case Handling(_) => 7
    case Waiting => 6
    case Absent => 8
  }

  /**
   * While the queue runs and is not empty, its worker gets the oldest value after at most seven moves of
   * its own; if it is blocked, the push that will wake it is still to notify.
   */
  lemma OldestIsTaken<T>(capacity: nat, schedule: seq<Action<T>>, throws: bool)
    requires capacity > 0 && Run(capacity, schedule).Some?
    requires var s := Run(capacity, schedule).value; s.control.Running? && s.core.queue != []
    ensures var s := Run(capacity, schedule).value;
            && (s.worker.Waiting? ==> Notifying(s))
            && (!s.worker.Waiting? ==>
                  var next := Next(s, Work(throws));
                  && next.Some? && next.value.control.Running?
                  && if s.worker.Popping?
                     then next.value.worker == Handling(s.core.queue[0])
                          && next.value.taken == s.taken + [s.core.queue[0]]
                     else next.value.core.queue == s.core.queue
                          && StepsToTake(next.value.worker) < StepsToTake(s.worker) <= 7)
  {
    AlwaysInv(capacity, schedule);
  }

  /** The notification of a push wakes a blocked worker, and the push is over; so does a spurious wakeup. */
  lemma NotifyWakes<T>(s: State<T>, t: nat)
    requires s.core.capacity > 0
    ensures PusherOf(s, t).Enqueued? ==>
              && Next(s, NotifyOne(t)).Some? && PusherOf(Next(s, NotifyOne(t)).value, t).Outside?
              && (s.worker.Waiting? ==> Next(s, NotifyOne(t)).value.worker.Woken?)
    ensures s.worker.Waiting? ==> Next(s, Spurious).Some? && Next(s, Spurious).value.worker.Woken?
  {
  }

  /** The lock is free exactly while the worker is outside its locked part; then an admitted value can enter. */
  lemma LockIsFreeOutside<T>(s: State<T>, t: nat)
    requires s.core.capacity > 0
    ensures LockFree(s) <==> s.worker.Absent? || s.worker.LoopTop? || s.worker.WantLock? || s.worker.Waiting?
                             || s.worker.Woken? || s.worker.Handling?
    ensures PusherOf(s, t).Admitted? ==> (Next(s, Enqueue(t)).Some? <==> LockFree(s))
    ensures PusherOf(s, t).Admitted? && LockFree(s) ==>
              PusherOf(Next(s, Enqueue(t)).value, t).Enqueued?
              && Next(s, Enqueue(t)).value.pushed == s.pushed + [PusherOf(s, t).value]
  {
  }

  /** A start and a stop take their steps once each, in order; only the lock and the worker can delay them. */
  lemma StopTakesItsSteps<T>(s: State<T>)
    requires s.core.capacity > 0
    ensures s.control.Stopped? ==> Next(s, Start).Some? && Next(s, Start).value.control.Launching?
                                   && Next(s, Start).value.running
    ensures s.control.Launching? ==> Next(s, Spawn).Some? && Next(s, Spawn).value.control.Running?
                                     && Next(s, Spawn).value.worker.LoopTop?
    ensures s.control.Running? ==> Next(s, ClearFlag).Some? && Next(s, ClearFlag).value.control.FlagCleared?
                                   && !Next(s, ClearFlag).value.running
    ensures s.control.FlagCleared? ==>
              && (Next(s, ClearQueue).Some? <==> LockFree(s))
              && (LockFree(s) ==> Next(s, ClearQueue).value.control.QueueCleared?
                                  && Next(s, ClearQueue).value.core.queue == [])
    ensures s.control.QueueCleared? ==> Next(s, NotifyAll).Some? && Next(s, NotifyAll).value.control.Joining?
                                        && !Next(s, NotifyAll).value.worker.Waiting?
    ensures s.control.Joining? ==>
              && (Next(s, Join).Some? <==> s.worker.Absent?)
              && (s.worker.Absent? ==> Next(s, Join).value.control.Stopped?)
  {
  }
}
