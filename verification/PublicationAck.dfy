// publication_ack.hpp, PublicationAckWindow: bounds the burst of unconfirmed publications.
module PublicationAck {
  import opened Words
  import PointOffset

  /** What the wait callback would do if it were called. */
  datatype Wait = Acked | TimedOut | Threw

  /** What published does: returns true, returns false, or lets the callback's exception through. */
  datatype Outcome = True | False | Raised

  datatype Call = Call(reliable: bool, subscribers: nat, wait: Wait)

  predicate Counts(c: Call) {
    c.reliable && c.subscribers > 0
  }

  datatype Step = Step(pending: nat, outcome: Outcome, waited: bool)

  /** published as a function of pending_. */
  function Published(limit: nat, pending: nat, c: Call): Step {
    if !Counts(c) then Step(0, True, false)
    else
      var raised := if pending < limit then pending + 1 else pending;
      if raised < limit then Step(raised, True, false)
      else
        match c.wait
        case Acked => Step(0, True, true)
        case TimedOut => Step(raised, False, true)
        case Threw => Step(raised, Raised, true)
  }

  class PublicationAckWindow {
    const limit: nat
    var pending: nat

    constructor (limit: nat)
      requires limit > 0
      ensures this.limit == limit && pending == 0
    {
      this.limit := limit;
      pending := 0;
    }

    /** The constructor as callers see it: it throws for an empty window. */
    static method Create(limit: nat) returns (r: Result<PublicationAckWindow>)
      ensures r.Ok? <==> limit > 0
      ensures r.Ok? ==> fresh(r.value) && r.value.limit == limit && r.value.pending == 0
    {
      if limit == 0 {
        return Thrown;
      }
      var window := new PublicationAckWindow(limit);
      r := Ok(window);
    }

    method OnPublished(call: Call) returns (outcome: Outcome, waited: bool)
      modifies this`pending
      ensures Step(pending, outcome, waited) == Published(limit, old(pending), call)
    {
      waited := false;
      if !call.reliable || call.subscribers == 0 {
        pending := 0;
        return True, waited;
      }
      if pending < limit {
        pending := pending + 1;
      }
      if pending < limit {
        return True, waited;
      }
      waited := true;
      if call.wait.Threw? {
        return Raised, waited;
      }
      if call.wait.TimedOut? {
        return False, waited;
      }
      pending := 0;
      outcome := True;
    }
  }

  // ---- runs ----

  function PendingAfter(limit: nat, calls: seq<Call>): nat {
    if calls == [] then 0
    else Published(limit, PendingAfter(limit, calls[..|calls| - 1]), calls[|calls| - 1]).pending
  }

  function LastStep(limit: nat, calls: seq<Call>): Step
    requires calls != []
  {
    Published(limit, PendingAfter(limit, calls[..|calls| - 1]), calls[|calls| - 1])
  }

  function Waits(limit: nat, calls: seq<Call>): nat {
    if calls == [] then 0
    else Waits(limit, calls[..|calls| - 1]) + (if LastStep(limit, calls).waited then 1 else 0)
  }

  /** Reliable publications since the last confirmation or bypass: the unbounded count. */
  function Unconfirmed(limit: nat, calls: seq<Call>): nat {
    if calls == [] then 0
    else
      var c := calls[|calls| - 1];
      if !Counts(c) then 0
      else if LastStep(limit, calls).waited && c.wait.Acked? then 0
      else Unconfirmed(limit, calls[..|calls| - 1]) + 1
  }

  function Min(a: nat, b: nat): nat {
    if a < b then a else b
  }

  /** pending_ is the unbounded count cut off at the limit, throughout any run. */
  lemma {:induction false} PendingRefinesCount(limit: nat, calls: seq<Call>)
    requires limit > 0
    ensures PendingAfter(limit, calls) == Min(Unconfirmed(limit, calls), limit)
  {
    if calls != [] {
      PendingRefinesCount(limit, calls[..|calls| - 1]);
    }
  }

  /** Success is only reported while fewer than limit publications are unconfirmed. */
  lemma {:induction false} TrueMeansBounded(limit: nat, calls: seq<Call>)
    requires limit > 0 && calls != []
    ensures LastStep(limit, calls).outcome.True? <==> Unconfirmed(limit, calls) < limit
  {
    PendingRefinesCount(limit, calls[..|calls| - 1]);
  }

  lemma {:induction false} WaitsAndPending(limit: nat, calls: seq<Call>)
    requires limit > 0
    requires forall i :: 0 <= i < |calls| ==> Counts(calls[i]) && calls[i].wait.Acked?
    ensures Waits(limit, calls) * limit + PendingAfter(limit, calls) == |calls|
    ensures PendingAfter(limit, calls) < limit
  {
    if calls != [] {
      WaitsAndPending(limit, calls[..|calls| - 1]);
      var w := Waits(limit, calls[..|calls| - 1]);
      assert (w + 1) * limit == w * limit + limit;
    }
  }

  /** n confirmed publications wait exactly floor(n / limit) times. */
  lemma WaitsOncePerWindow(limit: nat, calls: seq<Call>)
    requires limit > 0
    requires forall i :: 0 <= i < |calls| ==> Counts(calls[i]) && calls[i].wait.Acked?
    ensures Waits(limit, calls) == |calls| / limit
  {
    WaitsAndPending(limit, calls);
    PointOffset.DivisionUnique(|calls|, limit, Waits(limit, calls));
  }

  /** After a timeout or a throw, every further reliable publication waits again until one is confirmed. */
  lemma {:induction false} FenceStays(limit: nat, calls: seq<Call>, more: seq<Call>)
    requires limit > 0 && calls != [] && !LastStep(limit, calls).outcome.True?
    requires forall i :: 0 <= i < |more| ==> Counts(more[i])
    requires forall i :: 0 <= i < |more| - 1 ==> !more[i].wait.Acked?
    ensures more != [] ==> LastStep(limit, calls + more).waited
    ensures more == [] || !more[|more| - 1].wait.Acked? ==> PendingAfter(limit, calls + more) == limit
  {
    if more == [] {
      assert calls + more == calls;
      PendingRefinesCount(limit, calls[..|calls| - 1]);
    } else {
      assert (calls + more)[..|calls + more| - 1] == calls + more[..|more| - 1];
      FenceStays(limit, calls, more[..|more| - 1]);
    }
  }

  /**
   * A publication waits exactly if it is reliable, has a subscriber, and with it as many are unconfirmed as
   * the window holds; then the wait decides: acknowledged is success, a timeout is failure, and an
   * exception goes through. Without a wait it is a success.
   */
  lemma {:induction false} WaitDecides(limit: nat, calls: seq<Call>)
    requires limit > 0 && calls != []
    ensures var step, c, before := LastStep(limit, calls), calls[|calls| - 1], calls[..|calls| - 1];
            && (step.waited <==> c.reliable && c.subscribers > 0 && Unconfirmed(limit, before) + 1 >= limit)
            && step.outcome == (if !step.waited then True
                                else match c.wait case Acked => True case TimedOut => False case Threw => Raised)
  {
    PendingRefinesCount(limit, calls[..|calls| - 1]);
  }
}
