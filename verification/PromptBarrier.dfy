/** The barrier that keeps a shutdown from cancelling a prompt before the prompt was sent.

    Finishing a start guard clears its flag, decrements the counter and notifies, as three separate
    steps. The notifier keeps at most one stored permit; the shutdown is its one waiter. */
module PromptBarrier {

  // ---- The machine ----------------------------------------------------------------------------

  /** Unstarted until the flag is cleared; then one decrement is due, then one notification. */
  datatype Guard = Unstarted | Decrementing | Notifying | Finished

  /** The waiter creates its future, reads the counter, polls the future and parks. */
  datatype Waiter = Looping | Armed | Polling | Parked | Returned

  datatype State = State(starting: int, guards: seq<Guard>, permit: bool, waiter: Waiter)

  function Init(): State {
    State(0, [], false, Looping)
  }

  datatype Action =
    | Register
    | Finish(guard: nat)         // by its prompt, or by dropping the guard
    | Decrement(guard: nat)
    | Notify(guard: nat)
    | PromptFinished             // another notification, unrelated to starting
    | CreateFuture
    | ReadCounter
    | PollFuture

  predicate At(s: State, k: nat, phase: Guard) {
    k < |s.guards| && s.guards[k] == phase
  }

  predicate Enabled(s: State, a: Action) {
    match a
    case Register => true
    case Finish(k) => k < |s.guards|
    case Decrement(k) => At(s, k, Decrementing)
    case Notify(k) => At(s, k, Notifying)
    case PromptFinished => true
    case CreateFuture => s.waiter == Looping
    case ReadCounter => s.waiter == Armed
    case PollFuture => s.waiter == Polling
  }

  /** Wakes the parked waiter, or stores the permit. */
  function NotifyOne(s: State): State {
    if s.waiter == Parked then s.(waiter := Looping) else s.(permit := true)
  }

  function Step(s: State, a: Action): State
    requires Enabled(s, a)
  {
    match a
    case Register => s.(starting := s.starting + 1, guards := s.guards + [Unstarted])
    case Finish(k) => if s.guards[k] == Unstarted then s.(guards := s.guards[k := Decrementing]) else s
    case Decrement(k) => s.(starting := s.starting - 1, guards := s.guards[k := Notifying])
    case Notify(k) => NotifyOne(s.(guards := s.guards[k := Finished]))
    case PromptFinished => NotifyOne(s)
    case CreateFuture => s.(waiter := Armed)
    case ReadCounter => s.(waiter := if s.starting == 0 then Returned else Polling)
    case PollFuture => if s.permit then s.(permit := false, waiter := Looping) else s.(waiter := Parked)
  }

  // ---- Invariant ------------------------------------------------------------------------------

  predicate Unfinished(g: Guard) {
    g == Unstarted || g == Decrementing
  }

  /** The guards whose decrement has not happened. */
  function Count(guards: seq<Guard>): nat {
    if guards == [] then 0
    else Count(guards[..|guards| - 1]) + (if Unfinished(guards[|guards| - 1]) then 1 else 0)
  }

  lemma {:induction false} CountUpdate(guards: seq<Guard>, k: nat, g: Guard)
    requires k < |guards|
    ensures Count(guards[k := g])
         == Count(guards) - (if Unfinished(guards[k]) then 1 else 0) + (if Unfinished(g) then 1 else 0)
    decreases |guards|
  {
    var n := |guards| - 1;
    if k == n {
      assert guards[k := g][..n] == guards[..n];
    } else {
      assert guards[k := g][..n] == guards[..n][k := g];
      CountUpdate(guards[..n], k, g);
    }
  }

  lemma {:induction false} CountZero(guards: seq<Guard>)
    ensures Count(guards) == 0 <==> forall k | 0 <= k < |guards| :: !Unfinished(guards[k])
    decreases |guards|
  {
    if guards != [] {
      var n := |guards| - 1;
      CountZero(guards[..n]);
      assert forall k | 0 <= k < n :: guards[..n][k] == guards[k];
    }
  }

  /** A notification is still to come from a guard that has decremented. */
  ghost predicate Owed(s: State) {
    exists k :: 0 <= k < |s.guards| && s.guards[k] == Notifying
  }

  ghost predicate Inv(s: State) {
    && s.starting == Count(s.guards)
    && (s.waiter == Parked ==> !s.permit)
    && ((s.waiter == Polling || s.waiter == Parked) && !s.permit ==> s.starting > 0 || Owed(s))
  }

  lemma GuardStepKeepsInv(s: State, a: Action)
    requires Inv(s) && Enabled(s, a) && (a.Finish? || a.Decrement? || a.Notify?)
    ensures Inv(Step(s, a))
  {
    var k := a.guard;
    var g := if a.Finish? then Decrementing else if a.Decrement? then Notifying else Finished;
    CountUpdate(s.guards, k, g);
    var t := Step(s, a);
    if a.Decrement? {
      assert t.guards[k] == Notifying;
    }
    if a.Finish? && Owed(s) {
      var j :| 0 <= j < |s.guards| && s.guards[j] == Notifying;
      assert t.guards[j] == Notifying;
    }
  }

  lemma StepKeepsInv(s: State, a: Action)
    requires Inv(s) && Enabled(s, a)
    ensures Inv(Step(s, a))
  {
    if a.Finish? || a.Decrement? || a.Notify? {
      GuardStepKeepsInv(s, a);
    } else if a.Register? {
      assert Step(s, a).guards[..|s.guards|] == s.guards;
    }
  }

  // ---- Whole calls ----------------------------------------------------------------------------

  /** Finishing a guard without interference; nothing happens the second time. */
  function FinishCall(s: State, k: nat): State
    requires k < |s.guards|
  {
    if s.guards[k] == Unstarted then Step(Step(Step(s, Finish(k)), Decrement(k)), Notify(k)) else Step(s, Finish(k))
  }

  lemma FinishCallKeepsInv(s: State, k: nat)
    requires Inv(s) && k < |s.guards|
    ensures Inv(FinishCall(s, k))
  {
    StepKeepsInv(s, Finish(k));
    if s.guards[k] == Unstarted {
      StepKeepsInv(Step(s, Finish(k)), Decrement(k));
      StepKeepsInv(Step(Step(s, Finish(k)), Decrement(k)), Notify(k));
    }
  }

  lemma FinishCallGuards(s: State, k: nat)
    requires k < |s.guards| && s.guards[k] == Unstarted
    ensures FinishCall(s, k) == NotifyOne(s.(starting := s.starting - 1, guards := s.guards[k := Finished]))
  {
  }

  lemma CountsUnstarted(s: State, k: nat)
    requires Inv(s) && k < |s.guards| && s.guards[k] == Unstarted
    ensures s.starting > 0
  {
    CountZero(s.guards);
  }
}
