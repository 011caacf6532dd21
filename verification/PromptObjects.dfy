/** The prompt barrier as objects: each method is a step or a whole call of the machine. */
module PromptObjects {
  import opened PromptBarrier

  /** The states of the guards, of which these are pending. */
  ghost function Phases(guards: seq<PromptStartGuard>, unfinished: set<PromptStartGuard>): seq<Guard> {
    seq(|guards|, k requires 0 <= k < |guards| => if guards[k] in unfinished then Unstarted else Finished)
  }

  ghost predicate Numbered(guards: seq<PromptStartGuard>) {
    forall k | 0 <= k < |guards| :: guards[k].number == k
  }

  lemma OneMoreGuard(guards: seq<PromptStartGuard>, unfinished: set<PromptStartGuard>, guard: PromptStartGuard)
    requires guard !in guards
    ensures Phases(guards + [guard], unfinished + {guard}) == Phases(guards, unfinished) + [Unstarted]
  {
  }

  lemma OneLessPending(guards: seq<PromptStartGuard>, unfinished: set<PromptStartGuard>, guard: PromptStartGuard)
    requires Numbered(guards) && guard in guards
    ensures guard.number < |guards|
    ensures Phases(guards, unfinished - {guard}) == Phases(guards, unfinished)[guard.number := Finished]
  {
  }

  class PromptLifecycle {
    var starting: nat
    var permit: bool
    var parked: bool
    ghost var waiter: Waiter
    ghost var guards: seq<PromptStartGuard>
    ghost var unfinished: set<PromptStartGuard>

    ghost function View(): State reads this {
      State(starting, Phases(guards, unfinished), permit, waiter)
    }

    ghost predicate Valid()
      reads this, unfinished
    {
      && Inv(View()) && Numbered(guards)
      && (parked <==> waiter == Parked)
      && forall g | g in unfinished :: g in guards && g.pending && g.lifecycle == this
    }

    constructor ()
      ensures Valid() && View() == Init()
    {
      starting, permit, parked, waiter, guards, unfinished := 0, false, false, Looping, [], {};
    }

    method RegisterStart() returns (guard: PromptStartGuard)
      requires Valid()
      modifies this`starting, this`guards, this`unfinished
      ensures Valid() && fresh(guard) && guard.Valid() && guard.pending && guard.lifecycle == this
      ensures unfinished == old(unfinished) + {guard} && guards == old(guards) + [guard]
      ensures View() == Step(old(View()), Register)
      ensures starting == old(starting) + 1
    {
      StepKeepsInv(View(), Register);
      starting := starting + 1;
      guard := new PromptStartGuard(this, |guards|);
      OneMoreGuard(guards, unfinished, guard);
      guards := guards + [guard];
      unfinished := unfinished + {guard};
    }

    method PromptFinished()
      requires Valid()
      modifies this`permit, this`parked, this`waiter
      ensures Valid() && View() == Step(old(View()), Action.PromptFinished)
      ensures !parked && permit == (old(permit) || !old(parked))
    {
      StepKeepsInv(View(), Action.PromptFinished);
      Notify();
    }

    method Notify()
      requires parked <==> waiter == Parked
      modifies this`permit, this`parked, this`waiter
      ensures View() == NotifyOne(old(View())) && (parked <==> waiter == Parked)
      ensures !parked && permit == (old(permit) || !old(parked))
    {
      if parked {
        parked := false;
        waiter := Looping;
      } else {
        permit := true;
      }
    }
  }

  class PromptStartGuard {
    const lifecycle: PromptLifecycle
    ghost const number: nat
    var pending: bool

    /** A guard is pending exactly while the lifecycle counts it. */
    ghost predicate Valid()
      reads this, lifecycle
    {
      this in lifecycle.guards && (pending <==> this in lifecycle.unfinished)
    }

    constructor (lifecycle: PromptLifecycle, ghost number: nat)
      ensures this.lifecycle == lifecycle && this.number == number && pending
    {
      this.lifecycle, this.number, pending := lifecycle, number, true;
    }

    /** Called when the prompt was sent, and again when the guard is dropped. */
    method Finish()
      requires Valid() && lifecycle.Valid()
      modifies this`pending, lifecycle
      ensures Valid() && lifecycle.Valid() && !pending
      ensures lifecycle.guards == old(lifecycle.guards) && lifecycle.unfinished == old(lifecycle.unfinished) - {this}
      ensures lifecycle.starting == old(lifecycle.starting) - if old(pending) then 1 else 0
      ensures old(pending) ==>
                !lifecycle.parked && lifecycle.permit == (old(lifecycle.permit) || !old(lifecycle.parked))
      ensures !old(pending) ==> unchanged(this) && unchanged(lifecycle)
      ensures number < |old(lifecycle.guards)| && lifecycle.View() == FinishCall(old(lifecycle.View()), number)
    {
      OneLessPending(lifecycle.guards, lifecycle.unfinished, this);
      FinishCallKeepsInv(lifecycle.View(), number);
      if !pending {
        return;
      }
      FinishCallGuards(lifecycle.View(), number);
      CountsUnstarted(lifecycle.View(), number);
      pending := false;
      lifecycle.unfinished := lifecycle.unfinished - {this};
      lifecycle.starting := lifecycle.starting - 1;
      lifecycle.Notify();
    }
  }
}
