/** Every step of the automatic-close machine keeps its invariant, and what follows over whole runs. */
module AutoCloseRuns {
  import opened Prelude
  import opened AutoClose

  // ---- Installing a changed observation record ------------------------------------------------

  /** What a change of session `x`'s record has to meet: the permit it gives up is the absence it had,
      the absence it keeps is unchanged, and a kept absence stays unattended. */
  ghost predicate Fits(s: State, x: nat, change: Change<nat, nat>)
    requires x in s.sessions
  {
    var was := s.sessions[x].seen;
    if change.next.absence == was.absence
    then
      && change.withdrawn.None?
      && (was.absence.Some? ==>
            && change.next.closeAttempted == was.closeAttempted
            && forall id | id in change.next.observers ::
                 id in was.observers && change.next.observers[id] == was.observers[id])
    else change.next.absence.None? && change.withdrawn == AbsencePermit(was)
  }

  lemma InstallPending(s: State, x: nat, change: Change<nat, nat>)
    requires Inv(s) && x in s.sessions && Fits(s, x, change)
    ensures PendingOk(Install(s, x, change))
  {
    var t := Install(s, x, change);
    forall p | 0 <= p < |t.permits| && t.permits[p] == Pending ensures IsAbsence(t, t.issued[p]) && p !in t.tokens {
      assert IsAbsence(s, s.issued[p]);
    }
  }

  lemma InstallSessions(s: State, x: nat, change: Change<nat, nat>)
    requires Inv(s) && x in s.sessions && Fits(s, x, change)
    ensures SessionsOk(Install(s, x, change))
  {
    var t := Install(s, x, change);
    forall y | y in t.sessions ensures SessionOk(t, y) {
      assert SessionOk(s, y);
    }
  }

  lemma InstallAttempts(s: State, x: nat, change: Change<nat, nat>)
    requires IntentsOk(s) && AttemptsOk(s) && LogOk(s) && x in s.sessions
    ensures AttemptsOk(Install(s, x, change)) && LogOk(Install(s, x, change))
  {
  }

  lemma InstallIntents(s: State, x: nat, change: Change<nat, nat>)
    requires IntentsOk(s) && x in s.sessions
    ensures IntentsOk(Install(s, x, change))
  {
  }

  lemma InstallKeepsInv(s: State, x: nat, change: Change<nat, nat>)
    requires Inv(s) && x in s.sessions && Fits(s, x, change)
    ensures Inv(Install(s, x, change))
  {
    InstallPending(s, x, change);
    InstallSessions(s, x, change);
    InstallAttempts(s, x, change);
    InstallIntents(s, x, change);
  }

  // ---- Every step -----------------------------------------------------------------------------

  lemma LeaseKeepsInv(s: State, a: Action)
    requires Inv(s) && Enabled(s, a) && (a.CancelLease? || a.FinishLease?)
    ensures Inv(Step(s, a))
  {
    assert SessionsOk(Step(s, a)) by {
      forall x | x in s.sessions ensures SessionOk(Step(s, a), x) {
        assert SessionOk(s, x);
      }
    }
  }

  lemma TransitionKeepsInv(s: State, a: Action)
    requires Inv(s) && Enabled(s, a) && a.Transition?
    ensures Inv(Step(s, a))
  {
    assert SessionsOk(Step(s, a)) by {
      forall x | x in s.sessions ensures SessionOk(Step(s, a), x) {
        assert SessionOk(s, x);
      }
    }
  }

  lemma ObserveKeepsInv(s: State, a: Action)
    requires Inv(s) && Enabled(s, a) && a.Observe?
    ensures Inv(Step(s, a))
  {
    var x := a.owner.session;
    var change := Observed(s.sessions[x].seen, a.id, a.lease, s.cancelledLeases + s.finishedLeases);
    assert Fits(s, x, change);
    InstallKeepsInv(s, x, change);
  }

  lemma UnobserveKeepsInv(s: State, a: Action)
    requires Inv(s) && Enabled(s, a) && a.Unobserve?
    ensures Inv(Step(s, a))
  {
    var x := a.owner.session;
    var change := Unobserved(s.sessions[x].seen, a.id, a.lease);
    var t := s.(cancelledLeases := s.cancelledLeases + {a.lease});
    LeaseKeepsInv(s, CancelLease(a.lease));
    assert Fits(s, x, change) && Fits(t, x, change);
    InstallKeepsInv(if change.answer then t else s, x, change);
  }

  ghost predicate Arming(s: State, x: nat, change: Change<nat, nat>) {
    && x in s.sessions && s.sessions[x].seen.absence.None?
    && change.withdrawn.None? && !change.next.closeAttempted && change.next.observers == map[]
    && change.next.absence == Some(Absence(change.next.nextAbsence, |s.permits| as nat))
  }

  lemma ArmPending(s: State, x: nat, change: Change<nat, nat>)
    requires IntentsOk(s) && PendingOk(s) && Arming(s, x, change)
    ensures PendingOk(Arm(s, x, change))
  {
    var t := Arm(s, x, change);
    forall p | 0 <= p < |t.permits| && t.permits[p] == Pending ensures IsAbsence(t, t.issued[p]) && p !in t.tokens {
      assert p < |s.permits| ==>
               t.permits[p] == s.permits[p] && t.issued[p] == s.issued[p] && IsAbsence(s, s.issued[p]);
    }
  }

  lemma ArmSessions(s: State, x: nat, change: Change<nat, nat>)
    requires Inv(s) && Arming(s, x, change)
    ensures SessionsOk(Arm(s, x, change))
  {
    var t := Arm(s, x, change);
    forall y | y in t.sessions ensures SessionOk(t, y) {
      assert SessionOk(s, y);
    }
  }

  lemma ArmIntents(s: State, x: nat, change: Change<nat, nat>)
    requires Inv(s) && Arming(s, x, change)
    ensures IntentsOk(Arm(s, x, change))
  {
    assert s.sessions[x].incarnation < s.nextIncarnation by {
      assert SessionOk(s, x);
    }
  }

  lemma ArmAttempts(s: State, x: nat, change: Change<nat, nat>)
    requires Inv(s) && Arming(s, x, change)
    ensures AttemptsOk(Arm(s, x, change)) && LogOk(Arm(s, x, change))
  {
    var t := Arm(s, x, change);
    assert forall p | 0 <= p < |s.permits| :: t.permits[p] == s.permits[p];
  }

  lemma ArmKeepsInv(s: State, x: nat, change: Change<nat, nat>)
    requires Inv(s) && Arming(s, x, change)
    ensures Inv(Arm(s, x, change))
  {
    ArmPending(s, x, change);
    ArmSessions(s, x, change);
    ArmIntents(s, x, change);
    ArmAttempts(s, x, change);
  }

  lemma RefreshKeepsInv(s: State, a: Action)
    requires Inv(s) && Enabled(s, a) && a.Refresh?
    ensures Inv(Step(s, a))
  {
    var x := a.session;
    var y := s.sessions[x];
    if Arms(y.seen, y.lifecycle, y.work, a.timeout, s.cancelledLeases) {
      ArmKeepsInv(s, x, Armed(y.seen, s.cancelledLeases, |s.permits|));
    } else {
      var change := Unarmed(y.seen, y.lifecycle, y.work, a.timeout, s.cancelledLeases);
      assert Fits(s, x, change);
      InstallKeepsInv(s, x, change);
    }
  }

  lemma StopKeepsInv(s: State, a: Action)
    requires Inv(s) && Enabled(s, a) && (a.StopAbsence? || a.DrainObservers?)
    ensures Inv(Step(s, a))
  {
    var x := a.session;
    var stopped := Stopped(s.sessions[x].seen);
    if a.StopAbsence? {
      InstallKeepsInv(s, x, stopped);
    } else {
      var t := s.(finishedLeases := s.finishedLeases + s.sessions[x].seen.observers.Values);
      assert Inv(t);
      InstallKeepsInv(t, x, stopped.(next := stopped.next.(observers := map[])));
    }
  }

  lemma DropPending(s: State, x: nat)
    requires Inv(s) && x in s.sessions
    ensures PendingOk(Drop(s, x))
  {
    var t := Drop(s, x);
    assert SessionOk(s, x);
    forall p | 0 <= p < |t.permits| && t.permits[p] == Pending ensures IsAbsence(t, t.issued[p]) && p !in t.tokens {
      assert IsAbsence(s, s.issued[p]);
    }
  }

  lemma DropSessions(s: State, x: nat)
    requires Inv(s) && x in s.sessions
    ensures SessionsOk(Drop(s, x))
  {
    var t := Drop(s, x);
    forall y | y in t.sessions ensures SessionOk(t, y) {
      assert SessionOk(s, y);
    }
  }

  lemma DropKeepsInv(s: State, x: nat)
    requires Inv(s)
    ensures Inv(Drop(s, x))
  {
    if x in s.sessions {
      DropPending(s, x);
      DropSessions(s, x);
      assert SessionOk(s, x);
    }
  }

  lemma AddSessionKeepsInv(s: State, x: nat)
    requires Inv(s) && x !in s.sessions
    ensures Inv(s.(sessions := s.sessions[x := Session(s.nextIncarnation, Attaching, Idle, NoObservers())],
                   nextIncarnation := s.nextIncarnation + 1))
  {
    var t := s.(sessions := s.sessions[x := Session(s.nextIncarnation, Attaching, Idle, NoObservers())],
                nextIncarnation := s.nextIncarnation + 1);
    assert SessionsOk(t) by {
      forall y | y in t.sessions ensures SessionOk(t, y) {
        assert y != x ==> SessionOk(s, y);
      }
    }
    assert PendingOk(t) by {
      forall p | 0 <= p < |t.permits| && t.permits[p] == Pending ensures IsAbsence(t, t.issued[p]) && p !in t.tokens {
        assert IsAbsence(s, s.issued[p]);
      }
    }
  }

  lemma DropForgets(s: State, x: nat)
    ensures x !in Drop(s, x).sessions && Drop(s, x).nextIncarnation == s.nextIncarnation
  {
  }

  lemma AllocateKeepsInv(s: State, a: Action)
    requires Inv(s) && a.Allocate?
    ensures Inv(Step(s, a))
  {
    hide Inv, Drop;
    DropKeepsInv(s, a.session);
    DropForgets(s, a.session);
    AddSessionKeepsInv(Drop(s, a.session), a.session);
  }

  lemma TimerKeepsInv(s: State, a: Action)
    requires Inv(s) && Enabled(s, a) && (a.PollTimer? || a.SendIntent?)
    ensures Inv(Step(s, a))
  {
    SameSessionsKeepInv(s, Step(s, a));
  }

  lemma ReceiveKeepsInv(s: State, a: Action)
    requires Inv(s) && Enabled(s, a) && a.Receive?
    ensures Inv(Step(s, a))
  {
    SameSessionsKeepInv(s, Step(s, a));
  }

  /** Only intents moved. */
  lemma SameSessionsKeepInv(s: State, t: State)
    requires Inv(s) && IntentsOk(t)
    requires t == s.(timers := t.timers, queue := t.queue, held := t.held)
    ensures Inv(t)
  {
    assert SessionsOk(t) by {
      forall x | x in s.sessions ensures SessionOk(t, x) {
        assert SessionOk(s, x);
      }
    }
  }

  lemma WithdrawKeepsInv(s: State, p: nat)
    requires Inv(s)
    ensures Inv(Withdraw(s, p))
  {
  }

  lemma StartKeepsInv(s: State, i: Intent)
    requires Inv(s) && Issued(s, i)
    ensures Inv(s.(attempts := s.attempts + [Attempt(i, Queued)]))
  {
    var t := s.(attempts := s.attempts + [Attempt(i, Queued)]);
    assert forall x | x in s.sessions :: SessionOk(s, x) && SessionOk(t, x);
  }

  lemma HandleIntentKeepsInv(s: State, i: Intent)
    requires Inv(s) && Issued(s, i)
    ensures Inv(HandleIntent(s, i))
  {
    WithdrawKeepsInv(s, i.permit);
    if Owns(s, i.owner) {
      InstallKeepsInv(s, i.owner.session, Stopped(s.sessions[i.owner.session].seen));
    }
    StartKeepsInv(s, i);
  }

  lemma HandleKeepsInv(s: State, a: Action)
    requires Inv(s) && Enabled(s, a) && a.Handle?
    ensures Inv(Step(s, a))
  {
    SameSessionsKeepInv(s, s.(held := None));
    HandleIntentKeepsInv(s.(held := None), s.held.value);
  }

  lemma ClaimKeepsInv(s: State, k: nat)
    requires Inv(s) && k < |s.attempts| && s.attempts[k].phase == Queued
    requires
      var i := s.attempts[k].intent;
      && i.permit < |s.permits| && s.permits[i.permit] == Pending
      && ActiveOwner(s, i.owner) && !Blocked(s, i.owner.session)
    ensures Inv(TryAttempt(s, k, true))
  {
    var t := TryAttempt(s, k, true);
    assert PendingOk(t);
    assert SessionsOk(t);
    assert AttemptsOk(t);
  }

  lemma GiveUpKeepsInv(s: State, k: nat)
    requires Inv(s) && k < |s.attempts| && s.attempts[k].phase == Queued
    ensures Inv(s.(attempts := s.attempts[k := Attempt(s.attempts[k].intent, Abandoned)]))
  {
    var t := s.(attempts := s.attempts[k := Attempt(s.attempts[k].intent, Abandoned)]);
    assert AttemptsOk(t) && LogOk(t);
    forall x | x in s.sessions ensures SessionOk(t, x) {
      assert SessionOk(s, x);
    }
  }

  lemma TryKeepsInv(s: State, a: Action)
    requires Inv(s) && Enabled(s, a) && a.Try?
    ensures Inv(Step(s, a))
  {
    var i := s.attempts[a.attempt].intent;
    GiveUpKeepsInv(s, a.attempt);
    WithdrawKeepsInv(s.(attempts := s.attempts[a.attempt := Attempt(i, Abandoned)]), i.permit);
    if a.admitted && ActiveOwner(s, i.owner) && !Blocked(s, i.owner.session) && s.permits[i.permit] == Pending {
      ClaimKeepsInv(s, a.attempt);
    }
  }

  lemma SendAttempts(s: State, a: Action)
    requires AttemptsOk(s) && LogOk(s) && Enabled(s, a) && a.Send?
    ensures AttemptsOk(Step(s, a)) && LogOk(Step(s, a))
  {
    var t := Step(s, a);
    assert forall k | 0 <= k < |s.attempts| ::
        && t.attempts[k].intent == s.attempts[k].intent
        && PastClaim(t.attempts[k].phase) == PastClaim(s.attempts[k].phase);
  }

  lemma SendKeepsInv(s: State, a: Action)
    requires Inv(s) && Enabled(s, a) && a.Send?
    ensures Inv(Step(s, a))
  {
    var t := Step(s, a);
    SendAttempts(s, a);
    assert IntentsOk(t);
    forall x | x in s.sessions ensures SessionOk(t, x) {
      assert SessionOk(s, x);
    }
  }

  lemma StepKeepsInv(s: State, a: Action)
    requires Inv(s) && Enabled(s, a)
    ensures Inv(Step(s, a))
  {
    match a
    case CancelLease(_) => LeaseKeepsInv(s, a);
    case FinishLease(_) => LeaseKeepsInv(s, a);
    case Transition(_, _, _) => TransitionKeepsInv(s, a);
    case Observe(_, _, _) => ObserveKeepsInv(s, a);
    case Unobserve(_, _, _) => UnobserveKeepsInv(s, a);
    case Refresh(_, _) => RefreshKeepsInv(s, a);
    case StopAbsence(_) => StopKeepsInv(s, a);
    case DrainObservers(_) => StopKeepsInv(s, a);
    case Allocate(_) => AllocateKeepsInv(s, a);
    case Remove(x) => DropKeepsInv(s, x);
    case PollTimer(_) => TimerKeepsInv(s, a);
    case SendIntent(_) => TimerKeepsInv(s, a);
    case Receive => ReceiveKeepsInv(s, a);
    case Handle => HandleKeepsInv(s, a);
    case Try(_, _) => TryKeepsInv(s, a);
    case Send(_) => SendKeepsInv(s, a);
  }

  // ---- Runs -----------------------------------------------------------------------------------

  ghost predicate IsRun(states: seq<State>, actions: seq<Action>) {
    && |states| == |actions| + 1
    && states[0] == Init()
    && forall i {:trigger actions[i]} :: 0 <= i < |actions| ==>
         Enabled(states[i], actions[i]) && states[i + 1] == Step(states[i], actions[i])
  }

  lemma {:induction false} RunKeepsInv(states: seq<State>, actions: seq<Action>, i: nat)
    requires IsRun(states, actions) && i < |states|
    ensures Inv(states[i])
  {
    if i > 0 {
      RunKeepsInv(states, actions, i - 1);
      StepKeepsInv(states[i - 1], actions[i - 1]);
    }
  }

  /** Permits never leave Claimed or Cancelled, and keep what they were armed for; attempts that claimed
      stay past their claim; the log only grows. */
  ghost predicate Later(s: State, t: State) {
    && |s.issued| == |s.permits| <= |t.permits| == |t.issued|
    && (forall p | 0 <= p < |s.permits| ::
          t.issued[p] == s.issued[p] && (s.permits[p] != Pending ==> t.permits[p] == s.permits[p]))
    && s.log <= t.log
    && s.nextIncarnation <= t.nextIncarnation
  }

  lemma SameIsLater(s: State)
    requires Inv(s)
    ensures Later(s, s)
  {
  }

  lemma DropIsLater(s: State, a: Action)
    requires Inv(s) && Enabled(s, a) && (a.Allocate? || a.Remove?)
    ensures Later(s, Step(s, a))
  {
  }

  lemma HandleIsLater(s: State, a: Action)
    requires Inv(s) && Enabled(s, a) && a.Handle?
    ensures Later(s, Step(s, a))
  {
    InstallIsLater(s.(held := None), s.held.value.owner.session);
  }

  lemma TryIsLater(s: State, a: Action)
    requires Inv(s) && Enabled(s, a) && a.Try?
    ensures Later(s, Step(s, a))
  {
  }

  /** However a record is changed, decided permits stay decided. */
  lemma InstallIsLater(s: State, x: nat)
    requires |s.issued| == |s.permits|
    ensures x in s.sessions ==> forall change :: Later(s, Install(s, x, change))
  {
  }

  lemma ArmIsLater(s: State, x: nat, change: Change<nat, nat>)
    requires |s.issued| == |s.permits| && x in s.sessions
    ensures Later(s, Arm(s, x, change))
  {
  }

  lemma ObserverIsLater(s: State, a: Action)
    requires Inv(s) && Enabled(s, a) && (a.Observe? || a.Unobserve?)
    ensures Later(s, Step(s, a))
  {
    InstallIsLater(s, a.owner.session);
    InstallIsLater(s.(cancelledLeases := s.cancelledLeases + {a.lease}), a.owner.session);
  }

  lemma AbsenceIsLater(s: State, a: Action)
    requires Inv(s) && Enabled(s, a) && (a.Refresh? || a.StopAbsence? || a.DrainObservers?)
    ensures Later(s, Step(s, a))
  {
    var y := s.sessions[a.session];
    InstallIsLater(s, a.session);
    InstallIsLater(s.(finishedLeases := s.finishedLeases + y.seen.observers.Values), a.session);
    ArmIsLater(s, a.session, Armed(y.seen, s.cancelledLeases, |s.permits|));
  }

  lemma StepIsLater(s: State, a: Action)
    requires Inv(s) && Enabled(s, a)
    ensures Later(s, Step(s, a))
  {
    if a.Allocate? || a.Remove? {
      DropIsLater(s, a);
    } else if a.Handle? {
      HandleIsLater(s, a);
    } else if a.Try? {
      TryIsLater(s, a);
    } else if a.Observe? || a.Unobserve? {
      ObserverIsLater(s, a);
    } else if a.Refresh? || a.StopAbsence? || a.DrainObservers? {
      AbsenceIsLater(s, a);
    }
  }

  lemma LaterIsTransitive(s: State, t: State, u: State)
    requires Later(s, t) && Later(t, u)
    ensures Later(s, u)
  {
  }

  lemma NextIsLater(states: seq<State>, actions: seq<Action>, j: nat)
    requires IsRun(states, actions) && j < |actions|
    ensures Later(states[j], states[j + 1])
  {
    RunKeepsInv(states, actions, j);
    StepIsLater(states[j], actions[j]);
  }

  lemma {:induction false} RunIsLater(states: seq<State>, actions: seq<Action>, i: nat, j: nat)
    requires IsRun(states, actions) && i <= j < |states|
    ensures Later(states[i], states[j])
    decreases j
  {
    if i == j {
      RunKeepsInv(states, actions, j);
      SameIsLater(states[j]);
    } else {
      RunIsLater(states, actions, i, j - 1);
      NextIsLater(states, actions, j - 1);
      LaterIsTransitive(states[i], states[j - 1], states[j]);
    }
  }

  /** The permit of the attempt that log entry `e` dispatched. */
  ghost function PermitOf(s: State, e: nat): nat
    requires LogOk(s) && e < |s.log|
  {
    s.attempts[s.log[e]].intent.permit
  }

  /** However often a timer queued its intent and however many attempts that started, at most one of
      them dispatches, and only after it claimed the permit. */
  lemma OneDispatchPerPermit(states: seq<State>, actions: seq<Action>, j: nat)
    requires IsRun(states, actions) && j < |states|
    ensures LogOk(states[j])
    ensures forall e | 0 <= e < |states[j].log| ::
              PermitOf(states[j], e) < |states[j].permits| && states[j].permits[PermitOf(states[j], e)] == Claimed
    ensures forall e, f | 0 <= e < f < |states[j].log| :: PermitOf(states[j], e) != PermitOf(states[j], f)
  {
    RunKeepsInv(states, actions, j);
  }

  /** A permit withdrawn before any claim never dispatches, and one claimed stays claimed whatever
      withdraws it later. */
  lemma FirstDecisionStands(states: seq<State>, actions: seq<Action>, i: nat, j: nat, p: nat)
    requires IsRun(states, actions) && i <= j < |states| && p < |states[i].permits|
    ensures p < |states[j].permits| && LogOk(states[j])
    ensures states[i].permits[p] == Claimed ==> states[j].permits[p] == Claimed
    ensures states[i].permits[p] == Cancelled ==>
              && states[j].permits[p] == Cancelled
              && forall e | 0 <= e < |states[j].log| :: PermitOf(states[j], e) != p
  {
    RunIsLater(states, actions, i, j);
    RunKeepsInv(states, actions, j);
  }

  // ---- One automatic close per observation cycle ------------------------------------------------

  /** A fresh observer of the allocation arrives: a new observation cycle begins. */
  ghost predicate FreshObservation(s: State, a: Action, owner: Owner) {
    && Enabled(s, a) && a.Observe? && a.owner == owner
    && FreshObserver(s.sessions[owner.session].seen, a.id, a.lease, s.cancelledLeases + s.finishedLeases)
  }

  /** The allocation is gone for good, or marked as attempted with nothing left to claim. */
  ghost predicate Settled(s: State, owner: Owner) {
    && owner.incarnation < s.nextIncarnation
    && (Owns(s, owner) ==> s.sessions[owner.session].seen.closeAttempted)
  }

  /** Only a fresh observation resets the attempt mark of an allocation. */
  lemma MarkStays(s: State, a: Action, owner: Owner)
    requires Enabled(s, a) && !a.Allocate? && Owns(s, owner) && s.sessions[owner.session].seen.closeAttempted
    requires !FreshObservation(s, a, owner)
    ensures Owns(Step(s, a), owner) ==> Step(s, a).sessions[owner.session].seen.closeAttempted
  {
  }

  /** No step but an allocation gives a session identifier another incarnation. */
  lemma IncarnationsStay(s: State, a: Action, x: nat)
    requires Enabled(s, a) && !a.Allocate? && x in Step(s, a).sessions
    requires !a.Handle? && !a.Try?
    ensures x in s.sessions && Step(s, a).sessions[x].incarnation == s.sessions[x].incarnation
  {
  }

  lemma AttemptsKeepIncarnations(s: State, a: Action, x: nat)
    requires Enabled(s, a) && (a.Handle? || a.Try?) && x in Step(s, a).sessions
    ensures x in s.sessions && Step(s, a).sessions[x].incarnation == s.sessions[x].incarnation
  {
  }

  lemma OwnersFromOwners(s: State, a: Action, owner: Owner)
    requires Enabled(s, a) && owner.incarnation < s.nextIncarnation && Owns(Step(s, a), owner)
    ensures Owns(s, owner)
  {
    if a.Handle? || a.Try? {
      AttemptsKeepIncarnations(s, a, owner.session);
    } else if !a.Allocate? {
      IncarnationsStay(s, a, owner.session);
    }
  }

  lemma SettledStays(s: State, a: Action, owner: Owner)
    requires Inv(s) && Enabled(s, a) && Settled(s, owner) && !FreshObservation(s, a, owner)
    ensures Settled(Step(s, a), owner)
  {
    StepIsLater(s, a);
    if Owns(Step(s, a), owner) {
      OwnersFromOwners(s, a, owner);
      if !a.Allocate? {
        MarkStays(s, a, owner);
      }
    }
  }

  /** What holds whenever an attempt commits: nobody observes the session, it is idle and active, and no
      automatic close was committed since its last fresh observation. The claim itself checks none of
      the observers. */
  lemma ClaimsOnlyAbandoned(s: State, a: Action, k: nat)
    requires Inv(s) && Claims(s, a, k)
    ensures
      var owner := s.attempts[k].intent.owner;
      && ActiveOwner(s, owner) && s.sessions[owner.session].work == Idle
      && Unattended(s, owner.session)
      && Settled(Step(s, a), owner)
  {
    var i := s.attempts[k].intent;
    assert IsAbsence(s, s.issued[i.permit]);
    assert SessionOk(s, i.owner.session);
  }

  lemma {:induction false} SettledUntilObserved(states: seq<State>, actions: seq<Action>, i: nat, j: nat, owner: Owner)
    requires IsRun(states, actions) && i <= j < |states| && Settled(states[i], owner)
    requires forall k {:trigger actions[k]} :: i <= k < j ==> !FreshObservation(states[k], actions[k], owner)
    ensures Settled(states[j], owner)
    decreases j
  {
    if i < j {
      SettledUntilObserved(states, actions, i, j - 1, owner);
      RunKeepsInv(states, actions, j - 1);
      SettledStays(states[j - 1], actions[j - 1], owner);
    }
  }

  lemma ClaimSettles(states: seq<State>, actions: seq<Action>, i: nat, k: nat)
    requires IsRun(states, actions) && i < |actions| && Claims(states[i], actions[i], k)
    ensures Settled(states[i + 1], states[i].attempts[k].intent.owner)
    ensures !Settled(states[i], states[i].attempts[k].intent.owner)
  {
    RunKeepsInv(states, actions, i);
    ClaimsOnlyAbandoned(states[i], actions[i], k);
  }

  /** Between two automatic closes of one allocation there is always a fresh observation: a refused or
      failed close never rearms itself. */
  lemma FreshObservationBetweenCloses(states: seq<State>, actions: seq<Action>, i: nat, j: nat, k: nat, l: nat)
    requires IsRun(states, actions) && i < j < |actions|
    requires Claims(states[i], actions[i], k) && Claims(states[j], actions[j], l)
    requires states[i].attempts[k].intent.owner == states[j].attempts[l].intent.owner
    ensures exists m {:trigger actions[m]} :: i < m < j &&
              FreshObservation(states[m], actions[m], states[i].attempts[k].intent.owner)
  {
    var owner := states[i].attempts[k].intent.owner;
    ClaimSettles(states, actions, i, k);
    ClaimSettles(states, actions, j, l);
    if forall m {:trigger actions[m]} :: i + 1 <= m < j ==> !FreshObservation(states[m], actions[m], owner) {
      SettledUntilObserved(states, actions, i + 1, j, owner);
    }
  }

  lemma CommitsByClaim(s: State, a: Action, k: nat)
    requires Enabled(s, a) && k < |Step(s, a).attempts| && PastClaim(Step(s, a).attempts[k].phase)
    ensures k < |s.attempts| && Step(s, a).attempts[k].intent == s.attempts[k].intent
    ensures PastClaim(s.attempts[k].phase) || Claims(s, a, k)
  {
  }

  ghost predicate CommittedAt(s: State, a: Action, k: nat, i: Intent) {
    && Claims(s, a, k) && s.attempts[k].intent == i
    && Owns(s, i.owner) && Unattended(s, i.owner.session)
  }

  /** Every dispatched close goes back to a step that committed it, when its session was abandoned. */
  lemma {:induction false} DispatchWasCommitted(states: seq<State>, actions: seq<Action>, j: nat, k: nat)
    requires IsRun(states, actions) && j < |states|
    requires k < |states[j].attempts| && PastClaim(states[j].attempts[k].phase)
    ensures exists i {:trigger actions[i]} :: 0 <= i < j
              && CommittedAt(states[i], actions[i], k, states[j].attempts[k].intent)
    decreases j
  {
    if j > 0 {
      var s, a := states[j - 1], actions[j - 1];
      RunKeepsInv(states, actions, j - 1);
      CommitsByClaim(s, a, k);
      if PastClaim(s.attempts[k].phase) {
        DispatchWasCommitted(states, actions, j - 1, k);
      } else {
        ClaimsOnlyAbandoned(s, a, k);
        assert CommittedAt(s, a, k, s.attempts[k].intent);
      }
    }
  }
}
