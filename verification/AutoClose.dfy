/** Automatic close of unobserved sessions.

    An absence interval owns one permit, shared by the interval itself, its timer, every retire command
    the timer queued and every attempt made for it. The bridge's locked sections and the reads made
    outside the lock are separate steps and interleave freely. */
module AutoClose {
  import opened Prelude

  // ---- The permit and the observation record --------------------------------------------------

  datatype Permit = Pending | Claimed | Cancelled

  /** Cancelling is a compare-and-swap from Pending; a claim that came first stands. */
  function Withdrawn(p: Permit): Permit {
    if p == Pending then Cancelled else p
  }

  datatype Lifecycle = Detached | Attaching | Active | Closing | ClosingForDelete | Deleting | Closed | Uncertain

  datatype Work = Idle | Running | AwaitingInteraction

  datatype Absence<P> = Absence(id: nat, permit: P)

  /** A session allocation's observers, over lease and permit identities. */
  datatype Observation<L, P> = Observation(
    observers: map<nat, L>,
    nextAbsence: nat,
    absence: Option<Absence<P>>,
    closeAttempted: bool)

  function NoObservers<L, P>(): Observation<L, P> {
    Observation(map[], 0, None, false)
  }

  /** The new record, the permit that the change withdraws, and the caller's answer. */
  datatype Change<L, P> = Change(next: Observation<L, P>, withdrawn: Option<P>, answer: bool)

  function AbsencePermit<L, P>(o: Observation<L, P>): Option<P> {
    if o.absence.Some? then Some(o.absence.value.permit) else None
  }

  function Stopped<L, P>(o: Observation<L, P>): Change<L, P> {
    Change(o.(absence := None), AbsencePermit(o), false)
  }

  predicate FreshObserver<L(==), P>(o: Observation<L, P>, id: nat, lease: L, unusable: set<L>) {
    lease !in unusable && id !in o.observers
  }

  function Observed<L(==), P>(o: Observation<L, P>, id: nat, lease: L, unusable: set<L>): Change<L, P> {
    if lease in unusable then Change(o, None, false)
    else if id in o.observers then Change(o, None, o.observers[id] == lease)
    else
      var stopped := Stopped(o).next;
      Change(stopped.(observers := o.observers[id := lease], closeAttempted := false), AbsencePermit(o), true)
  }

  function Unobserved<L(==), P>(o: Observation<L, P>, id: nat, lease: L): Change<L, P> {
    if id in o.observers && o.observers[id] == lease
    then Change(o.(observers := o.observers - {id}), None, true)
    else Change(o, None, false)
  }

  function Live<L(==)>(observers: map<nat, L>, cancelled: set<L>): map<nat, L> {
    map id | id in observers && observers[id] !in cancelled :: observers[id]
  }

  predicate Occupied<L(==), P>(o: Observation<L, P>, lifecycle: Lifecycle, work: Work, timeout: int,
                               cancelled: set<L>)
  {
    timeout < 0 || lifecycle in {Detached, Closed, Deleting} || Live(o.observers, cancelled) != map[] || work != Idle
  }

  predicate Arms<L(==), P>(o: Observation<L, P>, lifecycle: Lifecycle, work: Work, timeout: int, cancelled: set<L>) {
    && !Occupied(o, lifecycle, work, timeout, cancelled)
    && o.absence.None? && !o.closeAttempted && lifecycle == Active
  }

  /** After a transition of the owner, when it arms no absence. */
  function Unarmed<L(==), P>(o: Observation<L, P>, lifecycle: Lifecycle, work: Work, timeout: int,
                             cancelled: set<L>): Change<L, P>
  {
    var live := o.(observers := Live(o.observers, cancelled));
    if Occupied(o, lifecycle, work, timeout, cancelled) then Stopped(live) else Change(live, None, false)
  }

  /** After a transition of the owner, when it arms a new absence with `permit`. */
  function Armed<L(==), P>(o: Observation<L, P>, cancelled: set<L>, permit: P): Change<L, P> {
    var id := o.nextAbsence + 1;
    Change(o.(observers := Live(o.observers, cancelled), nextAbsence := id, absence := Some(Absence(id, permit))),
           None, true)
  }

  predicate MatchesAbsence<L(==), P(==)>(o: Observation<L, P>, id: nat, permit: P, cancelled: set<L>) {
    && o.absence == Some(Absence(id, permit))
    && forall k | k in o.observers :: o.observers[k] in cancelled
  }

  // ---- The machine ----------------------------------------------------------------------------

  datatype Session = Session(incarnation: nat, lifecycle: Lifecycle, work: Work, seen: Observation<nat, nat>)

  datatype Owner = Owner(session: nat, incarnation: nat)

  /** What a timer sends and an attempt is made for. */
  datatype Intent = Intent(owner: Owner, absence: nat, permit: nat)

  datatype TimerPhase = Waiting | Sending | Ended

  datatype Timer = Timer(intent: Intent, phase: TimerPhase)

  datatype AttemptPhase = Queued | Committed | Dispatched | Abandoned

  datatype Attempt = Attempt(intent: Intent, phase: AttemptPhase)

  datatype State = State(
    permits: seq<Permit>,        // indexed by identity
    issued: seq<Intent>,         // history: what each permit was armed for
    tokens: set<nat>,            // permits whose cancellation token has fired
    cancelledLeases: set<nat>,
    finishedLeases: set<nat>,
    nextIncarnation: nat,
    sessions: map<nat, Session>,
    timers: seq<Timer>,
    queue: seq<Intent>,          // retire commands not received yet
    held: Option<Intent>,        // received by the bridge loop, not handled yet
    attempts: seq<Attempt>,
    log: seq<nat>)               // attempts that sent the close or began the local retirement

  function Init(): State {
    State([], [], {}, {}, {}, 0, map[], [], [], None, [], [])
  }

  datatype Action =
    | CancelLease(lease: nat)
    | FinishLease(lease: nat)
    | Observe(owner: Owner, id: nat, lease: nat)
    | Unobserve(owner: Owner, id: nat, lease: nat)
    | Refresh(session: nat, timeout: int)
    | StopAbsence(session: nat)
    | DrainObservers(session: nat)
    | Transition(session: nat, lifecycle: Lifecycle, work: Work)
    | Allocate(session: nat)     // replaces any older allocation of the session
    | Remove(session: nat)
    | PollTimer(timer: nat)
    | SendIntent(timer: nat)
    | Receive
    | Handle
    | Try(attempt: nat, admitted: bool)
    | Send(attempt: nat)

  predicate Owns(s: State, owner: Owner) {
    owner.session in s.sessions && s.sessions[owner.session].incarnation == owner.incarnation
  }

  predicate Enabled(s: State, a: Action) {
    match a
    case CancelLease(_) => true
    case FinishLease(_) => true
    case Observe(owner, _, _) => Owns(s, owner)
    case Unobserve(owner, _, _) => Owns(s, owner)
    case Refresh(x, _) => x in s.sessions
    case StopAbsence(x) => x in s.sessions
    case DrainObservers(x) => x in s.sessions
    case Transition(x, _, _) => x in s.sessions
    case Allocate(_) => true
    case Remove(x) => x in s.sessions
    case PollTimer(t) => t < |s.timers| && s.timers[t].phase == Waiting
    case SendIntent(t) => t < |s.timers| && s.timers[t].phase == Sending
    case Receive => s.held.None? && s.queue != []
    case Handle => s.held.Some?
    case Try(k, _) => k < |s.attempts| && s.attempts[k].phase == Queued
    case Send(k) => k < |s.attempts| && s.attempts[k].phase == Committed
  }

  function Withdraw(s: State, p: nat): State {
    if p < |s.permits| then s.(permits := s.permits[p := Withdrawn(s.permits[p])], tokens := s.tokens + {p}) else s
  }

  function WithdrawAny(s: State, p: Option<nat>): State {
    if p.Some? then Withdraw(s, p.value) else s
  }

  /** Installs a changed observation record and withdraws the permit it gave up. */
  function Install(s: State, x: nat, change: Change<nat, nat>): State
    requires x in s.sessions
  {
    WithdrawAny(s.(sessions := s.sessions[x := s.sessions[x].(seen := change.next)]), change.withdrawn)
  }

  /** Arming makes a new permit and starts the timer that will queue it. */
  function Arm(s: State, x: nat, change: Change<nat, nat>): State
    requires x in s.sessions
  {
    var intent := Intent(Owner(x, s.sessions[x].incarnation), change.next.nextAbsence, |s.permits|);
    Install(s.(permits := s.permits + [Pending], issued := s.issued + [intent],
               timers := s.timers + [Timer(intent, Waiting)]), x, change)
  }

  function Drop(s: State, x: nat): State {
    if x !in s.sessions then s
    else
      WithdrawAny(s.(sessions := s.sessions - {x},
                     cancelledLeases := s.cancelledLeases + s.sessions[x].seen.observers.Values),
                  AbsencePermit(s.sessions[x].seen))
  }

  predicate Blocked(s: State, x: nat) {
    x in s.sessions && s.sessions[x].work != Idle
  }

  predicate ActiveOwner(s: State, owner: Owner) {
    Owns(s, owner) && s.sessions[owner.session].lifecycle == Active
  }

  function HandleIntent(s: State, i: Intent): State {
    if !(ActiveOwner(s, i.owner)
         && MatchesAbsence(s.sessions[i.owner.session].seen, i.absence, i.permit, s.cancelledLeases))
    then Withdraw(s, i.permit)
    else if Blocked(s, i.owner.session)
    then Install(s, i.owner.session, Stopped(s.sessions[i.owner.session].seen))
    else s.(attempts := s.attempts + [Attempt(i, Queued)])
  }

  /** The attempt's locked section; `admitted` says whether the registry reserved the operation. */
  function TryAttempt(s: State, k: nat, admitted: bool): State
    requires k < |s.attempts|
  {
    var i := s.attempts[k].intent;
    var x := i.owner.session;
    var gaveUp := s.(attempts := s.attempts[k := Attempt(i, Abandoned)]);
    if Blocked(s, x) || !ActiveOwner(s, i.owner) then Withdraw(gaveUp, i.permit)
    else if !admitted then gaveUp
    else if i.permit < |s.permits| && s.permits[i.permit] == Pending then
      s.(permits := s.permits[i.permit := Claimed],
         attempts := s.attempts[k := Attempt(i, Committed)],
         sessions := s.sessions[x := s.sessions[x].(lifecycle := Closing, work := Running,
                                                    seen := s.sessions[x].seen.(closeAttempted := true))])
    else gaveUp
  }

  function Step(s: State, a: Action): State
    requires Enabled(s, a)
  {
    match a
    case CancelLease(l) => s.(cancelledLeases := s.cancelledLeases + {l})
    case FinishLease(l) => s.(finishedLeases := s.finishedLeases + {l})
    case Observe(owner, id, lease) =>
      Install(s, owner.session, Observed(s.sessions[owner.session].seen, id, lease,
                                         s.cancelledLeases + s.finishedLeases))
    case Unobserve(owner, id, lease) =>
      var change := Unobserved(s.sessions[owner.session].seen, id, lease);
      Install(if change.answer then s.(cancelledLeases := s.cancelledLeases + {lease}) else s, owner.session, change)
    case Refresh(x, timeout) =>
      var y := s.sessions[x];
      if Arms(y.seen, y.lifecycle, y.work, timeout, s.cancelledLeases)
      then Arm(s, x, Armed(y.seen, s.cancelledLeases, |s.permits|))
      else Install(s, x, Unarmed(y.seen, y.lifecycle, y.work, timeout, s.cancelledLeases))
    case StopAbsence(x) => Install(s, x, Stopped(s.sessions[x].seen))
    case DrainObservers(x) =>
      var stopped := Stopped(s.sessions[x].seen);
      Install(s.(finishedLeases := s.finishedLeases + s.sessions[x].seen.observers.Values), x,
              stopped.(next := stopped.next.(observers := map[])))
    case Transition(x, lifecycle, work) =>
      s.(sessions := s.sessions[x := s.sessions[x].(lifecycle := lifecycle, work := work)])
    case Allocate(x) =>
      var t := Drop(s, x);
      t.(sessions := t.sessions[x := Session(s.nextIncarnation, Attaching, Idle, NoObservers())],
         nextIncarnation := s.nextIncarnation + 1)
    case Remove(x) => Drop(s, x)
    case PollTimer(t) =>
      var i := s.timers[t].intent;
      var pending := i.permit < |s.permits| && s.permits[i.permit] == Pending && i.permit !in s.tokens;
      s.(timers := s.timers[t := Timer(i, if pending then Sending else Ended)])
    case SendIntent(t) =>
      s.(queue := s.queue + [s.timers[t].intent], timers := s.timers[t := Timer(s.timers[t].intent, Waiting)])
    case Receive =>
      var i := s.queue[0];
      s.(queue := s.queue[1..],
         held := if i.permit < |s.permits| && s.permits[i.permit] == Pending then Some(i) else None)
    case Handle => HandleIntent(s.(held := None), s.held.value)
    case Try(k, admitted) => TryAttempt(s, k, admitted)
    case Send(k) =>
      s.(attempts := s.attempts[k := s.attempts[k].(phase := Dispatched)], log := s.log + [k])
  }

  /** The step commits attempt `k` to closing its session. */
  predicate Claims(s: State, a: Action, k: nat) {
    && Enabled(s, a) && a.Try? && a.attempt == k
    && Step(s, a).attempts[k].phase == Committed
  }

  // ---- Invariant ------------------------------------------------------------------------------

  /** The intent is the one its permit was armed for. */
  ghost predicate Issued(s: State, i: Intent) {
    i.permit < |s.issued| && s.issued[i.permit] == i
  }

  ghost predicate IntentsOk(s: State) {
    && |s.issued| == |s.permits|
    && (forall p | p in s.tokens :: p < |s.permits|)
    && (forall p | 0 <= p < |s.issued| :: s.issued[p].permit == p && s.issued[p].owner.incarnation < s.nextIncarnation)
    && (forall t | 0 <= t < |s.timers| :: Issued(s, s.timers[t].intent))
    && (forall q | 0 <= q < |s.queue| :: Issued(s, s.queue[q]))
    && (s.held.Some? ==> Issued(s, s.held.value))
    && (forall k | 0 <= k < |s.attempts| :: Issued(s, s.attempts[k].intent))
  }

  /** A pending permit is the current absence of the allocation it was armed for. */
  ghost predicate IsAbsence(s: State, i: Intent) {
    && Owns(s, i.owner)
    && s.sessions[i.owner.session].seen.absence == Some(Absence(i.absence, i.permit))
  }

  ghost predicate PendingOk(s: State) {
    && |s.issued| == |s.permits|
    && forall p | 0 <= p < |s.permits| && s.permits[p] == Pending :: IsAbsence(s, s.issued[p]) && p !in s.tokens
  }

  ghost predicate Unattended(s: State, x: nat)
    requires x in s.sessions
  {
    && !s.sessions[x].seen.closeAttempted
    && forall id | id in s.sessions[x].seen.observers :: s.sessions[x].seen.observers[id] in s.cancelledLeases
  }

  ghost predicate SessionOk(s: State, x: nat)
    requires x in s.sessions
  {
    && s.sessions[x].incarnation < s.nextIncarnation
    && (s.sessions[x].seen.absence.Some? ==>
          var a := s.sessions[x].seen.absence.value;
          && a.permit < |s.permits|
          && Issued(s, Intent(Owner(x, s.sessions[x].incarnation), a.id, a.permit))
          && (s.permits[a.permit] == Pending ==> Unattended(s, x)))
  }

  ghost predicate SessionsOk(s: State) {
    forall x | x in s.sessions :: SessionOk(s, x)
  }

  predicate PastClaim(phase: AttemptPhase) {
    phase == Committed || phase == Dispatched
  }

  ghost predicate AttemptsOk(s: State) {
    && (forall k | 0 <= k < |s.attempts| && PastClaim(s.attempts[k].phase) ::
          s.attempts[k].intent.permit < |s.permits| && s.permits[s.attempts[k].intent.permit] == Claimed)
    && (forall k, l | 0 <= k < |s.attempts| && 0 <= l < |s.attempts|
          && PastClaim(s.attempts[k].phase) && PastClaim(s.attempts[l].phase)
          && s.attempts[k].intent.permit == s.attempts[l].intent.permit :: k == l)
  }

  ghost predicate LogOk(s: State) {
    && (forall e | 0 <= e < |s.log| :: s.log[e] < |s.attempts| && s.attempts[s.log[e]].phase == Dispatched)
    && (forall e, f | 0 <= e < |s.log| && 0 <= f < |s.log| && s.log[e] == s.log[f] :: e == f)
  }

  ghost predicate Inv(s: State) {
    IntentsOk(s) && PendingOk(s) && SessionsOk(s) && AttemptsOk(s) && LogOk(s)
  }
}
