/** What the automatic close decides at each step, spelled out, and who can have armed a permit. */
module AutoCloseDecisions {
  import opened Prelude
  import opened AutoClose
  import opened AutoCloseRuns

  /** The session of this allocation is active. */
  predicate IsActive(s: State, owner: Owner) {
    && owner.session in s.sessions && s.sessions[owner.session].incarnation == owner.incarnation
    && s.sessions[owner.session].lifecycle == Active
  }

  predicate AllCancelled(s: State, x: nat)
    requires x in s.sessions
  {
    forall id | id in s.sessions[x].seen.observers :: s.sessions[x].seen.observers[id] in s.cancelledLeases
  }

  /** What has to hold of the session for a refresh to arm it. */
  predicate Abandoned(s: State, x: nat, timeout: int)
    requires x in s.sessions
  {
    && timeout >= 0 && s.sessions[x].lifecycle == Active && s.sessions[x].work == Idle && AllCancelled(s, x)
    && s.sessions[x].seen.absence.None? && !s.sessions[x].seen.closeAttempted
  }

  /** The permit's next state when it is withdrawn. */
  function Undone(p: Permit): Permit {
    if p == Claimed then Claimed else Cancelled
  }

  lemma NoneLive(s: State, x: nat)
    requires x in s.sessions
    ensures Live(s.sessions[x].seen.observers, s.cancelledLeases) == map[] <==> AllCancelled(s, x)
  {
    var observers := s.sessions[x].seen.observers;
    if id :| id in observers && observers[id] !in s.cancelledLeases {
      assert id in Live(observers, s.cancelledLeases);
    }
  }

  /** A refresh arms a new permit, pending, for the session's current allocation, with a timer, exactly when
      the session is abandoned and the timeout is not negative. */
  lemma RefreshArmsExactly(s: State, x: nat, timeout: int)
    requires x in s.sessions
    ensures
      var t := Step(s, Refresh(x, timeout));
      var n: nat := |s.permits|;
      var intent := Intent(Owner(x, s.sessions[x].incarnation), s.sessions[x].seen.nextAbsence + 1, n);
      && (|t.permits| > n <==> Abandoned(s, x, timeout))
      && (Abandoned(s, x, timeout) ==>
            && t.permits == s.permits + [Pending] && t.issued == s.issued + [intent]
            && t.timers == s.timers + [Timer(intent, Waiting)]
            && t.sessions[x].seen.absence == Some(Absence(intent.absence, n)))
  {
    NoneLive(s, x);
  }

  lemma OnlyRefreshArms(s: State, a: Action)
    requires Enabled(s, a) && |Step(s, a).permits| > |s.permits|
    ensures a.Refresh? && a.session in s.sessions
  {
  }

  lemma IssuedStays(s: State, a: Action)
    requires Enabled(s, a)
    ensures |s.permits| <= |Step(s, a).permits| && s.issued <= Step(s, a).issued
    ensures a.Refresh? ==> a.session in s.sessions
  {
  }

  /** The step is the refresh that armed permit `p`, of an abandoned session, for what `i` names. */
  ghost predicate Armed(s: State, a: Action, p: nat, i: Intent) {
    && a.Refresh? && p == |s.permits|
    && a.session in s.sessions && i.owner == Owner(a.session, s.sessions[a.session].incarnation)
    && Abandoned(s, a.session, a.timeout)
  }

  /** Every permit goes back to a refresh with a non-negative timeout of a session that was active, idle,
      without a live observer, without an absence already running and without an earlier attempt. */
  lemma {:induction false} PermitWasArmed(states: seq<State>, actions: seq<Action>, j: nat, p: nat)
    requires IsRun(states, actions) && j < |states| && p < |states[j].permits|
    ensures p < |states[j].issued|
    ensures exists i {:trigger actions[i]} :: 0 <= i < j && Armed(states[i], actions[i], p, states[j].issued[p])
    decreases j
  {
    RunKeepsInv(states, actions, j);
    if j > 0 {
      var s, a := states[j - 1], actions[j - 1];
      RunKeepsInv(states, actions, j - 1);
      IssuedStays(s, a);
      if p < |s.permits| {
        PermitWasArmed(states, actions, j - 1, p);
      } else {
        OnlyRefreshArms(s, a);
        RefreshArmsExactly(s, a.session, a.timeout);
        assert Armed(s, a, p, states[j].issued[p]);
      }
    }
  }

  /** A timer queues its intent exactly while its permit is pending and uncancelled. */
  lemma TimerSendsExactly(s: State, t: nat)
    requires Enabled(s, PollTimer(t))
    ensures
      var i := s.timers[t].intent;
      var next := Step(s, PollTimer(t));
      && (next.timers[t] == Timer(i, Sending) <==>
            i.permit < |s.permits| && s.permits[i.permit] == Pending && i.permit !in s.tokens)
      && (next.timers[t] != Timer(i, Sending) ==> next.timers[t] == Timer(i, Ended))
  {
  }

  lemma SendingQueues(s: State, t: nat)
    requires Enabled(s, SendIntent(t))
    ensures
      var next := Step(s, SendIntent(t));
      && next.queue == s.queue + [s.timers[t].intent] && next.timers[t] == Timer(s.timers[t].intent, Waiting)
      && next.permits == s.permits && next.sessions == s.sessions
  {
  }

  /** A queued intent is handled exactly if its permit is still pending when it is received. */
  lemma ReceivedExactly(s: State)
    requires Enabled(s, Receive)
    ensures
      var i := s.queue[0];
      var next := Step(s, Receive);
      && next.queue == s.queue[1..]
      && (next.held == Some(i) <==> i.permit < |s.permits| && s.permits[i.permit] == Pending)
      && (next.held != Some(i) ==> next.held.None?)
  {
  }

  /** A handled intent starts an attempt exactly when its session is active, its absence is the current one,
      every remaining observer is cancelled and no work is running. Otherwise the permit is withdrawn. */
  lemma HandleStartsExactly(s: State)
    requires Enabled(s, Handle)
    ensures
      var i := s.held.value;
      var x := i.owner.session;
      var t := Step(s, Handle);
      var starts := && IsActive(s, i.owner) && AllCancelled(s, x) && s.sessions[x].work == Idle
                    && s.sessions[x].seen.absence == Some(Absence(i.absence, i.permit));
      && t.held.None?
      && t.attempts == (if starts then s.attempts + [Attempt(i, Queued)] else s.attempts)
      && t.permits == (if !starts && i.permit < |s.permits|
                       then s.permits[i.permit := Undone(s.permits[i.permit])] else s.permits)
  {
  }

  /** An attempt claims its permit and commits exactly when it was admitted, its session is active and idle,
      and the permit is pending. If the session is busy or not active any more the permit is withdrawn. */
  lemma AttemptCommitsExactly(s: State, k: nat, admitted: bool)
    requires Enabled(s, Try(k, admitted))
    ensures
      var i := s.attempts[k].intent;
      var x := i.owner.session;
      var t := Step(s, Try(k, admitted));
      var ready := IsActive(s, i.owner) && s.sessions[x].work == Idle;
      var commits := admitted && ready && i.permit < |s.permits| && s.permits[i.permit] == Pending;
      && t.attempts == s.attempts[k := Attempt(i, if commits then Committed else AttemptPhase.Abandoned)]
      && t.permits == (if commits then s.permits[i.permit := Claimed]
                       else if !ready && i.permit < |s.permits|
                       then s.permits[i.permit := Undone(s.permits[i.permit])]
                       else s.permits)
      && (commits ==> && t.sessions[x].lifecycle == Closing && t.sessions[x].seen.closeAttempted
                      && t.sessions[x].work == Running)
  {
  }

  lemma SendDispatches(s: State, k: nat)
    requires Enabled(s, Send(k))
    ensures
      var t := Step(s, Send(k));
      t.log == s.log + [k] && t.attempts == s.attempts[k := Attempt(s.attempts[k].intent, Dispatched)]
  {
  }

  /** A replaced or removed allocation gives up its permit and cancels its observers. */
  lemma AllocationEnds(s: State, x: nat)
    requires x in s.sessions
    ensures
      var t := Step(s, Allocate(x));
      var r := Step(s, Remove(x));
      var seen := s.sessions[x].seen;
      && t.sessions == s.sessions[x := Session(s.nextIncarnation, Attaching, Idle, Observation(map[], 0, None, false))]
      && r.sessions == s.sessions - {x}
      && t.permits == r.permits && t.cancelledLeases == r.cancelledLeases
      && r.cancelledLeases == s.cancelledLeases + seen.observers.Values
      && (seen.absence.None? ==> r.permits == s.permits)
      && (seen.absence.Some? && seen.absence.value.permit < |s.permits| ==>
            var p := seen.absence.value.permit;
            r.permits == s.permits[p := Undone(s.permits[p])] && p in r.tokens)
  {
    assert s.sessions[x := Session(s.nextIncarnation, Attaching, Idle, NoObservers())]
        == (s.sessions - {x})[x := Session(s.nextIncarnation, Attaching, Idle, NoObservers())];
  }
}
