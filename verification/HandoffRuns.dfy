/** Safety of the completion handoff over whole runs. */
module HandoffRuns {
  import opened Prelude
  import opened CompletionHandoff
  import opened HandoffInvariant

  /** A sequence of enabled steps from `w`. */
  ghost predicate Steps(w: World, ws: seq<World>, actions: seq<Action>) {
    && |ws| == |actions| + 1
    && ws[0] == w
    && forall i {:trigger actions[i]} :: 0 <= i < |actions| ==>
         Enabled(ws[i], actions[i]) && ws[i + 1] == Step(ws[i], actions[i])
  }

  ghost predicate IsRun(ws: seq<World>, actions: seq<Action>) {
    Steps(INIT, ws, actions)
  }

  lemma {:induction false} RunKeepsInv(ws: seq<World>, actions: seq<Action>, i: nat)
    requires IsRun(ws, actions) && i < |ws|
    ensures Inv(ws[i])
  {
    if i > 0 {
      RunKeepsInv(ws, actions, i - 1);
      StepKeepsInv(ws[i - 1], actions[i - 1]);
    }
  }

  /** In every state of every run, each guard ever passed to `handoff` is in exactly one place:
      parked in an entry, buffered in a receiver, owned by a task, or released (once). */
  lemma GuardInExactlyOnePlace(ws: seq<World>, actions: seq<Action>, i: nat, g: Guard)
    requires IsRun(ws, actions) && i < |ws| && g < ws[i].guards
    ensures exists p :: At(ws[i], g, p) && forall q :: At(ws[i], g, q) ==> q == p
  {
    RunKeepsInv(ws, actions, i);
    assert Located(ws[i], g);
    var p :| At(ws[i], g, p);
    assert forall q :: At(ws[i], g, q) ==> q == p;
  }

  lemma StepExtendsReleases(w: World, a: Action)
    requires Enabled(w, a)
    ensures w.released <= Step(w, a).released
  {
  }

  /** A release is final: the guards released so far are a prefix of those released later. */
  lemma {:induction false} ReleasedForever(ws: seq<World>, actions: seq<Action>, i: nat, j: nat)
    requires IsRun(ws, actions) && i <= j < |ws|
    ensures ws[i].released <= ws[j].released
    decreases j
  {
    if i < j {
      ReleasedForever(ws, actions, i, j - 1);
      StepExtendsReleases(ws[j - 1], actions[j - 1]);
    }
  }

  /** No guard is released twice. */
  lemma ReleasedOnce(ws: seq<World>, actions: seq<Action>, i: nat, k: nat, l: nat)
    requires IsRun(ws, actions) && i < |ws| && k < l < |ws[i].released|
    ensures ws[i].released[k] != ws[i].released[l]
  {
    RunKeepsInv(ws, actions, i);
    assert At(ws[i], ws[i].released[k], Freed(k)) && At(ws[i], ws[i].released[l], Freed(l));
  }

  /** Every release has been followed by a wake, or a task that released it still owes one; and a
      pump that parked without a permit, with no wake owed, has scanned after the last release. */
  lemma NoFreedSessionIsMissed(ws: seq<World>, actions: seq<Action>, i: nat)
    requires IsRun(ws, actions) && i < |ws|
    ensures forall g :: g in ws[i].released ==> (g in ws[i].woken) != (Wake(g) in ws[i].duties)
    ensures ws[i].pump.Parked? ==> !ws[i].permit
    ensures ws[i].pump.Parked? && !WakeOwed(ws[i]) ==> ws[i].scanned == |ws[i].released|
  {
    RunKeepsInv(ws, actions, i);
    forall g | g in ws[i].released ensures (g in ws[i].woken) != (Wake(g) in ws[i].duties) {
      if Wake(g) in ws[i].duties {
        assert DutyOk(ws[i], Wake(g));
      }
    }
  }

  /** A turn received by a registration carries the registration's full owner and the request it
      bound, and no registration receives two turns, however owners are withdrawn and reused. */
  lemma FencedDelivery(ws: seq<World>, actions: seq<Action>, i: nat, k: nat)
    requires IsRun(ws, actions) && i < |ws| && k < |ws[i].received|
    ensures
      var (a, t) := ws[i].received[k];
      && a < |ws[i].registrations|
      && ws[i].registrations[a].owner == t.owner
      && ws[i].registrations[a].bound == Some(t.requestId)
    ensures forall l :: 0 <= l < |ws[i].received| && l != k ==> ws[i].received[l].0 != ws[i].received[k].0
  {
    RunKeepsInv(ws, actions, i);
    forall l | 0 <= l < |ws[i].received| && l != k ensures ws[i].received[l].0 != ws[i].received[k].0 {
      if l < k {
        assert ws[i].received[l].0 != ws[i].received[k].0;
      } else {
        assert ws[i].received[k].0 != ws[i].received[l].0;
      }
    }
  }

  ghost predicate KeepsIdentity(w: World, w': World, a: Allocation) {
    a < |w.registrations| ==>
      && a < |w'.registrations|
      && w'.registrations[a].owner == w.registrations[a].owner
      && (w.registrations[a].bound.Some? ==> w'.registrations[a].bound == w.registrations[a].bound)
  }

  lemma StepKeepsIdentity(w: World, action: Action, a: Allocation)
    requires Enabled(w, action)
    ensures KeepsIdentity(w, Step(w, action), a)
  {
  }

  /** Registrations keep their owner and, once bound, their request for the rest of the run. */
  lemma {:induction false} RegistrationsKeepIdentity(ws: seq<World>, actions: seq<Action>, i: nat, j: nat,
                                                     a: Allocation)
    requires IsRun(ws, actions) && i <= j < |ws|
    ensures KeepsIdentity(ws[i], ws[j], a)
    decreases j
  {
    if i < j {
      RegistrationsKeepIdentity(ws, actions, i, j - 1, a);
      StepKeepsIdentity(ws[j - 1], actions[j - 1], a);
    }
  }

  /** Every reachable entry parks at most one of a completion and a tombstone and neither once
      bound; a parked completion belongs to the owner it is parked under, and its registration is
      alive and has received nothing. */
  lemma ReachableEntries(ws: seq<World>, actions: seq<Action>, i: nat, o: Owner)
    requires IsRun(ws, actions) && i < |ws| && o in ws[i].entries
    ensures EntryShape(ws[i].entries[o])
    ensures ws[i].entries[o].early.Some? ==> ws[i].entries[o].early.value.owner == o
    ensures
      var a := ws[i].entries[o].allocation;
      && a < |ws[i].registrations| && ws[i].registrations[a].alive
      && forall k :: 0 <= k < |ws[i].received| ==> ws[i].received[k].0 != a
  {
    RunKeepsInv(ws, actions, i);
    assert EntryOk(ws[i], o, ws[i].entries[o]);
  }

  /** After `close`, once every registration is dropped and every task has finished, every guard ever
      passed to `handoff` has been released and its wake has been sent. */
  lemma ShutdownReleasesEverything(ws: seq<World>, actions: seq<Action>, i: nat, g: Guard)
    requires IsRun(ws, actions) && i < |ws| && g < ws[i].guards
    requires ws[i].closed && ws[i].duties == {}
    requires forall a :: 0 <= a < |ws[i].registrations| ==> !ws[i].registrations[a].alive
    ensures g in ws[i].released && g in ws[i].woken
  {
    RunKeepsInv(ws, actions, i);
    assert Located(ws[i], g);
    var p :| At(ws[i], g, p);
    assert forall a :: 0 <= a < |ws[i].channels| ==> ws[i].channels[a].Gone?;
    assert p.Freed?;
  }

  /** Dropping a registration removes its own entry and no other, newer or older. */
  lemma DropSparesOtherAllocations(w: World, a: Allocation, o: Owner)
    requires Enabled(w, DropRegistration(a)) && o in w.entries
    ensures
      var w' := Step(w, DropRegistration(a));
      (o in w'.entries <==> !(w.entries[o].allocation == a && w.registrations[a].owner == o))
      && (o in w'.entries ==> w'.entries[o] == w.entries[o])
  {
  }

  /** Retiring a session removes the entries of that epoch, session and incarnation, and no other. */
  lemma RetireRemovesExactlyTheIncarnation(w: World, epoch: string, sessionId: string, incarnation: nat, o: Owner)
    requires o in w.entries
    ensures
      var w' := Step(w, DiscardSession(epoch, sessionId, incarnation));
      && (o !in w'.entries <==>
            o.epoch == epoch && o.sessionId == Some(sessionId) && o.incarnation == Some(incarnation))
      && (o in w'.entries ==> w'.entries[o] == w.entries[o])
      && (o !in w'.entries ==> DropEntry(w.entries[o]) in w'.duties)
  {
  }

  lemma ClosedStays(w: World, a: Action)
    requires Enabled(w, a) && w.closed
    ensures Step(w, a).closed
  {
  }

  /** Once the registry was closed, whatever happens: it has no entry and takes none, every completion is
      refused as closed and its guard owed for release, and so is every registration and every binding. */
  lemma {:induction false} ClosedRefuses(ws: seq<World>, actions: seq<Action>, i: nat, k: nat, o: Owner, r: RequestId)
    requires IsRun(ws, actions) && i < k < |ws| && actions[i] == Close
    ensures ws[k].closed && ws[k].entries == map[]
    ensures HandoffReplyOf(ws[k], o, r) == HandoffClosed
    ensures
      var turn := Turn(o, r, ws[k].guards);
      Step(ws[k], Handoff(o, r)) == ws[k].(guards := ws[k].guards + 1, duties := ws[k].duties + {DropTurn(turn)})
    ensures Step(ws[k], Register(o)) == ws[k]
    ensures forall j | 0 <= j < |ws[k].registrations| && ws[k].registrations[j].bound.None? ::
              BindReplyOf(ws[k], j, r) == BindClosed && BindStep(ws[k], j, r) == ws[k]
    decreases k
  {
    if k > i + 1 {
      ClosedRefuses(ws, actions, i, k - 1, o, r);
      ClosedStays(ws[k - 1], actions[k - 1]);
    }
    RunKeepsInv(ws, actions, k);
  }

  // ---- What a caller sees of a run -------------------------------------------------------------

  ghost predicate Reaches(w: World, v: World) {
    exists ws, actions :: Steps(w, ws, actions) && ws[|actions|] == v
  }

  lemma StaysReaches(w: World)
    ensures Reaches(w, w)
  {
    var none: seq<Action> := [];
    assert Steps(w, [w], none) && [w][|none|] == w;
  }

  lemma StepReaches(w: World, a: Action)
    requires Enabled(w, a)
    ensures Reaches(w, Step(w, a))
  {
    var ws := [w, Step(w, a)];
    assert Steps(w, ws, [a]) && ws[|[a]|] == Step(w, a);
  }

  lemma StepsJoin(w: World, ws: seq<World>, actions: seq<Action>, vs: seq<World>, others: seq<Action>)
    requires Steps(w, ws, actions) && Steps(ws[|actions|], vs, others)
    ensures Steps(w, ws + vs[1..], actions + others) && (ws + vs[1..])[|actions + others|] == vs[|others|]
  {
    var all, both := ws + vs[1..], actions + others;
    forall i {:trigger both[i]} | 0 <= i < |both|
      ensures Enabled(all[i], both[i]) && all[i + 1] == Step(all[i], both[i])
    {
      if i < |actions| {
        assert both[i] == actions[i];
      } else {
        assert both[i] == others[i - |actions|] && all[i] == vs[i - |actions|];
      }
    }
  }

  lemma ReachesOn(u: World, v: World, w: World)
    requires Reaches(u, v) && Reaches(v, w)
    ensures Reaches(u, w)
  {
    var ws, actions :| Steps(u, ws, actions) && ws[|actions|] == v;
    var vs, others :| Steps(v, vs, others) && vs[|others|] == w;
    StepsJoin(u, ws, actions, vs, others);
  }

  /** The state ends some run. */
  ghost predicate Reachable(w: World) {
    Reaches(INIT, w)
  }

  /** A reachable state is the last of a run, so every theorem about runs is one about it. */
  lemma ReachableEndsRun(w: World) returns (ws: seq<World>, actions: seq<Action>)
    requires Reachable(w)
    ensures IsRun(ws, actions) && ws[|actions|] == w && Inv(w)
  {
    ws, actions :| Steps(INIT, ws, actions) && ws[|actions|] == w;
    RunKeepsInv(ws, actions, |actions|);
  }

  lemma {:induction false} StepsKeep(w: World, ws: seq<World>, actions: seq<Action>, n: nat, a: Allocation)
    requires Steps(w, ws, actions) && n <= |actions|
    ensures w.released <= ws[n].released && KeepsIdentity(w, ws[n], a)
  {
    if n > 0 {
      StepsKeep(w, ws, actions, n - 1, a);
      StepExtendsReleases(ws[n - 1], actions[n - 1]);
      StepKeepsIdentity(ws[n - 1], actions[n - 1], a);
    }
  }

  /** Between any two states one of which reaches the other, releases are final and registrations keep their
      owner and bound request. */
  lemma ReachedKeeps(w: World, v: World, a: Allocation)
    requires Reaches(w, v)
    ensures w.released <= v.released && KeepsIdentity(w, v, a)
  {
    var ws, actions :| Steps(w, ws, actions) && ws[|actions|] == v;
    StepsKeep(w, ws, actions, |actions|, a);
  }
}
