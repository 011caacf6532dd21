/** The registry and the hub over whole runs: what the hub has is a state the registry was in. */
module RegistryRuns {
  import opened Prelude
  import opened RuntimePublication
  import opened RuntimeScopes
  import PublicationRuns

  type Publishing = State<Snapshot, Change>

  /** The registry makes this transition and the journal records its change. */
  ghost predicate Records(f: Folds, before: Snapshot, change: Change, after: Snapshot) {
    exists k ::
      CanCommit(f, before, k) && change == ChangeOf(f, before, k) && after == RuntimeScopes.After(f, before, k)
  }

  /** The registry's state moves with the changes it records, and with nothing else. */
  ghost predicate Moves(f: Folds, before: Snapshot, a: Action<Change>, after: Snapshot) {
    if a.Commit? then Records(f, before, a.change, after) else after == before
  }

  /** A run of the registry with its publication; `regs` are the registry's own states. Nothing is assumed
      about the hub. */
  ghost predicate IsRun(f: Folds, states: seq<Publishing>, actions: seq<Action<Change>>, regs: seq<Snapshot>) {
    && |states| == |regs| == |actions| + 1
    && states[0] == Init(regs[0])
    && forall i {:trigger actions[i]} :: 0 <= i < |actions| ==>
         && states[i + 1] == Step(Applying(f), states[i], actions[i])
         && Moves(f, regs[i], actions[i], regs[i + 1])
  }

  lemma StepKeepsCanon(f: Folds, s: Publishing, now: Snapshot, a: Action<Change>, next: Snapshot)
    requires Canon(Applying(f), s) == Some(now) && Moves(f, now, a, next)
    ensures Enabled(Applying(f), s, a) && Canon(Applying(f), Step(Applying(f), s, a)) == Some(next)
  {
    if a.Commit? {
      var k :| CanCommit(f, now, k) && a.change == ChangeOf(f, now, k) && next == RuntimeScopes.After(f, now, k);
      RegistryCommitIsStep(f, s, now, k);
    } else {
      StateAtStable(Applying(f), s, Step(Applying(f), s, a), |s.history|);
    }
  }

  /** In every run of the registry, folding its history gives its own state. */
  lemma {:induction false} RegistryIsCanonical(f: Folds, states: seq<Publishing>, actions: seq<Action<Change>>,
                                               regs: seq<Snapshot>, i: nat)
    requires IsRun(f, states, actions, regs) && i < |states|
    ensures Canon(Applying(f), states[i]) == Some(regs[i])
    decreases i
  {
    if i > 0 {
      RegistryIsCanonical(f, states, actions, regs, i - 1);
      assert Moves(f, regs[i - 1], actions[i - 1], regs[i]);
      StepKeepsCanon(f, states[i - 1], regs[i - 1], actions[i - 1], regs[i]);
    }
  }

  /** Every run of the registry is a run of publication: the hub refuses nothing that it records. */
  lemma {:induction false} RegistryRunsPublish(f: Folds, states: seq<Publishing>, actions: seq<Action<Change>>,
                                               regs: seq<Snapshot>)
    requires IsRun(f, states, actions, regs)
    ensures PublicationRuns.IsRun(Applying(f), states, actions)
  {
    forall i {:trigger actions[i]} | 0 <= i < |actions| ensures Enabled(Applying(f), states[i], actions[i]) {
      RegistryIsCanonical(f, states, actions, regs, i);
      assert Moves(f, regs[i], actions[i], regs[i + 1]);
      StepKeepsCanon(f, states[i], regs[i], actions[i], regs[i + 1]);
    }
  }

  lemma HistoryStep(f: Folds, s: Publishing, a: Action<Change>)
    ensures
      var t := Step(Applying(f), s, a);
      t.initial == s.initial && s.history <= t.history && |t.history| <= |s.history| + 1
  {
  }

  lemma {:induction false} HistoryGrows(f: Folds, states: seq<Publishing>, actions: seq<Action<Change>>,
                                        regs: seq<Snapshot>, j: nat, i: nat)
    requires IsRun(f, states, actions, regs) && j <= i < |states|
    ensures states[j].initial == states[i].initial && states[j].history <= states[i].history
    decreases i
  {
    if j < i {
      HistoryGrows(f, states, actions, regs, j, i - 1);
      HistoryStep(f, states[i - 1], actions[i - 1]);
    }
  }

  /** There was a moment at which the history had this length. */
  lemma {:induction false} MomentAt(f: Folds, states: seq<Publishing>, actions: seq<Action<Change>>,
                                    regs: seq<Snapshot>, i: nat, n: nat) returns (j: nat)
    requires IsRun(f, states, actions, regs) && i < |states| && n <= |states[i].history|
    ensures j <= i && |states[j].history| == n
    decreases i
  {
    if n == |states[i].history| {
      j := i;
    } else {
      HistoryStep(f, states[i - 1], actions[i - 1]);
      j := MomentAt(f, states, actions, regs, i - 1, n);
    }
  }

  lemma CanonicalThen(f: Folds, states: seq<Publishing>, actions: seq<Action<Change>>, regs: seq<Snapshot>, i: nat,
                      j: nat)
    requires IsRun(f, states, actions, regs) && j <= i < |states| && |states[j].history| <= |states[i].history|
    ensures StateAt(Applying(f), states[i], |states[j].history|) == Some(regs[j])
  {
    HistoryGrows(f, states, actions, regs, j, i);
    StateAtStable(Applying(f), states[j], states[i], |states[j].history|);
    RegistryIsCanonical(f, states, actions, regs, j);
  }

  /** After any part of the events that reached it, a projection of the hub is the state that the registry
      itself was in when it had recorded as many changes, and at every such moment. */
  lemma HubFollowsRegistry(f: Folds, states: seq<Publishing>, actions: seq<Action<Change>>, regs: seq<Snapshot>,
                           i: nat, n: nat)
    requires IsRun(f, states, actions, regs) && i < |states| && n <= |states[i].log|
    ensures
      var p := Fold(Applying(f), states[i].log[..n]);
      p.Some? ==>
        && (exists j :: 0 <= j <= i && |states[j].history| == p.value.through)
        && (forall j | 0 <= j <= i && |states[j].history| == p.value.through :: regs[j] == p.value.runtime)
  {
    RegistryRunsPublish(f, states, actions, regs);
    PublicationRuns.HubFollowsCanonicalState(Applying(f), states, actions, i, n, n);
    var p := Fold(Applying(f), states[i].log[..n]);
    if p.Some? {
      var m := MomentAt(f, states, actions, regs, i, p.value.through);
      assert |states[m].history| == p.value.through;
      forall j | 0 <= j <= i && |states[j].history| == p.value.through ensures regs[j] == p.value.runtime {
        CanonicalThen(f, states, actions, regs, i, j);
      }
    }
  }

  /** Once a snapshot reached the hub, it has a projection, and when everything was published and processed
      it is the registry's state now. Without a snapshot it has none. */
  lemma HubCatchesUp(f: Folds, states: seq<Publishing>, actions: seq<Action<Change>>, regs: seq<Snapshot>, i: nat)
    requires IsRun(f, states, actions, regs) && i < |states|
    ensures
      var p := Fold(Applying(f), states[i].log);
      && (p.Some? <==> exists k :: 0 <= k < |states[i].log| && states[i].log[k].SnapshotEvent?)
      && (p.Some? && states[i].published == |states[i].history| ==>
            p == Some(Projection(|states[i].history|, regs[i])))
  {
    RegistryRunsPublish(f, states, actions, regs);
    var log := states[i].log;
    assert log[..|log|] == log;
    PublicationRuns.HubHasProjection(Applying(f), states, actions, i, |log|);
    PublicationRuns.HubFollowsCanonicalState(Applying(f), states, actions, i, 0, 0);
    CanonicalThen(f, states, actions, regs, i, i);
  }

  /** After a snapshot was accepted at `j`, a flush at any later moment that the sink accepts in full brings
      the hub to the registry's state. */
  lemma FlushBringsHubUpToDate(f: Folds, states: seq<Publishing>, actions: seq<Action<Change>>, regs: seq<Snapshot>,
                               j: nat, i: nat, room: nat)
    requires IsRun(f, states, actions, regs) && j < i < |actions| && actions[j] == SnapshotRequest(true)
    requires actions[i] == Flush(room) && room > |states[i].history| - states[i].published
    ensures Fold(Applying(f), states[i + 1].log) == Some(Projection(|states[i + 1].history|, regs[i + 1]))
  {
    RegistryRunsPublish(f, states, actions, regs);
    PublicationRuns.RunKeepsInv(Applying(f), states, actions, i);
    PublicationRuns.FullFlushCatchesUp(Applying(f), states[i], room);
    PublicationRuns.AcceptedSnapshotArrives(Applying(f), states, actions, j, i + 1);
    assert states[i + 1].log[|states[j].log|].SnapshotEvent?;
    HubCatchesUp(f, states, actions, regs, i + 1);
  }
}
