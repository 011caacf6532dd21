/** Publication over whole runs: what the hub has, whatever the sink refuses and the journal drops. */
module PublicationRuns {
  import opened Prelude
  import opened RuntimePublication

  ghost predicate IsRun<S, C>(apply: (S, C) -> Option<S>, states: seq<State<S, C>>, actions: seq<Action<C>>) {
    && |states| == |actions| + 1
    && states[0] == Init(states[0].initial)
    && forall i {:trigger actions[i]} :: 0 <= i < |actions| ==>
         Enabled(apply, states[i], actions[i]) && states[i + 1] == Step(apply, states[i], actions[i])
  }

  lemma {:induction false} RunKeepsInv<S, C>(apply: (S, C) -> Option<S>, states: seq<State<S, C>>,
                                             actions: seq<Action<C>>, i: nat)
    requires IsRun(apply, states, actions) && i < |states|
    ensures Inv(apply, states[i])
  {
    if i > 0 {
      RunKeepsInv(apply, states, actions, i - 1);
      StepKeepsInv(apply, states[i - 1], actions[i - 1]);
    }
  }

  /** Under any pattern of sink failures, journal retirements and snapshot requests: after any part of
      the events that reached it the hub either has no projection yet or the canonical state at its
      sequence number; after all of them it is at what was published; and it never loses a projection
      to a gap or a duplicate. */
  lemma {:induction false} HubFollowsCanonicalState<S, C>(apply: (S, C) -> Option<S>, states: seq<State<S, C>>,
                                                          actions: seq<Action<C>>, i: nat, n: nat, m: nat)
    requires IsRun(apply, states, actions) && i < |states| && n <= m <= |states[i].log|
    ensures
      var p := Fold(apply, states[i].log[..n]);
      p.Some? ==>
        && p.value.through <= states[i].published <= |states[i].history|
        && Some(p.value.runtime) == StateAt(apply, states[i], p.value.through)
        && Fold(apply, states[i].log[..m]).Some?
    ensures
      var all := Fold(apply, states[i].log);
      states[i].published <= |states[i].history| &&
      (all.Some? ==>
         && all.value.through == states[i].published
         && Some(all.value.runtime) == StateAt(apply, states[i], states[i].published))
  {
    RunKeepsInv(apply, states, actions, i);
    assert states[i].log[..|states[i].log|] == states[i].log;
  }

  /** A snapshot replaces whatever the hub had. */
  lemma {:induction false} HubTakesSnapshot<S, C>(apply: (S, C) -> Option<S>, log: seq<Event<S, C>>, through: nat,
                                                  runtime: S)
    ensures Fold(apply, log + [SnapshotEvent(through, runtime)]) == Some(Projection(through, runtime))
  {
    assert (log + [SnapshotEvent(through, runtime)])[..|log|] == log;
  }

  /** A delta is folded in exactly when it continues the projection and the fold accepts it, and otherwise
      leaves the hub without one. */
  lemma {:induction false} HubTakesDelta<S, C>(apply: (S, C) -> Option<S>, log: seq<Event<S, C>>, d: Delta<C>)
    ensures
      var before, now := Fold(apply, log), Fold(apply, log + [DeltaEvent(d)]);
      && (now.Some? <==> && before.Some? && d.number == before.value.through + 1
                         && apply(before.value.runtime, d.change).Some?)
      && (now.Some? ==> now.value.through == d.number
                        && Some(now.value.runtime) == apply(before.value.runtime, d.change))
  {
    assert (log + [DeltaEvent(d)])[..|log|] == log;
  }

  ghost predicate HoldsSnapshot<S, C>(log: seq<Event<S, C>>) {
    exists k :: 0 <= k < |log| && log[k].SnapshotEvent?
  }

  lemma {:induction false} NothingWithoutSnapshot<S, C>(apply: (S, C) -> Option<S>, log: seq<Event<S, C>>)
    requires !HoldsSnapshot(log)
    ensures Fold(apply, log).None?
    decreases |log|
  {
    if log != [] {
      NothingWithoutSnapshot(apply, log[..|log| - 1]);
    }
  }

  /** In every run, after any part of the events that reached it, the hub has a projection if and only if a
      snapshot was among them. */
  lemma {:induction false} HubHasProjection<S, C>(apply: (S, C) -> Option<S>, states: seq<State<S, C>>,
                                                  actions: seq<Action<C>>, i: nat, n: nat)
    requires IsRun(apply, states, actions) && i < |states| && n <= |states[i].log|
    ensures Fold(apply, states[i].log[..n]).Some? <==>
            exists k :: 0 <= k < n && states[i].log[k].SnapshotEvent?
  {
    var log := states[i].log;
    if k :| 0 <= k < n && log[k].SnapshotEvent? {
      assert log[..k + 1] == log[..k] + [SnapshotEvent(log[k].through, log[k].runtime)];
      HubTakesSnapshot(apply, log[..k], log[k].through, log[k].runtime);
      HubFollowsCanonicalState(apply, states, actions, i, k + 1, n);
    } else {
      NothingWithoutSnapshot(apply, log[..n]);
    }
  }

  lemma {:induction false} StepPublishes<S, C>(apply: (S, C) -> Option<S>, s: State<S, C>, a: Action<C>)
    requires Inv(apply, s)
    ensures s.published <= Step(apply, s, a).published && s.log <= Step(apply, s, a).log
    ensures s.history <= Step(apply, s, a).history
  {
    if a.Flush? && DeltasAfter(s, s.published).Some? {
      DeltasContinue(s, s.published);
      DeltasKeepInv(apply, s, DeltasAfter(s, s.published).value, a.room);
    }
  }

  /** What was published never decreases, and what reached the hub is never taken back. */
  lemma {:induction false} PublishedNeverDecreases<S, C>(apply: (S, C) -> Option<S>, states: seq<State<S, C>>,
                                                         actions: seq<Action<C>>, i: nat, k: nat)
    requires IsRun(apply, states, actions) && i <= k < |states|
    ensures states[i].published <= states[k].published && states[i].log <= states[k].log
    decreases k
  {
    if i < k {
      PublishedNeverDecreases(apply, states, actions, i, k - 1);
      RunKeepsInv(apply, states, actions, k - 1);
      StepPublishes(apply, states[k - 1], actions[k - 1]);
    }
  }

  /** An accepted snapshot request puts the canonical state of its moment on the hub's log, for good. */
  lemma {:induction false} AcceptedSnapshotArrives<S, C>(apply: (S, C) -> Option<S>, states: seq<State<S, C>>,
                                                         actions: seq<Action<C>>, j: nat, i: nat)
    requires IsRun(apply, states, actions) && j < i < |states| && actions[j] == SnapshotRequest(true)
    ensures
      var k := |states[j].log|;
      && k < |states[i].log| && states[i].log[k].SnapshotEvent?
      && states[i].log[k].through == |states[j].history|
      && Some(states[i].log[k].runtime) == StateAt(apply, states[j], |states[j].history|)
  {
    RunKeepsInv(apply, states, actions, j);
    PublishedNeverDecreases(apply, states, actions, j + 1, i);
    assert states[j + 1].log == states[i].log[..|states[j + 1].log|];
  }

  /** A flush that the sink accepts in full leaves nothing unpublished, whatever was retired before. */
  lemma {:induction false} FullFlushCatchesUp<S, C>(apply: (S, C) -> Option<S>, s: State<S, C>, room: nat)
    requires Inv(apply, s) && room > |s.history| - s.published
    ensures Step(apply, s, Flush(room)).published == |s.history|
  {
    if DeltasAfter(s, s.published).Some? {
      DeltasContinue(s, s.published);
      DeltasKeepInv(apply, s, DeltasAfter(s, s.published).value, room);
    }
  }
}
