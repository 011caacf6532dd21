/** Whether an early update that still has its owner finds the staged creation it is meant for. */
module EarlyEntries {
  import opened Prelude
  import opened SessionIngest
  import opened IngestRuns

  // ---- Staged entries over runs ----------------------------------------------------------------

  predicate StagesEntry(a: Action, id: string) {
    a == StageUpdate(id) || a == PrepareResponse(id)
  }

  predicate Unstages(s: State, a: Action, id: string) {
    a == DiscardEarly(id) || (a.PromoteCreation? && a.id == id && CanPromote(s, id, a.incarnation))
  }

  lemma EntryStep(s: State, a: Action, id: string)
    requires Enabled(s, a)
    ensures id in Step(s, a).staging <==> StagesEntry(a, id) || (id in s.staging && !Unstages(s, a, id))
  {
    hide Takes, Matches, HasResources, Fresh, RetireTurn, CanPromote, Stages, ArrivesEarly;
  }

  /** Some step before `k` staged the session, and none since has discarded or promoted it. */
  ghost predicate StagedSince(states: seq<State>, actions: seq<Action>, k: nat, id: string)
    requires k < |states| == |actions| + 1
  {
    exists j {:trigger actions[j]} :: 0 <= j < k && StagesEntry(actions[j], id)
      && forall l {:trigger actions[l]} | j < l < k :: !Unstages(states[l], actions[l], id)
  }

  lemma StagedSinceStep(states: seq<State>, actions: seq<Action>, k: nat, id: string)
    requires 0 < k < |states| == |actions| + 1
    ensures StagedSince(states, actions, k, id) <==>
            || StagesEntry(actions[k - 1], id)
            || (StagedSince(states, actions, k - 1, id) && !Unstages(states[k - 1], actions[k - 1], id))
  {
    if StagesEntry(actions[k - 1], id) {
      assert StagedSince(states, actions, k, id);
    }
  }

  /** A creation is staged exactly when it was and has neither been discarded nor promoted since. */
  lemma {:induction false} StagedExactlySince(states: seq<State>, actions: seq<Action>, k: nat, id: string)
    requires IsRun(states, actions) && k < |states|
    ensures id in states[k].staging <==> StagedSince(states, actions, k, id)
    decreases k
  {
    if k > 0 {
      StagedExactlySince(states, actions, k - 1, id);
      StagedSinceStep(states, actions, k, id);
      assert Enabled(states[k - 1], actions[k - 1]);
      EntryStep(states[k - 1], actions[k - 1], id);
    }
  }

  // ---- When the entry is missing ---------------------------------------------------------------

  /** An update whose owner matches and that arrives early finds no entry exactly when its owner is the
      validation of the session itself and no creation of that session is staged any more. */
  lemma EarlyEntryMissing(states: seq<State>, actions: seq<Action>, k: nat, id: string, o: Owner)
    requires IsRun(states, actions) && k < |states|
    requires Matches(states[k], id, o) && ArrivesEarly(states[k], id, false)
    ensures id !in states[k].staging <==>
            Holds(Current(states[k], id), o.allocation) && !StagedSince(states, actions, k, id)
  {
    StagedExactlySince(states, actions, k, id);
  }

  /** For an owner captured for a staged creation: it finds no entry exactly when that creation was promoted,
      its validation is still the session's, and none was staged for the session since. */
  lemma EarlyOwnerMissesEntry(states: seq<State>, actions: seq<Action>, i: nat, k: nat, id: string, x: Allocation)
    requires IsRun(states, actions) && i <= k < |states| && Holds(Staged(states[i], id), x)
    requires Matches(states[k], id, Owner(None, x)) && ArrivesEarly(states[k], id, false)
    ensures id !in states[k].staging <==>
            PlaceAt(states, actions, i, k, id, AsStaged) == AsCurrent && !StagedSince(states, actions, k, id)
  {
    EarlyOwnerMatches(states, actions, i, k, id, id, x);
    StagedExactlySince(states, actions, k, id);
  }

  // ---- Both owners can miss it -----------------------------------------------------------------

  predicate Leads(s: State, a: Action, t: State) {
    Enabled(s, a) && Step(s, a) == t
  }

  /** Only this session, attached or not, with this validation, and this many pending creations. */
  function With(id: string, n: nat, attached: bool, v: Option<Validation>, pending: nat): State {
    INIT.(sessions := map[id := Session(n, attached, attached, attached, v, None)], pendingCreations := pending,
          nextAllocation := if v.Some? then 1 else 0)
  }

  /** A session stops being attached, as it does while it is deleted, and keeps its validation. */
  lemma DetachMisses(id: string, n: nat, pending: nat)
    ensures Leads(With(id, n, true, Some(Fresh(0)), pending), SetLifecycle(id, false, false, false),
                  With(id, n, false, Some(Fresh(0)), pending))
    ensures
      var s := With(id, n, false, Some(Fresh(0)), 1);
      && Matches(s, id, Owner(Some(n), 0)) && Matches(s, id, Owner(None, 0))
      && ArrivesEarly(s, id, false) && id !in s.staging
  {
  }

  lemma SetPendingLeads(s: State, count: nat)
    ensures Leads(s, SetPending(count), s.(pendingCreations := count))
  {
  }

  lemma EnsureLeads(id: string, n: nat)
    ensures Leads(INIT, Install(id, n, true, true), With(id, n, true, None, 0))
    ensures Leads(With(id, n, true, None, 0), Ensure(id, n), With(id, n, true, Some(Fresh(0)), 0))
  {
  }

  /** The owner captured for an installed session. */
  lemma InstalledOwnerCanMiss(id: string, n: nat) returns (states: seq<State>, actions: seq<Action>)
    ensures IsRun(states, actions)
    ensures
      var s := states[|actions|];
      Matches(s, id, Owner(Some(n), 0)) && ArrivesEarly(s, id, false) && id !in s.staging
  {
    hide Step, Enabled, Matches, ArrivesEarly;
    EnsureLeads(id, n);
    DetachMisses(id, n, 0);
    SetPendingLeads(With(id, n, false, Some(Fresh(0)), 0), 1);
    actions := [Install(id, n, true, true), Ensure(id, n), SetLifecycle(id, false, false, false), SetPending(1)];
    states := [INIT, With(id, n, true, None, 0), With(id, n, true, Some(Fresh(0)), 0),
               With(id, n, false, Some(Fresh(0)), 0), With(id, n, false, Some(Fresh(0)), 1)];
  }

  lemma StageLeads(id: string, n: nat)
    requires id != ""
    ensures
      var s := INIT.(pendingCreations := 2);
      var staged := s.(staging := map[id := Staging(Fresh(0), [], 0)], nextAllocation := 1);
      && Leads(s, StageUpdate(id), staged) && Holds(Staged(staged, id), 0)
      && Leads(staged, Install(id, n, true, true), With(id, n, true, None, 2).(staging := staged.staging,
                                                                               nextAllocation := 1))
  {
  }

  lemma PromoteLeads(id: string, n: nat)
    requires n != 0
    ensures
      var s := With(id, n, true, None, 2).(staging := map[id := Staging(Fresh(0), [], 0)], nextAllocation := 1);
      Leads(s, PromoteCreation(id, n), With(id, n, true, Some(Fresh(0)), 2))
  {
    assert map[id := Staging(Fresh(0), [], 0)] - {id} == map[];
  }

  /** The owner captured for a creation that was promoted since. */
  lemma PromotedOwnerCanMiss(id: string, n: nat) returns (states: seq<State>, actions: seq<Action>)
    requires id != "" && n != 0
    ensures IsRun(states, actions) && |actions| == 6 && Holds(Staged(states[2], id), 0)
    ensures
      var s := states[6];
      Matches(s, id, Owner(None, 0)) && ArrivesEarly(s, id, false) && id !in s.staging
  {
    hide Step, Enabled, Matches, ArrivesEarly, Staged;
    StageLeads(id, n);
    PromoteLeads(id, n);
    DetachMisses(id, n, 2);
    SetPendingLeads(INIT, 2);
    SetPendingLeads(With(id, n, false, Some(Fresh(0)), 2), 1);
    var s1 := INIT.(pendingCreations := 2);
    var s2 := s1.(staging := map[id := Staging(Fresh(0), [], 0)], nextAllocation := 1);
    actions := [SetPending(2), StageUpdate(id), Install(id, n, true, true), PromoteCreation(id, n),
                SetLifecycle(id, false, false, false), SetPending(1)];
    states := [INIT, s1, s2, With(id, n, true, None, 2).(staging := s2.staging, nextAllocation := 1),
               With(id, n, true, Some(Fresh(0)), 2), With(id, n, false, Some(Fresh(0)), 2),
               With(id, n, false, Some(Fresh(0)), 1)];
  }
}
