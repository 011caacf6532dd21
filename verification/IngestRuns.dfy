/** Replay transactions, creation owners and early-update accounting over whole runs. */
module IngestRuns {
  import opened Prelude
  import opened SessionIngest

  ghost predicate IsRun(states: seq<State>, actions: seq<Action>) {
    && |states| == |actions| + 1
    && states[0] == INIT
    && forall i {:trigger actions[i]} :: 0 <= i < |actions| ==>
         Enabled(states[i], actions[i]) && states[i + 1] == Step(states[i], actions[i])
  }

  lemma {:induction false} RunKeepsInv(states: seq<State>, actions: seq<Action>, i: nat)
    requires IsRun(states, actions) && i < |states|
    ensures Inv(states[i])
  {
    if i > 0 {
      RunKeepsInv(states, actions, i - 1);
      StepKeepsInv(states[i - 1], actions[i - 1]);
    }
  }

  /** In every run the totals equal the sums over the staged entries, every entry's bytes are those of
      its notifications, and no subtraction of an entry saturates. */
  lemma AccountingIsExact(states: seq<State>, actions: seq<Action>, i: nat)
    requires IsRun(states, actions) && i < |states|
    ensures Accounted(states[i])
    ensures states[i].staging == map[] ==> states[i].earlyCount == 0 && states[i].earlyBytes == 0
    ensures forall id :: id in states[i].staging ==>
              && |states[i].staging[id].early| <= states[i].earlyCount
              && states[i].staging[id].bytes <= states[i].earlyBytes
  {
    RunKeepsInv(states, actions, i);
    var s := states[i];
    if s.staging == map[] {
      assert Counts(s.staging) == map[] && Bytes(s.staging) == map[];
    }
    forall id | id in s.staging ensures |s.staging[id].early| <= s.earlyCount && s.staging[id].bytes <= s.earlyBytes {
      NeverSaturates(s, id);
    }
  }

  lemma IssuedStaysIssued(s: State, a: Action)
    requires Enabled(s, a)
    ensures s.nextAllocation <= Step(s, a).nextAllocation
  {
  }

  /** A backup held for an owner that was already issued was there before the step, unchanged. */
  lemma BackupsAreNotForged(s: State, a: Action, id: string, o: Owner)
    requires Enabled(s, a) && o.allocation < s.nextAllocation && Takes(Step(s, a), id, o).Some?
    ensures Takes(s, id, o) == Takes(Step(s, a), id, o)
  {
  }

  /** The owner that `begin` at position `i` hands out. */
  function OwnerAt(states: seq<State>, i: nat, id: string): Owner
    requires i < |states| && id in states[i].sessions
  {
    Owner(Some(states[i].sessions[id].incarnation), states[i].nextAllocation)
  }

  lemma BeginHandsOut(s: State, id: string)
    requires id in s.sessions
    ensures
      var o := Owner(Some(s.sessions[id].incarnation), s.nextAllocation);
      && o.allocation < Begin(s, id).nextAllocation
      && Takes(Begin(s, id), id, o) == Some(Backup(o, s.sessions[id].validation))
  {
  }

  lemma {:induction false} BackupIsFromBegin(states: seq<State>, actions: seq<Action>, i: nat, k: nat, id: string)
    requires IsRun(states, actions) && i < k < |states| && actions[i] == BeginReplay(id)
    ensures id in states[i].sessions
    ensures OwnerAt(states, i, id).allocation < states[k].nextAllocation
    ensures
      var backup := Takes(states[k], id, OwnerAt(states, i, id));
      backup.Some? ==> backup.value.previous == states[i].sessions[id].validation
    decreases k
  {
    assert Enabled(states[i], actions[i]);
    if k == i + 1 {
      BeginHandsOut(states[i], id);
    } else {
      BackupIsFromBegin(states, actions, i, k - 1, id);
      IssuedStaysIssued(states[k - 1], actions[k - 1]);
      if Takes(states[k], id, OwnerAt(states, i, id)).Some? {
        BackupsAreNotForged(states[k - 1], actions[k - 1], id, OwnerAt(states, i, id));
      }
    }
  }

  /** The step ends the session's resources. */
  predicate Ends(s: State, a: Action, id: string) {
    || (a.ClearSession? && a.id == id && HasResources(s, id, a.incarnation))
    || (a.Install? && a.id == id) || (a.Retire? && a.id == id)
  }

  /** The step rolls the session's replay back. */
  predicate RollsBack(s: State, a: Action, id: string) {
    || (a.RollbackReplay? && a.id == id && Takes(s, id, a.owner).Some?)
    || (a.ClearAttachment? && a.id == id && Matches(s, id, a.owner) && Takes(s, id, a.owner).Some?)
  }

  /** The step takes the session's backup or replaces it. */
  predicate EndsReplay(s: State, a: Action, id: string) {
    || Ends(s, a, id) || RollsBack(s, a, id) || a == BeginReplay(id)
    || (a.CommitReplay? && a.id == id && Takes(s, id, a.owner).Some?)
  }

  lemma StepHoldsBackup(s: State, a: Action, id: string, o: Owner)
    requires Enabled(s, a) && o.allocation < s.nextAllocation && Takes(s, id, o).Some?
    ensures Takes(Step(s, a), id, o).Some? <==> !EndsReplay(s, a, id)
  {
  }

  /** The owner of a replay holds its backup exactly as long as no step ended the session's resources,
      committed the replay, rolled it back, or began another one. */
  lemma {:induction false} BackupHeldUntilEnded(states: seq<State>, actions: seq<Action>, i: nat, k: nat, id: string)
    requires IsRun(states, actions) && i < k < |states| && actions[i] == BeginReplay(id)
    ensures id in states[i].sessions
    ensures Takes(states[k], id, OwnerAt(states, i, id)).Some? <==>
            forall j {:trigger actions[j]} | i < j < k :: !EndsReplay(states[j], actions[j], id)
    decreases k
  {
    hide EndsReplay, Takes;
    BackupIsFromBegin(states, actions, i, k, id);
    var o := OwnerAt(states, i, id);
    if k == i + 1 {
      BeginHandsOut(states[i], id);
    } else {
      BackupHeldUntilEnded(states, actions, i, k - 1, id);
      BackupIsFromBegin(states, actions, i, k - 1, id);
      if Takes(states[k - 1], id, o).Some? {
        StepHoldsBackup(states[k - 1], actions[k - 1], id, o);
      } else {
        OldOwnersArePowerless(states, actions, k - 1, k, id, o);
      }
    }
  }

  /** A replay is a transaction: as long as no step in between ended it, a rollback by its owner restores
      the validation current at begin, and a commit keeps the candidate, with its turn retired, under the
      owner's allocation; either ends the transaction. */
  lemma ReplayIsATransaction(states: seq<State>, actions: seq<Action>, i: nat, k: nat, id: string)
    requires IsRun(states, actions) && i < k < |states| && actions[i] == BeginReplay(id)
    requires forall j {:trigger actions[j]} | i < j < k :: !EndsReplay(states[j], actions[j], id)
    ensures id in states[i].sessions && Takes(states[k], id, OwnerAt(states, i, id)).Some?
    ensures
      var o := OwnerAt(states, i, id);
      var rolledBack := Rollback(states[k], id, o).sessions[id];
      rolledBack.validation == states[i].sessions[id].validation && rolledBack.backup.None?
    ensures
      var o := OwnerAt(states, i, id);
      var committed := Commit(states[k], id, o).sessions[id];
      && Current(states[k], id).Some? && Current(states[k], id).value.allocation == o.allocation
      && committed.validation == Some(RetireTurn(Current(states[k], id).value)) && committed.backup.None?
    ensures
      var o := OwnerAt(states, i, id);
      var candidate := states[k].sessions[id].validation;
      var committed := Commit(states[k], id, o).sessions[id].validation;
      && candidate.Some? && committed.Some?
      && committed.value.allocation == candidate.value.allocation == o.allocation
      && committed.value.entities == candidate.value.entities
      && committed.value.updateCount == 0 && committed.value.updateBytes == 0 && committed.value.invalidReason.None?
  {
    BackupHeldUntilEnded(states, actions, i, k, id);
    BackupIsFromBegin(states, actions, i, k, id);
    RunKeepsInv(states, actions, k);
    assert BackupOk(states[k].sessions[id]);
  }

  /** An owner whose backup is gone (committed, rolled back, cleared or superseded by a newer begin)
      never changes anything again. */
  lemma {:induction false} OldOwnersArePowerless(states: seq<State>, actions: seq<Action>, i: nat, k: nat, id: string,
                                                 o: Owner)
    requires IsRun(states, actions) && i <= k < |states|
    requires o.allocation < states[i].nextAllocation && Takes(states[i], id, o).None?
    ensures o.allocation < states[k].nextAllocation && Takes(states[k], id, o).None?
    ensures Commit(states[k], id, o) == states[k] == Rollback(states[k], id, o)
    decreases k
  {
    if i < k {
      OldOwnersArePowerless(states, actions, i, k - 1, id, o);
      IssuedStaysIssued(states[k - 1], actions[k - 1]);
      if Takes(states[k], id, o).Some? {
        BackupsAreNotForged(states[k - 1], actions[k - 1], id, o);
      }
    }
  }

  /** A newer begin on the same session supersedes the older owner. */
  lemma BeginSupersedes(s: State, id: string, o: Owner)
    requires id in s.sessions && o.allocation < s.nextAllocation
    ensures Takes(Begin(s, id), id, o).None?
  {
  }

  // ---- Owners of early updates ---------------------------------------------------------------

  ghost predicate Homeless(s: State, a: Allocation) {
    a < s.nextAllocation && forall h :: !HomeOf(s, a, h)
  }

  /** Discarding a staged creation leaves its allocation nowhere. */
  lemma DiscardUnhouses(s: State, id: string, a: Allocation)
    requires Inv(s) && Holds(Staged(s, id), a)
    ensures Homeless(DiscardStaging(s, id), a)
  {
    assert HomeOf(s, a, InStaging(id));
    var t := DiscardStaging(s, id);
    forall h ensures !HomeOf(t, a, h) {
      assert HomeOf(t, a, h) ==> HomeOf(s, a, h) && h != InStaging(id);
    }
  }

  lemma StepKeepsHomeless(s: State, action: Action, a: Allocation)
    requires BackupsOk(s) && Enabled(s, action) && Homeless(s, a)
    ensures Homeless(Step(s, action), a)
  {
    IssuedStaysIssued(s, action);
    var t := Step(s, action);
    forall h ensures !HomeOf(t, a, h) {
      if HomeOf(t, a, h) {
        HomeTraced(s, action, a, h);
      }
    }
  }

  /** An allocation that is nowhere stays nowhere: after a discard or a reallocation, no continuation of
      the old attempt ever matches again, whatever session identifier it claims. */
  lemma {:induction false} DiscardedOwnersNeverMatch(states: seq<State>, actions: seq<Action>, i: nat, k: nat,
                                                     id: string, o: Owner)
    requires IsRun(states, actions) && i <= k < |states| && Homeless(states[i], o.allocation)
    ensures Homeless(states[k], o.allocation) && !Matches(states[k], id, o)
    decreases k
  {
    if i < k {
      DiscardedOwnersNeverMatch(states, actions, i, k - 1, id, o);
      RunKeepsInv(states, actions, k - 1);
      StepKeepsHomeless(states[k - 1], actions[k - 1], o.allocation);
    }
    assert !HomeOf(states[k], o.allocation, InSession(id)) && !HomeOf(states[k], o.allocation, InStaging(id));
  }

  // ---- The life of an early owner ------------------------------------------------------------

  /** Where the validation that was staged for `id` is now. */
  datatype Place = AsStaged | AsCurrent | AsBackup | Nowhere

  function HomeAt(p: Place, id: string): Home
    requires p != Nowhere
  {
    match p
    case AsStaged => InStaging(id)
    case AsCurrent => InSession(id)
    case AsBackup => InBackup(id)
  }

  /** The step clears the session's validation outside any replay. */
  predicate Clears(s: State, a: Action, id: string) {
    && a.ClearAttachment? && a.id == id && a.clearValidation && Matches(s, id, a.owner)
    && id in s.sessions && s.sessions[id].backup.None?
  }

  function NextPlace(s: State, a: Action, id: string, p: Place): Place {
    match p
    case Nowhere => Nowhere
    case AsStaged =>
      if a == DiscardEarly(id) then Nowhere
      else if a.PromoteCreation? && a.id == id && CanPromote(s, id, a.incarnation) then AsCurrent
      else AsStaged
    case AsCurrent =>
      if a == BeginReplay(id) then AsBackup
      else if Ends(s, a, id) || RollsBack(s, a, id) || Clears(s, a, id) then Nowhere
      else AsCurrent
    case AsBackup =>
      if RollsBack(s, a, id) then AsCurrent
      else if Ends(s, a, id) || a == BeginReplay(id) || (a.CommitReplay? && a.id == id && Takes(s, id, a.owner).Some?)
      then Nowhere
      else AsBackup
  }

  /** The allocation is at this place and nowhere else. */
  ghost predicate IsAt(s: State, x: Allocation, id: string, p: Place) {
    && x < s.nextAllocation
    && forall h :: HomeOf(s, x, h) <==> p != Nowhere && h == HomeAt(p, id)
  }

  lemma StagedArrives(s: State, a: Action, x: Allocation, id: string)
    requires Enabled(s, a) && HomeOf(s, x, InStaging(id)) && NextPlace(s, a, id, AsStaged) != Nowhere
    ensures HomeOf(Step(s, a), x, HomeAt(NextPlace(s, a, id, AsStaged), id))
  {
  }

  lemma CurrentArrives(s: State, a: Action, x: Allocation, id: string)
    requires BackupsOk(s) && Enabled(s, a) && HomeOf(s, x, InSession(id)) && NextPlace(s, a, id, AsCurrent) != Nowhere
    ensures HomeOf(Step(s, a), x, HomeAt(NextPlace(s, a, id, AsCurrent), id))
  {
  }

  lemma BackupArrives(s: State, a: Action, x: Allocation, id: string)
    requires BackupsOk(s) && Enabled(s, a) && HomeOf(s, x, InBackup(id)) && NextPlace(s, a, id, AsBackup) != Nowhere
    ensures HomeOf(Step(s, a), x, HomeAt(NextPlace(s, a, id, AsBackup), id))
  {
    assert BackupOk(s.sessions[id]);
  }

  lemma ArrivesAt(s: State, a: Action, x: Allocation, id: string, p: Place)
    requires Inv(s) && Enabled(s, a) && IsAt(s, x, id, p) && NextPlace(s, a, id, p) != Nowhere
    ensures HomeOf(Step(s, a), x, HomeAt(NextPlace(s, a, id, p), id))
  {
    assert HomeOf(s, x, HomeAt(p, id));
    match p
    case AsStaged => StagedArrives(s, a, x, id);
    case AsCurrent => CurrentArrives(s, a, x, id);
    case AsBackup => BackupArrives(s, a, x, id);
  }

  /** Where the only home of the allocation can have gone. */
  lemma TracedTo(s: State, a: Action, x: Allocation, id: string, p: Place, h: Home)
    requires Inv(s) && Enabled(s, a) && IsAt(s, x, id, p) && HomeOf(Step(s, a), x, h)
    ensures p != Nowhere && HomeBefore(s, a, h) == HomeAt(p, id)
    ensures HomeMove(s, a).Moved? ==> h != HomeMove(s, a).from
  {
    HomeTraced(s, a, x, h);
  }

  lemma StagedOnlyArrives(s: State, a: Action, x: Allocation, id: string, h: Home)
    requires Enabled(s, a) && HomeOf(Step(s, a), x, h)
    requires HomeBefore(s, a, h) == InStaging(id) && (HomeMove(s, a).Moved? ==> h != HomeMove(s, a).from)
    ensures NextPlace(s, a, id, AsStaged) != Nowhere && h == HomeAt(NextPlace(s, a, id, AsStaged), id)
  {
  }

  lemma CurrentOnlyArrives(s: State, a: Action, x: Allocation, id: string, h: Home)
    requires Enabled(s, a) && HomeOf(Step(s, a), x, h)
    requires HomeBefore(s, a, h) == InSession(id) && (HomeMove(s, a).Moved? ==> h != HomeMove(s, a).from)
    ensures NextPlace(s, a, id, AsCurrent) != Nowhere && h == HomeAt(NextPlace(s, a, id, AsCurrent), id)
  {
  }

  lemma BackupOnlyArrives(s: State, a: Action, x: Allocation, id: string, h: Home)
    requires Enabled(s, a) && HomeOf(Step(s, a), x, h)
    requires HomeBefore(s, a, h) == InBackup(id) && (HomeMove(s, a).Moved? ==> h != HomeMove(s, a).from)
    ensures NextPlace(s, a, id, AsBackup) != Nowhere && h == HomeAt(NextPlace(s, a, id, AsBackup), id)
  {
  }

  lemma OnlyArrivesAt(s: State, a: Action, x: Allocation, id: string, p: Place, h: Home)
    requires Inv(s) && Enabled(s, a) && IsAt(s, x, id, p) && HomeOf(Step(s, a), x, h)
    ensures NextPlace(s, a, id, p) != Nowhere && h == HomeAt(NextPlace(s, a, id, p), id)
  {
    TracedTo(s, a, x, id, p, h);
    match p
    case AsStaged => StagedOnlyArrives(s, a, x, id, h);
    case AsCurrent => CurrentOnlyArrives(s, a, x, id, h);
    case AsBackup => BackupOnlyArrives(s, a, x, id, h);
    case Nowhere => assert false;
  }

  lemma StepMoves(s: State, a: Action, x: Allocation, id: string, p: Place)
    requires Inv(s) && Enabled(s, a) && IsAt(s, x, id, p)
    ensures IsAt(Step(s, a), x, id, NextPlace(s, a, id, p))
  {
    IssuedStaysIssued(s, a);
    forall h | HomeOf(Step(s, a), x, h)
      ensures NextPlace(s, a, id, p) != Nowhere && h == HomeAt(NextPlace(s, a, id, p), id)
    {
      OnlyArrivesAt(s, a, x, id, p, h);
    }
    if NextPlace(s, a, id, p) != Nowhere {
      ArrivesAt(s, a, x, id, p);
    }
  }

  /** The place at `k` of a validation that was at `p` at `i`. */
  function PlaceAt(states: seq<State>, actions: seq<Action>, i: nat, k: nat, id: string, p: Place): Place
    requires i <= k < |states| && |states| == |actions| + 1
    decreases k
  {
    if k == i then p else NextPlace(states[k - 1], actions[k - 1], id, PlaceAt(states, actions, i, k - 1, id, p))
  }

  lemma {:induction false} RunMoves(states: seq<State>, actions: seq<Action>, i: nat, k: nat, id: string, x: Allocation,
                                    p: Place)
    requires IsRun(states, actions) && i <= k < |states| && IsAt(states[i], x, id, p)
    ensures IsAt(states[k], x, id, PlaceAt(states, actions, i, k, id, p))
    decreases k
  {
    if i < k {
      RunMoves(states, actions, i, k - 1, id, x, p);
      RunKeepsInv(states, actions, k - 1);
      StepMoves(states[k - 1], actions[k - 1], x, id, PlaceAt(states, actions, i, k - 1, id, p));
    }
  }

  lemma MatchesAt(s: State, x: Allocation, id: string, p: Place, other: string)
    requires IsAt(s, x, id, p)
    ensures Matches(s, other, Owner(None, x)) <==> other == id && (p == AsCurrent || (p == AsStaged && !IsLive(s, id)))
    ensures forall n :: Matches(s, other, Owner(Some(n), x)) <==>
                        other == id && p == AsCurrent && HasResources(s, id, n)
  {
    assert HomeOf(s, x, InSession(other)) <==> other == id && p == AsCurrent;
    assert HomeOf(s, x, InStaging(other)) <==> other == id && p == AsStaged;
  }

  /** Over any run, exactly when an owner captured for a staged creation matches: under its own session
      identifier only, as long as the creation is staged and no live session took the identifier, or while
      the promoted validation is the session's current one. Which steps move it away is `NextPlace`. */
  lemma EarlyOwnerMatches(states: seq<State>, actions: seq<Action>, i: nat, k: nat, id: string, other: string,
                          x: Allocation)
    requires IsRun(states, actions) && i <= k < |states| && Holds(Staged(states[i], id), x)
    ensures
      var p := PlaceAt(states, actions, i, k, id, AsStaged);
      && (Matches(states[k], other, Owner(None, x)) <==>
            other == id && (p == AsCurrent || (p == AsStaged && !IsLive(states[k], id))))
      && (p == AsStaged ==> Holds(Staged(states[k], id), x))
      && (p == Nowhere ==> Homeless(states[k], x))
  {
    RunKeepsInv(states, actions, i);
    assert HomeOf(states[i], x, InStaging(id));
    RunMoves(states, actions, i, k, id, x, AsStaged);
    var p := PlaceAt(states, actions, i, k, id, AsStaged);
    MatchesAt(states[k], x, id, p, other);
    assert p == AsStaged ==> HomeOf(states[k], x, InStaging(id));
  }

  /** No continuation of an early attempt ever follows another session identifier, however late. */
  lemma EarlyOwnerMatchesOneSession(states: seq<State>, actions: seq<Action>, i: nat, k: nat, id: string, other: string,
                                    x: Allocation)
    requires IsRun(states, actions) && i <= k < |states| && Holds(Staged(states[i], id), x)
    requires Matches(states[k], other, Owner(None, x))
    ensures other == id
  {
    EarlyOwnerMatches(states, actions, i, k, id, other, x);
  }

  lemma IncarnationStays(s: State, a: Action, id: string, n: nat, p: Place)
    requires Enabled(s, a) && HasResources(s, id, n) && (p == AsCurrent || p == AsBackup)
    requires NextPlace(s, a, id, p) != Nowhere
    ensures HasResources(Step(s, a), id, n)
    ensures NextPlace(s, a, id, p) == AsCurrent || NextPlace(s, a, id, p) == AsBackup
  {
  }

  lemma {:induction false} IncarnationKept(states: seq<State>, actions: seq<Action>, i: nat, k: nat, id: string, n: nat)
    requires IsRun(states, actions) && i <= k < |states| && HasResources(states[i], id, n)
    requires PlaceAt(states, actions, i, k, id, AsCurrent) != Nowhere
    ensures HasResources(states[k], id, n)
    ensures PlaceAt(states, actions, i, k, id, AsCurrent) in {AsCurrent, AsBackup}
    decreases k
  {
    if i < k {
      IncarnationKept(states, actions, i, k - 1, id, n);
      IncarnationStays(states[k - 1], actions[k - 1], id, n, PlaceAt(states, actions, i, k - 1, id, AsCurrent));
    }
  }

  lemma PromotionMoves(s: State, id: string, incarnation: nat, x: Allocation)
    requires Inv(s) && CanPromote(s, id, incarnation) && Holds(Staged(s, id), x)
    ensures IsAt(Promote(s, id, incarnation), x, id, AsCurrent)
    ensures HasResources(Promote(s, id, incarnation), id, incarnation)
    ensures Promote(s, id, incarnation).sessions[id].validation == Some(s.staging[id].validation)
  {
    assert HomeOf(s, x, InStaging(id));
    StepMoves(s, PromoteCreation(id, incarnation), x, id, AsStaged);
  }

  lemma PromotedAt(states: seq<State>, actions: seq<Action>, i: nat, id: string, incarnation: nat, x: Allocation)
    requires IsRun(states, actions) && i < |actions| && actions[i] == PromoteCreation(id, incarnation)
    requires CanPromote(states[i], id, incarnation) && Holds(Staged(states[i], id), x)
    ensures IsAt(states[i + 1], x, id, AsCurrent) && HasResources(states[i + 1], id, incarnation)
  {
    RunKeepsInv(states, actions, i);
    PromotionMoves(states[i], id, incarnation, x);
    assert states[i + 1] == Step(states[i], actions[i]);
  }

  /** Promotion carries the staged allocation over: from then on the early owner, and the owner with the
      installed incarnation, match until the validation leaves the session, and then neither does. */
  lemma PromotionKeepsOwner(states: seq<State>, actions: seq<Action>, i: nat, k: nat, id: string, incarnation: nat,
                            x: Allocation)
    requires IsRun(states, actions) && i < k < |states| && actions[i] == PromoteCreation(id, incarnation)
    requires CanPromote(states[i], id, incarnation) && Holds(Staged(states[i], id), x)
    ensures
      var stays := PlaceAt(states, actions, i + 1, k, id, AsCurrent) == AsCurrent;
      && (Matches(states[k], id, Owner(None, x)) <==> stays)
      && (Matches(states[k], id, Owner(Some(incarnation), x)) <==> stays)
  {
    PromotedAt(states, actions, i, id, incarnation, x);
    RunMoves(states, actions, i + 1, k, id, x, AsCurrent);
    var p := PlaceAt(states, actions, i + 1, k, id, AsCurrent);
    MatchesAt(states[k], x, id, p, id);
    if p != Nowhere {
      IncarnationKept(states, actions, i + 1, k, id, incarnation);
    }
  }

  /** Reallocating, retiring or clearing the session leaves its validation and its backup nowhere, so by
      `DiscardedOwnersNeverMatch` their owners never match again. */
  lemma EndingUnhouses(s: State, a: Action, id: string, x: Allocation)
    requires Inv(s) && Enabled(s, a) && Ends(s, a, id)
    requires HomeOf(s, x, InSession(id)) || HomeOf(s, x, InBackup(id))
    ensures Homeless(Step(s, a), x)
  {
    var p := if HomeOf(s, x, InSession(id)) then AsCurrent else AsBackup;
    assert IsAt(s, x, id, p);
    StepMoves(s, a, x, id, p);
  }
}
