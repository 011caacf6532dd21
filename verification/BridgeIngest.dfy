/** The ingest fields of the bridge state, updated in place. */
module BridgeIngest {
  import opened Prelude
  import opened SessionIngest

  /** `EntryMissing` is where the source's expectation of a staged creation fails. */
  datatype EarlyOutcome = Dropped | Appended | EntryMissing | ToSession

  class BridgeState {
    var sessions: map<string, Session>
    var staging: map<string, Staging>
    var earlyCount: nat
    var earlyBytes: nat
    var pendingCreations: nat
    var retired: set<string>
    var nextAllocation: Allocation

    function View(): State reads this {
      State(sessions, staging, earlyCount, earlyBytes, pendingCreations, retired, nextAllocation)
    }

    ghost predicate Valid() reads this {
      Inv(View())
    }

    constructor ()
      ensures Valid() && View() == INIT
    {
      sessions, staging := map[], map[];
      earlyCount, earlyBytes, pendingCreations, retired, nextAllocation := 0, 0, 0, {}, 0;
      new;
      assert Counts(staging) == map[] && Bytes(staging) == map[];
    }

    method BeginReplayValidation(id: string) returns (owner: Owner)
      requires Valid() && id in sessions
      modifies this
      ensures Valid() && View() == Begin(old(View()), id)
      ensures owner == Owner(Some(old(sessions)[id].incarnation), old(nextAllocation))
      ensures Matches(View(), id, owner) && Takes(View(), id, owner).Some?
      ensures
        var session := old(sessions)[id];
        View() == old(View()).(
          sessions := old(sessions)[id := session.(
            validation := Some(Validation(owner.allocation, 0, 0, None, "")),
            backup := Some(Backup(owner, session.validation)))],
          nextAllocation := owner.allocation + 1)
    {
      StepKeepsInv(View(), BeginReplay(id));
      var session := sessions[id];
      var validation := Fresh(nextAllocation);
      nextAllocation := nextAllocation + 1;
      owner := Owner(Some(session.incarnation), validation.allocation);
      var previous := session.validation;
      session := session.(validation := Some(validation));
      session := session.(backup := Some(Backup(owner, previous)));
      sessions := sessions[id := session];
    }

    /** Take the backup if it belongs to this owner. */
    method TakeBackup(id: string, owner: Owner) returns (backup: Option<Backup>)
      modifies this`sessions
      ensures backup == Takes(old(View()), id, owner)
      ensures sessions == if backup.None? then old(sessions)
                          else old(sessions)[id := old(sessions)[id].(backup := None)]
    {
      if owner.incarnation.None? || id !in sessions || sessions[id].incarnation != owner.incarnation.value {
        return None;
      }
      backup := sessions[id].backup;
      if backup.None? || backup.value.owner.allocation != owner.allocation {
        return None;
      }
      sessions := sessions[id := sessions[id].(backup := None)];
    }

    method CommitReplayValidation(id: string, owner: Owner)
      requires Valid()
      modifies this
      ensures Valid() && View() == Commit(old(View()), id, owner)
      ensures
        var taken := && owner.incarnation.Some? && id in old(sessions)
                     && old(sessions)[id].incarnation == owner.incarnation.value && old(sessions)[id].backup.Some?
                     && old(sessions)[id].backup.value.owner.allocation == owner.allocation;
        if !taken then View() == old(View())
        else
          && old(sessions)[id].validation.Some?
          && old(sessions)[id].validation.value.allocation == owner.allocation
          && View() == old(View()).(sessions := old(sessions)[id := old(sessions)[id].(
               backup := None,
               validation := Some(old(sessions)[id].validation.value.(updateCount := 0, updateBytes := 0,
                                                                      invalidReason := None)))])
    {
      StepKeepsInv(View(), CommitReplay(id, owner));
      var backup := TakeBackup(id, owner);
      if backup.None? || !Matches(View(), id, owner) {
        return;
      }
      var session := sessions[id];
      if session.validation.Some? {
        sessions := sessions[id := session.(validation := Some(RetireTurn(session.validation.value)))];
        assert sessions == old(sessions)[id := sessions[id]];
      }
    }

    method RollbackReplayValidation(id: string, owner: Owner)
      requires Valid()
      modifies this
      ensures Valid() && View() == Rollback(old(View()), id, owner)
      ensures
        var taken := && owner.incarnation.Some? && id in old(sessions)
                     && old(sessions)[id].incarnation == owner.incarnation.value && old(sessions)[id].backup.Some?
                     && old(sessions)[id].backup.value.owner.allocation == owner.allocation;
        View() == if !taken then old(View())
                  else old(View()).(sessions := old(sessions)[id := old(sessions)[id].(
                         backup := None, validation := old(sessions)[id].backup.value.previous)])
    {
      StepKeepsInv(View(), RollbackReplay(id, owner));
      var backup := TakeBackup(id, owner);
      if backup.Some? && Matches(View(), id, owner) {
        sessions := sessions[id := sessions[id].(validation := backup.value.previous)];
        assert sessions == old(sessions)[id := sessions[id]];
      }
    }

    method ClearAttachmentTracking(id: string, owner: Owner, clearValidation: bool)
      requires Valid()
      modifies this
      ensures Valid() && View() == ClearTracking(old(View()), id, owner, clearValidation)
      ensures
        var current := if id in old(sessions) then old(sessions)[id].validation else None;
        var matched :=
          if owner.incarnation.Some?
          then && id in old(sessions) && old(sessions)[id].incarnation == owner.incarnation.value
               && current.Some? && current.value.allocation == owner.allocation
          else || (current.Some? && current.value.allocation == owner.allocation)
               || ((id !in old(sessions) || !old(sessions)[id].live) && id in old(staging)
                   && old(staging)[id].validation.allocation == owner.allocation);
        View() == if !matched || id !in old(sessions) then old(View())
                  else if old(sessions)[id].backup.Some? then
                    if owner.incarnation.None? then old(View())
                    else old(View()).(sessions := old(sessions)[id := old(sessions)[id].(
                           backup := None, validation := old(sessions)[id].backup.value.previous)])
                  else if clearValidation
                  then old(View()).(sessions := old(sessions)[id := old(sessions)[id].(validation := None)])
                  else old(View())
    {
      StepKeepsInv(View(), ClearAttachment(id, owner, clearValidation));
      if !Matches(View(), id, owner) {
        return;
      }
      if id in sessions && sessions[id].backup.Some? {
        RollbackReplayValidation(id, owner);
      } else if clearValidation && id in sessions {
        sessions := sessions[id := sessions[id].(validation := None)];
      }
    }

    method ClearIngestResources(id: string, incarnation: nat)
      requires Valid()
      modifies this
      ensures Valid() && View() == ClearIngest(old(View()), id, incarnation)
      ensures View() == if id in old(sessions) && old(sessions)[id].incarnation == incarnation
                        then old(View()).(sessions := old(sessions)[id := old(sessions)[id].(
                               validation := None, backup := None)])
                        else old(View())
    {
      StepKeepsInv(View(), ClearSession(id, incarnation));
      if id in sessions && sessions[id].incarnation == incarnation {
        var session := sessions[id].(validation := None);
        session := session.(backup := None);
        sessions := sessions[id := session];
      }
    }

    /** The owner under which an incoming update is tracked, or none if it must be dropped. */
    method CaptureOwner(id: string) returns (owner: Option<Owner>)
      requires Valid()
      modifies this
      ensures Valid()
      ensures owner.Some? ==> Matches(View(), id, owner.value)
      ensures
        var s := old(View());
        if IsLive(s, id) then
          View() == EnsureValidation(s, id, s.sessions[id].incarnation)
          && owner.Some? && owner.value.incarnation == Some(s.sessions[id].incarnation)
        else if Stages(s, id) then
          View() == Stage(s, id) && owner.Some? && owner.value.incarnation.None?
        else View() == s && owner.None?
      ensures owner.Some? ==>
                if id in old(sessions) && old(sessions)[id].live
                then && owner.value.incarnation == Some(old(sessions)[id].incarnation)
                     && sessions[id].validation.Some?
                     && owner.value.allocation == sessions[id].validation.value.allocation
                else && owner.value.incarnation.None? && id in staging
                     && owner.value.allocation == staging[id].validation.allocation
      ensures owner.None? <==>
                && (id !in old(sessions) || !old(sessions)[id].live)
                && (pendingCreations == 0 || id in retired || id == ""
                    || (id !in old(staging) && |old(staging)| >= pendingCreations))
      ensures owner.None? ==> View() == old(View())
      ensures staging == if owner.Some? && owner.value.incarnation.None? && id !in old(staging)
                         then old(staging)[id := Staging(Validation(old(nextAllocation), 0, 0, None, ""), [], 0)]
                         else old(staging)
    {
      if id in sessions && sessions[id].live {
        var incarnation := sessions[id].incarnation;
        StepKeepsInv(View(), Ensure(id, incarnation));
        var allocation := EnsureSessionValidation(id, incarnation);
        return Some(Owner(Some(incarnation), allocation.value));
      }
      if pendingCreations > 0 {
        if id in retired || id == "" {
          return None;
        }
        if id !in staging && |staging| >= pendingCreations {
          return None;
        }
        StepKeepsInv(View(), StageUpdate(id));
        var allocation := EnsureStaged(id);
        return Some(Owner(None, allocation));
      }
      return None;
    }

    /** The staged entry of this session, created if there is none. */
    method EnsureStaged(id: string) returns (allocation: Allocation)
      modifies this
      ensures View() == Stage(old(View()), id) && Holds(Staged(View(), id), allocation)
    {
      if id !in staging {
        staging := staging[id := Staging(Fresh(nextAllocation), [], 0)];
        nextAllocation := nextAllocation + 1;
      }
      return staging[id].validation.allocation;
    }

    method EnsureSessionValidation(id: string, incarnation: nat) returns (allocation: Option<Allocation>)
      modifies this
      ensures View() == EnsureValidation(old(View()), id, incarnation)
      ensures allocation.Some? <==> HasResources(old(View()), id, incarnation)
      ensures allocation.Some? ==> Holds(Current(View(), id), allocation.value)
    {
      if id !in sessions || sessions[id].incarnation != incarnation {
        return None;
      }
      if sessions[id].validation.None? {
        sessions := sessions[id := sessions[id].(validation := Some(Fresh(nextAllocation)))];
        nextAllocation := nextAllocation + 1;
      }
      return Some(sessions[id].validation.value.allocation);
    }

    /** The last part of an update: an owner that no longer matches drops it; an early one goes to the
        staged creation, which has to be there; any other goes to its session. */
    method AppendEarlyUpdate(id: string, owner: Owner, attaching: bool, notification: Notification)
      returns (outcome: EarlyOutcome)
      requires Valid()
      modifies this
      ensures Valid()
      ensures
        var s := old(View());
        && (outcome.Dropped? <==>
              (Matches(s, id, owner) ==> !IsAttached(s, id) && !attaching && !ArrivesEarly(s, id, attaching)))
        && (outcome.Appended? <==> Matches(s, id, owner) && ArrivesEarly(s, id, attaching) && id in s.staging)
        && (outcome.EntryMissing? <==> Matches(s, id, owner) && ArrivesEarly(s, id, attaching) && id !in s.staging)
        && View() == if outcome.Appended? then Append(s, id, notification) else s
      ensures outcome.Appended? ==>
                && id in old(staging)
                && View() == old(View()).(
                     staging := old(staging)[id := old(staging)[id].(
                       early := old(staging)[id].early + [notification],
                       bytes := old(staging)[id].bytes + notification.size)],
                     earlyCount := old(earlyCount) + 1, earlyBytes := old(earlyBytes) + notification.size)
      ensures outcome.Appended? || outcome.EntryMissing? ==>
                && (id !in sessions || !sessions[id].attached) && !attaching
                && pendingCreations > 0 && id !in retired
      ensures outcome.ToSession? ==> attaching || (id in sessions && sessions[id].attached)
      ensures !outcome.Dropped? ==>
                if owner.incarnation.Some?
                then && id in sessions && sessions[id].incarnation == owner.incarnation.value
                     && sessions[id].validation.Some?
                     && sessions[id].validation.value.allocation == owner.allocation
                else || (&& id in sessions && sessions[id].validation.Some?
                         && sessions[id].validation.value.allocation == owner.allocation)
                     || (&& (id !in sessions || !sessions[id].live) && id in old(staging)
                         && old(staging)[id].validation.allocation == owner.allocation)
    {
      hide Inv;
      if !Matches(View(), id, owner) {
        return Dropped;
      }
      var attached := id in sessions && sessions[id].attached;
      var early := !attached && !attaching && pendingCreations > 0 && id !in retired;
      if !attached && !attaching && !early {
        return Dropped;
      }
      if !early {
        return ToSession;
      }
      if id !in staging {
        return EntryMissing;
      }
      StepKeepsInv(View(), AppendEarly(id, owner, notification));
      PushEarly(id, notification);
      return Appended;
    }

    method PushEarly(id: string, notification: Notification)
      requires id in staging
      modifies this
      ensures View() == Append(old(View()), id, notification)
    {
      var staged := staging[id];
      staged := staged.(early := staged.early + [notification]);
      staged := staged.(bytes := staged.bytes + notification.size);
      staging := staging[id := staged];
      earlyCount := earlyCount + 1;
      earlyBytes := earlyBytes + notification.size;
    }

    method TakeCreationNotifications(id: string) returns (notifications: seq<Notification>)
      requires Valid()
      modifies this
      ensures Valid() && View() == TakeNotifications(old(View()), id)
      ensures notifications == if id in old(staging) then old(staging)[id].early else []
      ensures earlyCount + |notifications| == old(earlyCount)
      ensures earlyBytes + TotalSize(notifications) == old(earlyBytes)
      ensures staging == if id in old(staging) then old(staging)[id := old(staging)[id].(early := [], bytes := 0)]
                         else old(staging)
      ensures sessions == old(sessions) && nextAllocation == old(nextAllocation)
    {
      StepKeepsInv(View(), TakeEarly(id));
      if id !in staging {
        return [];
      }
      NeverSaturates(View(), id);
      notifications := staging[id].early;
      earlyCount := SaturatingSub(earlyCount, |notifications|);
      earlyBytes := SaturatingSub(earlyBytes, staging[id].bytes);
      staging := staging[id := staging[id].(early := [], bytes := 0)];
    }

    method DiscardCreationStaging(id: string)
      requires Valid()
      modifies this
      ensures Valid() && View() == DiscardStaging(old(View()), id)
      ensures staging == old(staging) - {id}
      ensures id in old(staging) ==>
                && earlyCount + |old(staging)[id].early| == old(earlyCount)
                && earlyBytes + TotalSize(old(staging)[id].early) == old(earlyBytes)
      ensures id !in old(staging) ==> View() == old(View())
      ensures sessions == old(sessions) && nextAllocation == old(nextAllocation)
    {
      StepKeepsInv(View(), DiscardEarly(id));
      if id in staging {
        NeverSaturates(View(), id);
        var staged := staging[id];
        staging := staging - {id};
        earlyCount := SaturatingSub(earlyCount, |staged.early|);
        earlyBytes := SaturatingSub(earlyBytes, staged.bytes);
      }
    }

    method ClearPendingCreationReplays()
      requires Valid()
      modifies this
      ensures Valid() && staging == map[] && earlyCount == 0 && earlyBytes == 0
      ensures sessions == old(sessions) && nextAllocation == old(nextAllocation)
      ensures pendingCreations == old(pendingCreations) && retired == old(retired)
    {
      var ids := staging.Keys;
      while ids != {}
        invariant Valid() && ids == staging.Keys
        invariant sessions == old(sessions) && nextAllocation == old(nextAllocation)
        invariant pendingCreations == old(pendingCreations) && retired == old(retired)
        decreases |ids|
      {
        var id :| id in ids;
        DiscardCreationStaging(id);
        ids := ids - {id};
      }
      assert Counts(staging) == map[] && Bytes(staging) == map[];
    }

    method PromoteCreationValidation(id: string, incarnation: nat) returns (ok: bool)
      requires Valid()
      modifies this
      ensures Valid() && View() == Promote(old(View()), id, incarnation)
      ensures ok <==> CanPromote(old(View()), id, incarnation)
      ensures ok <==>
                && incarnation != 0 && id in old(sessions) && old(sessions)[id].incarnation == incarnation
                && old(sessions)[id].active && old(sessions)[id].validation.None? && id in old(staging)
      ensures !ok ==> View() == old(View())
      ensures ok ==>
                && sessions == old(sessions)[id := old(sessions)[id].(
                     validation := Some(old(staging)[id].validation))]
                && staging == old(staging) - {id}
                && earlyCount + |old(staging)[id].early| == old(earlyCount)
                && earlyBytes + TotalSize(old(staging)[id].early) == old(earlyBytes)
    {
      StepKeepsInv(View(), PromoteCreation(id, incarnation));
      if incarnation == 0 || id !in sessions || !sessions[id].active || sessions[id].incarnation != incarnation {
        return false;
      }
      if sessions[id].validation.Some? {
        return false;
      }
      if id !in staging {
        return false;
      }
      NeverSaturates(View(), id);
      var staged := staging[id];
      staging := staging - {id};
      earlyCount := SaturatingSub(earlyCount, |staged.early|);
      earlyBytes := SaturatingSub(earlyBytes, staged.bytes);
      sessions := sessions[id := sessions[id].(validation := Some(staged.validation))];
      return true;
    }
  }
}
