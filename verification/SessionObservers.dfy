/** The permit and the observers of one session allocation as objects, each method against the function
    that the automatic-close machine uses for it. */
module SessionObservers {
  import opened Prelude
  import opened AutoClose

  class AutoClosePermit {
    var state: nat      // 0 pending, 1 claimed, 2 cancelled
    var cancelled: bool

    ghost predicate Valid()
      reads this
    {
      state <= 2
    }

    ghost function Decision(): Permit
      reads this
    {
      if state == 0 then Permit.Pending else if state == 1 then Claimed else Cancelled
    }

    constructor ()
      ensures Valid() && Decision() == Permit.Pending && !cancelled
    {
      state, cancelled := 0, false;
    }

    method Pending() returns (pending: bool)
      ensures pending <==> Decision() == Permit.Pending
    {
      pending := state == 0;
    }

    /** Exactly the call that finds the permit pending wins it. */
    method Claim() returns (won: bool)
      requires Valid()
      modifies this
      ensures Valid() && cancelled == old(cancelled)
      ensures won == (old(state) == 0) && state == if won then 1 else old(state)
      ensures won <==> old(Decision()) == Permit.Pending
      ensures Decision() == if won then Claimed else old(Decision())
    {
      won := state == 0;
      if won {
        state := 1;
      }
    }

    method Cancel()
      requires Valid()
      modifies this
      ensures Valid() && cancelled && Decision() == Withdrawn(old(Decision()))
      ensures state == if old(state) == 0 then 2 else old(state)
    {
      if state == 0 {
        state := 2;
      }
      cancelled := true;
    }
  }

  class ObservationLease {
    var cancelled: bool
    var finished: bool

    constructor ()
      ensures !cancelled && !finished
    {
      cancelled, finished := false, false;
    }
  }

  type View = Observation<ObservationLease, AutoClosePermit>

  class Observers {
    var observers: map<nat, ObservationLease>
    var nextAbsence: nat
    var absence: Option<Absence<AutoClosePermit>>
    var closeAttempted: bool

    ghost function View(): View
      reads this
    {
      Observation(observers, nextAbsence, absence, closeAttempted)
    }

    ghost function Permits(): set<AutoClosePermit>
      reads this
    {
      if absence.Some? then {absence.value.permit} else {}
    }

    ghost predicate Valid()
      reads this, Permits()
    {
      absence.Some? ==> absence.value.permit.Valid()
    }

    /** The leases among the observers that were cancelled. */
    ghost function CancelledLeases(): set<ObservationLease>
      reads this, observers.Values
    {
      set lease | lease in observers.Values && lease.cancelled
    }

    /** The effect of a change on the record and on the permit it gave up. */
    twostate predicate Performed(change: Change<ObservationLease, AutoClosePermit>)
      reads this, Permits(), if change.withdrawn.Some? then {change.withdrawn.value} else {}
    {
      && Valid() && View() == change.next
      && (change.withdrawn.Some? ==>
            var permit := change.withdrawn.value;
            permit.cancelled && permit.Decision() == Withdrawn(old(permit.Decision())))
    }

    constructor ()
      ensures Valid() && View() == NoObservers()
    {
      observers, nextAbsence, absence, closeAttempted := map[], 0, None, false;
    }

    method CancelAbsence()
      requires Valid()
      modifies this`absence, Permits()
      ensures Performed(Stopped(old(View()))) && absence.None?
      ensures old(absence).Some? && absence.None? ==>
                && old(absence).value.permit.cancelled
                && old(absence).value.permit.state
                   == if old(absence.value.permit.state) == 0 then 2 else old(absence.value.permit.state)
    {
      var taken := absence;
      absence := None;
      if taken.Some? {
        taken.value.permit.Cancel();
      }
    }

    method Observe(id: nat, lease: ObservationLease) returns (accepted: bool)
      requires Valid()
      modifies this, Permits()
      ensures
        var change := Observed(old(View()), id, lease, if lease.cancelled || lease.finished then {lease} else {});
        Performed(change) && accepted == change.answer
      ensures accepted <==>
                && !old(lease.cancelled) && !lease.finished
                && (id in old(observers) ==> old(observers)[id] == lease)
      ensures var isNew := accepted && id !in old(observers);
              if isNew
              then observers == old(observers)[id := lease] && absence.None? && !closeAttempted
              else observers == old(observers) && absence == old(absence) && closeAttempted == old(closeAttempted)
      ensures nextAbsence == old(nextAbsence)
      ensures old(absence).Some? && absence.None? ==>
                && old(absence).value.permit.cancelled
                && old(absence).value.permit.state
                   == if old(absence.value.permit.state) == 0 then 2 else old(absence.value.permit.state)
    {
      if lease.cancelled || lease.finished {
        return false;
      }
      if id in observers {
        return observers[id] == lease;
      }
      observers := observers[id := lease];
      CancelAbsence();
      closeAttempted := false;
      accepted := true;
    }

    method Unobserve(id: nat, lease: ObservationLease) returns (removed: bool)
      requires Valid()
      modifies this, lease`cancelled
      ensures
        var change := Unobserved(old(View()), id, lease);
        && Performed(change) && removed == change.answer
        && lease.cancelled == (removed || old(lease.cancelled))
      ensures removed <==> id in old(observers) && old(observers)[id] == lease
      ensures observers == if removed then old(observers) - {id} else old(observers)
      ensures absence == old(absence) && nextAbsence == old(nextAbsence) && closeAttempted == old(closeAttempted)
    {
      if id !in observers || observers[id] != lease {
        return false;
      }
      observers := observers - {id};
      lease.cancelled := true;
      removed := true;
    }

    method RetainLive()
      modifies this`observers
      ensures observers == Live(old(observers), old(CancelledLeases()))
      ensures observers == map id | id in old(observers) && !old(observers[id].cancelled) :: old(observers)[id]
      ensures observers == map[] <==> forall id | id in old(observers) :: old(observers[id].cancelled)
    {
      observers := map id | id in observers && !observers[id].cancelled :: observers[id];
      if id :| id in old(observers) && !old(observers[id].cancelled) {
        assert id in observers;
      }
    }

    /** After a transition of the owner; returns the newly armed absence, if any. */
    method Refresh(lifecycle: Lifecycle, work: Work, timeout: int) returns (armed: Option<Absence<AutoClosePermit>>)
      requires Valid()
      modifies this, Permits()
      ensures armed.Some? <==> Arms(old(View()), lifecycle, work, timeout, old(CancelledLeases()))
      ensures armed.None? ==> Performed(Unarmed(old(View()), lifecycle, work, timeout, old(CancelledLeases())))
      ensures armed.Some? ==>
                var permit := armed.value.permit;
                && fresh(permit) && permit.Decision() == Permit.Pending && Valid()
                && View() == Armed(old(View()), old(CancelledLeases()), permit).next && absence == armed
      ensures observers == map id | id in old(observers) && !old(observers[id].cancelled) :: old(observers)[id]
      ensures armed.Some? <==>
                && timeout >= 0 && lifecycle == Active && work == Idle
                && (forall id | id in old(observers) :: old(observers[id].cancelled))
                && old(absence).None? && !old(closeAttempted)
      ensures armed.Some? ==> armed.value.id == nextAbsence == old(nextAbsence) + 1 && absence == armed
      ensures armed.None? ==>
                && nextAbsence == old(nextAbsence)
                && absence == if || timeout < 0 || lifecycle == Detached || lifecycle == Closed || lifecycle == Deleting
                                 || work != Idle || exists id :: id in old(observers) && !old(observers[id].cancelled)
                              then None else old(absence)
      ensures closeAttempted == old(closeAttempted)
      ensures old(absence).Some? && absence.None? ==>
                && old(absence).value.permit.cancelled
                && old(absence).value.permit.state
                   == if old(absence.value.permit.state) == 0 then 2 else old(absence.value.permit.state)
    {
      RetainLive();
      if timeout < 0 || lifecycle == Detached || lifecycle == Closed || lifecycle == Deleting
         || observers != map[] || work != Idle
      {
        CancelAbsence();
        return None;
      }
      if absence.Some? || closeAttempted || lifecycle != Active {
        return None;
      }
      nextAbsence := nextAbsence + 1;
      var permit := new AutoClosePermit();
      absence := Some(Absence(nextAbsence, permit));
      armed := absence;
    }

    method MarkCloseAttempted()
      requires Valid()
      modifies this`closeAttempted
      ensures Performed(Change(old(View()).(closeAttempted := true), None, true)) && closeAttempted
    {
      closeAttempted := true;
    }

    method Matches(id: nat, permit: AutoClosePermit) returns (matches: bool)
      ensures matches <==> MatchesAbsence(View(), id, permit, CancelledLeases())
      ensures matches <==>
                && absence.Some? && absence.value.id == id && absence.value.permit == permit
                && forall k | k in observers :: observers[k].cancelled
    {
      matches := absence.Some? && absence.value.id == id && absence.value.permit == permit
                 && forall k | k in observers :: observers[k].cancelled;
    }

    method DrainForFinish() returns (drained: map<nat, ObservationLease>)
      requires Valid()
      modifies this, Permits()
      ensures drained == old(observers) && observers == map[] && absence.None?
      ensures nextAbsence == old(nextAbsence) && closeAttempted == old(closeAttempted)
      ensures old(absence).Some? && absence.None? ==>
                && old(absence).value.permit.cancelled
                && old(absence).value.permit.state
                   == if old(absence.value.permit.state) == 0 then 2 else old(absence.value.permit.state)
      ensures Performed(Stopped(old(View())).(next := Stopped(old(View())).next.(observers := map[])))
    {
      CancelAbsence();
      drained := observers;
      observers := map[];
    }

    /** What dropping the allocation does. */
    method Shutdown()
      requires Valid()
      modifies this, Permits(), observers.Values
      ensures Performed(Stopped(old(View())).(next := Stopped(old(View())).next.(observers := map[])))
      ensures forall lease | lease in old(observers.Values) :: lease.cancelled
      ensures observers == map[] && absence.None?
      ensures nextAbsence == old(nextAbsence) && closeAttempted == old(closeAttempted)
      ensures old(absence).Some? && absence.None? ==>
                && old(absence).value.permit.cancelled
                && old(absence).value.permit.state
                   == if old(absence.value.permit.state) == 0 then 2 else old(absence.value.permit.state)
    {
      CancelAbsence();
      forall lease | lease in observers.Values {
        lease.cancelled := true;
      }
      observers := map[];
    }
  }
}
