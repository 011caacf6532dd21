/** Whole calls on the registry: the effect of a call that runs to its end without interference.
    Each is a run of atomic steps, so it keeps the invariant and leads from reachable states to reachable
    states. */
module HandoffCalls {
  import opened Prelude
  import opened CompletionHandoff
  import opened HandoffInvariant
  import opened HandoffRuns

  /** Dropping a turn: its guard is released, then the pump is woken. */
  function Release(w: World, t: Turn): World {
    NotifyOne(w.(released := w.released + [t.guard], woken := w.woken + {t.guard}))
  }

  function ReleaseEarly(w: World, t: Option<Turn>): World {
    if t.Some? then Release(w, t.value) else w
  }

  /** Sending into a one-shot channel; a turn that cannot be received is dropped. */
  function Deliver(w: World, i: Allocation, t: Turn): World
    requires i < |w.channels|
  {
    if w.channels[i].Gone? then Release(w, t) else w.(channels := w.channels[i := Full(t)])
  }

  /** Dropping an entry: its sender closes the channel, its parked turn is dropped. */
  function Abandon(w: World, e: Entry): World
    requires e.allocation < |w.channels|
  {
    ReleaseEarly(
      if w.channels[e.allocation].Gone? then w else w.(channels := w.channels[e.allocation := Closed]), e.early)
  }

  function AbandonAll(w: World, entries: seq<Entry>): World
    requires forall e :: e in entries ==> e.allocation < |w.channels|
    decreases |entries|
  {
    if entries == [] then w
    else
      var w' := Abandon(w, entries[0]);
      assert |w'.channels| == |w.channels|;
      AbandonAll(w', entries[1..])
  }

  predicate InRange(w: World, o: Owner) {
    o in w.entries ==> w.entries[o].allocation < |w.channels|
  }

  function HandoffCall(w: World, o: Owner, r: RequestId): World
    requires InRange(w, o)
  {
    var t := Turn(o, r, w.guards);
    var w' := w.(guards := w.guards + 1);
    match HandoffReplyOf(w, o, r)
    case Matched => Deliver(w'.(entries := w.entries - {o}), w.entries[o].allocation, t)
    case ParkedUntilBound => w'.(entries := w.entries[o := w.entries[o].(early := Some(t))])
    case _ => Release(w', t)
  }

  function DiscardCall(w: World, o: Owner, r: RequestId): World
    requires InRange(w, o)
  {
    match DiscardReplyOf(w, o, r)
    case Discarded => Abandon(w.(entries := w.entries - {o}), w.entries[o])
    case DiscardParked =>
      var e := w.entries[o];
      ReleaseEarly(w.(entries := w.entries[o := e.(discardedEarly := Some(r), early := None)]), e.early)
    case _ => w
  }

  function BindCall(w: World, i: Allocation, r: RequestId): World
    requires i < |w.registrations| == |w.channels|
  {
    var reply := BindReplyOf(w, i, r);
    if reply.Refused() then w
    else
      var o := w.registrations[i].owner;
      var e := w.entries[o];
      var bound := e.(requestId := Some(r), early := None, discardedEarly := None);
      var w' := w.(registrations := w.registrations[i := w.registrations[i].(bound := Some(r))]);
      match reply
      case BindDiscarded => Abandon(ReleaseEarly(w'.(entries := w.entries - {o}), e.early), bound)
      case BindMatched => Deliver(w'.(entries := w.entries - {o}), i, e.early.value)
      case _ => ReleaseEarly(w'.(entries := w.entries[o := bound]), e.early)
  }

  function DropRegistrationCall(w: World, i: Allocation): World
    requires i < |w.registrations| == |w.channels|
  {
    var w' := w.(registrations := w.registrations[i := w.registrations[i].(alive := false)]);
    var o := w.registrations[i].owner;
    var w'' := if Registered(w, i) then Abandon(w'.(entries := w.entries - {o}), w.entries[o]) else w';
    DropReceiverCall(w'', i)
  }

  function DropReceiverCall(w: World, i: Allocation): World
    requires i < |w.channels|
  {
    ReleaseEarly(w.(channels := w.channels[i := Gone]),
                 if w.channels[i].Full? then Some(w.channels[i].turn) else None)
  }

  /** Dropping an entry does not look at what others owe. */
  lemma AbandonDuties(w: World, e: Entry, duties: set<Duty>)
    requires e.allocation < |w.channels|
    ensures Abandon(w.(duties := duties), e) == Abandon(w, e).(duties := duties)
    ensures |Abandon(w, e).channels| == |w.channels| && Abandon(w, e).duties == w.duties
  {
    var v := if w.channels[e.allocation].Gone? then w else w.(channels := w.channels[e.allocation := Closed]);
    ReleaseEarlyDuties(v, e.early, duties);
  }

  lemma ReleaseEarlyDuties(w: World, t: Option<Turn>, duties: set<Duty>)
    ensures ReleaseEarly(w.(duties := duties), t) == ReleaseEarly(w, t).(duties := duties)
    ensures ReleaseEarly(w, t).channels == w.channels && ReleaseEarly(w, t).duties == w.duties
  {
  }

  // ---- Calls are runs of steps ---------------------------------------------------------------

  /** Steps lead from `w` to `v`, which keeps the invariant. */
  ghost predicate Became(w: World, v: World) {
    Inv(v) && Reaches(w, v)
  }

  lemma OneStep(w: World, a: Action)
    requires Inv(w) && Enabled(w, a)
    ensures Became(w, Step(w, a))
  {
    StepKeepsInv(w, a);
    StepReaches(w, a);
  }

  lemma BecameOn(u: World, v: World, w: World)
    requires Reaches(u, v) && Became(v, w)
    ensures Became(u, w)
  {
    ReachesOn(u, v, w);
  }

  /** Performing a turn's drop and its wake, starting with the duty in hand. */
  lemma ReleaseIsSteps(w: World, t: Turn)
    requires Inv(w) && DropTurn(t) in w.duties
    ensures Became(w, Release(w.(duties := w.duties - {DropTurn(t)}), t))
  {
    var a, b := Perform(DropTurn(t)), Perform(Wake(t.guard));
    OneStep(w, a);
    OneStep(Step(w, a), b);
    BecameOn(w, Step(w, a), Step(Step(w, a), b));
    FreedOnce(w, t);
    WakeNotOwed(w, t.guard);
    assert Step(Step(w, a), b).duties == w.duties - {DropTurn(t)};
    assert Step(Step(w, a), b) == Release(w.(duties := w.duties - {DropTurn(t)}), t);
  }

  lemma WakeNotOwed(w: World, g: Guard)
    requires RegistryOk(w) && g !in w.released
    ensures Wake(g) !in w.duties
  {
    assert Wake(g) in w.duties ==> DutyOk(w, Wake(g));
  }

  lemma DeliverIsSteps(w: World, i: Allocation, t: Turn)
    requires Inv(w) && Send(i, t) in w.duties && i < |w.channels|
    ensures Became(w, Deliver(w.(duties := w.duties - {Send(i, t)}), i, t))
  {
    var a := Perform(Send(i, t));
    OneStep(w, a);
    if w.channels[i].Gone? {
      var w' := Step(w, a);
      TurnOwnedOnce(w, Send(i, t), t);
      ReleaseIsSteps(w', t);
      assert w'.duties - {DropTurn(t)} == w.duties - {Send(i, t)};
      assert w'.(duties := w'.duties - {DropTurn(t)}) == w.(duties := w.duties - {Send(i, t)});
      BecameOn(w, w', Release(w'.(duties := w'.duties - {DropTurn(t)}), t));
    }
  }

  /** A turn has one owner: while another duty carries it, no task owes its drop. */
  lemma TurnOwnedOnce(w: World, d: Duty, t: Turn)
    requires AtMostOnePlace(w) && d in w.duties && GuardOf(d) == Some(t.guard) && d != DropTurn(t)
    ensures DropTurn(t) !in w.duties
  {
    assert At(w, t.guard, InTask(d));
    if DropTurn(t) in w.duties {
      assert At(w, t.guard, InTask(DropTurn(t)));
    }
  }

  lemma AbandonIsSteps(w: World, e: Entry)
    requires Inv(w) && DropEntry(e) in w.duties && e.allocation < |w.channels|
    ensures Became(w, Abandon(w.(duties := w.duties - {DropEntry(e)}), e))
  {
    var a := Perform(DropEntry(e));
    OneStep(w, a);
    var w' := Step(w, a);
    if e.early.Some? {
      var t := e.early.value;
      TurnOwnedOnce(w, DropEntry(e), t);
      ReleaseIsSteps(w', t);
      assert w'.duties - {DropTurn(t)} == w.duties - {DropEntry(e)};
      BecameOn(w, w', Release(w'.(duties := w'.duties - {DropTurn(t)}), t));
    } else {
      assert w'.duties == w.duties - {DropEntry(e)};
    }
  }

  lemma DropReceiverIsSteps(w: World, i: Allocation)
    requires Inv(w) && DropReceiver(i) in w.duties && i < |w.channels|
    ensures Became(w, DropReceiverCall(w.(duties := w.duties - {DropReceiver(i)}), i))
  {
    var a := Perform(DropReceiver(i));
    OneStep(w, a);
    var w' := Step(w, a);
    if w.channels[i].Full? {
      var t := w.channels[i].turn;
      assert At(w, t.guard, InChannel(i));
      assert DropTurn(t) in w.duties ==> At(w, t.guard, InTask(DropTurn(t)));
      ReleaseIsSteps(w', t);
      assert w'.duties - {DropTurn(t)} == w.duties - {DropReceiver(i)};
      BecameOn(w, w', Release(w'.(duties := w'.duties - {DropTurn(t)}), t));
    } else {
      assert w'.duties == w.duties - {DropReceiver(i)};
    }
  }

  /** A guard that was never issued is in nobody's hands. */
  lemma FreshTurn(w: World, d: Duty)
    requires AtMostOnePlace(w) && GuardOf(d) == Some(w.guards)
    ensures d !in w.duties
  {
    assert d in w.duties ==> At(w, w.guards, InTask(d));
  }

  lemma HandoffMatchedIsSteps(w: World, o: Owner, r: RequestId)
    requires Inv(w) && HandoffReplyOf(w, o, r).Matched?
    ensures InRange(w, o) && Became(w, HandoffCall(w, o, r))
  {
    var t := Turn(o, r, w.guards);
    var i := w.entries[o].allocation;
    assert EntryOk(w, o, w.entries[o]);
    OneStep(w, Handoff(o, r));
    var w' := HandoffStep(w, o, r);
    FreshTurn(w, Send(i, t));
    DeliverIsSteps(w', i, t);
    assert w'.duties - {Send(i, t)} == w.duties;
    BecameOn(w, w', Deliver(w'.(duties := w.duties), i, t));
  }

  lemma HandoffRejectedIsSteps(w: World, o: Owner, r: RequestId)
    requires Inv(w) && !HandoffReplyOf(w, o, r).Matched? && !HandoffReplyOf(w, o, r).ParkedUntilBound?
    requires InRange(w, o)
    ensures Became(w, HandoffCall(w, o, r))
  {
    var t := Turn(o, r, w.guards);
    OneStep(w, Handoff(o, r));
    var w' := HandoffStep(w, o, r);
    FreshTurn(w, DropTurn(t));
    ReleaseIsSteps(w', t);
    assert w'.duties - {DropTurn(t)} == w.duties;
    BecameOn(w, w', Release(w'.(duties := w.duties), t));
  }

  lemma HandoffParkedIsStep(w: World, o: Owner, r: RequestId)
    requires Inv(w) && HandoffReplyOf(w, o, r).ParkedUntilBound?
    ensures InRange(w, o) && Became(w, HandoffCall(w, o, r))
  {
    EntriesInRange(w, o);
    hide Inv, Reaches;
    OneStep(w, Handoff(o, r));
    assert HandoffStep(w, o, r) == HandoffCall(w, o, r);
  }

  lemma EntriesInRange(w: World, o: Owner)
    requires Inv(w)
    ensures InRange(w, o)
  {
    assert o in w.entries ==> EntryOk(w, o, w.entries[o]);
  }

  /** A whole handoff. */
  lemma HandoffCallIsSteps(w: World, o: Owner, r: RequestId)
    requires Inv(w)
    ensures InRange(w, o) && Inv(HandoffCall(w, o, r)) && Reaches(w, HandoffCall(w, o, r))
  {
    hide Inv, Reaches, HandoffReplyOf;
    EntriesInRange(w, o);
    match HandoffReplyOf(w, o, r)
    case Matched => HandoffMatchedIsSteps(w, o, r);
    case ParkedUntilBound => HandoffParkedIsStep(w, o, r);
    case _ => HandoffRejectedIsSteps(w, o, r);
  }

  /** An entry in the registry is in nobody's hands. */
  lemma EntryOwnedOnce(w: World, o: Owner, e: Entry)
    requires RegistryOk(w) && o in w.entries && e.allocation == w.entries[o].allocation
    ensures e.allocation < |w.channels| && DropEntry(e) !in w.duties
  {
    assert EntryOk(w, o, w.entries[o]);
    assert DropEntry(e) in w.duties ==> DutyOk(w, DropEntry(e));
  }

  lemma EarlyOwnedOnce(w: World, o: Owner)
    requires AtMostOnePlace(w) && o in w.entries && w.entries[o].early.Some?
    ensures forall d :: d in w.duties ==> GuardOf(d) != Some(w.entries[o].early.value.guard)
  {
    var g := w.entries[o].early.value.guard;
    assert At(w, g, InEntry(o));
    assert forall d :: d in w.duties && GuardOf(d) == Some(g) ==> At(w, g, InTask(d));
  }

  lemma DiscardBoundIsSteps(w: World, o: Owner, r: RequestId)
    requires Inv(w) && DiscardReplyOf(w, o, r).Discarded?
    ensures InRange(w, o) && Became(w, DiscardCall(w, o, r))
  {
    var e := w.entries[o];
    OneStep(w, Discard(o, r));
    var w' := DiscardStep(w, o, r);
    EntryOwnedOnce(w, o, e);
    AbandonIsSteps(w', e);
    assert w'.duties - {DropEntry(e)} == w.duties;
    BecameOn(w, w', Abandon(w'.(duties := w.duties), e));
  }

  lemma DiscardEarlyIsSteps(w: World, o: Owner, r: RequestId, t: Turn)
    requires Inv(w) && DiscardReplyOf(w, o, r).DiscardParked? && InRange(w, o) && w.entries[o].early == Some(t)
    ensures Became(w, DiscardCall(w, o, r))
  {
    OneStep(w, Discard(o, r));
    EarlyOwnedOnce(w, o);
    var w' := DiscardStep(w, o, r);
    DiscardEarlyShape(w, o, r, t);
    ReleaseIsSteps(w', t);
    BecameOn(w, w', DiscardCall(w, o, r));
  }

  lemma DiscardEarlyShape(w: World, o: Owner, r: RequestId, t: Turn)
    requires DiscardReplyOf(w, o, r).DiscardParked? && InRange(w, o) && w.entries[o].early == Some(t)
    requires DropTurn(t) !in w.duties
    ensures
      var w' := DiscardStep(w, o, r);
      DropTurn(t) in w'.duties && Release(w'.(duties := w'.duties - {DropTurn(t)}), t) == DiscardCall(w, o, r)
  {
    assert DiscardStep(w, o, r).duties - {DropTurn(t)} == w.duties;
  }

  lemma DiscardParkedIsSteps(w: World, o: Owner, r: RequestId)
    requires Inv(w) && DiscardReplyOf(w, o, r).DiscardParked? && InRange(w, o)
    ensures Became(w, DiscardCall(w, o, r))
  {
    if w.entries[o].early.Some? {
      DiscardEarlyIsSteps(w, o, r, w.entries[o].early.value);
    } else {
      OneStep(w, Discard(o, r));
      assert DiscardStep(w, o, r).duties == w.duties;
    }
  }

  /** A whole discard. */
  lemma DiscardCallIsSteps(w: World, o: Owner, r: RequestId)
    requires Inv(w)
    ensures InRange(w, o) && Inv(DiscardCall(w, o, r)) && Reaches(w, DiscardCall(w, o, r))
  {
    assert o in w.entries ==> EntryOk(w, o, w.entries[o]);
    match DiscardReplyOf(w, o, r)
    case Discarded => DiscardBoundIsSteps(w, o, r);
    case DiscardParked => DiscardParkedIsSteps(w, o, r);
    case _ => StaysReaches(w);
  }

  lemma BindDiscardedIsSteps(w: World, i: Allocation, r: RequestId)
    requires Inv(w) && Enabled(w, Bind(i, r)) && BindReplyOf(w, i, r).BindDiscarded?
    ensures |w.registrations| == |w.channels| && Became(w, BindCall(w, i, r))
  {
    var o := w.registrations[i].owner;
    var e := w.entries[o];
    var bound := e.(requestId := Some(r), early := None, discardedEarly := None);
    assert EntryOk(w, o, e);
    OneStep(w, Bind(i, r));
    var w' := BindStep(w, i, r);
    EntryOwnedOnce(w, o, bound);
    AbandonIsSteps(w', bound);
    assert w'.duties - {DropEntry(bound)} == w.duties;
    BecameOn(w, w', Abandon(w'.(duties := w.duties), bound));
  }

  lemma BindMatchedIsSteps(w: World, i: Allocation, r: RequestId)
    requires Inv(w) && Enabled(w, Bind(i, r)) && BindReplyOf(w, i, r).BindMatched?
    ensures |w.registrations| == |w.channels| && Became(w, BindCall(w, i, r))
  {
    var o := w.registrations[i].owner;
    var t := w.entries[o].early.value;
    OneStep(w, Bind(i, r));
    var w' := BindStep(w, i, r);
    EarlyOwnedOnce(w, o);
    DeliverIsSteps(w', i, t);
    assert w'.duties - {Send(i, t)} == w.duties;
    BecameOn(w, w', Deliver(w'.(duties := w.duties), i, t));
  }

  lemma BindRejectedIsSteps(w: World, i: Allocation, r: RequestId, t: Turn)
    requires Inv(w) && Enabled(w, Bind(i, r)) && BindReplyOf(w, i, r).AwaitingCompletion?
    requires w.entries[w.registrations[i].owner].early == Some(t)
    ensures |w.registrations| == |w.channels| && Became(w, BindCall(w, i, r))
  {
    OneStep(w, Bind(i, r));
    EarlyOwnedOnce(w, w.registrations[i].owner);
    var w' := BindStep(w, i, r);
    ReleaseIsSteps(w', t);
    assert w'.duties - {DropTurn(t)} == w.duties;
    BecameOn(w, w', Release(w'.(duties := w.duties), t));
  }

  lemma BindAwaitingIsSteps(w: World, i: Allocation, r: RequestId)
    requires Inv(w) && Enabled(w, Bind(i, r)) && BindReplyOf(w, i, r).AwaitingCompletion?
    ensures |w.registrations| == |w.channels| && Became(w, BindCall(w, i, r))
  {
    var e := w.entries[w.registrations[i].owner];
    if e.early.Some? {
      BindRejectedIsSteps(w, i, r, e.early.value);
    } else {
      OneStep(w, Bind(i, r));
      assert BindStep(w, i, r).duties == w.duties;
    }
  }

  /** A whole bind. */
  lemma BindCallIsSteps(w: World, i: Allocation, r: RequestId)
    requires Inv(w) && i < |w.registrations| && w.registrations[i].alive
    ensures |w.registrations| == |w.channels| && Inv(BindCall(w, i, r)) && Reaches(w, BindCall(w, i, r))
  {
    match BindReplyOf(w, i, r)
    case BindDiscarded => BindDiscardedIsSteps(w, i, r);
    case BindMatched => BindMatchedIsSteps(w, i, r);
    case AwaitingCompletion(_) => BindAwaitingIsSteps(w, i, r);
    case _ => StaysReaches(w);
  }

  lemma ReceiverNotOwed(w: World, i: Allocation)
    requires RegistryOk(w) && i < |w.registrations| && w.registrations[i].alive
    ensures i < |w.channels| && DropReceiver(i) !in w.duties
  {
    assert DropReceiver(i) in w.duties ==> DutyOk(w, DropReceiver(i));
  }

  /** The registration and its own entry are taken out. */
  lemma DropOwnEntryIsSteps(w: World, i: Allocation)
    requires Inv(w) && i < |w.registrations| && w.registrations[i].alive && Registered(w, i)
    requires i < |w.channels| && DropReceiver(i) !in w.duties
    ensures
      var e := w.entries[w.registrations[i].owner];
      var w' := DropRegistrationStep(w, i);
      && e.allocation < |w.channels| && DropEntry(e) !in w.duties
      && w'.duties == w.duties + {DropReceiver(i), DropEntry(e)}
      && Became(w, Abandon(w'.(duties := w.duties + {DropReceiver(i)}), e))
  {
    var o := w.registrations[i].owner;
    var e := w.entries[o];
    EntryOwnedOnce(w, o, e);
    OneStep(w, DropRegistration(i));
    var w' := DropRegistrationStep(w, i);
    assert w'.duties == w.duties + {DropReceiver(i), DropEntry(e)};
    AbandonIsSteps(w', e);
    assert w'.duties - {DropEntry(e)} == w.duties + {DropReceiver(i)};
    BecameOn(w, w', Abandon(w'.(duties := w.duties + {DropReceiver(i)}), e));
  }

  /** What is left to do once the registration's own entry was dropped. */
  lemma DropRegisteredShape(w: World, i: Allocation)
    requires i < |w.registrations| == |w.channels| && Registered(w, i)
    requires w.entries[w.registrations[i].owner].allocation < |w.channels|
    ensures
      var e := w.entries[w.registrations[i].owner];
      var w'' := Abandon(DropRegistrationStep(w, i).(duties := w.duties + {DropReceiver(i)}), e);
      && |w''.channels| == |w.channels| && w''.duties == w.duties + {DropReceiver(i)}
      && DropReceiverCall(w''.(duties := w.duties), i) == DropRegistrationCall(w, i)
  {
    var e := w.entries[w.registrations[i].owner];
    var w' := DropRegistrationStep(w, i).(duties := w.duties + {DropReceiver(i)});
    AbandonDuties(w', e, w.duties);
    assert w'.(duties := w.duties)
        == w.(registrations := w.registrations[i := w.registrations[i].(alive := false)],
              entries := w.entries - {w.registrations[i].owner});
  }

  /** The registration's own entry goes first, then its receiver. */
  lemma DropRegisteredIsSteps(w: World, i: Allocation)
    requires Inv(w) && i < |w.registrations| && w.registrations[i].alive && Registered(w, i)
    ensures |w.registrations| == |w.channels| && Became(w, DropRegistrationCall(w, i))
  {
    ReceiverNotOwed(w, i);
    DropOwnEntryIsSteps(w, i);
    DropRegisteredShape(w, i);
    var e := w.entries[w.registrations[i].owner];
    var w'' := Abandon(DropRegistrationStep(w, i).(duties := w.duties + {DropReceiver(i)}), e);
    DropReceiverIsSteps(w'', i);
    assert w''.duties - {DropReceiver(i)} == w.duties;
    BecameOn(w, w'', DropRegistrationCall(w, i));
  }

  lemma DropUnregisteredIsSteps(w: World, i: Allocation)
    requires Inv(w) && i < |w.registrations| && w.registrations[i].alive && !Registered(w, i)
    ensures |w.registrations| == |w.channels| && Became(w, DropRegistrationCall(w, i))
  {
    ReceiverNotOwed(w, i);
    OneStep(w, DropRegistration(i));
    var w' := DropRegistrationStep(w, i);
    DropReceiverIsSteps(w', i);
    assert w'.duties - {DropReceiver(i)} == w.duties;
    BecameOn(w, w', DropReceiverCall(w'.(duties := w.duties), i));
  }

  /** A whole drop of a registration. */
  lemma DropRegistrationCallIsSteps(w: World, i: Allocation)
    requires Inv(w) && i < |w.registrations| && w.registrations[i].alive
    ensures |w.registrations| == |w.channels|
    ensures Inv(DropRegistrationCall(w, i)) && Reaches(w, DropRegistrationCall(w, i))
  {
    if Registered(w, i) {
      DropRegisteredIsSteps(w, i);
    } else {
      DropUnregisteredIsSteps(w, i);
    }
  }

  function DropDuties(entries: seq<Entry>): set<Duty> {
    set e | e in entries :: DropEntry(e)
  }

  lemma FirstDropDuty(entries: seq<Entry>, rest: set<Duty>)
    requires entries != [] && DropEntry(entries[0]) !in rest && entries[0] !in entries[1..]
    ensures rest + DropDuties(entries) - {DropEntry(entries[0])} == rest + DropDuties(entries[1..])
  {
    assert entries == [entries[0]] + entries[1..];
  }

  lemma FirstAbandonIsSteps(w: World, entries: seq<Entry>, rest: set<Duty>)
    requires Inv(w) && entries != [] && w.duties == rest + DropDuties(entries)
    requires entries[0].allocation < |w.channels| && DropEntry(entries[0]) !in rest && entries[0] !in entries[1..]
    ensures Became(w, Abandon(w.(duties := rest + DropDuties(entries[1..])), entries[0]))
  {
    FirstDropDuty(entries, rest);
    assert entries[0] in entries;
    AbandonIsSteps(w, entries[0]);
  }

  /** The entries are distinct, within range, and nobody else owes their drop. */
  ghost predicate Droppable(w: World, entries: seq<Entry>, rest: set<Duty>) {
    && w.duties == rest + DropDuties(entries)
    && (forall e :: e in entries ==> e.allocation < |w.channels| && DropEntry(e) !in rest)
    && forall k, l :: 0 <= k < l < |entries| ==> entries[k] != entries[l]
  }

  lemma DroppableRest(w: World, entries: seq<Entry>, rest: set<Duty>)
    requires Droppable(w, entries, rest) && entries != []
    ensures entries[0] in entries && entries[0].allocation < |w.channels| && entries[0] !in entries[1..]
    ensures Droppable(Abandon(w.(duties := rest + DropDuties(entries[1..])), entries[0]), entries[1..], rest)
  {
    assert forall k :: 0 <= k < |entries| - 1 ==> entries[1..][k] == entries[k + 1];
  }

  lemma AbandonAllShape(w: World, entries: seq<Entry>, rest: set<Duty>)
    requires entries != [] && forall e :: e in entries ==> e.allocation < |w.channels|
    ensures
      var w' := Abandon(w.(duties := rest + DropDuties(entries[1..])), entries[0]);
      && |w'.channels| == |w.channels|
      && AbandonAll(w'.(duties := rest), entries[1..]) == AbandonAll(w.(duties := rest), entries)
  {
    var w' := w.(duties := rest + DropDuties(entries[1..]));
    assert entries[0] in entries;
    AbandonDuties(w', entries[0], rest);
    assert w'.(duties := rest) == w.(duties := rest);
  }

  /** The same entries, dropped one after the other in any order. */
  lemma {:induction false} AbandonAllIsSteps(w: World, entries: seq<Entry>, rest: set<Duty>)
    requires Inv(w) && Droppable(w, entries, rest)
    ensures Became(w, AbandonAll(w.(duties := rest), entries))
    decreases |entries|
  {
    if entries == [] {
      assert w.duties == rest;
      StaysReaches(w);
    } else {
      DroppableRest(w, entries, rest);
      FirstAbandonIsSteps(w, entries, rest);
      var w' := Abandon(w.(duties := rest + DropDuties(entries[1..])), entries[0]);
      AbandonAllIsSteps(w', entries[1..], rest);
      AbandonAllShape(w, entries, rest);
      BecameOn(w, w', AbandonAll(w.(duties := rest), entries));
    }
  }
}
