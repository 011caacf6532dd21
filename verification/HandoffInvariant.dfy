/** What every step of the completion handoff keeps. */
module HandoffInvariant {
  import opened Prelude
  import opened CompletionHandoff

  /** An entry parks at most one of a completion and a tombstone, and neither once bound. */
  predicate EntryShape(e: Entry) {
    && !(e.early.Some? && e.discardedEarly.Some?)
    && (e.requestId.Some? ==> e.early.None? && e.discardedEarly.None?)
  }

  predicate EntryOk(w: World, o: Owner, e: Entry) {
    && EntryShape(e)
    && e.allocation < |w.registrations| == |w.channels|
    && w.registrations[e.allocation] == Registration(o, e.requestId, true)
    && w.channels[e.allocation].Empty?
    && (e.early.Some? ==> e.early.value.owner == o)
  }

  ghost predicate EntriesOk(w: World) {
    && (w.closed ==> w.entries == map[])
    && forall o :: o in w.entries ==> EntryOk(w, o, w.entries[o])
  }

  /** The registration whose sender a duty holds. */
  function SenderOf(d: Duty): Option<Allocation> {
    match d
    case Send(i, _) => Some(i)
    case DropEntry(e) => Some(e.allocation)
    case _ => None
  }

  /** The turn answers exactly the request that the registration bound. */
  predicate Fits(w: World, i: Allocation, t: Turn) {
    && i < |w.registrations|
    && w.registrations[i].owner == t.owner
    && w.registrations[i].bound == Some(t.requestId)
  }

  predicate DutyOk(w: World, d: Duty) {
    && (SenderOf(d).Some? ==>
          var i := SenderOf(d).value;
          && i < |w.channels| && !Registered(w, i)
          && (w.channels[i].Empty? || w.channels[i].Gone?))
    && (d.Send? ==> Fits(w, d.allocation, d.turn))
    && (d.DropReceiver? ==>
          d.allocation < |w.registrations| == |w.channels|
          && !w.registrations[d.allocation].alive && !w.channels[d.allocation].Gone?)
    && (d.Wake? ==> d.guard in w.released && d.guard !in w.woken)
  }

  ghost predicate DutiesOk(w: World) {
    && (forall d :: d in w.duties ==> DutyOk(w, d))
    && (forall d, d' :: d in w.duties && d' in w.duties && SenderOf(d).Some? && SenderOf(d) == SenderOf(d')
          ==> d == d')
  }

  ghost predicate ChannelsOk(w: World) {
    && |w.channels| == |w.registrations|
    && forall i {:trigger w.channels[i]} :: 0 <= i < |w.channels| ==>
         && (w.channels[i].Full? ==> Fits(w, i, w.channels[i].turn))
         && (w.channels[i].Gone? ==> !w.registrations[i].alive)
         && (!w.registrations[i].alive ==> w.channels[i].Gone? || DropReceiver(i) in w.duties)
  }

  ghost predicate ReceivedOk(w: World) {
    && (forall k {:trigger w.received[k]} :: 0 <= k < |w.received| ==>
          var (i, t) := w.received[k];
          && i < |w.channels| && Fits(w, i, t)
          && (w.channels[i].Taken? || w.channels[i].Gone?))
    && (forall k, l {:trigger w.received[k], w.received[l]} :: 0 <= k < l < |w.received| ==>
          w.received[k].0 != w.received[l].0)
  }

  ghost predicate RegistryOk(w: World) {
    EntriesOk(w) && DutiesOk(w) && ChannelsOk(w) && ReceivedOk(w)
  }

  /** The places a delivery guard can be in. */
  datatype Place = InEntry(owner: Owner) | InChannel(allocation: Allocation) | InTask(duty: Duty) | Freed(index: nat)

  function GuardOf(d: Duty): Option<Guard> {
    match d
    case Send(_, t) => Some(t.guard)
    case DropEntry(e) => if e.early.Some? then Some(e.early.value.guard) else None
    case DropTurn(t) => Some(t.guard)
    case _ => None
  }

  predicate At(w: World, g: Guard, p: Place) {
    match p
    case InEntry(o) => o in w.entries && w.entries[o].early.Some? && w.entries[o].early.value.guard == g
    case InChannel(i) => i < |w.channels| && w.channels[i].Full? && w.channels[i].turn.guard == g
    case InTask(d) => d in w.duties && GuardOf(d) == Some(g)
    case Freed(k) => k < |w.released| && w.released[k] == g
  }

  ghost predicate AtMostOnePlace(w: World) {
    forall g: Guard, p, q :: At(w, g, p) && At(w, g, q) ==> p == q && g < w.guards
  }

  ghost predicate Located(w: World, g: Guard) {
    exists p :: At(w, g, p)
  }

  ghost predicate SomePlace(w: World) {
    forall g: Guard {:trigger Located(w, g)} :: g < w.guards ==> Located(w, g)
  }

  ghost predicate WakeOwed(w: World) {
    exists g :: Wake(g) in w.duties
  }

  ghost predicate WakesOk(w: World) {
    && (forall g :: g in w.woken ==> g in w.released)
    && (forall g :: g in w.released ==> g in w.woken || Wake(g) in w.duties)
    && w.scanned <= |w.released|
    && (w.pump.Parked? ==> !w.permit)
    && (!w.pump.Awake? && w.scanned < |w.released| ==> w.permit || WakeOwed(w))
  }

  ghost predicate Inv(w: World) {
    && RegistryOk(w)
    && AtMostOnePlace(w) && SomePlace(w) && WakesOk(w)
  }

  // ---- The registry part -------------------------------------------------------------------

  lemma OweTurnsKeeps(w: World, duties: set<Duty>)
    requires RegistryOk(w) && forall d :: d in duties ==> d.DropTurn?
    ensures RegistryOk(Owe(w, duties))
  {
  }

  lemma RemoveKeeps(w: World, owners: set<Owner>)
    requires RegistryOk(w)
    ensures RegistryOk(RemoveEntries(w, owners))
  {
  }

  lemma UpdateEntryKeeps(w: World, o: Owner, e: Entry)
    requires RegistryOk(w) && o in w.entries && EntryShape(e)
    requires e.allocation == w.entries[o].allocation && e.requestId == w.entries[o].requestId
    requires e.early.Some? ==> e.early.value.owner == o
    ensures RegistryOk(w.(entries := w.entries[o := e]))
  {
  }

  lemma DiscardKeeps(w: World, o: Owner, r: RequestId)
    requires RegistryOk(w)
    ensures RegistryOk(DiscardStep(w, o, r))
  {
    match DiscardReplyOf(w, o, r)
    case Discarded =>
      RemoveKeeps(w, {o});
      assert DiscardStep(w, o, r) == RemoveEntries(w, {o});
    case DiscardParked =>
      var e := w.entries[o];
      var e' := e.(discardedEarly := Some(r), early := None);
      UpdateEntryKeeps(w, o, e');
      OweTurnsKeeps(w.(entries := w.entries[o := e']), TurnDuty(e.early));
    case _ =>
  }

  /** What was received stays right while registrations keep their identity and channels stay used. */
  lemma ReceivedFrame(w: World, w': World)
    requires ReceivedOk(w) && w'.received == w.received && |w'.channels| >= |w.channels|
    requires forall i, t :: Fits(w, i, t) ==> Fits(w', i, t)
    requires forall i :: 0 <= i < |w.channels| && (w.channels[i].Taken? || w.channels[i].Gone?) ==>
               w'.channels[i].Taken? || w'.channels[i].Gone?
    ensures ReceivedOk(w')
  {
    forall k | 0 <= k < |w'.received|
      ensures var (i, t) := w'.received[k];
              i < |w'.channels| && Fits(w', i, t) && (w'.channels[i].Taken? || w'.channels[i].Gone?)
    {
      assert w'.received[k] == w.received[k];
    }
  }

  /** Binding the identifier of an entry that keeps waiting. */
  function Bound(w: World, i: Allocation, r: RequestId): World
    requires i < |w.registrations| && w.registrations[i].owner in w.entries
  {
    var o := w.registrations[i].owner;
    w.(registrations := w.registrations[i := w.registrations[i].(bound := Some(r))],
       entries := w.entries[o := w.entries[o].(requestId := Some(r), early := None, discardedEarly := None)])
  }

  lemma BoundKeeps(w: World, i: Allocation, r: RequestId)
    requires RegistryOk(w) && Registered(w, i) && w.registrations[i].bound.None?
    ensures RegistryOk(Bound(w, i, r))
  {
    var w' := Bound(w, i, r);
    assert forall j, t :: Fits(w, j, t) ==> Fits(w', j, t);
    assert forall j :: Registered(w, j) <==> Registered(w', j);
    assert ChannelsOk(w');
    assert DutiesOk(w');
    ReceivedFrame(w, w');
  }

  /** The sender of a removed entry goes to the turn it was waiting for. */
  lemma SendKeeps(w: World, o: Owner, t: Turn)
    requires RegistryOk(w) && o in w.entries && w.entries[o].early.None? && Fits(w, w.entries[o].allocation, t)
    ensures RegistryOk(Owe(w, {Send(w.entries[o].allocation, t)}).(entries := w.entries - {o}))
  {
  }

  lemma RegisterDuties(w: World, o: Owner)
    requires RegistryOk(w) && !w.closed && o !in w.entries
    ensures DutiesOk(RegisterStep(w, o))
  {
    var w' := RegisterStep(w, o);
    forall d | d in w.duties ensures DutyOk(w', d) {
      assert DutyOk(w, d);
    }
  }

  lemma RegisterEntries(w: World, o: Owner)
    requires RegistryOk(w) && !w.closed && o !in w.entries
    ensures EntriesOk(RegisterStep(w, o))
  {
    var w' := RegisterStep(w, o);
    forall x | x in w'.entries ensures EntryOk(w', x, w'.entries[x]) {
      assert x != o ==> EntryOk(w, x, w.entries[x]);
    }
  }

  lemma RegisterKeeps(w: World, o: Owner)
    requires RegistryOk(w)
    ensures RegistryOk(RegisterStep(w, o))
  {
    if !w.closed && o !in w.entries {
      RegisterDuties(w, o);
      RegisterEntries(w, o);
      ReceivedFrame(w, RegisterStep(w, o));
    }
  }

  lemma GuardsAreCustody(w: World, guards: nat)
    requires RegistryOk(w)
    ensures RegistryOk(w.(guards := guards))
  {
    var w' := w.(guards := guards);
    forall d | d in w.duties ensures DutyOk(w', d) {
      assert DutyOk(w, d);
    }
    ReceivedFrame(w, w');
  }

  lemma MatchedKeeps(w: World, o: Owner, r: RequestId)
    requires RegistryOk(w) && HandoffReplyOf(w, o, r).Matched?
    ensures RegistryOk(HandoffStep(w, o, r))
  {
    var t := Turn(o, r, w.guards);
    assert EntryOk(w, o, w.entries[o]);
    SendKeeps(w, o, t);
    GuardsAreCustody(Owe(w, {Send(w.entries[o].allocation, t)}).(entries := w.entries - {o}), w.guards + 1);
  }

  lemma ParkKeeps(w: World, o: Owner, r: RequestId)
    requires RegistryOk(w) && HandoffReplyOf(w, o, r).ParkedUntilBound?
    ensures RegistryOk(HandoffStep(w, o, r))
  {
    var e := w.entries[o].(early := Some(Turn(o, r, w.guards)));
    UpdateEntryKeeps(w, o, e);
    GuardsAreCustody(w.(entries := w.entries[o := e]), w.guards + 1);
    assert w.duties + {} == w.duties;
  }

  lemma RejectKeeps(w: World, o: Owner, r: RequestId)
    requires RegistryOk(w) && !HandoffReplyOf(w, o, r).Matched? && !HandoffReplyOf(w, o, r).ParkedUntilBound?
    ensures RegistryOk(HandoffStep(w, o, r))
  {
    var t := Turn(o, r, w.guards);
    OweTurnsKeeps(w, {DropTurn(t)});
    GuardsAreCustody(Owe(w, {DropTurn(t)}), w.guards + 1);
  }

  lemma HandoffKeeps(w: World, o: Owner, r: RequestId)
    requires RegistryOk(w)
    ensures RegistryOk(HandoffStep(w, o, r))
  {
    match HandoffReplyOf(w, o, r)
    case Matched => MatchedKeeps(w, o, r);
    case ParkedUntilBound => ParkKeeps(w, o, r);
    case _ => RejectKeeps(w, o, r);
  }

  /** A binding is a `Bound` followed by the removal or the duties its reply names. */
  lemma BindShape(w: World, i: Allocation, r: RequestId)
    requires i < |w.registrations| && !BindReplyOf(w, i, r).Refused()
    ensures
      var o, e, w' := w.registrations[i].owner, w.entries[w.registrations[i].owner], Bound(w, i, r);
      BindStep(w, i, r) ==
      match BindReplyOf(w, i, r) {
        case BindDiscarded => Owe(RemoveEntries(w', {o}), TurnDuty(e.early))
        case BindMatched => Owe(w', {Send(i, e.early.value)}).(entries := w'.entries - {o})
        case _ => Owe(w', TurnDuty(e.early))
      }
  {
    var o := w.registrations[i].owner;
    assert Bound(w, i, r).entries - {o} == w.entries - {o};
  }

  lemma BindDiscardedKeeps(w: World, i: Allocation, r: RequestId)
    requires RegistryOk(w) && Enabled(w, Bind(i, r)) && BindReplyOf(w, i, r).BindDiscarded?
    ensures RegistryOk(BindStep(w, i, r))
  {
    var o := w.registrations[i].owner;
    BindShape(w, i, r);
    BoundKeeps(w, i, r);
    RemoveKeeps(Bound(w, i, r), {o});
    OweTurnsKeeps(RemoveEntries(Bound(w, i, r), {o}), TurnDuty(w.entries[o].early));
  }

  lemma EntryHolds(w: World, o: Owner)
    requires RegistryOk(w) && o in w.entries
    ensures EntryOk(w, o, w.entries[o])
  {
  }

  lemma BindMatchedKeeps(w: World, i: Allocation, r: RequestId)
    requires RegistryOk(w) && Enabled(w, Bind(i, r)) && BindReplyOf(w, i, r).BindMatched?
    ensures RegistryOk(BindStep(w, i, r))
  {
    var o := w.registrations[i].owner;
    var e := w.entries[o];
    hide RegistryOk, BindStep;
    EntryHolds(w, o);
    BindShape(w, i, r);
    BoundKeeps(w, i, r);
    SendKeeps(Bound(w, i, r), o, e.early.value);
  }

  lemma BindKeeps(w: World, i: Allocation, r: RequestId)
    requires RegistryOk(w) && Enabled(w, Bind(i, r))
    ensures RegistryOk(BindStep(w, i, r))
  {
    match BindReplyOf(w, i, r)
    case BindDiscarded => BindDiscardedKeeps(w, i, r);
    case BindMatched => BindMatchedKeeps(w, i, r);
    case AwaitingCompletion(_) =>
      BindShape(w, i, r);
      BoundKeeps(w, i, r);
      OweTurnsKeeps(Bound(w, i, r), TurnDuty(w.entries[w.registrations[i].owner].early));
    case _ =>
  }

  /** One more turn was taken out of its channel. */
  lemma ReceivedGrows(w: World, w': World, i: Allocation, t: Turn)
    requires ReceivedOk(w) && i < |w.channels| && w.channels[i].Full? && Fits(w, i, t)
    requires w' == w.(channels := w.channels[i := Taken], received := w.received + [(i, t)])
    ensures ReceivedOk(w')
  {
    forall k | 0 <= k < |w'.received|
      ensures var (j, u) := w'.received[k];
              j < |w'.channels| && Fits(w', j, u) && (w'.channels[j].Taken? || w'.channels[j].Gone?)
    {
      if k < |w.received| {
        assert w'.received[k] == w.received[k];
      } else {
        assert w'.received[k] == (i, t);
      }
    }
    forall k, l | 0 <= k < l < |w'.received| ensures w'.received[k].0 != w'.received[l].0 {
      assert w'.received[k] == w.received[k];
      if l < |w.received| {
        assert w'.received[l] == w.received[l];
      }
    }
  }

  lemma ReceiveKeeps(w: World, i: Allocation)
    requires RegistryOk(w) && Enabled(w, Receive(i))
    ensures RegistryOk(Step(w, Receive(i)))
  {
    var t := w.channels[i].turn;
    var w' := w.(channels := w.channels[i := Taken], received := w.received + [(i, t)]);
    assert Fits(w, i, t);
    forall d | d in w.duties ensures DutyOk(w', d) {
      assert DutyOk(w, d) && SenderOf(d) != Some(i);
    }
    assert ChannelsOk(w');
    ReceivedGrows(w, w', i, t);
    OweTurnsKeeps(w', {DropTurn(t)});
  }

  /** Dropping a registration that has no entry in the registry. */
  lemma RetireKeeps(w: World, i: Allocation)
    requires RegistryOk(w) && i < |w.registrations| && w.registrations[i].alive && !Registered(w, i)
    ensures RegistryOk(DropRegistrationStep(w, i))
  {
    var w' := DropRegistrationStep(w, i);
    assert forall j, t :: Fits(w, j, t) ==> Fits(w', j, t);
    assert forall j :: Registered(w, j) <==> Registered(w', j);
    assert ChannelsOk(w');
    assert DutiesOk(w');
    ReceivedFrame(w, w');
  }

  lemma DropKeeps(w: World, i: Allocation)
    requires RegistryOk(w) && Enabled(w, DropRegistration(i))
    ensures RegistryOk(DropRegistrationStep(w, i))
  {
    if Registered(w, i) {
      var w' := RemoveEntries(w, {w.registrations[i].owner});
      RemoveKeeps(w, {w.registrations[i].owner});
      RetireKeeps(w', i);
      assert DropRegistrationStep(w, i) == DropRegistrationStep(w', i);
    } else {
      RetireKeeps(w, i);
    }
  }

  lemma DropDutyKeeps(w: World, d: Duty)
    requires RegistryOk(w) && !d.DropReceiver?
    ensures RegistryOk(w.(duties := w.duties - {d}))
  {
  }

  lemma FillKeeps(w: World, i: Allocation, t: Turn)
    requires RegistryOk(w) && i < |w.channels| && w.channels[i].Empty? && Fits(w, i, t)
    requires !Registered(w, i) && forall d :: d in w.duties ==> SenderOf(d) != Some(i)
    ensures RegistryOk(w.(channels := w.channels[i := Full(t)]))
  {
    var w' := w.(channels := w.channels[i := Full(t)]);
    assert ChannelsOk(w');
    assert DutiesOk(w');
    ReceivedFrame(w, w');
  }

  lemma CloseChannelKeeps(w: World, i: Allocation)
    requires RegistryOk(w) && i < |w.channels| && w.channels[i].Empty?
    requires !Registered(w, i) && forall d :: d in w.duties ==> SenderOf(d) != Some(i)
    ensures RegistryOk(w.(channels := w.channels[i := Closed]))
  {
    var w' := w.(channels := w.channels[i := Closed]);
    assert ChannelsOk(w');
    assert DutiesOk(w');
    ReceivedFrame(w, w');
  }

  lemma PerformSendKeeps(w: World, i: Allocation, t: Turn)
    requires RegistryOk(w) && Enabled(w, Perform(Send(i, t)))
    ensures RegistryOk(PerformStep(w, Send(i, t)))
  {
    var w' := w.(duties := w.duties - {Send(i, t)});
    assert DutyOk(w, Send(i, t));
    DropDutyKeeps(w, Send(i, t));
    if w.channels[i].Gone? {
      OweTurnsKeeps(w', {DropTurn(t)});
    } else {
      assert SenderOf(Send(i, t)) == Some(i);
      FillKeeps(w', i, t);
    }
  }

  lemma PerformDropEntryKeeps(w: World, e: Entry)
    requires RegistryOk(w) && Enabled(w, Perform(DropEntry(e)))
    ensures RegistryOk(PerformStep(w, DropEntry(e)))
  {
    var i := e.allocation;
    var w' := w.(duties := w.duties - {DropEntry(e)});
    assert DutyOk(w, DropEntry(e));
    DropDutyKeeps(w, DropEntry(e));
    if w.channels[i].Gone? {
      OweTurnsKeeps(w', TurnDuty(e.early));
    } else {
      assert SenderOf(DropEntry(e)) == Some(i);
      CloseChannelKeeps(w', i);
      OweTurnsKeeps(w'.(channels := w.channels[i := Closed]), TurnDuty(e.early));
    }
  }

  lemma PerformDropReceiverKeeps(w: World, i: Allocation)
    requires RegistryOk(w) && Enabled(w, Perform(DropReceiver(i)))
    ensures RegistryOk(PerformStep(w, DropReceiver(i)))
  {
    var w' := w.(duties := w.duties - {DropReceiver(i)}, channels := w.channels[i := Gone]);
    assert DutyOk(w, DropReceiver(i));
    assert EntriesOk(w');
    assert ChannelsOk(w');
    assert DutiesOk(w');
    ReceivedFrame(w, w');
    OweTurnsKeeps(w', if w.channels[i].Full? then {DropTurn(w.channels[i].turn)} else {});
  }

  lemma PerformDropTurnKeeps(w: World, t: Turn)
    requires RegistryOk(w) && Enabled(w, Perform(DropTurn(t))) && t.guard !in w.woken
    ensures RegistryOk(PerformStep(w, DropTurn(t)))
  {
  }

  lemma PerformWakeKeeps(w: World, g: Guard)
    requires RegistryOk(w) && Enabled(w, Perform(Wake(g)))
    ensures RegistryOk(PerformStep(w, Wake(g)))
  {
  }

  // ---- Custody of the guards ---------------------------------------------------------------

  ghost predicate Custody(w: World) {
    AtMostOnePlace(w) && SomePlace(w)
  }

  ghost predicate SamePlaces(w: World, w': World) {
    w'.guards == w.guards && forall g: Guard, q :: At(w', g, q) <==> At(w, g, q)
  }

  /** The only change is that what was in `from` is now in `to`. */
  ghost predicate Moves(w: World, w': World, from: Place, to: Place) {
    && w'.guards == w.guards
    && (forall g: Guard :: !At(w, g, to))
    && forall g: Guard, q :: At(w', g, q) <==> if q == to then At(w, g, from) else q != from && At(w, g, q)
  }

  /** The only change is that a new guard is in `to`. */
  ghost predicate Arrives(w: World, w': World, to: Place) {
    && w'.guards == w.guards + 1
    && (forall g: Guard :: !At(w, g, to))
    && forall g: Guard, q :: At(w', g, q) <==> if q == to then g == w.guards else At(w, g, q)
  }

  lemma SameCustody(w: World, w': World)
    requires Custody(w) && SamePlaces(w, w')
    ensures Custody(w')
  {
    forall g: Guard | g < w'.guards ensures Located(w', g) {
      assert Located(w, g);
      var p :| At(w, g, p);
      assert At(w', g, p);
    }
  }

  lemma MovedCustody(w: World, w': World, from: Place, to: Place)
    requires Custody(w) && Moves(w, w', from, to)
    ensures Custody(w')
  {
    forall g: Guard, p, q | At(w', g, p) && At(w', g, q) ensures p == q && g < w'.guards {
      assert At(w, g, if p == to then from else p);
      assert At(w, g, if q == to then from else q);
    }
    forall g: Guard | g < w'.guards ensures Located(w', g) {
      assert Located(w, g);
      var p :| At(w, g, p);
      assert At(w', g, if p == from then to else p);
    }
  }

  lemma ArrivedCustody(w: World, w': World, to: Place)
    requires Custody(w) && Arrives(w, w', to)
    ensures Custody(w')
  {
    forall g: Guard, p, q | At(w', g, p) && At(w', g, q) ensures p == q && g < w'.guards {
      if p != to { assert At(w, g, p); }
      if q != to { assert At(w, g, q); }
    }
    forall g: Guard | g < w'.guards ensures Located(w', g) {
      if g == w.guards {
        assert At(w', g, to);
      } else {
        assert Located(w, g);
        var p :| At(w, g, p);
        assert At(w', g, p);
      }
    }
  }

  lemma ParkArrives(w: World, o: Owner, r: RequestId)
    requires RegistryOk(w) && Custody(w) && HandoffReplyOf(w, o, r).ParkedUntilBound?
    ensures Arrives(w, HandoffStep(w, o, r), InEntry(o))
  {
    assert EntryOk(w, o, w.entries[o]);
  }

  lemma DutyArrives(w: World, o: Owner, r: RequestId, d: Duty)
    requires RegistryOk(w) && Custody(w) && !HandoffReplyOf(w, o, r).ParkedUntilBound?
    requires HandoffDuty(w, o, r, Turn(o, r, w.guards)) == {d} && GuardOf(d) == Some(w.guards)
    requires HandoffReplyOf(w, o, r).Matched? ==> w.entries[o].early.None?
    ensures Arrives(w, HandoffStep(w, o, r), InTask(d))
  {
    assert d in w.duties ==> At(w, w.guards, InTask(d));
  }

  lemma HandoffCustody(w: World, o: Owner, r: RequestId)
    requires RegistryOk(w) && Custody(w)
    ensures Custody(HandoffStep(w, o, r))
  {
    var t := Turn(o, r, w.guards);
    assert o in w.entries ==> EntryOk(w, o, w.entries[o]);
    match HandoffReplyOf(w, o, r)
    case Matched =>
      var d := Send(w.entries[o].allocation, t);
      DutyArrives(w, o, r, d);
      ArrivedCustody(w, HandoffStep(w, o, r), InTask(d));
    case ParkedUntilBound =>
      ParkArrives(w, o, r);
      ArrivedCustody(w, HandoffStep(w, o, r), InEntry(o));
    case _ =>
      DutyArrives(w, o, r, DropTurn(t));
      ArrivedCustody(w, HandoffStep(w, o, r), InTask(DropTurn(t)));
  }

  /** A parked completion leaves its entry for whichever task will drop or send it. */
  lemma UnparkCustody(w: World, w': World, o: Owner, d: Duty)
    requires Custody(w) && o in w.entries && w'.guards == w.guards
    requires w'.released == w.released && w'.channels == w.channels
    requires forall x :: x != o ==> (x in w.entries <==> x in w'.entries)
    requires forall x :: x != o && x in w.entries ==> w'.entries[x] == w.entries[x]
    requires o in w'.entries ==> w'.entries[o].early.None?
    requires var e := w.entries[o].early;
             if e.Some? then GuardOf(d) == Some(e.value.guard) && w'.duties == w.duties + {d}
             else w'.duties == w.duties
    ensures Custody(w')
  {
    if w.entries[o].early.Some? {
      assert At(w, w.entries[o].early.value.guard, InEntry(o));
      MovedCustody(w, w', InEntry(o), InTask(d));
    } else {
      SameCustody(w, w');
    }
  }

  lemma DiscardBoundCustody(w: World, o: Owner, r: RequestId)
    requires RegistryOk(w) && Custody(w) && DiscardReplyOf(w, o, r).Discarded?
    ensures Custody(DiscardStep(w, o, r))
  {
    assert EntryOk(w, o, w.entries[o]);
    hide RegistryOk;
    SameCustody(w, DiscardStep(w, o, r));
  }

  lemma DiscardParkedCustody(w: World, o: Owner, r: RequestId)
    requires Custody(w) && DiscardReplyOf(w, o, r).DiscardParked?
    ensures Custody(DiscardStep(w, o, r))
  {
    var e := w.entries[o].early;
    UnparkCustody(w, DiscardStep(w, o, r), o, if e.Some? then DropTurn(e.value) else Wake(0));
  }

  lemma DiscardCustody(w: World, o: Owner, r: RequestId)
    requires RegistryOk(w) && Custody(w)
    ensures Custody(DiscardStep(w, o, r))
  {
    match DiscardReplyOf(w, o, r)
    case Discarded => DiscardBoundCustody(w, o, r);
    case DiscardParked => DiscardParkedCustody(w, o, r);
    case _ =>
  }

  lemma RemoveCustody(w: World, owners: set<Owner>)
    requires RegistryOk(w) && Custody(w)
    ensures Custody(RemoveEntries(w, owners))
  {
    var w' := RemoveEntries(w, owners);
    forall g: Guard, p, q | At(w', g, p) && At(w', g, q) ensures p == q && g < w'.guards {
      OriginHolds(w, owners, g, p);
      OriginHolds(w, owners, g, q);
    }
    forall g: Guard | g < w'.guards ensures Located(w', g) {
      assert Located(w, g);
      var p :| At(w, g, p);
      assert At(w', g, if p.InEntry? && p.owner in owners then InTask(DropEntry(w.entries[p.owner])) else p);
    }
  }

  /** Where a guard was before some entries were removed. */
  function Origin(w: World, q: Place): Place {
    if q.InTask? && q.duty.DropEntry? && q.duty !in w.duties && q.duty.entry.allocation < |w.registrations| then
      InEntry(w.registrations[q.duty.entry.allocation].owner)
    else q
  }

  lemma OriginHolds(w: World, owners: set<Owner>, g: Guard, q: Place)
    requires RegistryOk(w) && AtMostOnePlace(w) && At(RemoveEntries(w, owners), g, q)
    ensures At(w, g, Origin(w, q))
    ensures Origin(w, q) != q ==>
              && Origin(w, q).InEntry? && Origin(w, q).owner in owners
              && Origin(w, q).owner in w.entries
              && q == InTask(DropEntry(w.entries[Origin(w, q).owner]))
    ensures q.InEntry? ==> q.owner !in owners
  {
    if q.InTask? && q.duty !in w.duties {
      var o :| o in owners && o in w.entries && q.duty == DropEntry(w.entries[o]);
      assert EntryOk(w, o, w.entries[o]);
    }
  }

  lemma BindParkedCustody(w: World, i: Allocation, r: RequestId)
    requires RegistryOk(w) && Custody(w) && Enabled(w, Bind(i, r))
    requires !BindReplyOf(w, i, r).Refused() && !BindReplyOf(w, i, r).BindDiscarded?
    ensures Custody(BindStep(w, i, r))
  {
    var o := w.registrations[i].owner;
    var e := w.entries[o];
    UnparkCustody(w, BindStep(w, i, r), o,
                  if e.early.None? then Wake(0)
                  else if BindReplyOf(w, i, r).BindMatched? then Send(i, e.early.value) else DropTurn(e.early.value));
  }

  lemma BindCustody(w: World, i: Allocation, r: RequestId)
    requires RegistryOk(w) && Custody(w) && Enabled(w, Bind(i, r))
    ensures Custody(BindStep(w, i, r))
  {
    var reply := BindReplyOf(w, i, r);
    if reply.BindDiscarded? {
      assert EntryOk(w, w.registrations[i].owner, w.entries[w.registrations[i].owner]);
      SameCustody(w, BindStep(w, i, r));
    } else if !reply.Refused() {
      BindParkedCustody(w, i, r);
    }
  }

  lemma ReceiveCustody(w: World, i: Allocation)
    requires Custody(w) && Enabled(w, Receive(i))
    ensures Custody(Step(w, Receive(i)))
  {
    assert At(w, w.channels[i].turn.guard, InChannel(i));
    MovedCustody(w, Step(w, Receive(i)), InChannel(i), InTask(DropTurn(w.channels[i].turn)));
  }

  lemma DropCustody(w: World, i: Allocation)
    requires RegistryOk(w) && Custody(w) && Enabled(w, DropRegistration(i))
    ensures Custody(DropRegistrationStep(w, i))
  {
    var o := w.registrations[i].owner;
    if Registered(w, i) {
      RemoveCustody(w, {o});
      SameCustody(RemoveEntries(w, {o}), DropRegistrationStep(w, i));
    } else {
      SameCustody(w, DropRegistrationStep(w, i));
    }
  }

  lemma PerformSendCustody(w: World, i: Allocation, t: Turn)
    requires RegistryOk(w) && Custody(w) && Enabled(w, Perform(Send(i, t)))
    ensures Custody(PerformStep(w, Send(i, t)))
  {
    var d := Send(i, t);
    assert DutyOk(w, d) && At(w, t.guard, InTask(d));
    hide RegistryOk;
    if w.channels[i].Gone? {
      MovedCustody(w, PerformStep(w, d), InTask(d), InTask(DropTurn(t)));
    } else {
      MovedCustody(w, PerformStep(w, d), InTask(d), InChannel(i));
    }
  }

  lemma PerformDropEntryCustody(w: World, e: Entry)
    requires RegistryOk(w) && Custody(w) && Enabled(w, Perform(DropEntry(e)))
    ensures Custody(PerformStep(w, DropEntry(e)))
  {
    var d := DropEntry(e);
    assert DutyOk(w, d);
    if e.early.Some? {
      assert At(w, e.early.value.guard, InTask(d));
      MovedCustody(w, PerformStep(w, d), InTask(d), InTask(DropTurn(e.early.value)));
    } else {
      SameCustody(w, PerformStep(w, d));
    }
  }

  lemma PerformDropReceiverCustody(w: World, i: Allocation)
    requires RegistryOk(w) && Custody(w) && Enabled(w, Perform(DropReceiver(i)))
    ensures Custody(PerformStep(w, DropReceiver(i)))
  {
    var d := DropReceiver(i);
    if w.channels[i].Full? {
      var t := w.channels[i].turn;
      assert At(w, t.guard, InChannel(i));
      MovedCustody(w, PerformStep(w, d), InChannel(i), InTask(DropTurn(t)));
    } else {
      SameCustody(w, PerformStep(w, d));
    }
  }

  lemma PerformCustody(w: World, d: Duty)
    requires RegistryOk(w) && Custody(w) && Enabled(w, Perform(d))
    ensures Custody(PerformStep(w, d))
  {
    match d
    case Send(i, t) => PerformSendCustody(w, i, t);
    case DropEntry(e) => PerformDropEntryCustody(w, e);
    case DropTurn(t) =>
      assert At(w, t.guard, InTask(d));
      MovedCustody(w, PerformStep(w, d), InTask(d), Freed(|w.released|));
    case Wake(g) => SameCustody(w, PerformStep(w, d));
    case DropReceiver(i) => PerformDropReceiverCustody(w, i);
  }

  // ---- Wakes ---------------------------------------------------------------------------------

  /** No release and no wake happens, and the pump is left alone. */
  lemma QuietWakes(w: World, w': World)
    requires WakesOk(w)
    requires w'.(closed := w.closed, entries := w.entries, registrations := w.registrations,
                 channels := w.channels, duties := w.duties, guards := w.guards, received := w.received) == w
    requires forall g :: Wake(g) in w.duties ==> Wake(g) in w'.duties
    ensures WakesOk(w')
  {
    if WakeOwed(w) {
      var g :| Wake(g) in w.duties;
      assert Wake(g) in w'.duties;
    }
  }

  lemma PerformWakes(w: World, d: Duty)
    requires WakesOk(w) && Enabled(w, Perform(d)) && DutyOk(w, d)
    ensures WakesOk(PerformStep(w, d))
  {
    var w' := PerformStep(w, d);
    if d.DropTurn? {
      assert Wake(d.turn.guard) in w'.duties;
    } else if !d.Wake? {
      QuietWakes(w, w');
    }
  }

  lemma PumpWakes(w: World, a: Action)
    requires WakesOk(w) && Enabled(w, a)
    requires a.Scan? || a.Found? || a.Park? || a.OtherEvent? || a.OtherNotify?
    ensures WakesOk(Step(w, a))
  {
    var w' := Step(w, a);
    assert w'.duties == w.duties;
    assert WakeOwed(w) ==> WakeOwed(w');
  }

  // ---- Every step ----------------------------------------------------------------------------

  lemma StepKeepsRegistry(w: World, a: Action)
    requires Inv(w) && Enabled(w, a)
    ensures RegistryOk(Step(w, a))
  {
    match a
    case Register(o) => RegisterKeeps(w, o);
    case Handoff(o, r) => HandoffKeeps(w, o, r);
    case Discard(o, r) => DiscardKeeps(w, o, r);
    case DiscardSession(e, s, n) => RemoveKeeps(w, Incarnation(w, e, s, n));
    case Close =>
      RemoveKeeps(w, w.entries.Keys);
      CloseKeeps(RemoveEntries(w, w.entries.Keys));
    case Bind(i, r) => BindKeeps(w, i, r);
    case Receive(i) => ReceiveKeeps(w, i);
    case DropRegistration(i) => DropKeeps(w, i);
    case Perform(d) => PerformKeeps(w, d);
    case _ => PumpKeeps(w, Step(w, a));
  }

  lemma CloseKeeps(w: World)
    requires RegistryOk(w) && w.entries == map[]
    ensures RegistryOk(w.(closed := true))
  {
  }

  lemma PumpKeeps(w: World, w': World)
    requires RegistryOk(w) && w'.(pump := w.pump, permit := w.permit, scanned := w.scanned) == w
    ensures RegistryOk(w')
  {
  }

  lemma PerformKeeps(w: World, d: Duty)
    requires Inv(w) && Enabled(w, Perform(d))
    ensures RegistryOk(PerformStep(w, d))
  {
    match d
    case Send(i, t) => PerformSendKeeps(w, i, t);
    case DropEntry(e) => PerformDropEntryKeeps(w, e);
    case DropTurn(t) =>
      FreedOnce(w, t);
      PerformDropTurnKeeps(w, t);
    case Wake(g) => PerformWakeKeeps(w, g);
    case DropReceiver(i) => PerformDropReceiverKeeps(w, i);
  }

  /** A turn that some task still owns has not been released. */
  lemma FreedOnce(w: World, t: Turn)
    requires AtMostOnePlace(w) && WakesOk(w) && DropTurn(t) in w.duties
    ensures t.guard !in w.released && t.guard !in w.woken
  {
    assert At(w, t.guard, InTask(DropTurn(t)));
    forall k: nat | k < |w.released| ensures w.released[k] != t.guard {
      assert At(w, w.released[k], Freed(k));
    }
  }

  lemma StepKeepsCustody(w: World, a: Action)
    requires RegistryOk(w) && Custody(w) && Enabled(w, a)
    ensures Custody(Step(w, a))
  {
    match a
    case Register(o) => SameCustody(w, Step(w, a));
    case Handoff(o, r) => HandoffCustody(w, o, r);
    case Discard(o, r) => DiscardCustody(w, o, r);
    case DiscardSession(e, s, n) => RemoveCustody(w, Incarnation(w, e, s, n));
    case Close =>
      RemoveCustody(w, w.entries.Keys);
      SameCustody(RemoveEntries(w, w.entries.Keys), Step(w, a));
    case Bind(i, r) => BindCustody(w, i, r);
    case Receive(i) => ReceiveCustody(w, i);
    case DropRegistration(i) => DropCustody(w, i);
    case Perform(d) => PerformCustody(w, d);
    case _ => SameCustody(w, Step(w, a));
  }

  lemma EntryStepWakes(w: World, a: Action)
    requires WakesOk(w) && Enabled(w, a) && (a.Register? || a.Handoff? || a.Discard? || a.Bind?)
    ensures WakesOk(Step(w, a))
  {
    QuietWakes(w, Step(w, a));
  }

  lemma RemovalWakes(w: World, a: Action)
    requires WakesOk(w) && Enabled(w, a) && (a.DiscardSession? || a.Close? || a.Receive? || a.DropRegistration?)
    ensures WakesOk(Step(w, a))
  {
    QuietWakes(w, Step(w, a));
  }

  lemma StepKeepsWakes(w: World, a: Action)
    requires RegistryOk(w) && WakesOk(w) && Enabled(w, a)
    ensures WakesOk(Step(w, a))
  {
    if a.Perform? {
      assert DutyOk(w, a.duty);
      PerformWakes(w, a.duty);
    } else if a.Register? || a.Handoff? || a.Discard? || a.Bind? {
      EntryStepWakes(w, a);
    } else if a.DiscardSession? || a.Close? || a.Receive? || a.DropRegistration? {
      RemovalWakes(w, a);
    } else {
      PumpWakes(w, a);
    }
  }

  /** Every atomic step of the handoff, in whatever state it finds the registry, keeps the invariant. */
  lemma StepKeepsInv(w: World, a: Action)
    requires Inv(w) && Enabled(w, a)
    ensures Inv(Step(w, a))
  {
    StepKeepsRegistry(w, a);
    StepKeepsCustody(w, a);
    StepKeepsWakes(w, a);
  }
}
