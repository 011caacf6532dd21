/** The registry as an object whose methods update it in place, one call at a time. */
module HandoffRegistry {
  import opened Prelude
  import opened CompletionHandoff
  import opened HandoffInvariant
  import opened HandoffCalls
  import opened HandoffRuns

  datatype RegisterResult = Reserved(allocation: Allocation) | RefusedClosed | DuplicateOwner

  datatype HandoffResult =
    | HandoffError(reply: HandoffReply)
    | HandoffOk(reply: HandoffReply)
    | Delivered
    | ReceiverGone

  datatype BindResult = BindError(reply: BindReply) | BindOk(reply: BindReply) | BindDelivered | BindReceiverGone

  datatype WaitResult = Completed(turn: Turn) | Waiting | CompletionUnavailable | WaitUnbound

  /** What `handoff` answers: the disposition or error of the state it met. */
  predicate HandoffAnswer(w: World, owner: Owner, requestId: RequestId, result: HandoffResult)
    requires InRange(w, owner)
  {
    match HandoffReplyOf(w, owner, requestId)
    case Matched => result == if w.channels[w.entries[owner].allocation].Gone? then ReceiverGone else Delivered
    case HandoffClosed => result == HandoffError(HandoffClosed)
    case EarlyCompletionAlreadyParked => result == HandoffError(EarlyCompletionAlreadyParked)
    case reply => result == HandoffOk(reply)
  }

  /** What `bind` answers. */
  predicate BindAnswer(w: World, i: Allocation, r: RequestId, result: BindResult)
    requires i < |w.registrations|
  {
    var reply := BindReplyOf(w, i, r);
    if reply.Refused() then result == BindError(reply)
    else if reply.BindMatched? then result == BindDelivered
    else result == BindOk(reply)
  }

  class CompletionRegistry {
    var closed: bool
    var entries: map<Owner, Entry>
    var registrations: seq<Registration>
    var channels: seq<Channel>
    var guards: nat
    var pump: Pump
    var permit: bool
    // What other tasks still owe, and what has happened so far.
    ghost var duties: set<Duty>
    ghost var released: seq<Guard>
    ghost var woken: set<Guard>
    ghost var received: seq<(Allocation, Turn)>
    ghost var scanned: nat

    ghost function View(): World reads this {
      World(closed, entries, registrations, channels, duties, guards, released, woken, received, pump, permit, scanned)
    }

    ghost predicate Valid() reads this {
      Inv(View())
    }

    constructor ()
      ensures Valid() && View() == INIT
    {
      closed, entries, registrations, channels := false, map[], [], [];
      duties, guards, released, woken, received := {}, 0, [], {}, [];
      pump, permit, scanned := Awake, false, 0;
    }

    method Register(owner: Owner) returns (result: RegisterResult)
      requires Valid()
      modifies this
      ensures Valid() && View() == RegisterStep(old(View()), owner) && Reaches(old(View()), View())
      ensures result == if old(closed) then RefusedClosed
                        else if owner in old(entries) then DuplicateOwner
                        else Reserved(old(|registrations|))
      ensures result.Reserved? ==>
                && entries == old(entries)[owner := Entry(old(|registrations|), None, None, None)]
                && registrations == old(registrations) + [Registration(owner, None, true)]
                && channels == old(channels) + [Empty]
      ensures !result.Reserved? ==> View() == old(View())
    {
      OneStep(View(), CompletionHandoff.Register(owner));
      if closed {
        return RefusedClosed;
      }
      if owner in entries {
        return DuplicateOwner;
      }
      result := Reserved(|registrations|);
      entries := entries[owner := Entry(|registrations|, None, None, None)];
      registrations := registrations + [Registration(owner, None, true)];
      channels := channels + [Empty];
    }

    /** Dropping a turn: the guard first, then the wake. */
    method DropTurn(turn: Turn)
      modifies this
      ensures View() == Release(old(View()), turn)
    {
      released := released + [turn.guard];
      woken := woken + {turn.guard};
      if pump.Parked? {
        pump := Awake;
      } else {
        permit := true;
      }
    }

    method SendTurn(allocation: Allocation, turn: Turn) returns (sent: bool)
      requires allocation < |channels|
      modifies this
      ensures View() == Deliver(old(View()), allocation, turn)
      ensures sent == !old(channels[allocation]).Gone?
    {
      sent := !channels[allocation].Gone?;
      if sent {
        channels := channels[allocation := Full(turn)];
      } else {
        DropTurn(turn);
      }
    }

    method DropEntry(entry: Entry)
      requires entry.allocation < |channels|
      modifies this
      ensures View() == Abandon(old(View()), entry)
    {
      if !channels[entry.allocation].Gone? {
        channels := channels[entry.allocation := Channel.Closed];
      }
      if entry.early.Some? {
        DropTurn(entry.early.value);
      }
    }

    /** A completion taken from the session's queue arrives with a fresh guard. */
    method Handoff(owner: Owner, requestId: RequestId) returns (result: HandoffResult)
      requires Valid()
      modifies this
      ensures Valid() && InRange(old(View()), owner) && Reaches(old(View()), View())
      ensures View() == HandoffCall(old(View()), owner, requestId)
      ensures result == HandoffError(HandoffClosed) <==> old(closed)
      ensures result == HandoffOk(Unregistered) <==> !old(closed) && owner !in old(entries)
      ensures !old(closed) && owner in old(entries) ==>
                var e := old(entries)[owner];
                && (result == HandoffError(EarlyCompletionAlreadyParked) <==>
                      e.requestId.None? && (e.early.Some? || e.discardedEarly.Some?))
                && (result == HandoffOk(ParkedUntilBound) <==>
                      e.requestId.None? && e.early.None? && e.discardedEarly.None?)
                && (result == HandoffOk(StaleRequestId) <==> e.requestId.Some? && e.requestId != Some(requestId))
                && (result == ReceiverGone <==>
                      e.requestId == Some(requestId) && old(channels)[e.allocation].Gone?)
                && (result == Delivered <==> e.requestId == Some(requestId) && !old(channels)[e.allocation].Gone?)
      ensures
        var turn := Turn(owner, requestId, old(guards));
        && entries == (if result.Delivered? || result.ReceiverGone? then old(entries) - {owner}
                       else if result == HandoffOk(ParkedUntilBound)
                       then old(entries)[owner := old(entries)[owner].(early := Some(turn))]
                       else old(entries))
        && channels == (if result.Delivered? then old(channels)[old(entries)[owner].allocation := Full(turn)]
                        else old(channels))
        && released == old(released) + (if result.Delivered? || result == HandoffOk(ParkedUntilBound) then []
                                        else [old(guards)])
      ensures closed == old(closed) && registrations == old(registrations) && guards == old(guards) + 1
      ensures released != old(released) ==> !pump.Parked? && (old(pump).Parked? || permit)
    {
      hide Inv, Reaches;
      HandoffCallIsSteps(View(), owner, requestId);
      result := HandoffBody(owner, requestId);
    }

    method HandoffBody(owner: Owner, requestId: RequestId) returns (result: HandoffResult)
      requires InRange(View(), owner)
      modifies this
      ensures View() == HandoffCall(old(View()), owner, requestId)
      ensures HandoffAnswer(old(View()), owner, requestId, result)
    {
      var turn := Turn(owner, requestId, guards);
      guards := guards + 1;
      if closed {
        DropTurn(turn);
        return HandoffError(HandoffClosed);
      }
      if owner !in entries {
        DropTurn(turn);
        return HandoffOk(Unregistered);
      }
      var entry := entries[owner];
      if entry.requestId.None? {
        if entry.early.Some? || entry.discardedEarly.Some? {
          DropTurn(turn);
          return HandoffError(EarlyCompletionAlreadyParked);
        }
        entries := entries[owner := entry.(early := Some(turn))];
        return HandoffOk(ParkedUntilBound);
      }
      if entry.requestId.value != requestId {
        DropTurn(turn);
        return HandoffOk(StaleRequestId);
      }
      var sent := SendToEntry(owner, turn);
      return if sent then Delivered else ReceiverGone;
    }

    method SendToEntry(owner: Owner, turn: Turn) returns (sent: bool)
      requires owner in entries && InRange(View(), owner)
      modifies this
      ensures
        var w := old(View());
        View() == Deliver(w.(entries := w.entries - {owner}), w.entries[owner].allocation, turn)
      ensures sent == !old(channels[entries[owner].allocation]).Gone?
    {
      var entry := entries[owner];
      entries := entries - {owner};
      sent := SendTurn(entry.allocation, turn);
    }

    method Discard(owner: Owner, requestId: RequestId) returns (reply: DiscardReply)
      requires Valid()
      modifies this
      ensures Valid() && InRange(old(View()), owner) && Reaches(old(View()), View())
      ensures View() == DiscardCall(old(View()), owner, requestId)
      ensures reply.DiscardUnregistered? <==> owner !in old(entries)
      ensures owner in old(entries) ==>
                var e := old(entries)[owner];
                && (reply.Discarded? <==> e.requestId == Some(requestId))
                && (reply.DiscardStale? <==> e.requestId.Some? && e.requestId != Some(requestId))
                && (reply.DiscardParked? <==>
                      && e.requestId.None? && (e.discardedEarly.None? || e.discardedEarly == Some(requestId))
                      && (e.early.Some? ==> e.early.value.requestId == requestId))
      ensures reply.Discarded? ==>
                var e := old(entries)[owner];
                && entries == old(entries) - {owner}
                && channels == old(channels)[e.allocation := Channel.Closed] && released == old(released)
      ensures reply.DiscardParked? ==>
                var e := old(entries)[owner];
                && entries == old(entries)[owner := Entry(e.allocation, None, None, Some(requestId))]
                && channels == old(channels)
                && released == old(released) + (if e.early.Some? then [e.early.value.guard] else [])
      ensures !reply.Discarded? && !reply.DiscardParked? ==> View() == old(View())
      ensures closed == old(closed) && registrations == old(registrations) && guards == old(guards)
    {
      hide Inv, Reaches;
      DiscardCallIsSteps(View(), owner, requestId);
      EntryIfPresent(View(), owner);
      reply := DiscardBody(owner, requestId);
    }

    method DiscardBody(owner: Owner, requestId: RequestId) returns (reply: DiscardReply)
      requires InRange(View(), owner)
      modifies this
      ensures View() == DiscardCall(old(View()), owner, requestId)
      ensures reply == DiscardReplyOf(old(View()), owner, requestId)
    {
      if owner !in entries {
        return DiscardUnregistered;
      }
      var entry := entries[owner];
      if entry.requestId.Some? {
        if entry.requestId.value != requestId {
          return DiscardStale;
        }
        entries := entries - {owner};
        DropEntry(entry);
        return Discarded;
      }
      if (entry.discardedEarly.Some? && entry.discardedEarly.value != requestId)
         || (entry.early.Some? && entry.early.value.requestId != requestId) {
        return DiscardConflict;
      }
      entries := entries[owner := entry.(discardedEarly := Some(requestId), early := None)];
      if entry.early.Some? {
        DropTurn(entry.early.value);
      }
      return DiscardParked;
    }

    method Bind(allocation: Allocation, requestId: RequestId) returns (result: BindResult)
      requires Valid() && allocation < |registrations| && registrations[allocation].alive
      modifies this
      ensures Valid() && |old(registrations)| == |old(channels)| && Reaches(old(View()), View())
      ensures View() == BindCall(old(View()), allocation, requestId)
      ensures result == BindError(AlreadyBound) <==> old(registrations)[allocation].bound.Some?
      ensures old(registrations)[allocation].bound.None? ==> (result == BindError(BindClosed) <==> old(closed))
      ensures old(registrations)[allocation].bound.None? && !old(closed) ==>
                var o := old(registrations)[allocation].owner;
                && (result == BindError(Withdrawn) <==>
                      o !in old(entries) || old(entries)[o].allocation != allocation)
                && (result != BindError(Withdrawn) ==>
                      var e := old(entries)[o];
                      && (result == BindOk(BindDiscarded) <==> e.discardedEarly == Some(requestId))
                      && (result.BindDelivered? <==> e.early.Some? && e.early.value.requestId == requestId)
                      && (!result.BindDelivered? && e.discardedEarly != Some(requestId) ==>
                            result == BindOk(AwaitingCompletion(
                              if e.early.Some? then Some(e.early.value.requestId) else e.discardedEarly))))
      ensures result.BindError? ==> View() == old(View())
      ensures !result.BindError? ==>
                var o := old(registrations)[allocation].owner;
                var e := old(entries)[o];
                && registrations
                   == old(registrations)[allocation := old(registrations)[allocation].(bound := Some(requestId))]
                && entries == (if result.BindDelivered? || result == BindOk(BindDiscarded) then old(entries) - {o}
                               else old(entries)[o := Entry(allocation, Some(requestId), None, None)])
                && channels == (if result.BindDelivered? then old(channels)[allocation := Full(e.early.value)]
                                else if result == BindOk(BindDiscarded)
                                then old(channels)[allocation := Channel.Closed]
                                else old(channels))
                && released == old(released) + (if e.early.Some? && !result.BindDelivered?
                                                then [e.early.value.guard] else [])
      ensures closed == old(closed) && guards == old(guards)
    {
      hide Inv, Reaches;
      BindCallIsSteps(View(), allocation, requestId);
      var owner := registrations[allocation].owner;
      EntryIfPresent(View(), owner);
      assert BindReplyOf(View(), allocation, requestId).BindMatched? ==> !channels[allocation].Gone?;
      result := BindBody(allocation, requestId);
    }

    method BindBody(allocation: Allocation, requestId: RequestId) returns (result: BindResult)
      requires allocation < |registrations| == |channels| && registrations[allocation].alive
      requires BindReplyOf(View(), allocation, requestId).BindMatched? ==> !channels[allocation].Gone?
      requires registrations[allocation].owner in entries ==> EntryShape(entries[registrations[allocation].owner])
      modifies this
      ensures View() == BindCall(old(View()), allocation, requestId)
      ensures BindAnswer(old(View()), allocation, requestId, result)
    {
      if registrations[allocation].bound.Some? {
        return BindError(AlreadyBound);
      }
      if closed {
        return BindError(BindClosed);
      }
      var owner := registrations[allocation].owner;
      if owner !in entries || entries[owner].allocation != allocation {
        return BindError(Withdrawn);
      }
      var entry := entries[owner];
      var bound := entry.(requestId := Some(requestId), early := None, discardedEarly := None);
      registrations := registrations[allocation := registrations[allocation].(bound := Some(requestId))];
      var early := entry.early;
      var discarded := entry.discardedEarly == Some(requestId);
      var matched := discarded || (early.Some? && early.value.requestId == requestId);
      entries := if matched then entries - {owner} else entries[owner := bound];
      if discarded {
        // Nothing is parked beside a tombstone.
        assert early.None?;
        DropEntry(bound);
        return BindOk(BindDiscarded);
      }
      if matched && early.Some? {
        var sent := SendTurn(allocation, early.value);
        return if sent then BindDelivered else BindReceiverGone;
      } else if !matched {
        if early.Some? {
          DropTurn(early.value);
        }
        return BindOk(AwaitingCompletion(
          if early.Some? then Some(early.value.requestId) else entry.discardedEarly));
      } else {
        assert false;
      }
    }

    /** One poll of a waiting registration; `Waiting` leaves it registered. */
    method Wait(allocation: Allocation) returns (result: WaitResult)
      requires Valid() && allocation < |registrations| && registrations[allocation].alive
      modifies this
      ensures Valid() && allocation < |old(channels)| && Reaches(old(View()), View())
      ensures result.Completed? <==>
                old(registrations)[allocation].bound.Some? && old(channels)[allocation].Full?
      ensures result.Completed? ==>
                && Enabled(old(View()), Receive(allocation))
                && result.turn == old(channels)[allocation].turn
                && View() == Step(old(View()), Receive(allocation))
                && result.turn.owner == registrations[allocation].owner
                && Some(result.turn.requestId) == registrations[allocation].bound
      ensures !result.Completed? ==> View() == old(View())
      ensures result.WaitUnbound? <==> old(registrations)[allocation].bound.None?
      ensures result.Waiting? <==> old(registrations)[allocation].bound.Some? && old(channels)[allocation].Empty?
    {
      StaysReaches(View());
      BufferedFits(View(), allocation);
      hide Inv, Reaches;
      if registrations[allocation].bound.None? {
        return WaitUnbound;
      }
      match channels[allocation] {
        case Full(turn) =>
          OneStep(View(), Receive(allocation));
          channels := channels[allocation := Taken];
          received := received + [(allocation, turn)];
          duties := duties + {Duty.DropTurn(turn)};
          return Completed(turn);
        case Empty => return Waiting;
        case _ => return CompletionUnavailable;
      }
    }

    method DropRegistration(allocation: Allocation)
      requires Valid() && allocation < |registrations| && registrations[allocation].alive
      modifies this
      ensures Valid() && |old(registrations)| == |old(channels)| && Reaches(old(View()), View())
      ensures View() == DropRegistrationCall(old(View()), allocation)
      ensures
        var o := old(registrations)[allocation].owner;
        var own := o in old(entries) && old(entries)[o].allocation == allocation;
        var parked := if own then old(entries)[o].early else None;
        && entries == (if own then old(entries) - {o} else old(entries))
        && channels == old(channels)[allocation := Gone]
        && released == old(released) + (if parked.Some? then [parked.value.guard] else [])
                       + (if old(channels)[allocation].Full? then [old(channels)[allocation].turn.guard] else [])
      ensures registrations
              == old(registrations)[allocation := old(registrations)[allocation].(alive := false)]
      ensures closed == old(closed) && guards == old(guards)
    {
      hide Inv, Reaches;
      DropRegistrationCallIsSteps(View(), allocation);
      EntryIfPresent(View(), registrations[allocation].owner);
      DropRegistrationBody(allocation);
    }

    method DropReceiver(allocation: Allocation)
      requires allocation < |channels|
      modifies this
      ensures View() == DropReceiverCall(old(View()), allocation)
    {
      var buffered := channels[allocation];
      channels := channels[allocation := Gone];
      if buffered.Full? {
        DropTurn(buffered.turn);
      }
    }

    method DropRegistrationBody(allocation: Allocation)
      requires allocation < |registrations| == |channels|
      modifies this
      ensures View() == DropRegistrationCall(old(View()), allocation)
    {
      registrations := registrations[allocation := registrations[allocation].(alive := false)];
      var owner := registrations[allocation].owner;
      if owner in entries && entries[owner].allocation == allocation {
        var entry := entries[owner];
        entries := entries - {owner};
        DropEntry(entry);
      }
      DropReceiver(allocation);
    }

    method DropEntries(removed: seq<Entry>)
      requires forall e :: e in removed ==> e.allocation < |channels|
      modifies this
      ensures View() == AbandonAll(old(View()), removed)
    {
      ghost var start := View();
      var k := 0;
      assert removed[0..] == removed;
      while k < |removed|
        invariant 0 <= k <= |removed| && |channels| == |start.channels|
        invariant AbandonAll(View(), removed[k..]) == AbandonAll(start, removed)
      {
        assert removed[k..][0] == removed[k] && removed[k..][1..] == removed[k + 1..];
        DropEntry(removed[k]);
        k := k + 1;
      }
      assert removed[k..] == [];
    }

    /** Take out the entries of the given owners and drop them, in some order. */
    method RemoveAll(owners: set<Owner>) returns (count: nat, ghost order: seq<Owner>)
      requires Valid() && owners <= entries.Keys
      modifies this
      ensures Valid() && count == |order|
      ensures forall o :: o in order <==> o in owners
      ensures Removed(old(View()), order) && View() == RemovedCall(old(View()), order)
      ensures Reaches(RemoveEntries(old(View()), owners), View())
    {
      var owned := Listed(owners);
      var removed := EntriesOf(entries, owned);
      RemovedIsSteps(View(), owned);
      assert owners == (set o | o in owned);
      entries := entries - owners;
      DropEntries(removed);
      count, order := |removed|, owned;
    }

    method DiscardSession(epoch: string, sessionId: string, incarnation: nat)
      returns (count: nat, ghost order: seq<Owner>)
      requires Valid()
      modifies this
      ensures Valid() && Removed(old(View()), order) && View() == RemovedCall(old(View()), order)
      ensures forall o :: o in order <==>
                o in old(entries) && o.epoch == epoch && o.sessionId == Some(sessionId)
                && o.incarnation == Some(incarnation)
      ensures count == |order| && Reaches(old(View()), View())
      ensures entries == map o | o in old(entries) && !(o.epoch == epoch && o.sessionId == Some(sessionId)
                                                        && o.incarnation == Some(incarnation)) :: old(entries)[o]
      ensures Dropped(old(View()), (set o | o in order), View()) && closed == old(closed)
    {
      hide Inv, Reaches, Removed, RemovedCall, Dropped;
      OneStep(View(), CompletionHandoff.DiscardSession(epoch, sessionId, incarnation));
      var owners := set o | o in entries && o.epoch == epoch && o.sessionId == Some(sessionId)
                            && o.incarnation == Some(incarnation);
      assert owners == Incarnation(View(), epoch, sessionId, incarnation);
      ghost var before := View();
      count, order := RemoveAll(owners);
      RemovedMeans(before, order);
      ReachesOn(before, RemoveEntries(before, owners), View());
    }

    method Close() returns (ghost order: seq<Owner>)
      requires Valid()
      modifies this
      ensures Valid() && closed && entries == map[]
      ensures forall o :: o in order <==> o in old(entries)
      ensures Removed(old(View()), order) && View() == RemovedCall(old(View()), order).(closed := true)
      ensures Reaches(old(View()), View())
      ensures Dropped(old(View()), old(entries).Keys, View())
    {
      hide Inv, Reaches, Removed, RemovedCall;
      var count;
      count, order := RemoveAll(entries.Keys);
      RemovedMeans(old(View()), order);
      assert old(entries).Keys == (set o | o in order);
      CloseCallIsSteps(old(View()), order);
      closed := true;
    }
  }

  /** The members of a set, each once. */
  method Listed<T(==)>(s: set<T>) returns (order: seq<T>)
    ensures forall o :: o in order <==> o in s
    ensures forall k, l :: 0 <= k < l < |order| ==> order[k] != order[l]
  {
    order := [];
    var pending := s;
    while pending != {}
      invariant pending <= s
      invariant forall o :: o in order <==> o in s && o !in pending
      invariant forall k, l :: 0 <= k < l < |order| ==> order[k] != order[l]
      decreases |pending|
    {
      var o :| o in pending;
      order, pending := order + [o], pending - {o};
    }
  }

  function EntriesOf(entries: map<Owner, Entry>, order: seq<Owner>): seq<Entry>
    requires forall o :: o in order ==> o in entries
  {
    seq(|order|, k requires 0 <= k < |order| => entries[order[k]])
  }

  /** The owners are registered, each listed once, with channels of their own. */
  ghost predicate Removed(w: World, order: seq<Owner>) {
    && (forall o :: o in order ==> o in w.entries)
    && (forall k, l :: 0 <= k < l < |order| ==> order[k] != order[l])
    && forall e :: e in EntriesOf(w.entries, order) ==> e.allocation < |w.channels|
  }

  /** The effect of taking out these entries under the mutex and then dropping them in this order. */
  ghost function RemovedCall(w: World, order: seq<Owner>): World
    requires Removed(w, order)
  {
    AbandonAll(w.(entries := w.entries - (set o | o in order)), EntriesOf(w.entries, order))
  }

  /** The entries of these owners were dropped: their receivers find the channel closed, the guards of the
      turns they had parked are released, and nothing else is. */
  ghost predicate Dropped(w: World, owners: set<Owner>, v: World)
    requires owners <= w.entries.Keys
  {
    && |v.channels| == |w.channels| && v.registrations == w.registrations && v.guards == w.guards
    && (forall i | 0 <= i < |w.channels| ::
          v.channels[i] == if !w.channels[i].Gone? && exists o :: o in owners && w.entries[o].allocation == i
                           then Channel.Closed else w.channels[i])
    && w.released <= v.released
    && (forall g: Guard :: g in v.released <==>
          g in w.released
          || exists o :: o in owners && w.entries[o].early.Some? && w.entries[o].early.value.guard == g)
  }

  lemma AbandonChannels(w: World, e: Entry)
    requires e.allocation < |w.channels|
    ensures
      var v := Abandon(w, e);
      && |v.channels| == |w.channels| && v.registrations == w.registrations && v.guards == w.guards
      && v.entries == w.entries && v.closed == w.closed
      && (forall i | 0 <= i < |w.channels| ::
            v.channels[i] == if i == e.allocation && !w.channels[i].Gone? then Channel.Closed else w.channels[i])
      && v.released == w.released + (if e.early.Some? then [e.early.value.guard] else [])
  {
    hide ReleaseEarly;
    var v := if w.channels[e.allocation].Gone? then w else w.(channels := w.channels[e.allocation := Channel.Closed]);
    ReleaseEarlyMeans(v, e.early);
  }

  lemma ReleaseEarlyMeans(w: World, t: Option<Turn>)
    ensures
      var v := ReleaseEarly(w, t);
      && v.channels == w.channels && v.registrations == w.registrations && v.guards == w.guards
      && v.entries == w.entries && v.closed == w.closed
      && v.released == w.released + (if t.Some? then [t.value.guard] else [])
  {
  }

  lemma {:induction false} AbandonedMeans(w: World, es: seq<Entry>)
    requires forall e :: e in es ==> e.allocation < |w.channels|
    ensures
      var v := AbandonAll(w, es);
      && |v.channels| == |w.channels| && v.registrations == w.registrations && v.guards == w.guards
      && v.entries == w.entries && v.closed == w.closed
      && (forall i | 0 <= i < |w.channels| ::
            v.channels[i] == if !w.channels[i].Gone? && exists e :: e in es && e.allocation == i
                             then Channel.Closed else w.channels[i])
      && w.released <= v.released
      && (forall g: Guard :: g in v.released <==>
            g in w.released || exists e :: e in es && e.early.Some? && e.early.value.guard == g)
    decreases |es|
  {
    if es != [] {
      hide Abandon;
      AbandonChannels(w, es[0]);
      AbandonedMeans(Abandon(w, es[0]), es[1..]);
      assert es == [es[0]] + es[1..];
    }
  }

  lemma RemovedMeans(w: World, order: seq<Owner>)
    requires Removed(w, order)
    ensures Dropped(w, (set o | o in order), RemovedCall(w, order))
    ensures RemovedCall(w, order).entries == w.entries - (set o | o in order)
    ensures RemovedCall(w, order).closed == w.closed
  {
    hide AbandonAll, Abandon;
    var es := EntriesOf(w.entries, order);
    AbandonedMeans(w.(entries := w.entries - (set o | o in order)), es);
    forall o | o in order ensures w.entries[o] in es {
      var k :| 0 <= k < |order| && order[k] == o;
      assert es[k] == w.entries[o];
    }
    forall e | e in es ensures exists o :: o in order && w.entries[o] == e {
      var k :| 0 <= k < |es| && es[k] == e;
      assert order[k] in order;
    }
  }

  lemma EntryIfPresent(w: World, o: Owner)
    requires Inv(w)
    ensures o in w.entries ==> EntryOk(w, o, w.entries[o])
  {
  }

  lemma BufferedFits(w: World, i: Allocation)
    requires Inv(w) && i < |w.registrations|
    ensures i < |w.channels| && (w.channels[i].Full? ==> Fits(w, i, w.channels[i].turn))
  {
  }

  lemma RemovedEntry(w: World, order: seq<Owner>, k: nat)
    requires RegistryOk(w) && (forall o :: o in order ==> o in w.entries) && k < |order|
    ensures
      var e := EntriesOf(w.entries, order)[k];
      && e == w.entries[order[k]] && EntryOk(w, order[k], e)
      && e.allocation < |w.channels| && CompletionHandoff.DropEntry(e) !in w.duties
  {
    EntryOwnedOnce(w, order[k], w.entries[order[k]]);
  }

  lemma RemovedDistinct(w: World, order: seq<Owner>, k: nat, l: nat)
    requires RegistryOk(w) && (forall o :: o in order ==> o in w.entries) && k < l < |order| && order[k] != order[l]
    ensures EntriesOf(w.entries, order)[k] != EntriesOf(w.entries, order)[l]
  {
    RemovedEntry(w, order, k);
    RemovedEntry(w, order, l);
  }

  lemma RemovedDropDuties(w: World, order: seq<Owner>)
    requires forall o :: o in order ==> o in w.entries
    ensures RemoveEntries(w, set o | o in order).duties == w.duties + DropDuties(EntriesOf(w.entries, order))
  {
    var es := EntriesOf(w.entries, order);
    assert forall o :: o in order ==> exists k :: 0 <= k < |order| && order[k] == o && es[k] == w.entries[o];
  }

  lemma RemovedDuties(w: World, order: seq<Owner>)
    requires RegistryOk(w) && forall o :: o in order ==> o in w.entries
    requires forall k, l :: 0 <= k < l < |order| ==> order[k] != order[l]
    ensures Removed(w, order)
    ensures forall e :: e in EntriesOf(w.entries, order) ==> CompletionHandoff.DropEntry(e) !in w.duties
    ensures RemoveEntries(w, set o | o in order).duties == w.duties + DropDuties(EntriesOf(w.entries, order))
    ensures forall k, l :: 0 <= k < l < |order| ==> EntriesOf(w.entries, order)[k] != EntriesOf(w.entries, order)[l]
  {
    var es := EntriesOf(w.entries, order);
    RemovedDropDuties(w, order);
    forall k | 0 <= k < |es|
      ensures es[k].allocation < |w.channels| && CompletionHandoff.DropEntry(es[k]) !in w.duties
    {
      RemovedEntry(w, order, k);
    }
    forall k, l | 0 <= k < l < |order| ensures es[k] != es[l] {
      RemovedDistinct(w, order, k, l);
    }
  }

  lemma RemovedIsSteps(w: World, order: seq<Owner>)
    requires Inv(w) && forall o :: o in order ==> o in w.entries
    requires forall k, l :: 0 <= k < l < |order| ==> order[k] != order[l]
    ensures Removed(w, order) && Became(RemoveEntries(w, set o | o in order), RemovedCall(w, order))
  {
    var owners := set o | o in order;
    RemoveKeeps(w, owners);
    RemoveCustody(w, owners);
    QuietWakes(w, RemoveEntries(w, owners));
    RemovedDuties(w, order);
    AbandonAllIsSteps(RemoveEntries(w, owners), EntriesOf(w.entries, order), w.duties);
  }

  lemma {:induction false} ClosedLater(w: World, entries: seq<Entry>)
    requires forall e :: e in entries ==> e.allocation < |w.channels|
    ensures AbandonAll(w.(closed := true), entries) == AbandonAll(w, entries).(closed := true)
    decreases |entries|
  {
    if entries != [] {
      ClosedLater(Abandon(w, entries[0]), entries[1..]);
    }
  }

  /** Closing takes every entry out in one step and then drops them, in some order. */
  lemma CloseCallIsSteps(w: World, order: seq<Owner>)
    requires Inv(w) && Removed(w, order) && forall o :: o in order <==> o in w.entries
    ensures Became(w, RemovedCall(w, order).(closed := true))
  {
    var t := Step(w, CompletionHandoff.Close);
    OneStep(w, CompletionHandoff.Close);
    ClosedIsDroppable(w, order);
    CloseShape(w, order);
    AbandonAllIsSteps(t, EntriesOf(w.entries, order), w.duties);
    BecameOn(w, t, RemovedCall(w, order).(closed := true));
  }

  lemma ClosedIsDroppable(w: World, order: seq<Owner>)
    requires RegistryOk(w) && Removed(w, order) && forall o :: o in order <==> o in w.entries
    ensures Droppable(Step(w, CompletionHandoff.Close), EntriesOf(w.entries, order), w.duties)
  {
    assert (set o | o in order) == w.entries.Keys;
    RemovedDuties(w, order);
  }

  lemma CloseShape(w: World, order: seq<Owner>)
    requires Removed(w, order) && forall o :: o in order <==> o in w.entries
    ensures
      var t := Step(w, CompletionHandoff.Close);
      && |t.channels| == |w.channels|
      && AbandonAll(t.(duties := w.duties), EntriesOf(w.entries, order)) == RemovedCall(w, order).(closed := true)
  {
    var owners := set o | o in order;
    assert owners == w.entries.Keys;
    ClosedLater(w.(entries := w.entries - owners), EntriesOf(w.entries, order));
  }
}
