/** Whether a response overtakes the binding of its request does not matter, and exactly when it does. */
module HandoffOrder {
  import opened Prelude
  import opened CompletionHandoff
  import opened HandoffInvariant
  import opened HandoffCalls
  import opened HandoffRuns

  /** An open registry with a live registration that has not bound its request yet. */
  predicate Unbound(w: World, i: Allocation) {
    && !w.closed && Registered(w, i) && w.registrations[i].bound.None?
    && EntryOk(w, w.registrations[i].owner, w.entries[w.registrations[i].owner])
  }

  /** The registry, the receivers and the released guards agree. */
  ghost predicate SameOutcome(v: World, w: World) {
    && v.entries == w.entries && v.channels == w.channels
    && forall g :: g in v.released <==> g in w.released
  }

  /** The request of a completion or tombstone already parked in the entry. */
  function ParkedId(e: Entry): Option<RequestId> {
    if e.early.Some? then Some(e.early.value.requestId) else e.discardedEarly
  }

  ghost predicate ReadyForBoth(w: World, i: Allocation, o: Owner, bound: RequestId) {
    && i < |w.registrations| == |w.channels| && InRange(w, o)
    && InRange(BindCall(w, i, bound), o)
  }

  lemma BothOrdersDefined(w: World, i: Allocation, bound: RequestId)
    requires Unbound(w, i)
    ensures ReadyForBoth(w, i, w.registrations[i].owner, bound)
  {
  }

  /** One completion and the binding commute, in every component of the state, when nothing was
      parked before: for matching and for non-matching requests. */
  lemma CompletionAndBindCommute(w: World, i: Allocation, r: RequestId, bound: RequestId)
    requires Unbound(w, i) && ParkedId(w.entries[w.registrations[i].owner]).None?
    ensures
      var o := w.registrations[i].owner;
      && ReadyForBoth(w, i, o, bound)
      && BindCall(HandoffCall(w, o, r), i, bound) == HandoffCall(BindCall(w, i, bound), o, r)
  {
    BothOrdersDefined(w, i, bound);
    var o := w.registrations[i].owner;
    var e := w.entries[o];
    var early := HandoffCall(w, o, r);
    var waiting := BindCall(w, i, bound);
    assert HandoffReplyOf(w, o, r).ParkedUntilBound?;
    assert waiting.entries[o] == e.(requestId := Some(bound));
    hide EntryOk;
    if r == bound {
      assert BindReplyOf(early, i, bound).BindMatched?;
      assert early.entries - {o} == w.entries - {o} == waiting.entries - {o};
    } else {
      assert BindReplyOf(early, i, bound).AwaitingCompletion?;
      assert early.entries[o := e.(requestId := Some(bound))] == waiting.entries;
    }
  }

  /** The same for one discard and the binding. */
  lemma DiscardAndBindCommute(w: World, i: Allocation, r: RequestId, bound: RequestId)
    requires Unbound(w, i) && ParkedId(w.entries[w.registrations[i].owner]).None?
    ensures
      var o := w.registrations[i].owner;
      && ReadyForBoth(w, i, o, bound)
      && BindCall(DiscardCall(w, o, r), i, bound) == DiscardCall(BindCall(w, i, bound), o, r)
  {
    BothOrdersDefined(w, i, bound);
    var o := w.registrations[i].owner;
    var e := w.entries[o];
    var early := DiscardCall(w, o, r);
    var waiting := BindCall(w, i, bound);
    assert waiting.entries[o] == e.(requestId := Some(bound));
    if r == bound {
      assert BindReplyOf(early, i, bound).BindDiscarded?;
      assert early.entries - {o} == w.entries - {o} == waiting.entries - {o};
    } else {
      assert BindReplyOf(early, i, bound).AwaitingCompletion?;
      assert early.entries[o := e.(requestId := Some(bound))] == waiting.entries;
    }
  }

  /** What a binding does when something is parked. */
  lemma BindParked(w: World, i: Allocation, bound: RequestId)
    requires Unbound(w, i) && ParkedId(w.entries[w.registrations[i].owner]).Some?
    ensures
      var o := w.registrations[i].owner;
      var e := w.entries[o];
      var w' := BindCall(w, i, bound);
      && !w'.closed
      && w'.released == w.released + (if e.early.Some? && e.early.value.requestId != bound
                                      then [e.early.value.guard] else [])
      && (if ParkedId(e).value == bound
          then w'.entries == w.entries - {o}
               && w'.channels == w.channels[i := if e.early.Some? then Full(e.early.value) else Closed]
          else w'.entries == w.entries[o := Entry(i, Some(bound), None, None)] && w'.channels == w.channels)
  {
  }

  /** With something already parked, a second completion still commutes with the binding unless it
      answers the bound request while the parked one answers another: rejected early, it is lost. */
  lemma CompletionOrderMatters(w: World, i: Allocation, r: RequestId, bound: RequestId)
    requires Unbound(w, i)
    ensures
      var o := w.registrations[i].owner;
      var parked := ParkedId(w.entries[o]);
      && ReadyForBoth(w, i, o, bound)
      && (SameOutcome(BindCall(HandoffCall(w, o, r), i, bound), HandoffCall(BindCall(w, i, bound), o, r))
          <==> !(r == bound && parked.Some? && parked.value != bound))
  {
    BothOrdersDefined(w, i, bound);
    var o := w.registrations[i].owner;
    var parked := ParkedId(w.entries[o]);
    if parked.None? {
      CompletionAndBindCommute(w, i, r, bound);
    } else {
      RejectedThenBound(w, i, r, bound);
      BoundThenCompleted(w, i, r, bound);
    }
  }

  lemma SecondIsRejected(w: World, i: Allocation, r: RequestId)
    requires Unbound(w, i) && ParkedId(w.entries[w.registrations[i].owner]).Some?
    ensures
      var o := w.registrations[i].owner;
      var x := HandoffCall(w, o, r);
      && InRange(w, o) && Unbound(x, i)
      && x.registrations == w.registrations && x.entries == w.entries && x.channels == w.channels
      && x.released == w.released + [w.guards]
  {
  }

  /** A second completion is rejected, then the binding meets what was parked first. */
  lemma RejectedThenBound(w: World, i: Allocation, r: RequestId, bound: RequestId)
    requires Unbound(w, i) && ParkedId(w.entries[w.registrations[i].owner]).Some?
    ensures
      var o := w.registrations[i].owner;
      && ReadyForBoth(w, i, o, bound)
      && var v, x := BindCall(w, i, bound), BindCall(HandoffCall(w, o, r), i, bound);
         && x.entries == v.entries && x.channels == v.channels
         && forall g :: g in x.released <==> g in v.released || g == w.guards
  {
    BothOrdersDefined(w, i, bound);
    SecondIsRejected(w, i, r);
    BindParked(w, i, bound);
    BindParked(HandoffCall(w, w.registrations[i].owner, r), i, bound);
  }

  /** The binding settles what was parked; the completion then meets the bound request, if any. */
  lemma BoundThenCompleted(w: World, i: Allocation, r: RequestId, bound: RequestId)
    requires Unbound(w, i) && ParkedId(w.entries[w.registrations[i].owner]).Some?
    ensures
      var o := w.registrations[i].owner;
      var parked := ParkedId(w.entries[o]).value;
      && ReadyForBoth(w, i, o, bound)
      && var v, x := BindCall(w, i, bound), HandoffCall(BindCall(w, i, bound), o, r);
         if r == bound && parked != bound then o in v.entries && o !in x.entries
         else
           && x.entries == v.entries && x.channels == v.channels
           && forall g :: g in x.released <==> g in v.released || g == w.guards
  {
    BothOrdersDefined(w, i, bound);
    BindParked(w, i, bound);
    var o := w.registrations[i].owner;
    var v := BindCall(w, i, bound);
    assert v.guards == w.guards;
    CompletionAlone(v, o, r);
  }

  lemma CompletionAlone(w: World, o: Owner, r: RequestId)
    requires InRange(w, o) && !HandoffReplyOf(w, o, r).ParkedUntilBound?
    ensures var x := HandoffCall(w, o, r);
            if HandoffReplyOf(w, o, r).Matched? then o !in x.entries
            else x.entries == w.entries && x.channels == w.channels && x.released == w.released + [w.guards]
  {
  }

  /** A second discard commutes with the binding unless it names the bound request while a completion,
      or the tombstone of another request, is parked. */
  lemma DiscardOrderMatters(w: World, i: Allocation, r: RequestId, bound: RequestId)
    requires Unbound(w, i)
    ensures
      var o := w.registrations[i].owner;
      var e := w.entries[o];
      && ReadyForBoth(w, i, o, bound)
      && (SameOutcome(BindCall(DiscardCall(w, o, r), i, bound), DiscardCall(BindCall(w, i, bound), o, r))
          <==> !(r == bound && (e.early.Some? || (e.discardedEarly.Some? && e.discardedEarly.value != bound))))
  {
    BothOrdersDefined(w, i, bound);
    var o := w.registrations[i].owner;
    var e := w.entries[o];
    if ParkedId(e).None? {
      DiscardAndBindCommute(w, i, r, bound);
    } else {
      BindParked(w, i, bound);
      if ParkedId(e).value == r {
        TombstoneOrder(w, i, r, bound);
      } else {
        assert DiscardCall(w, o, r) == w;
        if ParkedId(e).value != bound && r == bound {
          assert o in BindCall(w, i, bound).entries;
          assert o !in DiscardCall(BindCall(w, i, bound), o, r).entries;
        }
      }
    }
  }

  /** A discard of the parked request itself. */
  lemma TombstoneOrder(w: World, i: Allocation, r: RequestId, bound: RequestId)
    requires Unbound(w, i) && ParkedId(w.entries[w.registrations[i].owner]) == Some(r)
    ensures
      var o := w.registrations[i].owner;
      && ReadyForBoth(w, i, o, bound)
      && (SameOutcome(BindCall(DiscardCall(w, o, r), i, bound), DiscardCall(BindCall(w, i, bound), o, r))
          <==> !(r == bound && w.entries[o].early.Some?))
  {
    BothOrdersDefined(w, i, bound);
    BindParked(w, i, bound);
    TombstoneThenBound(w, i, r, bound);
    assert w.channels[i := Closed][i] == Closed;
    assert DiscardCall(BindCall(w, i, bound), w.registrations[i].owner, r) == BindCall(w, i, bound);
  }

  lemma TombstoneThenBound(w: World, i: Allocation, r: RequestId, bound: RequestId)
    requires Unbound(w, i) && ParkedId(w.entries[w.registrations[i].owner]) == Some(r)
    ensures
      var o := w.registrations[i].owner;
      && ReadyForBoth(w, i, o, bound)
      && var x := BindCall(DiscardCall(w, o, r), i, bound);
         && x.released == w.released + (if w.entries[o].early.Some? then [w.entries[o].early.value.guard] else [])
         && (if r == bound then x.entries == w.entries - {o} && x.channels == w.channels[i := Closed]
             else x.entries == w.entries[o := Entry(i, Some(bound), None, None)] && x.channels == w.channels)
  {
    BothOrdersDefined(w, i, bound);
    hide BindCall;
    var o := w.registrations[i].owner;
    var discarded := DiscardCall(w, o, r);
    assert discarded.entries == w.entries[o := Entry(i, None, None, Some(r))];
    assert discarded.entries - {o} == w.entries - {o};
    var waiting := Entry(i, Some(bound), None, None);
    assert discarded.entries[o := waiting] == w.entries[o := waiting];
    BindParked(discarded, i, bound);
  }

  /** A registration whose first completion answers another request than the one it will bind. */
  function FirstParked(o: Owner, first: RequestId): World {
    HandoffStep(RegisterStep(INIT, o), o, first)
  }

  lemma FirstParkedIsReachable(o: Owner, first: RequestId)
    ensures Reachable(FirstParked(o, first)) && Inv(FirstParked(o, first)) && Unbound(FirstParked(o, first), 0)
    ensures
      var w := FirstParked(o, first);
      w.registrations[0].owner == o && w.entries[o].early.Some? && ParkedId(w.entries[o]) == Some(first)
  {
    StepReaches(INIT, Register(o));
    StepReaches(RegisterStep(INIT, o), Handoff(o, first));
    ReachesOn(INIT, RegisterStep(INIT, o), FirstParked(o, first));
    var ws, actions := ReachableEndsRun(FirstParked(o, first));
    assert EntryOk(FirstParked(o, first), o, FirstParked(o, first).entries[o]);
  }

  /** Whatever the owner and the two requests: after a completion of another request the answer to the bound
      one, or its discard, is lost when it comes before the binding and not when it comes after. */
  lemma EarlyAnswerIsLost(o: Owner, first: RequestId, bound: RequestId)
    requires first != bound
    ensures
      var w := FirstParked(o, first);
      && Reachable(w) && Unbound(w, 0) && ReadyForBoth(w, 0, o, bound)
      && !SameOutcome(BindCall(HandoffCall(w, o, bound), 0, bound), HandoffCall(BindCall(w, 0, bound), o, bound))
      && !SameOutcome(BindCall(DiscardCall(w, o, bound), 0, bound), DiscardCall(BindCall(w, 0, bound), o, bound))
  {
    FirstParkedIsReachable(o, first);
    CompletionOrderMatters(FirstParked(o, first), 0, bound, bound);
    DiscardOrderMatters(FirstParked(o, first), 0, bound, bound);
  }
}
