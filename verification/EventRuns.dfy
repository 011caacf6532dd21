/** The event queue over whole runs. */
module EventRuns {
  import opened EventQueue

  ghost predicate IsRun<E>(states: seq<State<E>>, actions: seq<Action<E>>) {
    && |states| == |actions| + 1
    && states[0] == Init()
    && forall i {:trigger actions[i]} :: 0 <= i < |actions| ==>
         Enabled(states[i], actions[i]) && states[i + 1] == Step(states[i], actions[i])
  }

  lemma {:induction false} RunKeepsInv<E>(states: seq<State<E>>, actions: seq<Action<E>>, i: nat)
    requires IsRun(states, actions) && i < |states|
    ensures Inv(states[i])
  {
    if i > 0 {
      RunKeepsInv(states, actions, i - 1);
      StepKeepsInv(states[i - 1], actions[i - 1]);
    }
  }

  /** The counter is the live leases' bytes plus those of additions that have no lease yet; it is zero
      when none is outstanding, and no drop takes it below zero. */
  lemma {:induction false} BytesAreConserved<E>(states: seq<State<E>>, actions: seq<Action<E>>, i: nat)
    requires IsRun(states, actions) && i < |states|
    ensures states[i].counter == LeasedBytes(states[i]) + UnleasedBytes(states[i])
    ensures (forall k | 0 <= k < |states[i].entries| :: states[i].entries[k].phase == Released) ==>
              states[i].counter == 0
    ensures i < |actions| && actions[i].DropLease? ==> states[i].entries[actions[i].send].bytes <= states[i].counter
  {
    RunKeepsInv(states, actions, i);
    BytesSplit(states[i].entries);
    if forall k | 0 <= k < |states[i].entries| :: states[i].entries[k].phase == Released {
      BytesNone(states[i].entries);
    }
    if i < |actions| && actions[i].DropLease? {
      BytesBound(states[i].entries, actions[i].send);
    }
  }

  lemma {:induction false} StepExtends<E>(s: State<E>, a: Action<E>)
    requires Enabled(s, a)
    ensures s.accepted <= Step(s, a).accepted && s.received <= Step(s, a).received
    ensures |s.entries| <= |Step(s, a).entries|
    ensures forall k | 0 <= k < |s.entries| ::
              Step(s, a).entries[k].event == s.entries[k].event && Step(s, a).entries[k].bytes == s.entries[k].bytes
  {
  }

  lemma {:induction false} RunExtends<E>(states: seq<State<E>>, actions: seq<Action<E>>, i: nat, j: nat)
    requires IsRun(states, actions) && i <= j < |states|
    ensures states[i].accepted <= states[j].accepted && states[i].received <= states[j].received
    ensures |states[i].entries| <= |states[j].entries|
    ensures forall k | 0 <= k < |states[i].entries| ::
              && states[j].entries[k].event == states[i].entries[k].event
              && states[j].entries[k].bytes == states[i].entries[k].bytes
    decreases j
  {
    if i < j {
      RunExtends(states, actions, i, j - 1);
      StepExtends(states[j - 1], actions[j - 1]);
    }
  }

  /** Whatever was received is a prefix, without repetition, of every later sequence of successful sends,
      and while the receiver lives the rest of that sequence is still queued. */
  lemma {:induction false} ReceivedInOrder<E>(states: seq<State<E>>, actions: seq<Action<E>>, i: nat, j: nat)
    requires IsRun(states, actions) && i <= j < |states|
    ensures states[i].received <= states[j].accepted && Distinct(states[j].accepted)
    ensures states[j].open ==> states[j].received + states[j].queue == states[j].accepted
  {
    RunExtends(states, actions, i, j);
    RunKeepsInv(states, actions, i);
    RunKeepsInv(states, actions, j);
  }

  /** The channel is open exactly until the receiver is dropped. */
  lemma {:induction false} OpenUntilDropped<E>(states: seq<State<E>>, actions: seq<Action<E>>, i: nat)
    requires IsRun(states, actions) && i < |states|
    ensures states[i].open <==> forall j | 0 <= j < i :: actions[j] != DropReceiver
  {
    if i > 0 {
      OpenUntilDropped(states, actions, i - 1);
      assert actions[i - 1] == DropReceiver || states[i].open == states[i - 1].open;
    }
  }

  /** Until then a send succeeds and is the last to be received, and what is received is the oldest success
      that was not. */
  lemma {:induction false} SendsAreQueued<E>(states: seq<State<E>>, actions: seq<Action<E>>, i: nat)
    requires IsRun(states, actions) && i < |actions|
    ensures actions[i].Enqueue? ==>
              states[i + 1].accepted == states[i].accepted + if states[i].open then [actions[i].send] else []
    ensures actions[i].Receive? ==>
              && |states[i].received| < |states[i].accepted|
              && states[i + 1].received == states[i].received + [states[i].accepted[|states[i].received|]]
    ensures !actions[i].Enqueue? ==> states[i + 1].accepted == states[i].accepted
    ensures !actions[i].Receive? ==> states[i + 1].received == states[i].received
  {
    RunKeepsInv(states, actions, i);
    var s := states[i];
    if actions[i].Receive? {
      assert s.accepted[|s.received|] == (s.received + s.queue)[|s.received|] == s.queue[0];
    }
  }

  lemma {:induction false} ClosedStaysClosed<E>(s: State<E>, a: Action<E>)
    requires Enabled(s, a) && !s.open
    ensures !Step(s, a).open && Step(s, a).accepted == s.accepted && Step(s, a).received == s.received
  {
  }

  lemma {:induction false} NotAccepted<E>(s: State<E>, k: nat)
    requires OrderOk(s) && k < |s.entries| && s.entries[k].phase == Leased
    ensures k !in s.accepted && k !in s.received
  {
    assert forall i | 0 <= i < |s.received| :: s.received[i] == s.accepted[i];
  }

  /** A send that found the receiver gone is never delivered, and no later one succeeds. */
  lemma {:induction false} FailedSendsAreLost<E>(states: seq<State<E>>, actions: seq<Action<E>>, i: nat, j: nat, k: nat)
    requires IsRun(states, actions) && i < j < |states|
    requires actions[i] == Enqueue(k) && !states[i].open
    ensures !states[j].open && k !in states[j].accepted && k !in states[j].received
    decreases j
  {
    if j == i + 1 {
      RunKeepsInv(states, actions, i);
      NotAccepted(states[i], k);
      ClosedStaysClosed(states[i], actions[i]);
    } else {
      FailedSendsAreLost(states, actions, i, j - 1, k);
      ClosedStaysClosed(states[j - 1], actions[j - 1]);
    }
  }
}
