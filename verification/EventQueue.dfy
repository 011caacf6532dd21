/** The event queue and its shared byte counter.

    A send adds its bytes, builds the lease and enqueues, as separate steps that interleave with other
    senders, the receiver and lease drops. Sends are numbered in the order of their additions. */
module EventQueue {

  // ---- The machine ----------------------------------------------------------------------------

  /** Counted: added, no lease yet. Leased: the lease exists and the sender holds it. Queued. Held: the
      receiver's side owns the lease, alone or with its event. Returned: a lease whose event can no longer
      be delivered and that is about to be dropped. Released: the lease was dropped. */
  datatype Phase = Counted | Leased | Queued | Held | Returned | Released

  datatype Entry<E> = Entry(event: E, bytes: nat, phase: Phase)

  datatype State<E> = State(
    counter: int,
    entries: seq<Entry<E>>,
    open: bool,
    queue: seq<nat>,
    accepted: seq<nat>,      // history: sends that reported success, in queue order
    received: seq<nat>)      // history: what the receiver took

  function Init<E>(): State<E> {
    State(0, [], true, [], [], [])
  }

  datatype Action<E> =
    | Add(event: E, bytes: nat)
    | BuildLease(send: nat)
    | Enqueue(send: nat)
    | Receive
    | DropLease(send: nat)
    | DropReceiver

  predicate Enabled<E>(s: State<E>, a: Action<E>) {
    match a
    case Add(_, _) => true
    case BuildLease(k) => k < |s.entries| && s.entries[k].phase == Counted
    case Enqueue(k) => k < |s.entries| && s.entries[k].phase == Leased
    case Receive => s.open && s.queue != [] && s.queue[0] < |s.entries|
    case DropLease(k) => k < |s.entries| && (s.entries[k].phase == Held || s.entries[k].phase == Returned)
    case DropReceiver => s.open
  }

  function Move<E>(entries: seq<Entry<E>>, k: nat, phase: Phase): seq<Entry<E>>
    requires k < |entries|
  {
    entries[k := entries[k].(phase := phase)]
  }

  /** Dropping the receiver closes the channel and gives back every event it still holds. */
  function GiveBack<E>(entries: seq<Entry<E>>): seq<Entry<E>> {
    seq(|entries|, k requires 0 <= k < |entries| =>
      if entries[k].phase == Queued then entries[k].(phase := Returned) else entries[k])
  }

  function Step<E>(s: State<E>, a: Action<E>): State<E>
    requires Enabled(s, a)
  {
    match a
    case Add(e, n) => s.(counter := s.counter + n, entries := s.entries + [Entry(e, n, Counted)])
    case BuildLease(k) => s.(entries := Move(s.entries, k, Leased))
    case Enqueue(k) =>
      if s.open
      then s.(entries := Move(s.entries, k, Queued), queue := s.queue + [k], accepted := s.accepted + [k])
      else s.(entries := Move(s.entries, k, Returned))
    case Receive =>
      s.(entries := Move(s.entries, s.queue[0], Held), queue := s.queue[1..], received := s.received + [s.queue[0]])
    case DropLease(k) =>
      s.(counter := s.counter - s.entries[k].bytes, entries := Move(s.entries, k, Released))
    case DropReceiver => s.(open := false, queue := [], entries := GiveBack(s.entries))
  }

  // ---- Accounting -----------------------------------------------------------------------------

  predicate LiveLease(phase: Phase) {
    phase == Leased || phase == Queued || phase == Held || phase == Returned
  }

  function Bytes<E>(entries: seq<Entry<E>>, counted: Phase -> bool): nat {
    if entries == [] then 0
    else
      var last := entries[|entries| - 1];
      Bytes(entries[..|entries| - 1], counted) + (if counted(last.phase) then last.bytes else 0)
  }

  function LeasedBytes<E>(s: State<E>): nat {
    Bytes(s.entries, LiveLease)
  }

  function UnleasedBytes<E>(s: State<E>): nat {
    Bytes(s.entries, phase => phase == Counted)
  }

  function OutstandingBytes<E>(entries: seq<Entry<E>>): nat {
    Bytes(entries, phase => phase != Released)
  }

  lemma {:induction false} BytesUpdate<E>(entries: seq<Entry<E>>, counted: Phase -> bool, k: nat, e: Entry<E>)
    requires k < |entries|
    ensures Bytes(entries[k := e], counted)
         == Bytes(entries, counted) - (if counted(entries[k].phase) then entries[k].bytes else 0)
            + (if counted(e.phase) then e.bytes else 0)
    decreases |entries|
  {
    var n := |entries| - 1;
    if k == n {
      assert entries[k := e][..n] == entries[..n];
    } else {
      assert entries[k := e][..n] == entries[..n][k := e];
      BytesUpdate(entries[..n], counted, k, e);
    }
  }

  lemma {:induction false} BytesSplit<E>(entries: seq<Entry<E>>)
    ensures OutstandingBytes(entries) == Bytes(entries, LiveLease) + Bytes(entries, phase => phase == Counted)
    decreases |entries|
  {
    if entries != [] {
      BytesSplit(entries[..|entries| - 1]);
    }
  }

  lemma {:induction false} BytesBound<E>(entries: seq<Entry<E>>, k: nat)
    requires k < |entries| && entries[k].phase != Released
    ensures entries[k].bytes <= OutstandingBytes(entries)
    decreases |entries|
  {
    if k < |entries| - 1 {
      BytesBound(entries[..|entries| - 1], k);
    }
  }

  lemma {:induction false} BytesNone<E>(entries: seq<Entry<E>>)
    requires forall k | 0 <= k < |entries| :: entries[k].phase == Released
    ensures OutstandingBytes(entries) == 0
    decreases |entries|
  {
    if entries != [] {
      BytesNone(entries[..|entries| - 1]);
    }
  }

  lemma {:induction false} BytesGivenBack<E>(entries: seq<Entry<E>>)
    ensures OutstandingBytes(GiveBack(entries)) == OutstandingBytes(entries)
    decreases |entries|
  {
    if entries != [] {
      var n := |entries| - 1;
      assert GiveBack(entries)[..n] == GiveBack(entries[..n]);
      BytesGivenBack(entries[..n]);
    }
  }

  // ---- Invariant ------------------------------------------------------------------------------

  ghost predicate Distinct(s: seq<nat>) {
    forall i, j | 0 <= i < j < |s| :: s[i] != s[j]
  }

  /** The sends that reported success are exactly those that reached the queue; received ones are their
      prefix and, while the receiver lives, the queue is the rest. */
  ghost predicate OrderOk<E>(s: State<E>) {
    && Distinct(s.accepted)
    && (forall i | 0 <= i < |s.accepted| :: s.accepted[i] < |s.entries|
          && s.entries[s.accepted[i]].phase != Counted && s.entries[s.accepted[i]].phase != Leased)
    && s.received <= s.accepted
    && (s.open ==> s.received + s.queue == s.accepted)
    && (!s.open ==> s.queue == [])
    && (forall i | 0 <= i < |s.queue| :: s.queue[i] < |s.entries| && s.entries[s.queue[i]].phase == Queued)
  }

  ghost predicate Inv<E>(s: State<E>) {
    s.counter == OutstandingBytes(s.entries) && OrderOk(s)
  }

  lemma {:induction false} CounterStep<E>(s: State<E>, a: Action<E>)
    requires Inv(s) && Enabled(s, a)
    ensures Step(s, a).counter == OutstandingBytes(Step(s, a).entries)
  {
    match a
    case Add(e, n) =>
      assert (s.entries + [Entry(e, n, Counted)])[..|s.entries|] == s.entries;
    case BuildLease(k) => BytesUpdate(s.entries, phase => phase != Released, k, s.entries[k].(phase := Leased));
    case Enqueue(k) =>
      BytesUpdate(s.entries, phase => phase != Released, k, s.entries[k].(phase := Queued));
      BytesUpdate(s.entries, phase => phase != Released, k, s.entries[k].(phase := Returned));
    case Receive =>
      var k := s.queue[0];
      BytesUpdate(s.entries, phase => phase != Released, k, s.entries[k].(phase := Held));
    case DropLease(k) => BytesUpdate(s.entries, phase => phase != Released, k, s.entries[k].(phase := Released));
    case DropReceiver => BytesGivenBack(s.entries);
  }

  lemma {:induction false} EnqueueKeepsOrder<E>(s: State<E>, k: nat)
    requires OrderOk(s) && Enabled(s, Enqueue(k))
    ensures OrderOk(Step(s, Enqueue(k)))
  {
    if s.open {
      assert k !in s.accepted;
      var t := Step(s, Enqueue(k));
      assert t.received + t.queue == (s.received + s.queue) + [k];
    }
  }

  /** The head of the queue appears nowhere else in it. */
  lemma {:induction false} HeadIsUnique<E>(s: State<E>, i: nat)
    requires OrderOk(s) && s.open && 0 < i < |s.queue|
    ensures s.queue[i] != s.queue[0]
  {
    var all := s.received + s.queue;
    assert all[|s.received| + i] == s.queue[i] && all[|s.received|] == s.queue[0];
  }

  lemma {:induction false} TakeHead(received: seq<nat>, queue: seq<nat>)
    requires queue != []
    ensures (received + [queue[0]]) + queue[1..] == received + queue
  {
  }

  lemma {:induction false} ReceiveKeepsOrder<E>(s: State<E>)
    requires OrderOk(s) && Enabled(s, Receive)
    ensures OrderOk(Step(s, Receive))
  {
    var t := Step(s, Receive);
    TakeHead(s.received, s.queue);
    forall i | 0 <= i < |t.queue| ensures t.queue[i] < |t.entries| && t.entries[t.queue[i]].phase == Queued {
      HeadIsUnique(s, i + 1);
    }
  }

  lemma {:induction false} StepKeepsInv<E>(s: State<E>, a: Action<E>)
    requires Inv(s) && Enabled(s, a)
    ensures Inv(Step(s, a))
  {
    CounterStep(s, a);
    if a.Enqueue? {
      EnqueueKeepsOrder(s, a.send);
    } else if a.Receive? {
      ReceiveKeepsOrder(s);
    }
  }

  // ---- Whole calls ----------------------------------------------------------------------------

  /** A send without interference; one that found no receiver drops its lease before it returns. */
  function SendCall<E>(s: State<E>, event: E, bytes: nat): State<E> {
    var k := |s.entries|;
    var sent := Step(Step(Step(s, Add(event, bytes)), BuildLease(k)), Enqueue(k));
    if s.open then sent else Step(sent, DropLease(k))
  }

  /** Dropping these leases one after another, as far as they can be dropped. */
  function DropLeases<E>(s: State<E>, sends: seq<nat>): State<E>
    decreases |sends|
  {
    if sends == [] || !Enabled(s, DropLease(sends[0])) then s
    else DropLeases(Step(s, DropLease(sends[0])), sends[1..])
  }

  /** Dropping the receiver, and with it what was queued. */
  function DropReceiverCall<E>(s: State<E>): State<E> {
    if s.open then DropLeases(Step(s, DropReceiver), s.queue) else s
  }

  lemma {:induction false} SendCallEffect<E>(s: State<E>, event: E, bytes: nat)
    ensures
      var k := |s.entries|;
      SendCall(s, event, bytes)
      == if s.open
         then s.(counter := s.counter + bytes, entries := s.entries + [Entry(event, bytes, Queued)],
                 queue := s.queue + [k], accepted := s.accepted + [k])
         else s.(entries := s.entries + [Entry(event, bytes, Released)])
  {
    var k := |s.entries|;
    var added := s.entries + [Entry(event, bytes, Counted)];
    assert forall phase: Phase :: added[k := Entry(event, bytes, phase)] == s.entries + [Entry(event, bytes, phase)];
  }

  lemma {:induction false} SendCallKeepsInv<E>(s: State<E>, event: E, bytes: nat)
    requires Inv(s)
    ensures Inv(SendCall(s, event, bytes))
  {
    var k := |s.entries|;
    var added := Step(s, Add(event, bytes));
    var built := Step(added, BuildLease(k));
    StepKeepsInv(s, Add(event, bytes));
    StepKeepsInv(added, BuildLease(k));
    StepKeepsInv(built, Enqueue(k));
    if !s.open {
      StepKeepsInv(Step(built, Enqueue(k)), DropLease(k));
    }
  }

  lemma {:induction false} DropLeasesKeepInv<E>(s: State<E>, sends: seq<nat>)
    requires Inv(s)
    ensures Inv(DropLeases(s, sends))
    decreases |sends|
  {
    if sends != [] && Enabled(s, DropLease(sends[0])) {
      StepKeepsInv(s, DropLease(sends[0]));
      DropLeasesKeepInv(Step(s, DropLease(sends[0])), sends[1..]);
    }
  }

  lemma {:induction false} DropReceiverCallKeepsInv<E>(s: State<E>)
    requires Inv(s)
    ensures Inv(DropReceiverCall(s))
  {
    if s.open {
      StepKeepsInv(s, DropReceiver);
      DropLeasesKeepInv(Step(s, DropReceiver), s.queue);
    }
  }
}
