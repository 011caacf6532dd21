/** The event queue as objects: a channel whose events carry leases on one shared byte counter. Each method
    is a whole call of the machine. */
module EventChannel {
  import opened Prelude
  import opened Sums
  import Machine = EventQueue

  class QueuedBytes {
    var value: nat
    ghost var live: map<EventByteLease, nat>
    ghost var sent: seq<EventByteLease>      // every lease ever built

    /** The counter is the total of the leases that were not dropped. */
    ghost predicate Valid()
      reads this, live.Keys
    {
      && value == Sum(live)
      && (forall lease | lease in live :: lease.counter == this && !lease.dropped && live[lease] == lease.bytes)
      && Numbered(sent) && forall lease | lease in live :: lease in sent
    }

    constructor ()
      ensures Valid() && value == 0 && live == map[] && sent == []
    {
      value, live, sent := 0, map[], [];
    }
  }

  class EventByteLease {
    const counter: QueuedBytes
    const bytes: nat
    ghost const number: nat
    var dropped: bool

    constructor (counter: QueuedBytes, bytes: nat, ghost number: nat)
      ensures this.counter == counter && this.bytes == bytes && this.number == number && !dropped
    {
      this.counter, this.bytes, this.number, dropped := counter, bytes, number, false;
    }

    /** Dropping gives the lease's bytes back; the counter holds at least that many. For the machine it is
        the step of `DropIsStep`. */
    method Drop()
      requires counter.Valid() && this in counter.live
      modifies this`dropped, counter`value, counter`live
      ensures counter.Valid() && counter.live == old(counter.live) - {this}
      ensures dropped && counter.value == old(counter.value) - bytes
    {
      SumWithout(counter.live, this);
      counter.value := counter.value - bytes;
      counter.live := counter.live - {this};
      dropped := true;
    }
  }

  datatype QueuedEvent<E> = QueuedEvent(event: E, lease: EventByteLease)

  ghost function Leases<E>(queue: seq<QueuedEvent<E>>): set<EventByteLease> {
    set k | 0 <= k < |queue| :: queue[k].lease
  }

  ghost predicate DistinctLeases<E>(queue: seq<QueuedEvent<E>>) {
    forall i, j | 0 <= i < j < |queue| :: queue[i].lease != queue[j].lease
  }

  ghost predicate Numbered(sent: seq<EventByteLease>) {
    forall k | 0 <= k < |sent| :: sent[k].number == k
  }

  lemma TailLeases<E>(queue: seq<QueuedEvent<E>>)
    requires queue != [] && DistinctLeases(queue)
    ensures queue[0].lease in Leases(queue)
    ensures Leases(queue[1..]) == Leases(queue) - {queue[0].lease} && DistinctLeases(queue[1..])
  {
    forall l | l in Leases(queue) - {queue[0].lease} ensures l in Leases(queue[1..]) {
      var k :| 0 <= k < |queue| && queue[k].lease == l;
      assert queue[1..][k - 1].lease == l;
    }
  }

  lemma MoreLeases<E>(queue: seq<QueuedEvent<E>>, event: E, lease: EventByteLease)
    requires DistinctLeases(queue) && lease !in Leases(queue)
    ensures Leases(queue + [QueuedEvent(event, lease)]) == Leases(queue) + {lease}
    ensures DistinctLeases(queue + [QueuedEvent(event, lease)])
  {
    var more := queue + [QueuedEvent(event, lease)];
    forall l | l in Leases(queue) ensures l in Leases(more) {
      var k :| 0 <= k < |queue| && queue[k].lease == l;
      assert more[k].lease == l;
    }
    assert more[|queue|].lease == lease;
  }

  lemma OneLessLive(live: map<EventByteLease, nat>, all: set<EventByteLease>, queued: set<EventByteLease>,
                    lease: EventByteLease)
    requires lease in queued && queued <= all
    ensures live - (all - queued) - {lease} == live - (all - (queued - {lease}))
  {
    assert all - (queued - {lease}) == (all - queued) + {lease};
  }

  // ---- What the objects are in the machine -----------------------------------------------------

  /** `waiting` is where the machine has the leases that are still queued here. */
  ghost function PhaseOf(lease: EventByteLease, live: set<EventByteLease>, queued: set<EventByteLease>,
                         waiting: Machine.Phase): Machine.Phase
  {
    if lease !in live then Machine.Released else if lease in queued then waiting else Machine.Held
  }

  ghost function Entries<E>(events: seq<E>, sent: seq<EventByteLease>, live: set<EventByteLease>,
                            queued: set<EventByteLease>, waiting: Machine.Phase): seq<Machine.Entry<E>>
    requires |events| == |sent|
  {
    seq(|sent|, k requires 0 <= k < |sent| =>
      Machine.Entry(events[k], sent[k].bytes, PhaseOf(sent[k], live, queued, waiting)))
  }

  ghost function Numbers<E>(queue: seq<QueuedEvent<E>>): seq<nat> {
    seq(|queue|, k requires 0 <= k < |queue| => queue[k].lease.number)
  }

  /** A lease that leaves `live` or the queue is the only one to move. */
  lemma EntryMoves<E>(events: seq<E>, sent: seq<EventByteLease>, live: set<EventByteLease>,
                      queued: set<EventByteLease>, waiting: Machine.Phase, lease: EventByteLease)
    requires |events| == |sent| && Numbered(sent) && lease in live && lease in sent
    ensures lease.number < |sent| && sent[lease.number] == lease
    ensures
      var entries := Entries(events, sent, live, queued, waiting);
      && Entries(events, sent, live - {lease}, queued - {lease}, waiting)
         == Machine.Move(entries, lease.number, Machine.Released)
      && Entries(events, sent, live, queued - {lease}, waiting)
         == Machine.Move(entries, lease.number, Machine.Held)
  {
  }

  /** A new lease, live and queued, or already dropped. */
  lemma EntryArrives<E>(events: seq<E>, sent: seq<EventByteLease>, live: set<EventByteLease>,
                        queued: set<EventByteLease>, event: E, lease: EventByteLease)
    requires |events| == |sent| && lease !in sent && lease !in live
    ensures
      var entries := Entries(events, sent, live, queued, Machine.Queued);
      && Entries(events + [event], sent + [lease], live + {lease}, queued + {lease}, Machine.Queued)
         == entries + [Machine.Entry(event, lease.bytes, Machine.Queued)]
      && Entries(events + [event], sent + [lease], live, queued, Machine.Queued)
         == entries + [Machine.Entry(event, lease.bytes, Machine.Released)]
  {
  }

  /** Closing the channel turns what is queued into what waits to be dropped. */
  lemma QueuedGivenBack<E>(events: seq<E>, sent: seq<EventByteLease>, live: set<EventByteLease>,
                           queued: set<EventByteLease>)
    requires |events| == |sent|
    ensures Machine.GiveBack(Entries(events, sent, live, queued, Machine.Queued))
            == Entries(events, sent, live, queued, Machine.Returned)
    ensures queued == {} ==> Entries(events, sent, live, queued, Machine.Queued)
                             == Entries(events, sent, live, queued, Machine.Returned)
  {
  }

  /** Dropping a lease that the receiver's side holds, or that waits to be dropped, is a step. */
  lemma DropIsStep<E>(s: Machine.State<E>, events: seq<E>, sent: seq<EventByteLease>, live: set<EventByteLease>,
                      queued: set<EventByteLease>, waiting: Machine.Phase, lease: EventByteLease)
    requires |events| == |sent| && Numbered(sent) && lease in live && lease in sent
    requires s.entries == Entries(events, sent, live, queued, waiting)
    requires lease !in queued || waiting == Machine.Returned
    ensures Machine.Enabled(s, Machine.DropLease(lease.number))
    ensures Machine.Step(s, Machine.DropLease(lease.number))
            == s.(counter := s.counter - lease.bytes,
                  entries := Entries(events, sent, live - {lease}, queued - {lease}, waiting))
  {
    EntryMoves(events, sent, live, queued, waiting, lease);
  }

  class EventQueue<E> {
    const counter: QueuedBytes
    var open: bool
    var queue: seq<QueuedEvent<E>>
    ghost var events: seq<E>             // of every send, by its number
    ghost var accepted: seq<nat>
    ghost var received: seq<nat>

    ghost predicate Consistent()
      reads this, counter, counter.live.Keys
    {
      && counter.Valid() && |events| == |counter.sent|
      && Leases(queue) <= counter.live.Keys
      && DistinctLeases(queue)
    }

    ghost predicate Valid()
      reads this, counter, counter.live.Keys
    {
      Consistent() && (!open ==> queue == [])
    }

    ghost function View(): Machine.State<E>
      requires |events| == |counter.sent|
      reads this, counter
    {
      Machine.State(counter.value, Entries(events, counter.sent, counter.live.Keys, Leases(queue), Machine.Queued),
                    open, Numbers(queue), accepted, received)
    }

    constructor ()
      ensures Valid() && fresh(counter) && View() == Machine.Init()
      ensures open && queue == [] && counter.value == 0
    {
      open, queue, events, accepted, received := true, [], [], [], [];
      counter := new QueuedBytes();
    }

    /** The bytes are added and get their lease. */
    method CountBytes(event: E, bytes: nat) returns (lease: EventByteLease)
      requires Consistent()
      modifies this`events, counter
      ensures Consistent() && fresh(lease) && lease.counter == counter && lease.bytes == bytes && !lease.dropped
      ensures counter.value == old(counter.value) + bytes && counter.live == old(counter.live)[lease := bytes]
      ensures lease.number == |old(counter.sent)| && counter.sent == old(counter.sent) + [lease]
      ensures events == old(events) + [event]
    {
      counter.value := counter.value + bytes;
      lease := new EventByteLease(counter, bytes, |counter.sent|);
      SumWith(counter.live, lease, bytes);
      assert counter.live - {lease} == counter.live;
      counter.live := counter.live[lease := bytes];
      counter.sent := counter.sent + [lease];
      events := events + [event];
    }

    /** A send that fails gives its bytes back before it returns. */
    method SendEvent(event: E, bytes: nat) returns (ok: bool)
      requires Valid()
      modifies this, counter
      ensures Valid() && ok == old(open) == open
      ensures View() == Machine.SendCall(old(View()), event, bytes)
      ensures counter.value == old(counter.value) + if ok then bytes else 0
      ensures ok ==> |queue| == |old(queue)| + 1 && queue[..|old(queue)|] == old(queue)
                     && queue[|old(queue)|].event == event && queue[|old(queue)|].lease.bytes == bytes
                     && fresh(queue[|old(queue)|].lease)
                     && counter.live == old(counter.live)[queue[|old(queue)|].lease := bytes]
      ensures !ok ==> queue == old(queue) && counter.live == old(counter.live)
    {
      hide Machine.SendCall;
      Machine.SendCallEffect(View(), event, bytes);
      var lease := CountBytes(event, bytes);
      EntryArrives(old(events), old(counter.sent), old(counter.live.Keys), Leases(queue), event, lease);
      assert counter.live.Keys == old(counter.live.Keys) + {lease};
      ok := open;
      if ok {
        Enqueue(event, lease);
      } else {
        lease.Drop();
        assert counter.live == old(counter.live);
      }
    }

    method Enqueue(event: E, lease: EventByteLease)
      requires Consistent() && lease in counter.live && lease !in Leases(queue)
      modifies this`queue, this`accepted
      ensures Consistent() && queue == old(queue) + [QueuedEvent(event, lease)]
      ensures Leases(queue) == old(Leases(queue)) + {lease} && Numbers(queue) == old(Numbers(queue)) + [lease.number]
      ensures accepted == old(accepted) + [lease.number]
    {
      MoreLeases(queue, event, lease);
      queue := queue + [QueuedEvent(event, lease)];
      accepted := accepted + [lease.number];
      assert Numbers(queue) == Numbers(old(queue)) + [lease.number];
    }

    /** The oldest event leaves with its lease, whose bytes stay counted. */
    method TryReceive() returns (received: Option<QueuedEvent<E>>)
      requires Valid()
      modifies this`queue, this`received
      ensures Valid()
      ensures old(queue) == [] ==> View() == old(View())
      ensures old(queue) != [] ==>
                Machine.Enabled(old(View()), Machine.Receive) && View() == Machine.Step(old(View()), Machine.Receive)
      ensures received.None? <==> old(queue) == []
      ensures received.Some? ==> [received.value] + queue == old(queue) && received.value.lease in counter.live
                                 && received.value.lease !in Leases(queue)
      ensures received.None? ==> queue == []
    {
      if queue == [] {
        return None;
      }
      TailLeases(queue);
      ghost var head := queue[0].lease;
      EntryMoves(events, counter.sent, counter.live.Keys, Leases(queue), Machine.Queued, head);
      this.received := this.received + [head.number];
      received := Some(queue[0]);
      queue := queue[1..];
      assert Numbers(queue) == Numbers(old(queue))[1..];
    }

    /** In the machine, once the channel is closed and before what was queued is dropped. */
    ghost function Closing(): Machine.State<E>
      requires |events| == |counter.sent|
      reads this, counter
    {
      Machine.State(counter.value, Entries(events, counter.sent, counter.live.Keys, Leases(queue), Machine.Returned),
                    false, [], accepted, received)
    }

    /** The oldest event is dropped, and with it its lease. */
    method DropHead()
      requires Consistent() && queue != []
      modifies this`queue, counter`value, counter`live, queue[0].lease
      ensures Consistent() && queue == old(queue)[1..]
      ensures Leases(queue) == old(Leases(queue)) - {old(queue)[0].lease}
      ensures counter.live == old(counter.live) - {old(queue)[0].lease}
      ensures Machine.DropLeases(Closing(), Numbers(queue))
              == Machine.DropLeases(old(Closing()), old(Numbers(queue)))
    {
      hide Entries;
      TailLeases(queue);
      var head := queue[0];
      DropIsStep(Closing(), events, counter.sent, counter.live.Keys, Leases(queue), Machine.Returned, head.lease);
      assert Numbers(queue)[0] == head.lease.number && Numbers(queue)[1..] == Numbers(queue[1..]);
      queue := queue[1..];
      head.lease.Drop();
    }

    /** What is queued is dropped in order. */
    method DropQueued()
      requires Consistent()
      modifies this`queue, counter`value, counter`live, Leases(queue)
      ensures Consistent() && queue == []
      ensures counter.live == old(counter.live) - old(Leases(queue))
      ensures Closing() == Machine.DropLeases(old(Closing()), old(Numbers(queue)))
    {
      hide Entries;
      ghost var all := queue;
      while queue != []
        invariant Consistent() && Leases(queue) <= Leases(all)
        invariant counter.live == old(counter.live) - (Leases(all) - Leases(queue))
        invariant Machine.DropLeases(Closing(), Numbers(queue))
                  == Machine.DropLeases(old(Closing()), old(Numbers(queue)))
        decreases |queue|
      {
        TailLeases(queue);
        OneLessLive(old(counter.live), Leases(all), Leases(queue), queue[0].lease);
        DropHead();
      }
    }

    /** The queued events' bytes are all given back, and no others. */
    method DropReceiver()
      requires Valid()
      modifies this`queue, this`open, counter`value, counter`live, Leases(queue)
      ensures Valid() && !open && queue == []
      ensures View() == Machine.DropReceiverCall(old(View()))
      ensures counter.live == old(counter.live) - old(Leases(queue))
    {
      QueuedGivenBack(events, counter.sent, counter.live.Keys, Leases(queue));
      open := false;
      assert old(open) ==> Closing() == Machine.Step(old(View()), Machine.DropReceiver);
      DropQueued();
      QueuedGivenBack(events, counter.sent, counter.live.Keys, Leases(queue));
    }
  }
}
