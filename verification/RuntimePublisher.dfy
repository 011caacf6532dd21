/** The journal and its publication loop, updated in place. */
module RuntimePublisher {
  import opened Prelude
  import opened RuntimePublication
  import opened JournalRelease

  lemma {:induction false} ReleaseOnlyDrops<S, C>(s: State<S, C>, n: nat)
    requires Contiguous(s)
    ensures forall d :: d in ReleaseThrough(s.journal, n) ==> d in s.journal
  {
    ReleaseIsSuffix(s, n);
  }

  lemma {:induction false} RetiredAre<S(!new), C(!new)>(s: State<S, C>, owns: C -> bool)
    requires Contiguous(s)
    ensures forall d :: d in ReleaseThrough(s.journal, LastOwned(s.journal, owns)) <==>
              d in s.journal && forall e | e in s.journal && owns(e.change) :: e.number < d.number
  {
    var none: (S, C) -> Option<S> := (x, c) => None;
    ReleaseOnlyDrops(s, LastOwned(s.journal, owns));
    forall d | d in s.journal
      ensures d in ReleaseThrough(s.journal, LastOwned(s.journal, owns)) <==>
              forall e | e in s.journal && owns(e.change) :: e.number < d.number
    {
      RetiredPayloadIsGone(none, s, owns, d);
    }
  }

  /** What a flush keeps. */
  lemma {:induction false} FlushKeeps<S(!new), C(!new)>(apply: (S, C) -> Option<S>, s: State<S, C>, room: nat)
    requires Inv(apply, s)
    ensures
      var t := Step(apply, s, Flush(room));
      && t.initial == s.initial && t.history == s.history
      && forall d :: d in t.journal <==> d in s.journal && d.number > t.published
  {
    var t := Step(apply, s, Flush(room));
    assert t.journal == ReleaseThrough(s.journal, t.published);
    hide Step;
    ReleaseOnlyDrops(s, t.published);
    forall d | d in s.journal ensures d in t.journal <==> d.number > t.published {
      ReleasedMember(s, t.published, d);
    }
  }

  /** What a flush sends: the deltas one after another as far as the sink goes, or the snapshot. */
  lemma {:induction false} FlushSends<S(!new), C(!new)>(apply: (S, C) -> Option<S>, s: State<S, C>, room: nat)
    requires Inv(apply, s)
    ensures
      var t := Step(apply, s, Flush(room));
      var first := if s.journal == [] then |s.history| + 1 else s.journal[0].number;
      var sent := if room < |s.history| - s.published then room else |s.history| - s.published;
      && s.published <= |s.history|
      && (if first <= s.published + 1 then
            && t.published == s.published + sent && |t.log| == |s.log| + sent && t.log[..|s.log|] == s.log
            && forall k :: |s.log| <= k < |t.log| ==>
                 var number := s.published + k - |s.log| + 1;
                 t.log[k] == DeltaEvent(Delta(number, s.history[number - 1]))
          else if room > 0 then
            t.published == |s.history| && t.log == s.log + [SnapshotEvent(|s.history|, Canon(apply, s).value)]
          else t.published == s.published && t.log == s.log)
  {
    if DeltasAfter(s, s.published).Some? {
      DeltasContinue(s, s.published);
      hide After;
    }
  }

  class Publisher<S(!new), C(!new)> {
    const apply: (S, C) -> Option<S>
    ghost const initial: S
    var runtime: S
    var sequence: nat
    var journal: seq<Delta<C>>
    var published: nat
    ghost var history: seq<C>
    ghost var log: seq<Event<S, C>>

    ghost function View(): State<S, C> reads this {
      State(initial, history, journal, published, log)
    }

    ghost predicate Valid() reads this {
      && Inv(apply, View())
      && sequence == |history| && Some(runtime) == StateAt(apply, View(), sequence)
    }

    constructor (apply: (S, C) -> Option<S>, initial: S)
      ensures Valid() && View() == Init(initial) && this.apply == apply
    {
      this.apply, this.initial, runtime := apply, initial, initial;
      sequence, journal, published, history, log := 0, [], 0, [], [];
    }

    method CommitChange(change: C)
      requires Valid() && apply(runtime, change).Some?
      modifies this
      ensures Valid() && View() == Step(apply, old(View()), Commit(change))
      ensures Some(runtime) == apply(old(runtime), change) && sequence == old(sequence) + 1
      ensures history == old(history) + [change] && journal == old(journal) + [Delta(sequence, change)]
      ensures log == old(log) && published == old(published)
    {
      StepKeepsInv(apply, View(), Commit(change));
      ghost var before := View();
      runtime := apply(runtime, change).value;
      sequence := sequence + 1;
      journal := journal + [Delta(sequence, change)];
      history := history + [change];
      StateAtStable(apply, before, View(), |before.history|);
    }

    /** Drop the contiguous prefix that was covered. */
    method ReleaseThroughSequence(n: nat)
      modifies this`journal
      ensures journal == ReleaseThrough(old(journal), n)
    {
      while journal != [] && journal[0].number <= n
        invariant ReleaseThrough(journal, n) == ReleaseThrough(old(journal), n)
        decreases |journal|
      {
        journal := journal[1..];
      }
    }

    /** The last delta that could own the payload, found by looking at each. */
    method LastOwner(owns: C -> bool) returns (through: nat)
      ensures through == LastOwned(journal, owns)
    {
      through := 0;
      var k := 0;
      while k < |journal|
        invariant 0 <= k <= |journal| && through == LastOwned(journal[..k], owns)
      {
        assert journal[..k + 1][..k] == journal[..k];
        if owns(journal[k].change) {
          through := journal[k].number;
        }
        k := k + 1;
      }
      assert journal[..k] == journal;
    }

    method RetireTurnPayload(owns: C -> bool)
      requires Valid()
      modifies this
      ensures Valid() && View() == Step(apply, old(View()), RetireTurn(owns))
      ensures forall d :: d in journal <==>
                d in old(journal) && forall e | e in old(journal) && owns(e.change) :: e.number < d.number
      ensures runtime == old(runtime) && sequence == old(sequence) && history == old(history)
      ensures log == old(log) && published == old(published)
    {
      StepKeepsInv(apply, View(), RetireTurn(owns));
      ghost var before := View();
      RetiredAre(before, owns);
      var through := LastOwner(owns);
      ReleaseThroughSequence(through);
      StateAtStable(apply, before, View(), sequence);
    }

    /** Send the deltas one by one until the sink refuses. */
    method SendDeltas(deltas: seq<Delta<C>>, room: nat)
      modifies this`published, this`log
      ensures View() == PublishDeltas(old(View()), deltas, room)
    {
      var k := 0;
      assert log + DeltaEvents<S, C>([]) == log;
      while k < |deltas|
        invariant 0 <= k <= Min(room, |deltas|)
        invariant log == old(log) + DeltaEvents(deltas[..k])
        invariant published == if k == 0 then old(published) else deltas[k - 1].number
      {
        if k == room {
          break;
        }
        assert DeltaEvents<S, C>(deltas[..k + 1]) == DeltaEvents(deltas[..k]) + [DeltaEvent(deltas[k])];
        log := log + [DeltaEvent(deltas[k])];
        published := deltas[k].number;
        k := k + 1;
      }
    }

    /** One publication attempt; the sink accepts `room` more events. */
    method FlushRuntime(room: nat)
      requires Valid()
      modifies this
      ensures Valid() && View() == Step(apply, old(View()), Flush(room))
      ensures
        var first := if old(journal) == [] then old(sequence) + 1 else old(journal)[0].number;
        var sent := if room < old(sequence) - old(published) then room else old(sequence) - old(published);
        && old(published) <= old(sequence)
        && (if first <= old(published) + 1 then
              && published == old(published) + sent && |log| == |old(log)| + sent && log[..|old(log)|] == old(log)
              && forall k :: |old(log)| <= k < |log| ==>
                   var number := old(published) + k - |old(log)| + 1;
                   number <= |history| && log[k] == DeltaEvent(Delta(number, history[number - 1]))
            else if room > 0 then published == sequence && log == old(log) + [SnapshotEvent(sequence, runtime)]
            else published == old(published) && log == old(log))
      ensures forall d :: d in journal <==> d in old(journal) && d.number > published
      ensures runtime == old(runtime) && sequence == old(sequence) && history == old(history)
    {
      hide Step, Inv;
      StepKeepsInv(apply, View(), Flush(room));
      ghost var before := View();
      FlushSends(apply, before, room);
      FlushKeeps(apply, before, room);
      Publish(room);
      StateAtStable(apply, before, View(), sequence);
    }

    method Publish(room: nat)
      requires sequence == |history| && Some(runtime) == Canon(apply, View())
      modifies this`published, this`log, this`journal
      ensures View() == Step(apply, old(View()), Flush(room))
    {
      var first := if journal == [] then sequence + 1 else journal[0].number;
      if published > sequence || published + 1 < first {
        if room > 0 {
          log := log + [SnapshotEvent(sequence, runtime)];
          published := sequence;
        }
      } else {
        SendDeltas(After(journal, published), room);
      }
      ReleaseThroughSequence(published);
    }

    method AnswerSnapshotRequest(accepted: bool)
      requires Valid()
      modifies this
      ensures Valid() && View() == Step(apply, old(View()), SnapshotRequest(accepted))
      ensures !accepted ==> View() == old(View())
      ensures accepted ==>
                && log == old(log) + [SnapshotEvent(sequence, runtime)] && published == sequence
                && forall d :: d in journal <==> d in old(journal) && d.number > sequence
      ensures runtime == old(runtime) && sequence == old(sequence) && history == old(history)
    {
      StepKeepsInv(apply, View(), SnapshotRequest(accepted));
      ghost var before := View();
      forall d | d in journal ensures d in ReleaseThrough(journal, sequence) <==> d.number > sequence {
        ReleasedMember(before, sequence, d);
      }
      ReleaseOnlyDrops(before, sequence);
      if accepted {
        log := log + [SnapshotEvent(sequence, runtime)];
        published := sequence;
        ReleaseThroughSequence(published);
      }
      StateAtStable(apply, before, View(), sequence);
    }
  }
}
