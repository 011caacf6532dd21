/** Publication of the canonical runtime state to the hub through a delta journal.

    The registry is abstracted to its contract with the journal: every committed change is recorded, and
    folding it into the previous projection is defined and gives the next one. The hub's fold may refuse a
    change; `RuntimeScopes` shows that it never refuses one of the registry's. */
module RuntimePublication {
  import opened Prelude

  datatype Delta<C> = Delta(number: nat, change: C)

  datatype Event<S, C> = SnapshotEvent(through: nat, runtime: S) | DeltaEvent(delta: Delta<C>)

  /** What the hub keeps: a snapshot it can continue from. */
  datatype Projection<S> = Projection(through: nat, runtime: S)

  datatype State<S, C> = State(
    initial: S,
    history: seq<C>,          // every change ever committed; the journal's counter is its length
    journal: seq<Delta<C>>,   // the suffix still retained
    published: nat,
    log: seq<Event<S, C>>)    // the events that reached the sink

  function Init<S, C>(initial: S): State<S, C> {
    State(initial, [], [], 0, [])
  }

  /** The canonical state after the first `n` changes, if every one of them could be folded in. */
  function StateAt<S, C>(apply: (S, C) -> Option<S>, s: State<S, C>, n: nat): Option<S>
    requires n <= |s.history|
  {
    if n == 0 then Some(s.initial)
    else
      match StateAt(apply, s, n - 1)
      case None => None
      case Some(before) => apply(before, s.history[n - 1])
  }

  /** The canonical state now. */
  function Canon<S, C>(apply: (S, C) -> Option<S>, s: State<S, C>): Option<S> {
    StateAt(apply, s, |s.history|)
  }

  /** The hub's fold: a delta that does not continue the projection, or is refused, drops it. */
  function Fold<S, C>(apply: (S, C) -> Option<S>, log: seq<Event<S, C>>): Option<Projection<S>> {
    if log == [] then None
    else
      var before := Fold(apply, log[..|log| - 1]);
      match log[|log| - 1]
      case SnapshotEvent(through, runtime) => Some(Projection(through, runtime))
      case DeltaEvent(d) =>
        if before.Some? && d.number == before.value.through + 1
        then
          match apply(before.value.runtime, d.change)
          case Some(runtime) => Some(Projection(d.number, runtime))
          case None => None
        else None
  }

  // ---- The journal ---------------------------------------------------------------------------

  /** The first retained sequence number, or the one that comes next. */
  function First<S, C>(s: State<S, C>): nat {
    if s.journal == [] then |s.history| + 1 else s.journal[0].number
  }

  function After<C>(journal: seq<Delta<C>>, n: nat): seq<Delta<C>> {
    if journal == [] then []
    else (if journal[0].number > n then [journal[0]] else []) + After(journal[1..], n)
  }

  function DeltasAfter<S, C>(s: State<S, C>, n: nat): Option<seq<Delta<C>>> {
    if n > |s.history| || n + 1 < First(s) then None else Some(After(s.journal, n))
  }

  function ReleaseThrough<C>(journal: seq<Delta<C>>, n: nat): seq<Delta<C>> {
    if journal == [] || journal[0].number > n then journal else ReleaseThrough(journal[1..], n)
  }

  // ---- Steps ---------------------------------------------------------------------------------

  datatype Action<!C> =
    | Commit(change: C)
    | RetireTurn(owns: C -> bool)     // the changes that could own the retired turn's payload
    | Flush(room: nat)                // the sink accepts this many events, then fails
    | SnapshotRequest(accepted: bool)

  function Min(a: nat, b: nat): nat {
    if a < b then a else b
  }

  function DeltaEvents<S, C>(deltas: seq<Delta<C>>): seq<Event<S, C>> {
    seq(|deltas|, k requires 0 <= k < |deltas| => DeltaEvent(deltas[k]))
  }

  /** The last delta that could own the payload; zero if none could. */
  function LastOwned<C>(journal: seq<Delta<C>>, owns: C -> bool): nat {
    if journal == [] then 0
    else
      var last := journal[|journal| - 1];
      if owns(last.change) then last.number else LastOwned(journal[..|journal| - 1], owns)
  }

  function PublishSnapshot<S, C>(apply: (S, C) -> Option<S>, s: State<S, C>, accepted: bool): State<S, C> {
    var now := Canon(apply, s);
    if !accepted || now.None? then s
    else s.(log := s.log + [SnapshotEvent(|s.history|, now.value)], published := |s.history|)
  }

  function PublishDeltas<S, C>(s: State<S, C>, deltas: seq<Delta<C>>, room: nat): State<S, C> {
    var sent := deltas[..Min(room, |deltas|)];
    s.(log := s.log + DeltaEvents(sent), published := if sent == [] then s.published else sent[|sent| - 1].number)
  }

  function Released<S, C>(s: State<S, C>): State<S, C> {
    s.(journal := ReleaseThrough(s.journal, s.published))
  }

  predicate Enabled<S, C>(apply: (S, C) -> Option<S>, s: State<S, C>, a: Action<C>) {
    a.Commit? ==> Canon(apply, s).Some? && apply(Canon(apply, s).value, a.change).Some?
  }

  function Step<S, C>(apply: (S, C) -> Option<S>, s: State<S, C>, a: Action<C>): State<S, C> {
    match a
    case Commit(c) => s.(history := s.history + [c], journal := s.journal + [Delta(|s.history| + 1, c)])
    case RetireTurn(owns) => s.(journal := ReleaseThrough(s.journal, LastOwned(s.journal, owns)))
    case Flush(room) =>
      (match DeltasAfter(s, s.published)
       case Some(deltas) => Released(PublishDeltas(s, deltas, room))
       case None => Released(PublishSnapshot(apply, s, room > 0)))
    case SnapshotRequest(accepted) =>
      if accepted then Released(PublishSnapshot(apply, s, true)) else s
  }

  // ---- Invariant -----------------------------------------------------------------------------

  /** The journal is the contiguous suffix of the history. */
  ghost predicate Contiguous<S, C>(s: State<S, C>) {
    && |s.journal| <= |s.history|
    && forall k {:trigger s.journal[k]} :: 0 <= k < |s.journal| ==>
         s.journal[k] == Delta(|s.history| - |s.journal| + k + 1, s.history[|s.history| - |s.journal| + k])
  }

  /** A projection that is canonical at its own sequence number. */
  ghost predicate Canonical<S, C>(apply: (S, C) -> Option<S>, s: State<S, C>, p: Option<Projection<S>>) {
    p.Some? ==> p.value.through <= |s.history| && StateAt(apply, s, p.value.through) == Some(p.value.runtime)
  }

  /** Whatever part of the log the hub has processed, its projection is canonical and not ahead of what
      was published; a projection once established is never dropped; and after the whole log it is
      exactly at what was published. */
  ghost predicate LogOk<S, C>(apply: (S, C) -> Option<S>, s: State<S, C>) {
    && (forall n {:trigger s.log[..n]} :: 0 <= n <= |s.log| ==>
          var p := Fold(apply, s.log[..n]);
          Canonical(apply, s, p) && (p.Some? ==> p.value.through <= s.published))
    && (forall n, m {:trigger s.log[..n], s.log[..m]} :: 0 <= n <= m <= |s.log| && Fold(apply, s.log[..n]).Some? ==>
          Fold(apply, s.log[..m]).Some?)
    && (Fold(apply, s.log).Some? ==> Fold(apply, s.log).value.through == s.published)
  }

  ghost predicate Inv<S, C>(apply: (S, C) -> Option<S>, s: State<S, C>) {
    Contiguous(s) && s.published <= |s.history| && Canon(apply, s).Some? && LogOk(apply, s)
  }

  // ---- Journal lemmas ------------------------------------------------------------------------

  lemma {:induction false} ReleaseIsSuffix<S, C>(s: State<S, C>, n: nat)
    requires Contiguous(s)
    ensures Contiguous(s.(journal := ReleaseThrough(s.journal, n)))
    ensures
      var kept := ReleaseThrough(s.journal, n);
      && |kept| <= |s.journal| && kept == s.journal[|s.journal| - |kept|..]
      && (kept != [] ==> kept[0].number > n)
      && forall k :: 0 <= k < |s.journal| - |kept| ==> s.journal[k].number <= n
    decreases |s.journal|
  {
    if s.journal != [] && s.journal[0].number <= n {
      var t := s.(journal := s.journal[1..]);
      assert Contiguous(t) by {
        assert forall k :: 0 <= k < |t.journal| ==> t.journal[k] == s.journal[k + 1];
      }
      ReleaseIsSuffix(t, n);
      var kept := ReleaseThrough(s.journal, n);
      assert forall k :: 0 <= k < |s.journal| - |kept| ==> k == 0 || s.journal[k] == t.journal[k - 1];
    }
  }

  /** Filtering a contiguous journal keeps its suffix. */
  lemma {:induction false} AfterIsRelease<S, C>(s: State<S, C>, n: nat)
    requires Contiguous(s)
    ensures After(s.journal, n) == ReleaseThrough(s.journal, n)
    decreases |s.journal|
  {
    if s.journal != [] {
      var t := s.(journal := s.journal[1..]);
      assert Contiguous(t) by {
        assert forall k :: 0 <= k < |t.journal| ==> t.journal[k] == s.journal[k + 1];
      }
      AfterIsRelease(t, n);
      if s.journal[0].number > n && t.journal != [] {
        assert t.journal[0] == s.journal[1];
      }
    }
  }

  lemma {:induction false} DeltasCount<S, C>(s: State<S, C>, n: nat)
    requires Contiguous(s) && DeltasAfter(s, n).Some?
    ensures |After(s.journal, n)| == |s.history| - n
  {
    AfterIsRelease(s, n);
    ReleaseIsSuffix(s, n);
    var dropped := |s.journal| - |After(s.journal, n)|;
    if dropped > 0 {
      assert s.journal[dropped - 1].number <= n;
    }
    if dropped < |s.journal| {
      assert s.journal[dropped..][0] == s.journal[dropped];
    }
  }

  /** The deltas offered for publication continue exactly where publication stopped, and reach the
      journal's end. */
  lemma {:induction false} DeltasContinue<S, C>(s: State<S, C>, n: nat)
    requires Contiguous(s) && DeltasAfter(s, n).Some?
    ensures
      var deltas := DeltasAfter(s, n).value;
      && |deltas| == |s.history| - n
      && forall k :: 0 <= k < |deltas| ==> deltas[k] == Delta(n + k + 1, s.history[n + k])
  {
    DeltasCount(s, n);
    AfterIsRelease(s, n);
    ReleaseIsSuffix(s, n);
    var deltas := After(s.journal, n);
    forall k | 0 <= k < |deltas| ensures deltas[k] == Delta(n + k + 1, s.history[n + k]) {
      assert deltas[k] == s.journal[|s.journal| - |deltas| + k];
    }
  }

  // ---- Every step keeps the invariant --------------------------------------------------------

  lemma {:induction false} StateAtStable<S, C>(apply: (S, C) -> Option<S>, s: State<S, C>, t: State<S, C>, n: nat)
    requires s.initial == t.initial && s.history <= t.history && n <= |s.history|
    ensures StateAt(apply, t, n) == StateAt(apply, s, n)
  {
    if n > 0 {
      StateAtStable(apply, s, t, n - 1);
    }
  }

  lemma {:induction false} TakeOfAppend<T>(log: seq<T>, e: T, n: nat)
    requires n <= |log| + 1
    ensures (log + [e])[..n] == if n <= |log| then log[..n] else log + [e]
  {
  }

  lemma {:induction false} PartCanonical<S, C>(apply: (S, C) -> Option<S>, s: State<S, C>, t: State<S, C>, n: nat)
    requires LogOk(apply, s) && n <= |s.log|
    requires s.initial == t.initial && s.history <= t.history && s.published <= t.published
    ensures
      var p := Fold(apply, s.log[..n]);
      Canonical(apply, t, p) && (p.Some? ==> p.value.through <= t.published)
  {
    var p := Fold(apply, s.log[..n]);
    if p.Some? {
      StateAtStable(apply, s, t, p.value.through);
    }
  }

  lemma {:induction false} PartsKept<S, C>(apply: (S, C) -> Option<S>, s: State<S, C>, e: Event<S, C>, n: nat, m: nat)
    requires LogOk(apply, s) && n <= m <= |s.log| + 1
    requires Fold(apply, s.log).Some? ==> Fold(apply, s.log + [e]).Some?
    requires Fold(apply, (s.log + [e])[..n]).Some?
    ensures Fold(apply, (s.log + [e])[..m]).Some?
  {
    TakeOfAppend(s.log, e, n);
    TakeOfAppend(s.log, e, m);
    if n <= |s.log| {
      assert Fold(apply, s.log[..n]).Some?;
      assert s.log[..|s.log|] == s.log;
    }
  }

  lemma {:induction false} EarlierState<S, C>(apply: (S, C) -> Option<S>, s: State<S, C>, n: nat)
    requires n <= |s.history| && Canon(apply, s).Some?
    ensures StateAt(apply, s, n).Some?
    decreases |s.history| - n
  {
    if n < |s.history| {
      EarlierState(apply, s, n + 1);
    }
  }

  /** One more event on the log, after which the hub is canonical at what is now published. */
  lemma {:induction false} LogGrows<S, C>(apply: (S, C) -> Option<S>, s: State<S, C>, e: Event<S, C>, published: nat)
    requires LogOk(apply, s) && s.published <= published
    requires
      var p := Fold(apply, s.log + [e]);
      && (p.Some? ==> && p.value.through == published <= |s.history|
                      && StateAt(apply, s, published) == Some(p.value.runtime))
      && (Fold(apply, s.log).Some? ==> p.Some?)
    ensures LogOk(apply, s.(log := s.log + [e], published := published))
  {
    var t := s.(log := s.log + [e], published := published);
    forall n, m | 0 <= n <= m <= |t.log| && Fold(apply, t.log[..n]).Some? ensures Fold(apply, t.log[..m]).Some? {
      PartsKept(apply, s, e, n, m);
    }
    if Fold(apply, t.log).Some? {
      StateAtStable(apply, s, t, published);
    }
    forall n | 0 <= n <= |t.log|
      ensures var p := Fold(apply, t.log[..n]);
              Canonical(apply, t, p) && (p.Some? ==> p.value.through <= t.published)
    {
      TakeOfAppend(s.log, e, n);
      if n <= |s.log| {
        PartCanonical(apply, s, t, n);
      }
    }
  }

  lemma {:induction false} SnapshotKeepsInv<S, C>(apply: (S, C) -> Option<S>, s: State<S, C>, accepted: bool)
    requires Inv(apply, s)
    ensures Inv(apply, PublishSnapshot(apply, s, accepted))
  {
    if accepted {
      var e := SnapshotEvent(|s.history|, Canon(apply, s).value);
      assert (s.log + [e])[..|s.log|] == s.log;
      LogGrows(apply, s, e, |s.history|);
      StateAtStable(apply, s, PublishSnapshot(apply, s, accepted), |s.history|);
    }
  }

  /** The next delta on the log: a hub with a projection follows, one without keeps waiting. */
  lemma {:induction false} NextDeltaKeepsInv<S, C>(apply: (S, C) -> Option<S>, s: State<S, C>)
    requires Inv(apply, s) && s.published < |s.history|
    ensures
      var d := Delta(s.published + 1, s.history[s.published]);
      Inv(apply, s.(log := s.log + [DeltaEvent(d)], published := s.published + 1))
  {
    var d := Delta(s.published + 1, s.history[s.published]);
    EarlierState(apply, s, s.published + 1);
    assert s.log[..|s.log|] == s.log;
    assert (s.log + [DeltaEvent(d)])[..|s.log|] == s.log;
    LogGrows(apply, s, DeltaEvent(d), s.published + 1);
    StateAtStable(apply, s, s.(log := s.log + [DeltaEvent(d)], published := s.published + 1), |s.history|);
  }

  lemma {:induction false} DeltasKeepInv<S, C>(apply: (S, C) -> Option<S>, s: State<S, C>, deltas: seq<Delta<C>>,
                                               room: nat)
    requires Inv(apply, s) && |deltas| == |s.history| - s.published
    requires forall k :: 0 <= k < |deltas| ==> deltas[k] == Delta(s.published + k + 1, s.history[s.published + k])
    ensures Inv(apply, PublishDeltas(s, deltas, room))
    ensures PublishDeltas(s, deltas, room).published == s.published + Min(room, |deltas|)
    decreases room
  {
    if room == 0 || deltas == [] {
      assert deltas[..Min(room, |deltas|)] == [];
      assert s.log + DeltaEvents<S, C>([]) == s.log;
    } else {
      NextDeltaKeepsInv(apply, s);
      var t := s.(log := s.log + [DeltaEvent(deltas[0])], published := s.published + 1);
      DeltasKeepInv(apply, t, deltas[1..], room - 1);
      PublishOneMore(s, deltas, room);
    }
  }

  lemma {:induction false} PublishOneMore<S, C>(s: State<S, C>, deltas: seq<Delta<C>>, room: nat)
    requires room > 0 && deltas != [] && deltas[0].number == s.published + 1
    ensures
      var t := s.(log := s.log + [DeltaEvent(deltas[0])], published := s.published + 1);
      PublishDeltas(s, deltas, room) == PublishDeltas(t, deltas[1..], room - 1)
  {
    var sent := deltas[..Min(room, |deltas|)];
    assert sent == [deltas[0]] + deltas[1..][..Min(room - 1, |deltas| - 1)];
    assert DeltaEvents<S, C>(sent) == [DeltaEvent(deltas[0])] + DeltaEvents(sent[1..]);
  }

  lemma {:induction false} ReleaseKeepsInv<S, C>(apply: (S, C) -> Option<S>, s: State<S, C>, n: nat)
    requires Inv(apply, s)
    ensures Inv(apply, s.(journal := ReleaseThrough(s.journal, n)))
  {
    ReleaseIsSuffix(s, n);
    StateAtStable(apply, s, s.(journal := ReleaseThrough(s.journal, n)), |s.history|);
    SameHistory(apply, s, s.(journal := ReleaseThrough(s.journal, n)));
  }

  lemma {:induction false} SameHistory<S, C>(apply: (S, C) -> Option<S>, s: State<S, C>, t: State<S, C>)
    requires LogOk(apply, s) && t.log == s.log && t.published == s.published
    requires s.initial == t.initial && s.history <= t.history
    ensures LogOk(apply, t)
  {
    forall n | 0 <= n <= |t.log|
      ensures var p := Fold(apply, t.log[..n]);
              Canonical(apply, t, p) && (p.Some? ==> p.value.through <= t.published)
    {
      PartCanonical(apply, s, t, n);
    }
  }

  lemma {:induction false} CommitKeepsInv<S, C>(apply: (S, C) -> Option<S>, s: State<S, C>, c: C)
    requires Inv(apply, s) && Enabled(apply, s, Commit(c))
    ensures Inv(apply, Step(apply, s, Commit(c)))
  {
    var t := Step(apply, s, Commit(c));
    StateAtStable(apply, s, t, |s.history|);
    SameHistory(apply, s, t);
    assert Contiguous(t);
  }

  lemma {:induction false} FlushKeepsInv<S, C>(apply: (S, C) -> Option<S>, s: State<S, C>, room: nat)
    requires Inv(apply, s)
    ensures Inv(apply, Step(apply, s, Flush(room)))
  {
    match DeltasAfter(s, s.published)
    case Some(deltas) =>
      DeltasContinue(s, s.published);
      DeltasKeepInv(apply, s, deltas, room);
      var t := PublishDeltas(s, deltas, room);
      ReleaseKeepsInv(apply, t, t.published);
    case None =>
      SnapshotKeepsInv(apply, s, room > 0);
      var t := PublishSnapshot(apply, s, room > 0);
      ReleaseKeepsInv(apply, t, t.published);
  }

  lemma {:induction false} StepKeepsInv<S, C>(apply: (S, C) -> Option<S>, s: State<S, C>, a: Action<C>)
    requires Inv(apply, s) && Enabled(apply, s, a)
    ensures Inv(apply, Step(apply, s, a))
  {
    match a
    case Commit(c) => CommitKeepsInv(apply, s, c);
    case RetireTurn(owns) => ReleaseKeepsInv(apply, s, LastOwned(s.journal, owns));
    case Flush(room) => FlushKeepsInv(apply, s, room);
    case SnapshotRequest(accepted) =>
      if accepted {
        SnapshotKeepsInv(apply, s, true);
        var t := PublishSnapshot(apply, s, true);
        ReleaseKeepsInv(apply, t, t.published);
      }
  }
}
