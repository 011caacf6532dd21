/** What leaves the journal: exactly the deltas that publication covers or that could hold a retired payload. */
module JournalRelease {
  import opened Prelude
  import opened RuntimePublication

  lemma {:induction false} KeptAbove<S, C>(s: State<S, C>, n: nat, d: Delta<C>)
    requires Contiguous(s) && d in ReleaseThrough(s.journal, n)
    ensures d.number > n
  {
    ReleaseIsSuffix(s, n);
    var kept := ReleaseThrough(s.journal, n);
    var j :| 0 <= j < |kept| && kept[j] == d;
    KeptAscending(s, |s.journal| - |kept|, |s.journal| - |kept| + j);
  }

  lemma {:induction false} KeptAscending<S, C>(s: State<S, C>, i: nat, k: nat)
    requires Contiguous(s) && i <= k < |s.journal|
    ensures s.journal[i].number <= s.journal[k].number
  {
  }

  lemma {:induction false} InSuffix<T>(whole: seq<T>, start: nat, k: nat)
    requires start <= k < |whole|
    ensures whole[k] in whole[start..]
  {
    assert whole[start..][k - start] == whole[k];
  }

  lemma {:induction false} AboveKept<S, C>(s: State<S, C>, n: nat, d: Delta<C>)
    requires Contiguous(s) && d in s.journal && d.number > n
    ensures d in ReleaseThrough(s.journal, n)
  {
    ReleaseIsSuffix(s, n);
    var k :| 0 <= k < |s.journal| && s.journal[k] == d;
    InSuffix(s.journal, |s.journal| - |ReleaseThrough(s.journal, n)|, k);
  }

  lemma {:induction false} ReleasedMember<S, C>(s: State<S, C>, n: nat, d: Delta<C>)
    requires Contiguous(s) && d in s.journal
    ensures d in ReleaseThrough(s.journal, n) <==> d.number > n
  {
    if d in ReleaseThrough(s.journal, n) {
      KeptAbove(s, n, d);
    }
    if d.number > n {
      AboveKept(s, n, d);
    }
  }

  /** Publication releases exactly the deltas that what it published covers. */
  lemma {:induction false} NothingUndeliveredIsReleased<S, C>(apply: (S, C) -> Option<S>, s: State<S, C>, a: Action<C>,
                                                              d: Delta<C>)
    requires Inv(apply, s) && d in s.journal
    requires a.Flush? || (a.SnapshotRequest? && a.accepted)
    ensures d in Step(apply, s, a).journal <==> d.number > Step(apply, s, a).published
  {
    ReleasedMember(s, Step(apply, s, a).published, d);
  }

  lemma {:induction false} OwnedBelow<S, C>(s: State<S, C>, owns: C -> bool, n: nat, k: nat)
    requires Contiguous(s) && k < n <= |s.journal| && owns(s.journal[k].change)
    ensures s.journal[k].number <= LastOwned(s.journal[..n], owns)
    decreases n
  {
    assert s.journal[..n][..n - 1] == s.journal[..n - 1];
    if owns(s.journal[n - 1].change) {
      KeptAscending(s, k, n - 1);
    } else {
      OwnedBelow(s, owns, n - 1, k);
    }
  }

  lemma {:induction false} OwnedIsCovered<S, C>(s: State<S, C>, owns: C -> bool, e: Delta<C>)
    requires Contiguous(s) && e in s.journal && owns(e.change)
    ensures e.number <= LastOwned(s.journal, owns)
  {
    var k :| 0 <= k < |s.journal| && s.journal[k] == e;
    OwnedBelow(s, owns, |s.journal|, k);
    assert s.journal[..|s.journal|] == s.journal;
  }

  lemma {:induction false} LastIsOwned<C>(journal: seq<Delta<C>>, owns: C -> bool)
    requires LastOwned(journal, owns) != 0
    ensures exists e :: e in journal && owns(e.change) && e.number == LastOwned(journal, owns)
    decreases |journal|
  {
    var last := journal[|journal| - 1];
    if owns(last.change) {
      assert last in journal;
    } else {
      LastIsOwned(journal[..|journal| - 1], owns);
    }
  }

  lemma {:induction false} NumbersArePositive<S, C>(s: State<S, C>, d: Delta<C>)
    requires Contiguous(s) && d in s.journal
    ensures d.number != 0
  {
  }

  /** Retiring a turn drops every delta that could own its payload, and no delta after the last of them. */
  lemma {:induction false} RetiredPayloadIsGone<S, C>(apply: (S, C) -> Option<S>, s: State<S, C>, owns: C -> bool,
                                                      d: Delta<C>)
    requires Contiguous(s) && d in s.journal
    ensures
      var kept := Step(apply, s, RetireTurn(owns)).journal;
      d !in kept <==> exists e :: e in s.journal && owns(e.change) && d.number <= e.number
  {
    var last := LastOwned(s.journal, owns);
    ReleasedMember(s, last, d);
    NumbersArePositive(s, d);
    if d.number <= last {
      LastIsOwned(s.journal, owns);
    }
    forall e | e in s.journal && owns(e.change) ensures e.number <= last {
      OwnedIsCovered(s, owns, e);
    }
  }
}
