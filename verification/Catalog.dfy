/** The session catalog: its revision, paged lists and deletion reservations. */
module Catalog {
  import opened Prelude

  type Allocation = nat

  /** The revision a page is bound to: the bridge epoch and the catalog's counter. */
  datatype Revision = Revision(epoch: string, number: nat)

  /** A list request in flight, under the gate that admits one at a time. */
  datatype Ticket = Ticket(revision: Revision, first: bool, began: nat)

  datatype Deletion = Deletion(requestId: string, allocation: Allocation)

  datatype Listing = Listing(id: string, info: string)

  /** The exclusive delete of a tracked session; an uncertain one is not released by its request. */
  datatype Operation = Operation(incarnation: nat, requestId: string, uncertain: bool)

  /** What the registry knows of a session that is about to be deleted, apart from its delete operation. */
  datatype Tracked = Untracked | HistoryLoading | Known(incarnation: nat, mayDelete: bool)

  datatype Reservation = Refused | CatalogOnly(allocation: Allocation) | OfSession(incarnation: nat)

  datatype State = State(epoch: string, revision: nat, listed: map<string, string>,
                         deletions: map<string, Deletion>, operations: map<string, Operation>,
                         inFlight: Option<Ticket>, nextAllocation: Allocation, clock: nat)

  function Init(epoch: string): State {
    State(epoch, 0, map[], map[], map[], None, 0, 0)
  }

  function Now(s: State): Revision {
    Revision(s.epoch, s.revision)
  }

  datatype Action =
    | BeginList(expected: Option<Revision>, first: bool)
    | FinishList(page: Option<seq<Listing>>)     // none: the request failed or the page is invalid
    | CreateSession
    | DeleteListed(id: string)                   // a delete that succeeded
    | Forget(id: string)                         // the agent does not know the session any more
    | Reserve(id: string, requestId: string, tracked: Tracked)
    | Release(id: string, reservation: Reservation, requestId: string)
    | BecomeUncertain(id: string)                // the delete's outcome is not known
    | EndSession(id: string)                     // the tracked session is gone, with its operation

  predicate Enabled(s: State, a: Action) {
    match a
    case BeginList(_, _) => s.inFlight.None?
    case FinishList(_) => s.inFlight.Some?
    case _ => true
  }

  predicate Accepts(s: State, expected: Option<Revision>) {
    expected.None? || expected.value == Now(s)
  }

  /** A page is written only under the revision at which its request began. */
  predicate Commits(s: State, page: Option<seq<Listing>>)
    requires s.inFlight.Some?
  {
    page.Some? && s.inFlight.value.revision == Now(s)
  }

  function Insert(listed: map<string, string>, page: seq<Listing>): map<string, string> {
    if page == [] then listed
    else Insert(listed, page[..|page| - 1])[page[|page| - 1].id := page[|page| - 1].info]
  }

  function AfterPage(s: State, page: seq<Listing>): map<string, string>
    requires s.inFlight.Some?
  {
    Insert(if s.inFlight.value.first then map[] else s.listed, page)
  }

  function ReservationOf(s: State, id: string, tracked: Tracked): Reservation {
    if tracked.HistoryLoading? || id in s.deletions then Refused
    else if tracked.Known? && (!tracked.mayDelete || id in s.operations) then Refused
    else if tracked.Known? && tracked.incarnation != 0 then OfSession(tracked.incarnation)
    else CatalogOnly(s.nextAllocation)
  }

  /** The release is by the holder: the same allocation, or the same incarnation, and the same request. */
  predicate Frees(s: State, id: string, reservation: Reservation, requestId: string) {
    match reservation
    case CatalogOnly(n) => id in s.deletions && s.deletions[id] == Deletion(requestId, n)
    case OfSession(n) => id in s.operations && s.operations[id] == Operation(n, requestId, false)
    case Refused => false
  }

  function Step(s: State, a: Action): State
    requires Enabled(s, a)
  {
    var t := s.(clock := s.clock + 1);
    match a
    case BeginList(expected, first) =>
      if Accepts(s, expected) then t.(inFlight := Some(Ticket(Now(s), first, s.clock))) else t
    case FinishList(page) =>
      t.(inFlight := None, listed := if Commits(s, page) then AfterPage(s, page.value) else s.listed)
    case CreateSession => t.(revision := s.revision + 1)
    case DeleteListed(id) => t.(listed := s.listed - {id}, revision := s.revision + 1)
    case Forget(id) => t.(listed := s.listed - {id})
    case Reserve(id, r, tracked) =>
      (match ReservationOf(s, id, tracked)
       case CatalogOnly(n) => t.(deletions := s.deletions[id := Deletion(r, n)], nextAllocation := n + 1)
       case OfSession(n) => t.(operations := s.operations[id := Operation(n, r, false)])
       case Refused => t)
    case Release(id, reservation, r) =>
      if Frees(s, id, reservation, r) then
        if reservation.CatalogOnly? then t.(deletions := s.deletions - {id}) else t.(operations := s.operations - {id})
      else t
    case BecomeUncertain(id) =>
      if id in s.operations then t.(operations := s.operations[id := s.operations[id].(uncertain := true)]) else t
    case EndSession(id) => t.(operations := s.operations - {id})
  }

  predicate Inv(s: State) {
    && (s.inFlight.Some? ==>
          s.inFlight.value.revision.epoch == s.epoch && s.inFlight.value.revision.number <= s.revision
          && s.inFlight.value.began < s.clock)
    && forall id :: id in s.deletions ==> s.deletions[id].allocation < s.nextAllocation
  }

  // ---- Runs ----------------------------------------------------------------------------------

  ghost predicate IsRun(states: seq<State>, actions: seq<Action>) {
    && |states| == |actions| + 1
    && (exists epoch :: states[0] == Init(epoch))
    && forall i {:trigger actions[i]} :: 0 <= i < |actions| ==>
         Enabled(states[i], actions[i]) && states[i + 1] == Step(states[i], actions[i])
  }

  lemma StepKeepsInv(s: State, a: Action)
    requires Inv(s) && Enabled(s, a)
    ensures Inv(Step(s, a)) && Step(s, a).epoch == s.epoch && s.revision <= Step(s, a).revision
  {
  }

  lemma {:induction false} RunKeepsInv(states: seq<State>, actions: seq<Action>, i: nat)
    requires IsRun(states, actions) && i < |states|
    ensures Inv(states[i]) && states[i].clock == i && states[i].epoch == states[0].epoch
  {
    if i > 0 {
      RunKeepsInv(states, actions, i - 1);
      StepKeepsInv(states[i - 1], actions[i - 1]);
    }
  }

  lemma {:induction false} RevisionNeverDecreases(states: seq<State>, actions: seq<Action>, i: nat, k: nat)
    requires IsRun(states, actions) && i <= k < |states|
    ensures states[i].revision <= states[k].revision
    decreases k
  {
    if i < k {
      RevisionNeverDecreases(states, actions, i, k - 1);
      RunKeepsInv(states, actions, k - 1);
      StepKeepsInv(states[k - 1], actions[k - 1]);
    }
  }

  predicate Advances(a: Action) {
    a.CreateSession? || a.DeleteListed?
  }

  lemma RevisionStep(states: seq<State>, actions: seq<Action>, j: nat)
    requires IsRun(states, actions) && j < |actions|
    ensures states[j + 1].revision == states[j].revision + if Advances(actions[j]) then 1 else 0
  {
    var a := actions[j];
  }

  lemma TicketStep(s: State, a: Action)
    requires Enabled(s, a) && Step(s, a).inFlight.Some?
    ensures
      || Step(s, a).inFlight == s.inFlight
      || (a.BeginList? && Accepts(s, a.expected) && Step(s, a).inFlight.value == Ticket(Now(s), a.first, s.clock))
  {
  }

  /** The ticket in flight was issued by the accepted request at its position, under the revision of
      that moment. */
  lemma {:induction false} TicketIsFromBegin(states: seq<State>, actions: seq<Action>, k: nat)
    requires IsRun(states, actions) && k < |states| && states[k].inFlight.Some?
    ensures
      var t := states[k].inFlight.value;
      && t.began < k && actions[t.began].BeginList? && Accepts(states[t.began], actions[t.began].expected)
      && t.revision == Now(states[t.began]) && t.first == actions[t.began].first
  {
    RunKeepsInv(states, actions, k - 1);
    TicketStep(states[k - 1], actions[k - 1]);
    if states[k].inFlight == states[k - 1].inFlight {
      TicketIsFromBegin(states, actions, k - 1);
    }
  }

  /** A page is written only if no creation, fork or delete advanced the catalog since its request
      began; the revision is then the same throughout. */
  lemma StalePagesNeverCommit(states: seq<State>, actions: seq<Action>, k: nat, j: nat)
    requires IsRun(states, actions) && k < |actions| && actions[k].FinishList? && states[k].inFlight.Some?
    requires Commits(states[k], actions[k].page) && states[k].inFlight.value.began <= j < k
    ensures !Advances(actions[j]) && states[j].revision == states[k].revision
  {
    TicketIsFromBegin(states, actions, k);
    var began := states[k].inFlight.value.began;
    RevisionNeverDecreases(states, actions, began, j);
    RevisionNeverDecreases(states, actions, j + 1, k);
    RevisionStep(states, actions, j);
  }

  lemma {:induction false} InsertedOnlyFromPage(listed: map<string, string>, page: seq<Listing>, id: string)
    requires id in Insert(listed, page)
    ensures id in listed || exists p :: p in page && p.id == id
  {
    if page != [] {
      var last := page[|page| - 1];
      if id == last.id {
        assert last in page;
      } else {
        InsertedOnlyFromPage(listed, page[..|page| - 1], id);
      }
    }
  }

  /** A list request begun at `j` committed at `l` a page that lists the session. */
  ghost predicate ListedAgain(states: seq<State>, actions: seq<Action>, j: nat, l: nat, id: string) {
    && j < l < |actions| < |states|
    && actions[j].BeginList? && actions[l].FinishList?
    && states[l].inFlight.Some? && states[l].inFlight.value.began == j
    && Commits(states[l], actions[l].page)
    && exists p :: p in actions[l].page.value && p.id == id
  }

  lemma NewListingIsFromPage(s: State, a: Action, id: string)
    requires Enabled(s, a) && id !in s.listed && id in Step(s, a).listed
    ensures a.FinishList? && Commits(s, a.page) && exists p :: p in a.page.value && p.id == id
  {
    var start := if s.inFlight.Some? && s.inFlight.value.first then map[] else s.listed;
    InsertedOnlyFromPage(start, a.page.value, id);
  }

  /** A deleted session stays absent until a list request that began after the delete commits a page
      that lists it. */
  lemma {:induction false} DeletedStaysAbsent(states: seq<State>, actions: seq<Action>, i: nat, k: nat, id: string)
    requires IsRun(states, actions) && i < k < |states| && actions[i] == DeleteListed(id)
    requires id in states[k].listed
    ensures exists j: nat, l: nat :: i < j && l < k && ListedAgain(states, actions, j, l, id)
    decreases k
  {
    if k > i + 1 {
      if id in states[k - 1].listed {
        DeletedStaysAbsent(states, actions, i, k - 1, id);
      } else {
        NewListingIsFromPage(states[k - 1], actions[k - 1], id);
        TicketIsFromBegin(states, actions, k - 1);
        var j := states[k - 1].inFlight.value.began;
        if j <= i {
          StalePagesNeverCommit(states, actions, k - 1, i);
        }
        assert i < j && ListedAgain(states, actions, j, k - 1, id);
      }
    }
  }

  /** Pages chained by the revision of an earlier page commit under that one revision, and nothing
      advanced the catalog between the first and the last of them. */
  lemma ChainedPagesShareOneRevision(states: seq<State>, actions: seq<Action>, i: nat, k: nat, m: nat)
    requires IsRun(states, actions) && i < k < |actions| && i <= m <= k
    requires actions[i].FinishList? && states[i].inFlight.Some? && Commits(states[i], actions[i].page)
    requires actions[k].FinishList? && states[k].inFlight.Some? && Commits(states[k], actions[k].page)
    requires states[k].inFlight.value.began < |actions| && actions[states[k].inFlight.value.began].BeginList?
    requires actions[states[k].inFlight.value.began].expected == Some(states[i].inFlight.value.revision)
    ensures Now(states[m]) == states[i].inFlight.value.revision == states[k].inFlight.value.revision
    ensures m < k ==> !Advances(actions[m])
  {
    TicketIsFromBegin(states, actions, k);
    RunKeepsInv(states, actions, i);
    RunKeepsInv(states, actions, m);
    RunKeepsInv(states, actions, k);
    RevisionNeverDecreases(states, actions, i, m);
    RevisionNeverDecreases(states, actions, m, k);
    if m < k {
      RevisionStep(states, actions, m);
      RevisionNeverDecreases(states, actions, m + 1, k);
    }
  }

  lemma EpochStays(s: State, a: Action)
    requires Enabled(s, a)
    ensures Step(s, a).epoch == s.epoch
  {
  }

  /** The revision is still the same exactly when nothing advanced the catalog. */
  lemma {:induction false} RevisionStandsUntilAdvance(states: seq<State>, actions: seq<Action>, i: nat, k: nat)
    requires IsRun(states, actions) && i <= k < |states|
    ensures Now(states[k]) == Now(states[i]) <==> forall j {:trigger actions[j]} | i <= j < k :: !Advances(actions[j])
    decreases k
  {
    if i < k {
      RevisionStandsUntilAdvance(states, actions, i, k - 1);
      RevisionNeverDecreases(states, actions, i, k - 1);
      RevisionStep(states, actions, k - 1);
      EpochStays(states[k - 1], actions[k - 1]);
    }
  }

  /** A page bound to the revision of an earlier state is requested exactly when no session was created and
      none deleted since. */
  lemma BoundPageStartsUntilAdvance(states: seq<State>, actions: seq<Action>, i: nat, k: nat, first: bool)
    requires IsRun(states, actions) && i <= k < |states| && states[k].inFlight.None?
    ensures Step(states[k], BeginList(Some(Now(states[i])), first)).inFlight.Some? <==>
            forall j {:trigger actions[j]} | i <= j < k :: !Advances(actions[j])
  {
    RevisionStandsUntilAdvance(states, actions, i, k);
    ForeignRevisionIsRefused(states[k], Now(states[i]), first);
  }

  /** A page bound to another revision, or to another epoch, is refused before it is requested. */
  lemma ForeignRevisionIsRefused(s: State, expected: Revision, first: bool)
    requires s.inFlight.None?
    ensures Step(s, BeginList(Some(expected), first)).inFlight.Some? <==>
            expected.epoch == s.epoch && expected.number == s.revision
  {
  }

  // ---- Deletion reservations -----------------------------------------------------------------

  predicate Reserved(s: State, id: string, n: Allocation) {
    id in s.deletions && s.deletions[id].allocation == n
  }

  lemma ReservationsAreNotForged(s: State, a: Action, id: string, n: Allocation)
    requires Enabled(s, a) && n < s.nextAllocation
    ensures n < Step(s, a).nextAllocation && (Reserved(Step(s, a), id, n) ==> Reserved(s, id, n))
  {
  }

  /** Once a reservation is gone, releasing it again frees nothing, whoever reserved the session since. */
  lemma {:induction false} OldReleaseFreesNothing(states: seq<State>, actions: seq<Action>, i: nat, k: nat,
                                                  id: string, n: Allocation, requestId: string)
    requires IsRun(states, actions) && i <= k < |states|
    requires n < states[i].nextAllocation && !Reserved(states[i], id, n)
    ensures n < states[k].nextAllocation && !Reserved(states[k], id, n)
    ensures Step(states[k], Release(id, CatalogOnly(n), requestId)).deletions == states[k].deletions
    decreases k
  {
    if i < k {
      OldReleaseFreesNothing(states, actions, i, k - 1, id, n, requestId);
      ReservationsAreNotForged(states[k - 1], actions[k - 1], id, n);
    }
  }

  /** While a session is reserved no second reservation is made, and only the release of the reservation
      itself ends it. */
  lemma ReservationIsExclusive(s: State, a: Action, id: string)
    requires Enabled(s, a) && id in s.deletions
    ensures id in Step(s, a).deletions ==> Step(s, a).deletions[id] == s.deletions[id]
    ensures id !in Step(s, a).deletions <==>
            a == Release(id, CatalogOnly(s.deletions[id].allocation), s.deletions[id].requestId)
    ensures a.Reserve? && a.id == id ==> ReservationOf(s, id, a.tracked).Refused?
  {
  }

  /** The same for the operation of a tracked session: until the session itself is gone, no second delete
      starts, and only the release of its own incarnation and request ends it, never once it is uncertain. */
  lemma OperationIsExclusive(s: State, a: Action, id: string)
    requires Enabled(s, a) && id in s.operations
    ensures id in Step(s, a).operations ==>
              var now := Step(s, a).operations[id];
              && now.incarnation == s.operations[id].incarnation && now.requestId == s.operations[id].requestId
              && (s.operations[id].uncertain ==> now.uncertain)
    ensures id !in Step(s, a).operations <==>
            || a == EndSession(id)
            || (!s.operations[id].uncertain
                && a == Release(id, OfSession(s.operations[id].incarnation), s.operations[id].requestId))
    ensures a.Reserve? && a.id == id && a.tracked.Known? ==> ReservationOf(s, id, a.tracked).Refused?
  {
  }

  // ---- Pages ---------------------------------------------------------------------------------

  /** The page's rows are listed, a later one of the same session winning; other rows stay. */
  lemma {:induction false} InsertMeans(listed: map<string, string>, page: seq<Listing>)
    ensures Lists(listed, Insert(listed, page), page)
    decreases |page|
  {
    if page != [] {
      var n := |page| - 1;
      InsertMeans(listed, page[..n]);
      OneMoreRow(listed, Insert(listed, page[..n]), page[..n], page[n]);
      assert page == page[..n] + [page[n]];
    }
  }

  /** What a page does to the list, row by row. */
  ghost predicate Lists(listed: map<string, string>, after: map<string, string>, page: seq<Listing>) {
    && (forall id :: id in after <==> id in listed || exists k :: 0 <= k < |page| && page[k].id == id)
    && (forall id | id in after && forall k | 0 <= k < |page| :: page[k].id != id :: after[id] == listed[id])
    && (forall k | 0 <= k < |page| && (forall j | k < j < |page| :: page[j].id != page[k].id) ::
          after[page[k].id] == page[k].info)
  }

  lemma OneMoreRow(listed: map<string, string>, after: map<string, string>, page: seq<Listing>, row: Listing)
    requires Lists(listed, after, page)
    ensures Lists(listed, after[row.id := row.info], page + [row])
  {
    var more, next := page + [row], after[row.id := row.info];
    assert forall k | 0 <= k < |page| :: more[k] == page[k];
    assert more[|page|] == row;
    forall id ensures id in next <==> id in listed || exists k :: 0 <= k < |more| && more[k].id == id {
      if k :| 0 <= k < |page| && page[k].id == id {
        assert more[k].id == id;
      }
    }
    forall k | 0 <= k < |more| && (forall j | k < j < |more| :: more[j].id != more[k].id)
      ensures next[more[k].id] == more[k].info
    {
      if k < |page| {
        assert more[|page|].id != more[k].id;
        assert forall j | k < j < |page| :: page[j].id == more[j].id;
      }
    }
  }

  /** The step can take the row of this session off the list or rewrite it. */
  ghost predicate Touches(s: State, a: Action, id: string) {
    || a == DeleteListed(id) || a == Forget(id)
    || (&& a.FinishList? && s.inFlight.Some? && Commits(s, a.page)
        && (s.inFlight.value.first || exists k :: 0 <= k < |a.page.value| && a.page.value[k].id == id))
  }

  /** A row stays as it is, over any pages and other transitions, until a first page is committed, a page
      lists its session again, or the session is deleted or forgotten. */
  lemma {:induction false} RowsSurvive(states: seq<State>, actions: seq<Action>, i: nat, k: nat, id: string)
    requires IsRun(states, actions) && i <= k < |states|
    requires forall j {:trigger actions[j]} | i <= j < k :: !Touches(states[j], actions[j], id)
    ensures id in states[k].listed <==> id in states[i].listed
    ensures id in states[i].listed ==> states[k].listed[id] == states[i].listed[id]
    decreases k
  {
    if i < k {
      RowsSurvive(states, actions, i, k - 1, id);
      var s, a := states[k - 1], actions[k - 1];
      if a.FinishList? && Commits(s, a.page) {
        InsertMeans(s.listed, a.page.value);
      }
    }
  }

  // ---- The catalog updated in place ----------------------------------------------------------

  class CatalogState {
    const epoch: string
    var revision: nat
    var listed: map<string, string>
    var deletions: map<string, Deletion>
    var operations: map<string, Operation>
    var inFlight: Option<Ticket>
    var nextAllocation: Allocation
    var clock: nat    // counts the transitions, so that a ticket tells when it began

    function View(): State reads this {
      State(epoch, revision, listed, deletions, operations, inFlight, nextAllocation, clock)
    }

    ghost predicate Valid() reads this {
      Inv(View())
    }

    constructor (epoch: string)
      ensures Valid() && View() == Init(epoch)
    {
      this.epoch, revision, listed, deletions, operations := epoch, 0, map[], map[], map[];
      inFlight, nextAllocation, clock := None, 0, 0;
    }

    /** Under the list gate: check the expected revision and remember the current one. */
    method StartList(expected: Option<Revision>, first: bool) returns (ok: bool)
      requires Valid() && inFlight.None?
      modifies this
      ensures Valid() && View() == Step(old(View()), BeginList(expected, first))
      ensures ok <==> inFlight.Some?
      ensures ok <==> expected.None? || (expected.value.epoch == epoch && expected.value.number == revision)
      ensures ok ==> inFlight == Some(Ticket(Revision(epoch, revision), first, old(clock)))
      ensures listed == old(listed) && revision == old(revision)
    {
      StepKeepsInv(View(), BeginList(expected, first));
      ok := true;
      if expected.Some? && expected.value != Revision(epoch, revision) {
        ok := false;
      } else {
        inFlight := Some(Ticket(Revision(epoch, revision), first, clock));
      }
      clock := clock + 1;
    }

    /** Commit a page, if the revision is still the one of its request. */
    method CommitPage(page: Option<seq<Listing>>) returns (ok: bool)
      requires Valid() && inFlight.Some?
      modifies this
      ensures Valid() && View() == Step(old(View()), FinishList(page))
      ensures ok <==> Commits(old(View()), page)
      ensures ok <==>
                && page.Some? && old(inFlight).value.revision.epoch == epoch
                && old(inFlight).value.revision.number == revision
      ensures !ok ==> listed == old(listed)
      ensures ok ==>
                && (forall id :: id in listed <==>
                      || (exists k :: 0 <= k < |page.value| && page.value[k].id == id)
                      || (!old(inFlight).value.first && id in old(listed)))
                && (forall id | id in listed && forall k | 0 <= k < |page.value| :: page.value[k].id != id ::
                      listed[id] == old(listed)[id])
                && (forall k | 0 <= k < |page.value|
                      && (forall j | k < j < |page.value| :: page.value[j].id != page.value[k].id) ::
                      listed[page.value[k].id] == page.value[k].info)
      ensures inFlight.None? && revision == old(revision) && deletions == old(deletions)
    {
      StepKeepsInv(View(), FinishList(page));
      if page.Some? {
        InsertMeans(if inFlight.value.first then map[] else listed, page.value);
      }
      var ticket := inFlight.value;
      inFlight, clock, ok := None, clock + 1, false;
      if page.None? || ticket.revision != Revision(epoch, revision) {
        return;
      }
      if ticket.first {
        listed := map[];
      }
      InsertAll(page.value);
      return true;
    }

    method InsertAll(sessions: seq<Listing>)
      modifies this`listed
      ensures listed == Insert(old(listed), sessions)
    {
      var k := 0;
      while k < |sessions|
        invariant 0 <= k <= |sessions| && listed == Insert(old(listed), sessions[..k])
      {
        assert sessions[..k + 1][..k] == sessions[..k];
        listed := listed[sessions[k].id := sessions[k].info];
        k := k + 1;
      }
      assert sessions[..k] == sessions;
    }

    method AdvanceRevision()
      requires Valid()
      modifies this
      ensures Valid() && View() == Step(old(View()), CreateSession)
      ensures revision == old(revision) + 1 && listed == old(listed)
    {
      StepKeepsInv(View(), CreateSession);
      revision, clock := revision + 1, clock + 1;
    }

    method ReserveDeletion(id: string, requestId: string, tracked: Tracked) returns (reservation: Reservation)
      requires Valid()
      modifies this
      ensures Valid() && View() == Step(old(View()), Reserve(id, requestId, tracked))
      ensures reservation == ReservationOf(old(View()), id, tracked)
      ensures reservation.Refused? <==>
                || tracked.HistoryLoading? || id in old(deletions)
                || (tracked.Known? && (!tracked.mayDelete || id in old(operations)))
      ensures reservation.OfSession? <==> !reservation.Refused? && tracked.Known? && tracked.incarnation != 0
      ensures reservation.OfSession? ==>
                && reservation.incarnation == tracked.incarnation && deletions == old(deletions)
                && operations == old(operations)[id := Operation(tracked.incarnation, requestId, false)]
      ensures reservation.CatalogOnly? ==>
                && reservation.allocation == old(nextAllocation) < nextAllocation && operations == old(operations)
                && deletions == old(deletions)[id := Deletion(requestId, old(nextAllocation))]
      ensures reservation.Refused? ==> deletions == old(deletions) && operations == old(operations)
      ensures listed == old(listed) && revision == old(revision)
    {
      StepKeepsInv(View(), Reserve(id, requestId, tracked));
      clock := clock + 1;
      if tracked.HistoryLoading? || id in deletions {
        return Refused;
      }
      if tracked.Known? {
        if !tracked.mayDelete || id in operations {
          return Refused;
        }
        if tracked.incarnation != 0 {
          operations := operations[id := Operation(tracked.incarnation, requestId, false)];
          return OfSession(tracked.incarnation);
        }
      }
      var allocation := nextAllocation;
      nextAllocation := nextAllocation + 1;
      deletions := deletions[id := Deletion(requestId, allocation)];
      return CatalogOnly(allocation);
    }

    method ReleaseDeletion(id: string, reservation: Reservation, requestId: string)
      requires Valid()
      modifies this
      ensures Valid() && View() == Step(old(View()), Release(id, reservation, requestId))
      ensures deletions == if && reservation.CatalogOnly? && id in old(deletions)
                              && old(deletions)[id].allocation == reservation.allocation
                              && old(deletions)[id].requestId == requestId
                           then old(deletions) - {id} else old(deletions)
      ensures operations == if && reservation.OfSession? && id in old(operations)
                               && old(operations)[id].incarnation == reservation.incarnation
                               && old(operations)[id].requestId == requestId && !old(operations)[id].uncertain
                            then old(operations) - {id} else old(operations)
      ensures listed == old(listed) && revision == old(revision)
    {
      StepKeepsInv(View(), Release(id, reservation, requestId));
      clock := clock + 1;
      match reservation {
        case CatalogOnly(allocation) =>
          if id in deletions && deletions[id].allocation == allocation && deletions[id].requestId == requestId {
            deletions := deletions - {id};
          }
        case OfSession(incarnation) =>
          ReleaseSessionOperation(id, incarnation, requestId);
        case Refused =>
      }
    }

    /** An uncertain operation stays; a late completion does not release a newer one. */
    method ReleaseSessionOperation(id: string, incarnation: nat, requestId: string)
      modifies this`operations
      ensures operations ==
              if Frees(old(View()), id, OfSession(incarnation), requestId) then old(operations) - {id}
              else old(operations)
    {
      if id !in operations || operations[id].incarnation != incarnation || operations[id].requestId != requestId {
        return;
      }
      if operations[id].uncertain {
        return;
      }
      operations := operations - {id};
    }

    /** The end of a catalog-only delete: the reservation goes in any case, the listing on success. */
    method FinishCatalogDelete(id: string, allocation: Allocation, requestId: string, succeeded: bool)
      requires Valid()
      modifies this
      ensures Valid()
      ensures
        var released := Step(old(View()), Release(id, CatalogOnly(allocation), requestId));
        View() == if succeeded then Step(released, DeleteListed(id)) else released
      ensures listed == (if succeeded then old(listed) - {id} else old(listed))
      ensures revision == old(revision) + (if succeeded then 1 else 0)
      ensures deletions == if id in old(deletions) && old(deletions)[id] == Deletion(requestId, allocation)
                           then old(deletions) - {id} else old(deletions)
    {
      ReleaseDeletion(id, CatalogOnly(allocation), requestId);
      if succeeded {
        StepKeepsInv(View(), DeleteListed(id));
        listed := listed - {id};
        revision, clock := revision + 1, clock + 1;
      }
    }
  }
}
