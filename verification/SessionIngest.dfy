/** The ingest part of the bridge state: creation staging with its accounting, and replay validation
    as a transaction fenced by allocation identity.

    A session entry keeps only what these transitions read: its incarnation, whether its live state
    owns resources, whether it is attached and active, and the two validation slots of its resources. */
module SessionIngest {
  import opened Prelude
  import opened Sums

  type Allocation = nat

  /** Semantic state of one stream of updates; `entities` stands for its session-scoped tracking. */
  datatype Validation = Validation(allocation: Allocation, updateCount: nat, updateBytes: nat,
                                   invalidReason: Option<string>, entities: string)

  datatype Owner = Owner(incarnation: Option<nat>, allocation: Allocation)

  datatype Backup = Backup(owner: Owner, previous: Option<Validation>)

  datatype Session = Session(incarnation: nat, live: bool, attached: bool, active: bool,
                             validation: Option<Validation>, backup: Option<Backup>)

  datatype Notification = Notification(update: string, size: nat)

  datatype Staging = Staging(validation: Validation, early: seq<Notification>, bytes: nat)

  datatype State = State(sessions: map<string, Session>, staging: map<string, Staging>,
                         earlyCount: nat, earlyBytes: nat, pendingCreations: nat,
                         retired: set<string>, nextAllocation: Allocation)

  const INIT := State(map[], map[], 0, 0, 0, {}, 0)

  function Fresh(allocation: Allocation): Validation {
    Validation(allocation, 0, 0, None, "")
  }

  function SaturatingSub(a: nat, b: nat): nat {
    if a < b then 0 else a - b
  }

  /** The session's validation, whatever its lifecycle. */
  function Current(s: State, id: string): Option<Validation> {
    if id in s.sessions then s.sessions[id].validation else None
  }

  function Staged(s: State, id: string): Option<Validation> {
    if id in s.staging then Some(s.staging[id].validation) else None
  }

  predicate HasResources(s: State, id: string, incarnation: nat) {
    id in s.sessions && s.sessions[id].incarnation == incarnation
  }

  predicate Holds(v: Option<Validation>, a: Allocation) {
    v.Some? && v.value.allocation == a
  }

  predicate IsLive(s: State, id: string) {
    id in s.sessions && s.sessions[id].live
  }

  predicate Matches(s: State, id: string, o: Owner) {
    if o.incarnation.Some? then
      HasResources(s, id, o.incarnation.value) && Holds(Current(s, id), o.allocation)
    else
      Holds(Current(s, id), o.allocation) || (!IsLive(s, id) && Holds(Staged(s, id), o.allocation))
  }

  function WithSession(s: State, id: string, session: Session): State {
    s.(sessions := s.sessions[id := session])
  }

  // ---- Replay validation ---------------------------------------------------------------------

  function Begin(s: State, id: string): State
    requires id in s.sessions
  {
    var session := s.sessions[id];
    var owner := Owner(Some(session.incarnation), s.nextAllocation);
    WithSession(s, id, session.(validation := Some(Fresh(s.nextAllocation)),
                                backup := Some(Backup(owner, session.validation))))
      .(nextAllocation := s.nextAllocation + 1)
  }

  /** The backup that this owner may take. */
  function Takes(s: State, id: string, o: Owner): Option<Backup> {
    if o.incarnation.Some? && HasResources(s, id, o.incarnation.value)
       && s.sessions[id].backup.Some? && s.sessions[id].backup.value.owner.allocation == o.allocation
    then s.sessions[id].backup else None
  }

  function RetireTurn(v: Validation): Validation {
    v.(updateCount := 0, updateBytes := 0, invalidReason := None)
  }

  function Commit(s: State, id: string, o: Owner): State {
    if Takes(s, id, o).None? then s
    else
      var session := s.sessions[id].(backup := None);
      WithSession(s, id, if Matches(s, id, o) && session.validation.Some?
                         then session.(validation := Some(RetireTurn(session.validation.value)))
                         else session)
  }

  function Rollback(s: State, id: string, o: Owner): State {
    var backup := Takes(s, id, o);
    if backup.None? then s
    else
      var session := s.sessions[id].(backup := None);
      WithSession(s, id, if Matches(s, id, o) then session.(validation := backup.value.previous) else session)
  }

  function ClearTracking(s: State, id: string, o: Owner, clearValidation: bool): State {
    if !Matches(s, id, o) then s
    else if id in s.sessions && s.sessions[id].backup.Some? then Rollback(s, id, o)
    else if clearValidation && id in s.sessions then
      WithSession(s, id, s.sessions[id].(validation := None))
    else s
  }

  function ClearIngest(s: State, id: string, incarnation: nat): State {
    if HasResources(s, id, incarnation) then
      WithSession(s, id, s.sessions[id].(validation := None, backup := None))
    else s
  }

  function EnsureValidation(s: State, id: string, incarnation: nat): State {
    if HasResources(s, id, incarnation) && s.sessions[id].validation.None? then
      WithSession(s, id, s.sessions[id].(validation := Some(Fresh(s.nextAllocation))))
        .(nextAllocation := s.nextAllocation + 1)
    else s
  }

  /** An update tracked by its owner; the allocation never changes. */
  function Track(s: State, id: string, o: Owner, tracked: Validation): State {
    if !Matches(s, id, o) then s
    else if o.incarnation.None? && Holds(Staged(s, id), o.allocation) then
      s.(staging := s.staging[id := s.staging[id].(validation := tracked.(allocation := o.allocation))])
    else if Current(s, id).Some? then
      WithSession(s, id, s.sessions[id].(validation := Some(tracked.(allocation := Current(s, id).value.allocation))))
    else s
  }

  /** A loaded candidate takes the place of the current validation under the same allocation. */
  function Load(s: State, id: string, loaded: Validation): State {
    if Current(s, id).None? then s
    else WithSession(s, id, s.sessions[id].(validation := Some(loaded.(allocation := Current(s, id).value.allocation))))
  }

  // ---- Creation staging ----------------------------------------------------------------------

  function Stage(s: State, id: string): State {
    if id in s.staging then s
    else s.(staging := s.staging[id := Staging(Fresh(s.nextAllocation), [], 0)],
            nextAllocation := s.nextAllocation + 1)
  }

  /** An update for an unknown session is staged only while creations are pending. */
  predicate Stages(s: State, id: string) {
    && !IsLive(s, id) && s.pendingCreations > 0 && id !in s.retired && id != ""
    && (id in s.staging || |s.staging| < s.pendingCreations)
  }

  predicate IsAttached(s: State, id: string) {
    id in s.sessions && s.sessions[id].attached
  }

  /** An update that still has its owner is kept for a pending creation when the session is neither
      attached nor being attached. */
  predicate ArrivesEarly(s: State, id: string, attaching: bool) {
    !IsAttached(s, id) && !attaching && s.pendingCreations > 0 && id !in s.retired
  }

  function Append(s: State, id: string, n: Notification): State
    requires id in s.staging
  {
    var staging := s.staging[id];
    s.(staging := s.staging[id := staging.(early := staging.early + [n], bytes := staging.bytes + n.size)],
       earlyCount := s.earlyCount + 1, earlyBytes := s.earlyBytes + n.size)
  }

  function Discount(s: State, staging: Staging): State {
    s.(earlyCount := SaturatingSub(s.earlyCount, |staging.early|),
       earlyBytes := SaturatingSub(s.earlyBytes, staging.bytes))
  }

  function TakeNotifications(s: State, id: string): State {
    if id !in s.staging then s
    else Discount(s, s.staging[id]).(staging := s.staging[id := s.staging[id].(early := [], bytes := 0)])
  }

  function DiscardStaging(s: State, id: string): State {
    if id !in s.staging then s else Discount(s, s.staging[id]).(staging := s.staging - {id})
  }

  predicate CanPromote(s: State, id: string, incarnation: nat) {
    && incarnation != 0 && HasResources(s, id, incarnation) && s.sessions[id].active
    && s.sessions[id].validation.None? && id in s.staging
  }

  function Promote(s: State, id: string, incarnation: nat): State {
    if !CanPromote(s, id, incarnation) then s
    else
      WithSession(DiscardStaging(s, id), id,
                  s.sessions[id].(validation := Some(s.staging[id].validation)))
  }

  // ---- Steps ---------------------------------------------------------------------------------

  datatype Action =
    | BeginReplay(id: string)
    | CommitReplay(id: string, owner: Owner)
    | RollbackReplay(id: string, owner: Owner)
    | ClearAttachment(id: string, owner: Owner, clearValidation: bool)
    | ClearSession(id: string, incarnation: nat)
    | Ensure(id: string, incarnation: nat)
    | TrackUpdate(id: string, owner: Owner, tracked: Validation)
    | LoadCandidate(id: string, loaded: Validation)
    | StageUpdate(id: string)
    | PrepareResponse(id: string)
    | AppendEarly(id: string, owner: Owner, notification: Notification)
    | TakeEarly(id: string)
    | DiscardEarly(id: string)
    | PromoteCreation(id: string, incarnation: nat)
    | SetPending(count: nat)
    | Install(id: string, incarnation: nat, attached: bool, active: bool)
    | SetLifecycle(id: string, live: bool, attached: bool, active: bool)
    | Retire(id: string)

  predicate Enabled(s: State, a: Action) {
    match a
    case BeginReplay(id) => id in s.sessions
    case StageUpdate(id) => Stages(s, id)
    case AppendEarly(id, o, _) => Matches(s, id, o) && ArrivesEarly(s, id, false) && id in s.staging
    case Install(id, n, attached, active) =>
      (active ==> attached) && (id in s.sessions ==> s.sessions[id].incarnation < n)
    case SetLifecycle(id, live, attached, active) => id in s.sessions && (active ==> attached) && (attached ==> live)
    case _ => true
  }

  function Step(s: State, a: Action): State
    requires Enabled(s, a)
  {
    match a
    case BeginReplay(id) => Begin(s, id)
    case CommitReplay(id, o) => Commit(s, id, o)
    case RollbackReplay(id, o) => Rollback(s, id, o)
    case ClearAttachment(id, o, c) => ClearTracking(s, id, o, c)
    case ClearSession(id, n) => ClearIngest(s, id, n)
    case Ensure(id, n) => EnsureValidation(s, id, n)
    case TrackUpdate(id, o, v) => Track(s, id, o, v)
    case LoadCandidate(id, v) => Load(s, id, v)
    case StageUpdate(id) => Stage(s, id)
    case PrepareResponse(id) => Stage(s, id)
    case AppendEarly(id, _, n) => Append(s, id, n)
    case TakeEarly(id) => TakeNotifications(s, id)
    case DiscardEarly(id) => DiscardStaging(s, id)
    case PromoteCreation(id, n) => Promote(s, id, n)
    case SetPending(count) => s.(pendingCreations := count)
    case Install(id, n, attached, active) => WithSession(s, id, Session(n, true, attached, active, None, None))
    case SetLifecycle(id, live, attached, active) =>
      WithSession(s, id, s.sessions[id].(live := live, attached := attached, active := active))
    case Retire(id) => s.(sessions := s.sessions - {id}, retired := s.retired + {id})
  }

  // ---- Accounting ----------------------------------------------------------------------------

  function Counts(staging: map<string, Staging>): map<string, nat> {
    map id | id in staging :: |staging[id].early|
  }

  function Bytes(staging: map<string, Staging>): map<string, nat> {
    map id | id in staging :: staging[id].bytes
  }

  function TotalSize(early: seq<Notification>): nat {
    if early == [] then 0 else TotalSize(early[..|early| - 1]) + early[|early| - 1].size
  }

  ghost predicate Accounted(s: State) {
    && s.earlyCount == Sum(Counts(s.staging)) && s.earlyBytes == Sum(Bytes(s.staging))
    && forall id :: id in s.staging ==> s.staging[id].bytes == TotalSize(s.staging[id].early)
  }

  lemma SetAccount(staging: map<string, Staging>, id: string, staged: Staging)
    ensures Sum(Counts(staging[id := staged]))
            == Sum(Counts(staging)) - (if id in staging then |staging[id].early| else 0) + |staged.early|
    ensures Sum(Bytes(staging[id := staged]))
            == Sum(Bytes(staging)) - (if id in staging then staging[id].bytes else 0) + staged.bytes
  {
    SumWith(Counts(staging), id, |staged.early|);
    SumWith(Bytes(staging), id, staged.bytes);
    assert Counts(staging[id := staged]) == Counts(staging)[id := |staged.early|];
    assert Bytes(staging[id := staged]) == Bytes(staging)[id := staged.bytes];
  }

  lemma RemoveAccount(staging: map<string, Staging>, id: string)
    requires id in staging
    ensures Sum(Counts(staging - {id})) == Sum(Counts(staging)) - |staging[id].early|
    ensures Sum(Bytes(staging - {id})) == Sum(Bytes(staging)) - staging[id].bytes
  {
    SumWith(Counts(staging), id, 0);
    SumWith(Bytes(staging), id, 0);
    assert Counts(staging - {id}) == Counts(staging) - {id};
    assert Bytes(staging - {id}) == Bytes(staging) - {id};
  }

  /** No subtraction of a staged entry saturates. */
  lemma NeverSaturates(s: State, id: string)
    requires Accounted(s) && id in s.staging
    ensures |s.staging[id].early| <= s.earlyCount && s.staging[id].bytes <= s.earlyBytes
  {
    RemoveAccount(s.staging, id);
  }

  lemma DiscardAccounts(s: State, id: string)
    requires Accounted(s)
    ensures Accounted(DiscardStaging(s, id))
  {
    if id in s.staging {
      NeverSaturates(s, id);
      RemoveAccount(s.staging, id);
    }
  }

  lemma TrackAccounts(s: State, id: string, v: Validation)
    requires Accounted(s) && id in s.staging
    ensures Accounted(s.(staging := s.staging[id := s.staging[id].(validation := v)]))
  {
    SetAccount(s.staging, id, s.staging[id].(validation := v));
  }

  lemma StageAccounts(s: State, id: string)
    requires Accounted(s)
    ensures Accounted(Stage(s, id))
  {
    SetAccount(s.staging, id, Staging(Fresh(s.nextAllocation), [], 0));
  }

  lemma AppendAccounts(s: State, id: string, n: Notification)
    requires Accounted(s) && id in s.staging
    ensures Accounted(Append(s, id, n))
  {
    var early := s.staging[id].early + [n];
    assert early[..|early| - 1] == s.staging[id].early;
    SetAccount(s.staging, id, Append(s, id, n).staging[id]);
  }

  lemma TakeAccounts(s: State, id: string)
    requires Accounted(s)
    ensures Accounted(TakeNotifications(s, id))
  {
    if id in s.staging {
      NeverSaturates(s, id);
      SetAccount(s.staging, id, s.staging[id].(early := [], bytes := 0));
    }
  }

  lemma StepAccounts(s: State, a: Action)
    requires Accounted(s) && Enabled(s, a)
    ensures Accounted(Step(s, a))
  {
    match a
    case TrackUpdate(id, o, v) =>
      if Matches(s, id, o) && o.incarnation.None? && Holds(Staged(s, id), o.allocation) {
        TrackAccounts(s, id, v.(allocation := o.allocation));
      }
    case StageUpdate(id) => StageAccounts(s, id);
    case PrepareResponse(id) => StageAccounts(s, id);
    case AppendEarly(id, _, n) => AppendAccounts(s, id, n);
    case TakeEarly(id) => TakeAccounts(s, id);
    case DiscardEarly(id) => DiscardAccounts(s, id);
    case PromoteCreation(id, n) => DiscardAccounts(s, id);
    case _ =>
  }

  // ---- Homes of allocations ------------------------------------------------------------------

  datatype Home = InStaging(id: string) | InSession(id: string) | InBackup(id: string)

  predicate HomeOf(s: State, a: Allocation, h: Home) {
    match h
    case InStaging(id) => Holds(Staged(s, id), a)
    case InSession(id) => Holds(Current(s, id), a)
    case InBackup(id) =>
      id in s.sessions && s.sessions[id].backup.Some? && Holds(s.sessions[id].backup.value.previous, a)
  }

  /** Every allocation in use was issued and has one home. */
  ghost predicate OneHome(s: State) {
    forall a: Allocation, h, k :: HomeOf(s, a, h) && HomeOf(s, a, k) ==> h == k && a < s.nextAllocation
  }

  /** A held backup belongs to the owner of the current validation. */
  predicate BackupOk(session: Session) {
    session.backup.Some? ==>
      && session.validation.Some?
      && session.backup.value.owner == Owner(Some(session.incarnation), session.validation.value.allocation)
  }

  ghost predicate BackupsOk(s: State) {
    forall id :: id in s.sessions ==> BackupOk(s.sessions[id])
  }

  ghost predicate Inv(s: State) {
    Accounted(s) && OneHome(s) && BackupsOk(s)
  }

  lemma StepKeepsBackups(s: State, a: Action)
    requires BackupsOk(s) && Enabled(s, a)
    ensures BackupsOk(Step(s, a))
  {
  }

  /** The step moves what is in `from` to `to`. */
  datatype Move = Stay | Moved(from: Home, to: Home)

  function HomeMove(s: State, a: Action): Move {
    match a
    case BeginReplay(id) => Moved(InSession(id), InBackup(id))
    case RollbackReplay(id, o) => if Takes(s, id, o).Some? then Moved(InBackup(id), InSession(id)) else Stay
    case ClearAttachment(id, o, _) =>
      if Matches(s, id, o) && id in s.sessions && Takes(s, id, o).Some? then Moved(InBackup(id), InSession(id))
      else Stay
    case PromoteCreation(id, n) =>
      if CanPromote(s, id, n) then Moved(InStaging(id), InSession(id)) else Stay
    case _ => Stay
  }

  /** The home of the allocation that the step issues, if it issues one. */
  function NewHome(a: Action): Option<Home> {
    match a
    case BeginReplay(id) => Some(InSession(id))
    case Ensure(id, _) => Some(InSession(id))
    case StageUpdate(id) => Some(InStaging(id))
    case PrepareResponse(id) => Some(InStaging(id))
    case _ => None
  }

  function HomeBefore(s: State, a: Action, h: Home): Home {
    var m := HomeMove(s, a);
    if m.Moved? && h == m.to then m.from else h
  }

  /** The home is new, or was a home before the step. */
  predicate Traced(s: State, a: Action, x: Allocation, h: Home)
    requires Enabled(s, a)
  {
    || (x == s.nextAllocation && s.nextAllocation < Step(s, a).nextAllocation && NewHome(a) == Some(h))
    || (HomeOf(s, x, HomeBefore(s, a, h)) && (HomeMove(s, a).Moved? ==> h != HomeMove(s, a).from))
  }

  lemma StagingTraced(s: State, a: Action, x: Allocation, id: string)
    requires Enabled(s, a) && HomeOf(Step(s, a), x, InStaging(id))
    ensures Traced(s, a, x, InStaging(id))
  {
  }

  lemma SessionTraced(s: State, a: Action, x: Allocation, id: string)
    requires BackupsOk(s) && Enabled(s, a) && HomeOf(Step(s, a), x, InSession(id))
    ensures Traced(s, a, x, InSession(id))
  {
  }

  lemma BackupTraced(s: State, a: Action, x: Allocation, id: string)
    requires BackupsOk(s) && Enabled(s, a) && HomeOf(Step(s, a), x, InBackup(id))
    ensures Traced(s, a, x, InBackup(id))
  {
  }

  lemma HomeTraced(s: State, a: Action, x: Allocation, h: Home)
    requires BackupsOk(s) && Enabled(s, a) && HomeOf(Step(s, a), x, h)
    ensures Traced(s, a, x, h)
  {
    match h
    case InStaging(id) => StagingTraced(s, a, x, id);
    case InSession(id) => SessionTraced(s, a, x, id);
    case InBackup(id) => BackupTraced(s, a, x, id);
  }

  lemma StepKeepsHomes(s: State, a: Action)
    requires OneHome(s) && BackupsOk(s) && Enabled(s, a)
    ensures OneHome(Step(s, a))
  {
    var t := Step(s, a);
    assert s.nextAllocation <= t.nextAllocation;
    forall x: Allocation, h, k | HomeOf(t, x, h) && HomeOf(t, x, k) ensures h == k && x < t.nextAllocation {
      HomeTraced(s, a, x, h);
      HomeTraced(s, a, x, k);
    }
  }

  lemma StepKeepsInv(s: State, a: Action)
    requires Inv(s) && Enabled(s, a)
    ensures Inv(Step(s, a))
  {
    StepAccounts(s, a);
    StepKeepsHomes(s, a);
    StepKeepsBackups(s, a);
  }
}
