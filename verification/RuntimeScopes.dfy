/** The changes of the runtime state: what the registry commits and what the hub's fold accepts.

    Every change carries the revision of the scope it belongs to, the connection or one session, and the
    hub refuses a change that does not continue its scope. Fields that neither side looks at are kept
    together as texts. */
module RuntimeScopes {
  import opened Prelude
  import Publication = RuntimePublication

  datatype Turn = Turn(operationId: string, updates: seq<string>)

  datatype Session = Session(incarnation: nat, revision: nat, closed: bool, turn: Option<Turn>,
                             control: map<string, string>, terminals: map<string, string>,
                             history: string, details: string)

  datatype Snapshot = Snapshot(connectionRevision: nat, connection: string, sessions: map<string, Session>)

  datatype Change =
    | ConnectionUpsert(scope: Option<nat>, connection: string)
    | SessionUpsert(scope: Option<nat>, id: string, session: Session)
    | SessionControlUpdated(scope: Option<nat>, id: string, incarnation: nat, revision: nat, key: string,
                            update: string, history: string)
    | TurnUpdateAppended(scope: Option<nat>, id: string, incarnation: nat, revision: nat, operationId: string,
                         update: string)
    | TerminalUpdated(scope: Option<nat>, id: string, incarnation: nat, revision: nat, terminalId: string,
                      terminal: string, released: bool)
    | SessionRemoved(scope: Option<nat>, id: string, incarnation: nat)

  /** How a turn's updates and a terminal's snapshots fold; the same code on both sides. */
  datatype Folds = Folds(turn: (seq<string>, string) -> Option<seq<string>>,
                         terminal: (Option<string>, string) -> string)

  function Lookup(terminals: map<string, string>, id: string): Option<string> {
    if id in terminals then Some(terminals[id]) else None
  }

  function FoldTerminal(f: Folds, terminals: map<string, string>, id: string, terminal: string, released: bool)
    : map<string, string>
  {
    if released then terminals - {id} else terminals[id := f.terminal(Lookup(terminals, id), terminal)]
  }

  function With(s: Snapshot, id: string, session: Session): Snapshot {
    s.(sessions := s.sessions[id := session])
  }

  // ---- The hub ---------------------------------------------------------------------------------

  /** The change continues the session's scope. */
  predicate Continues(s: Snapshot, scope: Option<nat>, id: string, incarnation: nat, revision: nat) {
    && scope == Some(revision)
    && id in s.sessions && s.sessions[id].incarnation == incarnation
    && revision == s.sessions[id].revision + 1
  }

  predicate AcceptsUpsert(s: Snapshot, id: string, session: Session) {
    if id !in s.sessions then session.revision == 1
    else if s.sessions[id].incarnation == session.incarnation then session.revision == s.sessions[id].revision + 1
    else s.sessions[id].closed && session.revision == 1
  }

  /** The hub's fold of one change; none when it refuses it. */
  function Apply(f: Folds, s: Snapshot, c: Change): Option<Snapshot> {
    match c
    case ConnectionUpsert(scope, connection) =>
      if scope == Some(s.connectionRevision + 1)
      then Some(s.(connectionRevision := scope.value, connection := connection)) else None
    case SessionUpsert(scope, id, session) =>
      if scope == Some(session.revision) && AcceptsUpsert(s, id, session) then Some(With(s, id, session)) else None
    case SessionControlUpdated(scope, id, incarnation, revision, key, update, history) =>
      if !Continues(s, scope, id, incarnation, revision) then None
      else
        var x := s.sessions[id];
        Some(With(s, id, x.(control := x.control[key := update], revision := revision, history := history)))
    case TurnUpdateAppended(scope, id, incarnation, revision, operationId, update) =>
      if !Continues(s, scope, id, incarnation, revision) || s.sessions[id].turn.None?
         || s.sessions[id].turn.value.operationId != operationId
      then None
      else
        var x := s.sessions[id];
        (match f.turn(x.turn.value.updates, update)
         case None => None
         case Some(updates) =>
           Some(With(s, id, x.(turn := Some(x.turn.value.(updates := updates)), revision := revision))))
    case TerminalUpdated(scope, id, incarnation, revision, terminalId, terminal, released) =>
      if !Continues(s, scope, id, incarnation, revision) then None
      else
        var x := s.sessions[id];
        Some(With(s, id, x.(terminals := FoldTerminal(f, x.terminals, terminalId, terminal, released),
                            revision := revision)))
    case SessionRemoved(_, id, incarnation) =>
      if id in s.sessions && s.sessions[id].incarnation != incarnation then None
      else Some(s.(sessions := s.sessions - {id}))
  }

  // ---- What an accepted change changes ---------------------------------------------------------

  /** An accepted change leaves every other session as it was, and the connection too unless it is a change
      of the connection, which leaves all sessions as they were. */
  lemma {:induction false} OnlyItsOwnScope(f: Folds, s: Snapshot, c: Change, other: string)
    ensures Apply(f, s, c).Some? && (c.ConnectionUpsert? || other != c.id) ==>
              var t := Apply(f, s, c).value.sessions;
              (other in t <==> other in s.sessions) && (other in s.sessions ==> t[other] == s.sessions[other])
    ensures Apply(f, s, c).Some? && !c.ConnectionUpsert? ==>
              && Apply(f, s, c).value.connection == s.connection
              && Apply(f, s, c).value.connectionRevision == s.connectionRevision
  {
  }

  /** The change updates an existing session. */
  predicate Updates(c: Change) {
    c.SessionControlUpdated? || c.TurnUpdateAppended? || c.TerminalUpdated?
  }

  /** An update is accepted exactly if it names the revision after the session's own, twice, and the session's
      own incarnation; one of a turn has to name the active turn's operation, and its update has to fold. */
  lemma {:induction false} UpdateAcceptedExactly(f: Folds, s: Snapshot, c: Change)
    ensures Updates(c) ==>
              (Apply(f, s, c).Some? <==>
               && c.id in s.sessions
               && c.incarnation == s.sessions[c.id].incarnation
               && c.revision == s.sessions[c.id].revision + 1 && c.scope == Some(s.sessions[c.id].revision + 1)
               && (c.TurnUpdateAppended? ==>
                     && s.sessions[c.id].turn.Some? && s.sessions[c.id].turn.value.operationId == c.operationId
                     && f.turn(s.sessions[c.id].turn.value.updates, c.update).Some?))
  {
  }

  /** What an accepted update does to its session: the next revision, and one of the control state, the turn
      and the terminals. A released terminal is gone; any other is folded onto the one that was there. */
  lemma {:induction false} UpdateDoesExactly(f: Folds, s: Snapshot, c: Change)
    ensures Updates(c) && Apply(f, s, c).Some? ==>
              && c.id in s.sessions && c.id in Apply(f, s, c).value.sessions
              && var x, y := s.sessions[c.id], Apply(f, s, c).value.sessions[c.id];
                 && y.incarnation == x.incarnation && y.closed == x.closed && y.details == x.details
                 && y.revision == x.revision + 1
                 && (if c.SessionControlUpdated? then
                       && y.control == x.control[c.key := c.update] && y.history == c.history
                       && y.turn == x.turn && y.terminals == x.terminals
                     else if c.TurnUpdateAppended? then
                       && x.turn.Some? && y.turn.Some? && y.turn.value.operationId == x.turn.value.operationId
                       && f.turn(x.turn.value.updates, c.update) == Some(y.turn.value.updates)
                       && y.control == x.control && y.history == x.history && y.terminals == x.terminals
                     else
                       && y.control == x.control && y.history == x.history && y.turn == x.turn
                       && (c.terminalId in y.terminals <==> !c.released)
                       && (!c.released ==>
                             y.terminals[c.terminalId] ==
                             f.terminal(if c.terminalId in x.terminals then Some(x.terminals[c.terminalId]) else None,
                                        c.terminal))
                       && forall other | other != c.terminalId ::
                            && (other in y.terminals <==> other in x.terminals)
                            && (other in x.terminals ==> y.terminals[other] == x.terminals[other]))
  {
  }

  /** A whole session is accepted as the next revision of its incarnation, or as the first one of a session
      that is absent or closed; it then stands as it was sent. */
  lemma {:induction false} UpsertExactly(f: Folds, s: Snapshot, scope: Option<nat>, id: string, session: Session)
    ensures var r := Apply(f, s, SessionUpsert(scope, id, session));
            && (r.Some? <==>
                && scope == Some(session.revision)
                && (|| (&& id in s.sessions && s.sessions[id].incarnation == session.incarnation
                        && session.revision == s.sessions[id].revision + 1)
                    || (&& session.revision == 1
                        && (id in s.sessions ==>
                              s.sessions[id].closed && s.sessions[id].incarnation != session.incarnation))))
            && (r.Some? ==> id in r.value.sessions && r.value.sessions[id] == session)
  {
  }

  /** A connection is accepted as the next revision; a removal is refused only for another incarnation, and
      then the session is gone. */
  lemma {:induction false} ConnectionAndRemoval(f: Folds, s: Snapshot, c: Change)
    ensures c.ConnectionUpsert? ==>
              && (Apply(f, s, c).Some? <==> c.scope == Some(s.connectionRevision + 1))
              && (Apply(f, s, c).Some? ==>
                    && Apply(f, s, c).value.connection == c.connection
                    && Apply(f, s, c).value.connectionRevision == s.connectionRevision + 1)
    ensures c.SessionRemoved? ==>
              && (Apply(f, s, c).Some? <==> (c.id in s.sessions ==> s.sessions[c.id].incarnation == c.incarnation))
              && (Apply(f, s, c).Some? ==> c.id !in Apply(f, s, c).value.sessions)
  {
  }

  // ---- The registry ----------------------------------------------------------------------------

  /** A transition of the registry that publishes a change. */
  datatype Commit =
    | ChangeConnection(connection: string)
    | Open(id: string, session: Session)       // a new incarnation of a session that is absent or closed
    | ChangeSession(id: string, session: Session)
    | UpdateControl(id: string, key: string, update: string, history: string)
    | AppendToTurn(id: string, update: string)
    | UpdateTerminal(id: string, terminalId: string, terminal: string, released: bool)
    | Remove(id: string, incarnation: nat)

  predicate CanCommit(f: Folds, s: Snapshot, k: Commit) {
    match k
    case ChangeConnection(_) => true
    case Open(id, session) =>
      id in s.sessions ==> s.sessions[id].closed && session.incarnation != s.sessions[id].incarnation
    case ChangeSession(id, session) => id in s.sessions && session.incarnation == s.sessions[id].incarnation
    case UpdateControl(id, _, _, _) => id in s.sessions
    case AppendToTurn(id, update) =>
      && id in s.sessions && s.sessions[id].turn.Some?
      && f.turn(s.sessions[id].turn.value.updates, update).Some?
    case UpdateTerminal(id, _, _, _) => id in s.sessions
    case Remove(id, incarnation) => id in s.sessions ==> s.sessions[id].incarnation == incarnation
  }

  /** Every transition of a session makes its next revision; a new incarnation starts at zero. */
  function Next(s: Snapshot, id: string): nat {
    if id in s.sessions then s.sessions[id].revision + 1 else 1
  }

  function After(f: Folds, s: Snapshot, k: Commit): Snapshot
    requires CanCommit(f, s, k)
  {
    match k
    case ChangeConnection(connection) =>
      s.(connectionRevision := s.connectionRevision + 1, connection := connection)
    case Open(id, session) => With(s, id, session.(revision := 1))
    case ChangeSession(id, session) => With(s, id, session.(revision := Next(s, id)))
    case UpdateControl(id, key, update, history) =>
      var x := s.sessions[id];
      With(s, id, x.(control := x.control[key := update], history := history, revision := Next(s, id)))
    case AppendToTurn(id, update) =>
      var x := s.sessions[id];
      var updates := f.turn(x.turn.value.updates, update).value;
      With(s, id, x.(turn := Some(x.turn.value.(updates := updates)), revision := Next(s, id)))
    case UpdateTerminal(id, terminalId, terminal, released) =>
      var x := s.sessions[id];
      With(s, id, x.(terminals := FoldTerminal(f, x.terminals, terminalId, terminal, released),
                     revision := Next(s, id)))
    case Remove(id, _) => s.(sessions := s.sessions - {id})
  }

  /** The change that the registry records for the transition. */
  function ChangeOf(f: Folds, s: Snapshot, k: Commit): Change
    requires CanCommit(f, s, k)
  {
    match k
    case ChangeConnection(connection) => ConnectionUpsert(Some(s.connectionRevision + 1), connection)
    case Open(id, session) => SessionUpsert(Some(1), id, session.(revision := 1))
    case ChangeSession(id, session) => SessionUpsert(Some(Next(s, id)), id, session.(revision := Next(s, id)))
    case UpdateControl(id, key, update, history) =>
      SessionControlUpdated(Some(Next(s, id)), id, s.sessions[id].incarnation, Next(s, id), key, update, history)
    case AppendToTurn(id, update) =>
      TurnUpdateAppended(Some(Next(s, id)), id, s.sessions[id].incarnation, Next(s, id),
                         s.sessions[id].turn.value.operationId, update)
    case UpdateTerminal(id, terminalId, terminal, released) =>
      TerminalUpdated(Some(Next(s, id)), id, s.sessions[id].incarnation, Next(s, id), terminalId, terminal, released)
    case Remove(id, incarnation) => SessionRemoved(None, id, incarnation)
  }

  // ---- The two agree ---------------------------------------------------------------------------

  /** The hub accepts every change that the registry records, and ends in the registry's own state. */
  lemma CommitsAreAccepted(f: Folds, s: Snapshot, k: Commit)
    requires CanCommit(f, s, k)
    ensures Apply(f, s, ChangeOf(f, s, k)) == Some(After(f, s, k))
  {
  }

  /** The transition whose change this is. */
  function Origin(s: Snapshot, c: Change): Commit {
    match c
    case ConnectionUpsert(_, connection) => ChangeConnection(connection)
    case SessionUpsert(_, id, session) =>
      if id in s.sessions && s.sessions[id].incarnation == session.incarnation then ChangeSession(id, session)
      else Open(id, session)
    case SessionControlUpdated(_, id, _, _, key, update, history) => UpdateControl(id, key, update, history)
    case TurnUpdateAppended(_, id, _, _, _, update) => AppendToTurn(id, update)
    case TerminalUpdated(_, id, _, _, terminalId, terminal, released) =>
      UpdateTerminal(id, terminalId, terminal, released)
    case SessionRemoved(_, id, incarnation) => Remove(id, incarnation)
  }

  /** A removal's scope revision is not looked at; the registry records none. */
  function Unscoped(c: Change): Change {
    if c.SessionRemoved? then c.(scope := None) else c
  }

  /** The hub accepts a change exactly when it is the one that the registry records for some transition it
      can make in that state: a change of an older or skipped revision, of another incarnation or of
      another turn is refused. */
  lemma AcceptsExactlyCommits(f: Folds, s: Snapshot, c: Change)
    ensures Apply(f, s, c).Some? <==>
            CanCommit(f, s, Origin(s, c)) && Unscoped(c) == ChangeOf(f, s, Origin(s, c))
    ensures forall k | CanCommit(f, s, k) && ChangeOf(f, s, k) == Unscoped(c) :: Apply(f, s, c) == Some(After(f, s, k))
  {
    forall k | CanCommit(f, s, k) && ChangeOf(f, s, k) == Unscoped(c) ensures Apply(f, s, c) == Some(After(f, s, k)) {
      CommitsAreAccepted(f, s, k);
      assert Apply(f, s, c) == Apply(f, s, Unscoped(c));
    }
  }

  /** The hub's fold for these folds of turns and terminals. */
  function Applying(f: Folds): (Snapshot, Change) -> Option<Snapshot> {
    (s, c) => Apply(f, s, c)
  }

  /** Whatever the registry commits is a step of publication, and the canonical state it leads to is the
      registry's. */
  lemma RegistryCommitIsStep(f: Folds, p: Publication.State<Snapshot, Change>, now: Snapshot, k: Commit)
    requires Publication.Canon(Applying(f), p) == Some(now) && CanCommit(f, now, k)
    ensures
      var a := Publication.Commit(ChangeOf(f, now, k));
      && Publication.Enabled(Applying(f), p, a)
      && Publication.Canon(Applying(f), Publication.Step(Applying(f), p, a)) == Some(After(f, now, k))
  {
    var t := Publication.Step(Applying(f), p, Publication.Commit(ChangeOf(f, now, k)));
    CommitsAreAccepted(f, now, k);
    Publication.StateAtStable(Applying(f), p, t, |p.history|);
  }
}
