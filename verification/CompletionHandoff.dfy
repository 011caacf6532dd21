/** The completion-handoff registry as a machine of atomic steps.

    A step is one section under the registry mutex, one channel operation, or one
    drop. Whatever a running call still owes after leaving the mutex is a `Duty`;
    duties of all calls may be performed in any order, so every interleaving of the
    registry's callers is a run of these steps. */
module CompletionHandoff {
  import opened Prelude

  /** A delivery guard: a linear token, numbered in the order of its creation. */
  type Guard = nat
  /** The identity of a registration: its position in the order of registration. */
  type Allocation = nat

  datatype RequestId = NullId | NumberId(number: int) | TextId(text: string)

  datatype Owner = Owner(epoch: string, sessionId: Option<string>, incarnation: Option<nat>,
                         operationId: string, attemptId: Option<string>)

  /** A completion together with the delivery guard it carries. */
  datatype Turn = Turn(owner: Owner, requestId: RequestId, guard: Guard)

  datatype Entry = Entry(allocation: Allocation, requestId: Option<RequestId>,
                         early: Option<Turn>, discardedEarly: Option<RequestId>)

  datatype Registration = Registration(owner: Owner, bound: Option<RequestId>, alive: bool)

  /** The one-shot channel of a registration. `Gone` means that the receiver was dropped. */
  datatype Channel = Empty | Full(turn: Turn) | Taken | Closed | Gone

  /** Work that some task still owes; a task that received a turn owes `DropTurn`. */
  datatype Duty =
    | Send(allocation: Allocation, turn: Turn)
    | DropEntry(entry: Entry)
    | DropTurn(turn: Turn)
    | Wake(guard: Guard)
    | DropReceiver(allocation: Allocation)

  datatype Pump = Awake | Scanning | Parked

  datatype World = World(
    closed: bool,
    entries: map<Owner, Entry>,
    registrations: seq<Registration>,
    channels: seq<Channel>,
    duties: set<Duty>,
    guards: nat,                           // guards issued so far
    released: seq<Guard>,                  // in the order of release
    woken: set<Guard>,                     // released guards whose wake was sent
    received: seq<(Allocation, Turn)>,     // turns taken out of a channel
    pump: Pump,
    permit: bool,                          // the wake's stored permit
    scanned: nat)                          // releases that the last scan could see

  const INIT := World(false, map[], [], [], {}, 0, [], {}, [], Awake, false, 0)

  datatype Action =
    | Register(owner: Owner)
    | Handoff(owner: Owner, requestId: RequestId)
    | Discard(owner: Owner, requestId: RequestId)
    | DiscardSession(epoch: string, sessionId: string, incarnation: nat)
    | Close
    | Bind(allocation: Allocation, requestId: RequestId)
    | Receive(allocation: Allocation)
    | DropRegistration(allocation: Allocation)
    | Perform(duty: Duty)
    | Scan
    | Found
    | Park
    | OtherEvent
    | OtherNotify

  predicate Enabled(w: World, a: Action) {
    match a
    case Bind(i, _) => i < |w.registrations| && w.registrations[i].alive
    case Receive(i) =>
      && i < |w.registrations| && i < |w.channels|
      && w.registrations[i].alive && w.registrations[i].bound.Some? && w.channels[i].Full?
    case DropRegistration(i) => i < |w.registrations| && w.registrations[i].alive
    case Perform(d) =>
      && d in w.duties
      && match d {
           case Send(i, _) => i < |w.channels|
           case DropEntry(e) => e.allocation < |w.channels|
           case DropReceiver(i) => i < |w.channels|
           case _ => true
         }
    case Scan => w.pump.Awake?
    case Found => w.pump.Scanning?
    case Park => w.pump.Scanning?
    case OtherEvent => w.pump.Parked?
    case _ => true
  }

  function Step(w: World, a: Action): World
    requires Enabled(w, a)
  {
    match a
    case Register(o) => RegisterStep(w, o)
    case Handoff(o, r) => HandoffStep(w, o, r)
    case Discard(o, r) => DiscardStep(w, o, r)
    case DiscardSession(e, s, n) => RemoveEntries(w, Incarnation(w, e, s, n))
    case Close => RemoveEntries(w, w.entries.Keys).(closed := true)
    case Bind(i, r) => BindStep(w, i, r)
    case Receive(i) =>
      var t := w.channels[i].turn;
      Owe(w, {DropTurn(t)}).(channels := w.channels[i := Taken], received := w.received + [(i, t)])
    case DropRegistration(i) => DropRegistrationStep(w, i)
    case Perform(d) => PerformStep(w, d)
    case Scan => w.(pump := Scanning, scanned := |w.released|)
    case Found => w.(pump := Awake)
    case Park => if w.permit then w.(pump := Awake, permit := false) else w.(pump := Parked)
    case OtherEvent => w.(pump := Awake)
    case OtherNotify => NotifyOne(w)
  }

  function Owe(w: World, duties: set<Duty>): World {
    w.(duties := w.duties + duties)
  }

  /** Wake a parked pump, or store the permit; permits do not accumulate. */
  function NotifyOne(w: World): World {
    if w.pump.Parked? then w.(pump := Awake) else w.(permit := true)
  }

  function RegisterStep(w: World, o: Owner): World {
    if w.closed || o in w.entries then w
    else
      var i := |w.registrations|;
      w.(entries := w.entries[o := Entry(i, None, None, None)],
         registrations := w.registrations + [Registration(o, None, true)],
         channels := w.channels + [Empty])
  }

  datatype HandoffReply =
    | HandoffClosed | Unregistered | EarlyCompletionAlreadyParked
    | ParkedUntilBound | StaleRequestId | Matched

  /** What a completion finds under the registry mutex. */
  function HandoffReplyOf(w: World, o: Owner, r: RequestId): HandoffReply {
    if w.closed then HandoffClosed
    else if o !in w.entries then Unregistered
    else
      var e := w.entries[o];
      if e.requestId.None? then
        if e.early.Some? || e.discardedEarly.Some? then EarlyCompletionAlreadyParked
        else ParkedUntilBound
      else if e.requestId.value != r then StaleRequestId
      else Matched
  }

  /** The duty with which a handoff leaves the registry mutex. */
  function HandoffDuty(w: World, o: Owner, r: RequestId, t: Turn): set<Duty> {
    match HandoffReplyOf(w, o, r)
    case Matched => {Send(w.entries[o].allocation, t)}
    case ParkedUntilBound => {}
    case _ => {DropTurn(t)}
  }

  function HandoffStep(w: World, o: Owner, r: RequestId): World {
    var t := Turn(o, r, w.guards);
    var entries := match HandoffReplyOf(w, o, r) {
      case Matched => w.entries - {o}
      case ParkedUntilBound => w.entries[o := w.entries[o].(early := Some(t))]
      case _ => w.entries
    };
    Owe(w, HandoffDuty(w, o, r, t)).(guards := w.guards + 1, entries := entries)
  }

  datatype DiscardReply = DiscardUnregistered | DiscardStale | Discarded | DiscardParked | DiscardConflict

  function DiscardReplyOf(w: World, o: Owner, r: RequestId): DiscardReply {
    if o !in w.entries then DiscardUnregistered
    else
      var e := w.entries[o];
      if e.requestId.Some? then
        if e.requestId.value != r then DiscardStale else Discarded
      else if (e.discardedEarly.Some? && e.discardedEarly.value != r)
              || (e.early.Some? && e.early.value.requestId != r)
      then DiscardConflict
      else DiscardParked
  }

  function DiscardStep(w: World, o: Owner, r: RequestId): World {
    match DiscardReplyOf(w, o, r)
    case Discarded => Owe(w, {DropEntry(w.entries[o])}).(entries := w.entries - {o})
    case DiscardParked =>
      var e := w.entries[o];
      Owe(w, TurnDuty(e.early))
        .(entries := w.entries[o := e.(discardedEarly := Some(r), early := None)])
    case _ => w
  }

  function TurnDuty(t: Option<Turn>): set<Duty> {
    if t.Some? then {DropTurn(t.value)} else {}
  }

  /** The owners of one canonical session incarnation. */
  function Incarnation(w: World, epoch: string, sessionId: string, incarnation: nat): set<Owner> {
    set o | o in w.entries && o.epoch == epoch && o.sessionId == Some(sessionId)
            && o.incarnation == Some(incarnation)
  }

  function RemoveEntries(w: World, owners: set<Owner>): World {
    Owe(w, set o | o in owners && o in w.entries :: DropEntry(w.entries[o]))
      .(entries := w.entries - owners)
  }

  datatype BindReply =
    | AlreadyBound | BindClosed | Withdrawn
    | BindDiscarded | BindMatched | AwaitingCompletion(discarded: Option<RequestId>)
  {
    predicate Refused() {
      AlreadyBound? || BindClosed? || Withdrawn?
    }
  }

  /** The registration's own entry is still in the registry. */
  predicate Registered(w: World, i: Allocation) {
    && i < |w.registrations|
    && w.registrations[i].owner in w.entries
    && w.entries[w.registrations[i].owner].allocation == i
  }

  function BindReplyOf(w: World, i: Allocation, r: RequestId): BindReply
    requires i < |w.registrations|
  {
    if w.registrations[i].bound.Some? then AlreadyBound
    else if w.closed then BindClosed
    else if !Registered(w, i) then Withdrawn
    else
      var e := w.entries[w.registrations[i].owner];
      if e.discardedEarly == Some(r) then BindDiscarded
      else if e.early.Some? && e.early.value.requestId == r then BindMatched
      else AwaitingCompletion(if e.early.Some? then Some(e.early.value.requestId) else e.discardedEarly)
  }

  function BindStep(w: World, i: Allocation, r: RequestId): World
    requires i < |w.registrations|
  {
    var reply := BindReplyOf(w, i, r);
    if reply.Refused() then w
    else
      var o := w.registrations[i].owner;
      var e := w.entries[o];
      var bound := e.(requestId := Some(r), early := None, discardedEarly := None);
      var w' := w.(registrations := w.registrations[i := w.registrations[i].(bound := Some(r))]);
      match reply
      case BindDiscarded => Owe(w', TurnDuty(e.early) + {DropEntry(bound)}).(entries := w.entries - {o})
      case BindMatched => Owe(w', {Send(i, e.early.value)}).(entries := w.entries - {o})
      case _ => Owe(w', TurnDuty(e.early)).(entries := w.entries[o := bound])
  }

  function DropRegistrationStep(w: World, i: Allocation): World
    requires i < |w.registrations|
  {
    var w' := Owe(w, {DropReceiver(i)})
              .(registrations := w.registrations[i := w.registrations[i].(alive := false)]);
    if Registered(w, i) then RemoveEntries(w', {w.registrations[i].owner}) else w'
  }

  function PerformStep(w: World, d: Duty): World
    requires Enabled(w, Perform(d))
  {
    var w' := w.(duties := w.duties - {d});
    match d
    case Send(i, t) =>
      if w.channels[i].Gone? then Owe(w', {DropTurn(t)})
      else w'.(channels := w.channels[i := Full(t)])
    case DropEntry(e) =>
      Owe(w', TurnDuty(e.early))
        .(channels := if w.channels[e.allocation].Gone? then w.channels
                      else w.channels[e.allocation := Closed])
    case DropTurn(t) => Owe(w', {Wake(t.guard)}).(released := w.released + [t.guard])
    case Wake(g) => NotifyOne(w').(woken := w.woken + {g})
    case DropReceiver(i) =>
      Owe(w', if w.channels[i].Full? then {DropTurn(w.channels[i].turn)} else {})
        .(channels := w.channels[i := Gone])
  }
}
