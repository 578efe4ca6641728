/** The room session protocol of the control API, one SQL statement or one transaction a step.
    Every in-flight handler and background goroutine is a thread whose constructor is its program
    counter: the statement it runs next. Everything the code does not decide (which thread runs
    next, what a sidecar answers, which row a cursor yields) comes with the action. */
module RoomProtocol {
  import opened Options
  import opened Tables
  import Text

  /** The workspace and room a handler works for. */
  datatype Place = Place(workspace: Id, room: Id)

  /** Who asked for a dispatch: `startRoom`, the fan-out of a session, or a live dial or add-back. */
  datatype Purpose = HostCall(session: Id) | FanOutCall(session: Id) | LiveCall

  /** The next statement of `dispatchExistingParticipant`. */
  datatype DispatchStep =
    | LookUp
    | InsertingLeg(role: Role)
    | Originating(leg: Id, role: Role)
    | MarkingFailed(leg: Id)
    | SettingDesired(leg: Id, role: Role)
    | Recording(leg: Id, role: Role)

  datatype Thread =
    // dispatchExistingParticipant
    | Dispatching(at: Place, participant: Id, purpose: Purpose, step: DispatchStep)
    // startRoom after a failed host dispatch
    | FailingSession(session: Id, at: Place)
    // activateRoomAfterHost
    | Polling(session: Id, at: Place, leg: Id)
    | Promoting(session: Id, at: Place, leg: Id)
    | MarkingRunning(session: Id, at: Place, leg: Id)
    | ListingListeners(session: Id, at: Place, leg: Id)
    | FanningOut(session: Id, at: Place, leg: Id, todo: set<Id>)
    | GivingUp(session: Id, at: Place)
    // stopRoom
    | ListingLegs(session: Id, at: Place)
    | DroppingLegs(session: Id, at: Place, todo: set<Id>)
    | EndingSession(session: Id, at: Place)
    // events and finishHostSession
    | FindingHostSession(leg: Id)
    | ClosingSession(session: Id, at: Place, terminal: SessionStatus)
    // the READY write that ends startRoom, the activator, stopRoom and finishHostSession
    | ResettingRoom(session: Id, at: Place, from: set<RoomState>)
    // addParticipant and dispatchDial after their first statement
    | CheckingRoom(at: Place, participant: Id)
    | InsertingGuest(at: Place, name: string, phone: string)

  datatype State = State(db: Db, threads: map<Id, Thread>)

  datatype Action =
    // a request arrives and runs its first statement or transaction as thread t
    | Start(t: Id, at: Place, host: Id)
    | Stop(t: Id, at: Place, session: Id)
    | Event(t: Id, leg: Id, state: LegState)
    | Dial(t: Id, at: Place, name: string, phone: string)
    | AddBack(t: Id, workspace: Id, participant: Id)
    // thread t runs its next statement: ok is the answer of the outside world, pick the row or
    // listener chosen next, child the id of a goroutine it starts
    | Advance(t: Id, ok: bool, pick: Id, child: Id)
    // statements of handlers that hold nothing across them
    | CreateRoom(workspace: Id, limit: int)
    | ConfigureRoom(room: Id, limit: int, tfn: bool)
    | SaveHost(at: Place, host: Id, name: string, phone: string)
    | ClearHost(at: Place)
    | AddMember(at: Place, role: Role, name: string, phone: string)
    | RemoveMember(workspace: Id, participant: Id)
    | RemoveRoom(at: Place)
    | WriteLeg(leg: Id, state: LegState)

  const INITIAL := State(EMPTY_DB, map[])

  // ---- Transactions and first statements ----

  function CountIn(db: Db, room: Id): nat {
    |set p | p in db.participants && db.participants[p].room == room|
  }

  /** The prerequisites `startRoom` reads: not running, host configured, number assigned, roster within the limit. */
  predicate StartAllowed(db: Db, at: Place) {
    && RoomIn(db, at.workspace, at.room)
    && var room := db.rooms[at.room];
    && room.state == Ready
    && !Text.Blank(room.hostName) && !Text.Blank(room.hostPhone)
    && room.tfn
    && 0 < room.limit && CountIn(db, at.room) <= room.limit
  }

  /** The host participant, inserted from the room's copy when the roster has none. */
  function EnsureHost(db: Db, at: Place): Db
    requires at.room in db.rooms
  {
    if HasHost(db, at.room) then db
    else InsertParticipant(db, at.workspace, at.room, Host, db.rooms[at.room].hostName, db.rooms[at.room].hostPhone)
  }

  /** A row `SELECT ... role='HOST' LIMIT 1` can yield. */
  predicate IsHostOf(db: Db, room: Id, p: Id) {
    p in db.participants && db.participants[p].room == room && db.participants[p].role == Host
  }

  /** The transaction's last two statements: the session and the room's state. */
  function Begun(db: Db, at: Place): Db {
    SetRoomState(InsertSession(db, at.workspace, at.room), at.workspace, at.room, ANY_ROOM_STATE, Starting)
  }

  /** `startRoom`'s transaction, then its dispatch of the host leg; `host` is the row the roster query yields. */
  function StepStart(s: State, t: Id, at: Place, host: Id): State {
    if t in s.threads || !StartAllowed(s.db, at) then s
    else
      var db := EnsureHost(s.db, at);
      if HasActive(db, at.room) || !IsHostOf(db, at.room, host) then s
      else
        State(Begun(db, at), s.threads[t := Dispatching(at, host, HostCall(db.nextId), LookUp)])
  }

  lemma EnsureHostKeeps(db: Db, at: Place)
    requires at.room in db.rooms
    ensures EnsureHost(db, at).legs == db.legs && EnsureHost(db, at).requests == db.requests
    ensures EnsureHost(db, at).rooms == db.rooms && EnsureHost(db, at).sessions == db.sessions
  {
  }

  lemma BegunKeeps(db: Db, at: Place)
    ensures Begun(db, at).legs == db.legs && Begun(db, at).requests == db.requests && Begun(db, at).participants == db.participants
  {
    var db1 := InsertSession(db, at.workspace, at.room);
    assert db1.legs == db.legs && db1.requests == db.requests && db1.participants == db.participants;
    StateKeeps(db1, at, ANY_ROOM_STATE, Starting);
  }

  lemma StateKeeps(db: Db, at: Place, from: set<RoomState>, to: RoomState)
    ensures var db' := SetRoomState(db, at.workspace, at.room, from, to);
      db'.legs == db.legs && db'.requests == db.requests && db'.participants == db.participants
  {
  }

  /** A start leaves the tables alone, or as its transaction does. */
  lemma StartShape(s: State, t: Id, at: Place, host: Id)
    ensures StepStart(s, t, at, host) == s
         || (RoomIn(s.db, at.workspace, at.room) && StepStart(s, t, at, host).db == Begun(EnsureHost(s.db, at), at))
  {
  }

  predicate IsActiveIn(db: Db, at: Place, session: Id) {
    && session in db.sessions && db.sessions[session].room == at.room && db.sessions[session].workspace == at.workspace
    && IsActive(db.sessions[session].status)
  }

  /** `stopRoom` goes on only when its query yields an active session. */
  function StepStop(s: State, t: Id, at: Place, session: Id): State {
    if t !in s.threads && IsActiveIn(s.db, at, session)
    then State(s.db, s.threads[t := ListingLegs(session, at)])
    else s
  }

  /** `events` writes the reported state over whatever the leg holds. */
  function StepEvent(s: State, t: Id, leg: Id, state: LegState): State {
    if t in s.threads then s
    else
      var db := SetLegState(s.db, leg, state);
      State(db, if IsTerminal(state) then s.threads[t := FindingHostSession(leg)] else s.threads)
  }

  /** `dispatchDial` reads the room state, the limit and the number; without a name the number is the name. */
  function StepDial(s: State, t: Id, at: Place, name: string, phone: string): State {
    if t !in s.threads && RoomIn(s.db, at.workspace, at.room) && s.db.rooms[at.room].state == Running
       && CountIn(s.db, at.room) < s.db.rooms[at.room].limit && s.db.rooms[at.room].tfn
    then State(s.db, s.threads[t := InsertingGuest(at, if Text.Blank(name) then phone else name, phone)])
    else s
  }

  /** `addParticipant` reads the participant's room. */
  function StepAddBack(s: State, t: Id, workspace: Id, participant: Id): State {
    if t !in s.threads && participant in s.db.participants && s.db.participants[participant].workspace == workspace
    then State(s.db, s.threads[t := CheckingRoom(Place(workspace, s.db.participants[participant].room), participant)])
    else s
  }

  // ---- The next statement of a thread ----

  function Become(s: State, t: Id, db: Db, thread: Thread): State { State(db, s.threads[t := thread]) }

  function Finish(s: State, t: Id, db: Db): State { State(db, s.threads - {t}) }

  /** A failed dispatch: `startRoom` goes on to fail its session, the others just return. */
  function DispatchFailed(s: State, t: Id, db: Db, at: Place, purpose: Purpose): State {
    if purpose.HostCall? then Become(s, t, db, FailingSession(purpose.session, at)) else Finish(s, t, db)
  }

  /** A successful dispatch: `startRoom` starts the activator, the others just return. */
  function DispatchDone(s: State, t: Id, db: Db, at: Place, purpose: Purpose, leg: Id): State {
    if purpose.HostCall? then Become(s, t, db, Polling(purpose.session, at, leg)) else Finish(s, t, db)
  }

  function StepDispatch(s: State, t: Id, ok: bool): State
    requires t in s.threads && s.threads[t].Dispatching?
  {
    var db := s.db;
    var Dispatching(at, participant, purpose, step) := s.threads[t];
    match step
    case LookUp =>
      // ok: the dialled number is valid and a node is available
      if participant in db.participants && db.participants[participant].workspace == at.workspace
         && db.participants[participant].room == at.room && RoomIn(db, at.workspace, at.room) && db.rooms[at.room].tfn && ok
      then Become(s, t, db, Dispatching(at, participant, purpose, InsertingLeg(db.participants[participant].role)))
      else DispatchFailed(s, t, db, at, purpose)
    case InsertingLeg(role) =>
      if participant in db.participants && at.room in db.rooms
      then Become(s, t, InsertLeg(db, at.workspace, participant, at.room, role != Host),
                  Dispatching(at, participant, purpose, Originating(db.nextId, role)))
      else DispatchFailed(s, t, db, at, purpose)
    case Originating(leg, role) =>
      Become(s, t, db, Dispatching(at, participant, purpose, if ok then SettingDesired(leg, role) else MarkingFailed(leg)))
    case MarkingFailed(leg) =>
      DispatchFailed(s, t, SetLegState(db, leg, Failed), at, purpose)
    case SettingDesired(leg, role) =>
      var db' := SetDesired(db, at.workspace, participant, ANY_DESIRED, if role == Host then DesiredActive else DesiredMuted);
      if purpose.LiveCall? then Finish(s, t, db')
      else Become(s, t, db', Dispatching(at, participant, purpose, Recording(leg, role)))
    case Recording(leg, role) =>
      var db' := if purpose.LiveCall? then db else InsertAttendance(db, purpose.session, participant, leg, role);
      DispatchDone(s, t, db', at, purpose, leg)
  }

  /** The activator: at most 90 seconds of polling (`!ok` is the deadline), then the promotion or the failure. */
  function StepActivator(s: State, t: Id, ok: bool, pick: Id, child: Id): State
    requires t in s.threads
    requires var th := s.threads[t]; th.Polling? || th.Promoting? || th.MarkingRunning? || th.ListingListeners? || th.FanningOut? || th.GivingUp?
  {
    var db := s.db;
    match s.threads[t]
    case Polling(session, at, leg) =>
      if !ok then Become(s, t, db, GivingUp(session, at))
      else if leg in db.legs && IsUp(db.legs[leg].state) then Become(s, t, db, Promoting(session, at, leg))
      else if leg in db.legs && IsTerminal(db.legs[leg].state) then Become(s, t, db, GivingUp(session, at))
      else s
    case Promoting(session, at, leg) =>
      // UPDATE ... WHERE status='STARTING', then RowsAffected
      if session in db.sessions && db.sessions[session].status == SessionStarting
      then Become(s, t, SetSessionStatus(db, session, {SessionStarting}, SessionRunning), MarkingRunning(session, at, leg))
      else Finish(s, t, db)
    case MarkingRunning(session, at, leg) =>
      Become(s, t, SetRoomState(db, at.workspace, at.room, {Starting}, Running), ListingListeners(session, at, leg))
    case ListingListeners(session, at, leg) =>
      Become(s, t, db, FanningOut(session, at, leg, ListenersOf(db, at)))
    case FanningOut(session, at, leg, todo) =>
      if pick in todo then
        if child in s.threads then s
        else State(db, s.threads[t := FanningOut(session, at, leg, todo - {pick})]
                                [child := Dispatching(at, pick, FanOutCall(session), LookUp)])
      else if todo == {} then Finish(s, t, db)
      else s
    case GivingUp(session, at) =>
      Become(s, t, SetSessionStatus(db, session, {SessionStarting}, SessionFailed), ResettingRoom(session, at, ANY_ROOM_STATE))
  }

  function ListenersOf(db: Db, at: Place): set<Id> {
    set p | p in db.participants && db.participants[p].room == at.room && db.participants[p].workspace == at.workspace
            && db.participants[p].role == Listener
  }

  function LiveLegsOf(db: Db, at: Place): set<Id> {
    set l | l in db.legs && db.legs[l].room == at.room && db.legs[l].workspace == at.workspace && !IsTerminal(db.legs[l].state)
  }

  function StepStopper(s: State, t: Id, ok: bool, pick: Id): State
    requires t in s.threads
    requires var th := s.threads[t]; th.ListingLegs? || th.DroppingLegs? || th.EndingSession?
  {
    var db := s.db;
    match s.threads[t]
    case ListingLegs(session, at) =>
      Become(s, t, db, DroppingLegs(session, at, LiveLegsOf(db, at)))
    case DroppingLegs(session, at, todo) =>
      if pick in todo
      // ok: the owning sidecar accepted the drop
      then Become(s, t, if ok then DropLeg(db, at.workspace, pick) else db, DroppingLegs(session, at, todo - {pick}))
      else if todo == {} then Become(s, t, db, EndingSession(session, at))
      else s
    case EndingSession(session, at) =>
      var db' := if session in db.sessions && db.sessions[session].workspace == at.workspace
                 then SetSessionStatus(db, session, ANY_SESSION_STATUS, SessionEnded) else db;
      Become(s, t, db', ResettingRoom(session, at, ANY_ROOM_STATE))
  }

  /** The join of `finishHostSession`: an active session whose attendance row for this leg names a HOST. */
  predicate IsHostSessionOf(db: Db, leg: Id, session: Id) {
    && session in db.sessions && IsActive(db.sessions[session].status)
    && exists a :: a in db.attendance && AttendsAsHost(db, a, leg, session)
  }

  predicate AttendsAsHost(db: Db, a: Id, leg: Id, session: Id)
    requires a in db.attendance
  {
    && db.attendance[a].session == session && db.attendance[a].leg == Some(leg)
    && db.attendance[a].participant.Some? && db.attendance[a].participant.value in db.participants
    && db.participants[db.attendance[a].participant.value].role == Host
  }

  predicate HasHostSession(db: Db, leg: Id) { exists x :: x in db.sessions && IsHostSessionOf(db, leg, x) }

  function StepFindHost(s: State, t: Id, leg: Id, session: Id): State {
    if IsHostSessionOf(s.db, leg, session) then
      var row := s.db.sessions[session];
      Become(s, t, s.db, ClosingSession(session, Place(row.workspace, row.room),
                                        if row.status == SessionStarting then SessionFailed else SessionEnded))
    else if HasHostSession(s.db, leg) then s
    else Finish(s, t, s.db)
  }

  function StepAdvance(s: State, t: Id, ok: bool, pick: Id, child: Id): State {
    if t !in s.threads then s
    else
      var db := s.db;
      match s.threads[t]
      case Dispatching(_, _, _, _) => StepDispatch(s, t, ok)
      case FailingSession(session, at) =>
        Become(s, t, SetSessionStatus(db, session, ANY_SESSION_STATUS, SessionFailed),
               ResettingRoom(session, at, ANY_ROOM_STATE))
      case ListingLegs(_, _) => StepStopper(s, t, ok, pick)
      case DroppingLegs(_, _, _) => StepStopper(s, t, ok, pick)
      case EndingSession(_, _) => StepStopper(s, t, ok, pick)
      case FindingHostSession(leg) => StepFindHost(s, t, leg, pick)
      case ClosingSession(session, at, terminal) =>
        Become(s, t, SetSessionStatus(db, session, ACTIVE_STATUS, terminal), ResettingRoom(session, at, {Starting, Running}))
      case ResettingRoom(_, at, from) =>
        Finish(s, t, SetRoomState(db, at.workspace, at.room, from, Ready))
      case CheckingRoom(at, participant) =>
        if RoomIn(db, at.workspace, at.room) && db.rooms[at.room].state == Running
        then Become(s, t, db, Dispatching(at, participant, LiveCall, LookUp))
        else Finish(s, t, db)
      case InsertingGuest(at, name, phone) =>
        if at.room in db.rooms
        then Become(s, t, InsertParticipant(db, at.workspace, at.room, Listener, name, phone),
                    Dispatching(at, db.nextId, LiveCall, LookUp))
        else Finish(s, t, db)
      case _ => StepActivator(s, t, ok, pick, child)
  }

  // ---- Handlers that hold nothing across statements ----

  predicate NotRunning(db: Db, at: Place) {
    RoomIn(db, at.workspace, at.room) && db.rooms[at.room].state == Ready
  }

  /** `host` PUT: the transaction that saves the room's copy and the HOST participant, with the trimmed input. */
  function SaveHostTx(db: Db, at: Place, host: Id, name: string, phone: string): Db {
    if !NotRunning(db, at) || Text.Blank(name) || Text.Blank(phone) then db
    else if HasHost(db, at.room) then
      if IsHostOf(db, at.room, host) then
        SetDesired(SetContact(SetHostCopy(db, at.workspace, at.room, name, phone), at.workspace, host, name, phone),
                   at.workspace, host, ANY_DESIRED, DesiredActive)
      else db
    else InsertParticipant(SetHostCopy(db, at.workspace, at.room, name, phone), at.workspace, at.room, Host, name, phone)
  }

  /** `host` DELETE. */
  function ClearHostTx(db: Db, at: Place): Db {
    if !NotRunning(db, at) then db else DeleteHosts(SetHostCopy(db, at.workspace, at.room, "", ""), at.workspace, at.room)
  }

  /** `deleteBridge`: refused while a leg of the room is live. */
  function RemoveRoomTx(db: Db, at: Place): Db {
    if !RoomIn(db, at.workspace, at.room) || (exists l :: l in db.legs && db.legs[l].room == at.room && !IsTerminal(db.legs[l].state))
    then db else DeleteRoom(DeleteItemsOfRoom(db, at.room), at.room)
  }

  function StepDb(db: Db, a: Action): Db {
    match a
    case CreateRoom(workspace, limit) => InsertRoom(db, workspace, limit)
    case ConfigureRoom(room, limit, tfn) => SetRoomLimits(db, room, limit, tfn)
    case SaveHost(at, host, name, phone) => SaveHostTx(db, at, host, Text.Trim(name), Text.Trim(phone))
    case ClearHost(at) => ClearHostTx(db, at)
    case AddMember(at, role, name, phone) =>
      if RoomIn(db, at.workspace, at.room) then InsertParticipant(db, at.workspace, at.room, role, name, phone) else db
    case RemoveMember(workspace, participant) => DeleteListener(db, workspace, participant)
    case RemoveRoom(at) => RemoveRoomTx(db, at)
    case WriteLeg(leg, state) => if IsTerminal(state) then SetLegState(db, leg, state) else db
    case _ => db
  }

  function Step(s: State, a: Action): State {
    match a
    case Start(t, at, host) => StepStart(s, t, at, host)
    case Stop(t, at, session) => StepStop(s, t, at, session)
    case Event(t, leg, state) => StepEvent(s, t, leg, state)
    case Dial(t, at, name, phone) => StepDial(s, t, at, name, phone)
    case AddBack(t, workspace, participant) => StepAddBack(s, t, workspace, participant)
    case Advance(t, ok, pick, child) => StepAdvance(s, t, ok, pick, child)
    case _ => State(StepDb(s.db, a), s.threads)
  }

  /** The state after a run of actions from the empty database. Every run is such a sequence. */
  function After(run: seq<Action>): State {
    if run == [] then INITIAL else Step(After(run[..|run| - 1]), run[|run| - 1])
  }
}
