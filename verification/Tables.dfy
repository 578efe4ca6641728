/** The control API's PostgreSQL tables as maps from row id to row, and the SQL
    statements its handlers run as functions from table state to table state.
    A partial unique index or a foreign key is a guard on the write it protects.
    Ids come from one counter, so the order of ids is the order of creation. */
module Tables {
  import opened Options

  type Id = nat

  datatype RoomState = Ready | Starting | Running
  datatype SessionStatus = SessionStarting | SessionRunning | SessionEnded | SessionFailed
  datatype Role = Host | Listener
  datatype LegState = Dispatched | Answered | InBridge | Ended | Failed | Dropped | OtherState(name: string)
  datatype Desired = DesiredActive | DesiredMuted | HandRaised | DesiredDropped | DesiredFailed
  datatype RequestStatus = Queued | Granted | RequestActive | Withdrawn

  /** A row of `bridges`; `tfn` says that an ACTIVE number is assigned to the room,
      and an empty host name or phone is the SQL NULL. */
  datatype Room = Room(workspace: Id, state: RoomState, hostName: string, hostPhone: string, limit: int, tfn: bool)
  datatype Participant = Participant(workspace: Id, room: Id, role: Role, name: string, phone: string, desired: Desired)
  datatype Session = Session(workspace: Id, room: Id, status: SessionStatus)
  datatype Leg = Leg(workspace: Id, participant: Id, room: Id, state: LegState, muted: bool)
  /** A row of `room_session_participants`. */
  datatype Attendance = Attendance(session: Id, participant: Option<Id>, leg: Option<Id>, role: Role)
  /** A row of `speaker_requests`. */
  datatype Request = Request(workspace: Id, room: Id, participant: Id, leg: Option<Id>, status: RequestStatus)
  datatype Batch = Batch(workspace: Id, room: Id)
  datatype Item = Item(workspace: Id, batch: Id, participant: Option<Id>, name: string, phone: string)

  datatype Db = Db(
    rooms: map<Id, Room>,
    participants: map<Id, Participant>,
    sessions: map<Id, Session>,
    legs: map<Id, Leg>,
    attendance: map<Id, Attendance>,
    requests: map<Id, Request>,
    batches: map<Id, Batch>,
    items: map<Id, Item>,
    nextId: Id)

  const EMPTY_DB := Db(map[], map[], map[], map[], map[], map[], map[], map[], 0)

  predicate IsUp(state: LegState) { state == Answered || state == InBridge }

  predicate IsTerminal(state: LegState) { state == Ended || state == Failed || state == Dropped }

  predicate IsActive(status: SessionStatus) { status == SessionStarting || status == SessionRunning }

  predicate IsOpen(status: RequestStatus) { status != Withdrawn }

  predicate IsApproved(status: RequestStatus) { status == Granted || status == RequestActive }

  predicate RoomIn(db: Db, workspace: Id, room: Id) {
    room in db.rooms && db.rooms[room].workspace == workspace
  }

  // ---- Index and foreign-key guards ----

  /** A session of the room is STARTING or RUNNING. */
  predicate HasActive(db: Db, room: Id) {
    exists s :: s in db.sessions && db.sessions[s].room == room && IsActive(db.sessions[s].status)
  }

  predicate HasHost(db: Db, room: Id) {
    exists p :: p in db.participants && db.participants[p].room == room && db.participants[p].role == Host
  }

  predicate HasOpenRequest(db: Db, room: Id, participant: Id) {
    exists q :: q in db.requests && db.requests[q].room == room && db.requests[q].participant == participant
                && IsOpen(db.requests[q].status)
  }

  /** Foreign key to `bridges` and the one-host-per-room index. */
  predicate AcceptsParticipant(db: Db, room: Id, role: Role) {
    room in db.rooms && (role == Host ==> !HasHost(db, room))
  }

  // ---- Inserts: the new row's id is `db.nextId` ----

  function InsertRoom(db: Db, workspace: Id, limit: int): Db {
    db.(rooms := db.rooms[db.nextId := Room(workspace, Ready, "", "", limit, false)], nextId := db.nextId + 1)
  }

  function InsertParticipant(db: Db, workspace: Id, room: Id, role: Role, name: string, phone: string): Db {
    if AcceptsParticipant(db, room, role) then
      var desired := if role == Host then DesiredActive else DesiredMuted;
      db.(participants := db.participants[db.nextId := Participant(workspace, room, role, name, phone, desired)],
          nextId := db.nextId + 1)
    else db
  }

  function InsertSession(db: Db, workspace: Id, room: Id): Db {
    if room in db.rooms && !HasActive(db, room) then
      db.(sessions := db.sessions[db.nextId := Session(workspace, room, SessionStarting)], nextId := db.nextId + 1)
    else db
  }

  function InsertLeg(db: Db, workspace: Id, participant: Id, room: Id, muted: bool): Db {
    if participant in db.participants && room in db.rooms then
      db.(legs := db.legs[db.nextId := Leg(workspace, participant, room, Dispatched, muted)], nextId := db.nextId + 1)
    else db
  }

  function InsertAttendance(db: Db, session: Id, participant: Id, leg: Id, role: Role): Db {
    if session in db.sessions && participant in db.participants && leg in db.legs then
      db.(attendance := db.attendance[db.nextId := Attendance(session, Some(participant), Some(leg), role)],
          nextId := db.nextId + 1)
    else db
  }

  /** `INSERT ... SELECT ... WHERE NOT EXISTS` an open request of the participant in the room. */
  function InsertRequest(db: Db, workspace: Id, room: Id, participant: Id, leg: Id): Db {
    if participant in db.participants && room in db.rooms && leg in db.legs && !HasOpenRequest(db, room, participant) then
      db.(requests := db.requests[db.nextId := Request(workspace, room, participant, Some(leg), Queued)],
          nextId := db.nextId + 1)
    else db
  }

  function InsertBatch(db: Db, workspace: Id, room: Id): Db {
    if room in db.rooms then
      db.(batches := db.batches[db.nextId := Batch(workspace, room)], nextId := db.nextId + 1)
    else db
  }

  function InsertItem(db: Db, workspace: Id, batch: Id, participant: Id, name: string, phone: string): Db {
    if batch in db.batches && participant in db.participants then
      db.(items := db.items[db.nextId := Item(workspace, batch, Some(participant), name, phone)], nextId := db.nextId + 1)
    else db
  }

  // ---- Updates ----

  /** `UPDATE bridges SET room_state=to WHERE id AND workspace_id AND room_state IN from`. */
  function SetRoomState(db: Db, workspace: Id, room: Id, from: set<RoomState>, to: RoomState): Db {
    if RoomIn(db, workspace, room) && db.rooms[room].state in from then
      db.(rooms := db.rooms[room := db.rooms[room].(state := to)])
    else db
  }

  const ANY_ROOM_STATE := {Ready, Starting, Running}

  function SetHostCopy(db: Db, workspace: Id, room: Id, name: string, phone: string): Db {
    if RoomIn(db, workspace, room) then
      db.(rooms := db.rooms[room := db.rooms[room].(hostName := name, hostPhone := phone)])
    else db
  }

  function SetRoomLimits(db: Db, room: Id, limit: int, tfn: bool): Db {
    if room in db.rooms then db.(rooms := db.rooms[room := db.rooms[room].(limit := limit, tfn := tfn)]) else db
  }

  /** `UPDATE room_sessions SET status=to WHERE id AND status IN from`. */
  function SetSessionStatus(db: Db, session: Id, from: set<SessionStatus>, to: SessionStatus): Db {
    if session in db.sessions && db.sessions[session].status in from then
      db.(sessions := db.sessions[session := db.sessions[session].(status := to)])
    else db
  }

  const ANY_SESSION_STATUS := {SessionStarting, SessionRunning, SessionEnded, SessionFailed}
  const ACTIVE_STATUS := {SessionStarting, SessionRunning}

  /** `UPDATE call_legs SET state WHERE id`. */
  function SetLegState(db: Db, leg: Id, to: LegState): Db {
    if leg in db.legs then db.(legs := db.legs[leg := db.legs[leg].(state := to)]) else db
  }

  /** `UPDATE call_legs SET desired_mute WHERE id AND workspace_id`. */
  function SetLegMuted(db: Db, workspace: Id, leg: Id, muted: bool): Db {
    if leg in db.legs && db.legs[leg].workspace == workspace then
      db.(legs := db.legs[leg := db.legs[leg].(muted := muted)])
    else db
  }

  /** `UPDATE call_legs SET state='DROPPED' WHERE id AND workspace_id`. */
  function DropLeg(db: Db, workspace: Id, leg: Id): Db {
    if leg in db.legs && db.legs[leg].workspace == workspace then SetLegState(db, leg, Dropped) else db
  }

  /** `UPDATE participants SET desired_state=to WHERE id AND workspace_id AND desired_state IN from`. */
  function SetDesired(db: Db, workspace: Id, participant: Id, from: set<Desired>, to: Desired): Db {
    if participant in db.participants && db.participants[participant].workspace == workspace
       && db.participants[participant].desired in from then
      db.(participants := db.participants[participant := db.participants[participant].(desired := to)])
    else db
  }

  const ANY_DESIRED := {DesiredActive, DesiredMuted, HandRaised, DesiredDropped, DesiredFailed}

  // The updates without a condition on the old value take every value.

  lemma AnyDesired(desired: Desired)
    ensures desired in ANY_DESIRED
  {
    match desired case DesiredActive => case DesiredMuted => case HandRaised => case DesiredDropped => case DesiredFailed =>
  }

  lemma AnyState(status: SessionStatus, state: RoomState)
    ensures status in ANY_SESSION_STATUS && state in ANY_ROOM_STATE
  {
    match status case SessionStarting => case SessionRunning => case SessionEnded => case SessionFailed =>
    match state case Ready => case Starting => case Running =>
  }

  /** `UPDATE participants SET display_name, phone_number WHERE id AND workspace_id`. */
  function SetContact(db: Db, workspace: Id, participant: Id, name: string, phone: string): Db {
    if participant in db.participants && db.participants[participant].workspace == workspace then
      db.(participants := db.participants[participant := db.participants[participant].(name := name, phone := phone)])
    else db
  }

  /** `UPDATE dial_batch_items SET name, phone_number WHERE participant_id AND workspace_id`. */
  function SetItemContacts(db: Db, workspace: Id, participant: Id, name: string, phone: string): Db {
    db.(items := map i | i in db.items ::
      if db.items[i].participant == Some(participant) && db.items[i].workspace == workspace
      then db.items[i].(name := name, phone := phone) else db.items[i])
  }

  /** `UPDATE speaker_requests SET status='ACTIVE' WHERE id AND workspace_id`. The write has no
      status guard; the open-request index rejects it when it would reopen a withdrawn request
      of a participant who has another open one, and the handler ignores that error. */
  function ActivateRequest(db: Db, workspace: Id, request: Id): Db {
    if request in db.requests && db.requests[request].workspace == workspace
       && (IsOpen(db.requests[request].status)
           || !HasOpenRequest(db, db.requests[request].room, db.requests[request].participant)) then
      db.(requests := db.requests[request := db.requests[request].(status := RequestActive)])
    else db
  }

  /** `UPDATE speaker_requests SET status='WITHDRAWN' WHERE id AND workspace_id AND status` is open. */
  function WithdrawRequest(db: Db, workspace: Id, request: Id): Db {
    if request in db.requests && db.requests[request].workspace == workspace && IsOpen(db.requests[request].status) then
      db.(requests := db.requests[request := db.requests[request].(status := Withdrawn)])
    else db
  }

  /** The same update for every open request of a participant in a room. */
  function WithdrawRequestsOf(db: Db, workspace: Id, room: Id, participant: Id): Db {
    db.(requests := map q | q in db.requests ::
      if db.requests[q].workspace == workspace && db.requests[q].room == room
         && db.requests[q].participant == participant && IsOpen(db.requests[q].status)
      then db.requests[q].(status := Withdrawn) else db.requests[q])
  }

  // ---- Deletes ----

  function Without(ref: Option<Id>, gone: set<Id>): Option<Id> {
    if ref.Some? && ref.value in gone then None else ref
  }

  /** Deletes the given rooms and participants with everything that ON DELETE CASCADE takes
      along, and clears the references that ON DELETE SET NULL clears. */
  function Cascade(db: Db, rooms: set<Id>, participants: set<Id>): Db {
    var people := participants + set p | p in db.participants && db.participants[p].room in rooms;
    var legs := set l | l in db.legs && (db.legs[l].room in rooms || db.legs[l].participant in people);
    var sessions := set s | s in db.sessions && db.sessions[s].room in rooms;
    var batches := set b | b in db.batches && db.batches[b].room in rooms;
    db.(rooms := db.rooms - rooms,
        participants := db.participants - people,
        sessions := db.sessions - sessions,
        legs := db.legs - legs,
        attendance := map a | a in db.attendance && db.attendance[a].session !in sessions ::
          db.attendance[a].(participant := Without(db.attendance[a].participant, people),
                            leg := Without(db.attendance[a].leg, legs)),
        requests := map q | q in db.requests && db.requests[q].room !in rooms && db.requests[q].participant !in people ::
          db.requests[q].(leg := Without(db.requests[q].leg, legs)),
        batches := db.batches - batches,
        items := map i | i in db.items && db.items[i].batch !in batches ::
          db.items[i].(participant := Without(db.items[i].participant, people)))
  }

  function HostRows(db: Db, workspace: Id, room: Id): set<Id> {
    set p | p in db.participants && db.participants[p].room == room
            && db.participants[p].workspace == workspace && db.participants[p].role == Host
  }

  /** `DELETE FROM participants WHERE bridge_id AND workspace_id AND role='HOST'`. */
  function DeleteHosts(db: Db, workspace: Id, room: Id): Db { Cascade(db, {}, HostRows(db, workspace, room)) }

  /** `DELETE FROM participants WHERE id AND workspace_id AND role <> 'HOST'`. */
  function DeleteListener(db: Db, workspace: Id, participant: Id): Db {
    if participant in db.participants && db.participants[participant].workspace == workspace
       && db.participants[participant].role != Host
    then Cascade(db, {}, {participant}) else db
  }

  /** `DELETE FROM dial_batch_items WHERE participant_id IN (participants of the room)`. */
  function DeleteItemsOfRoom(db: Db, room: Id): Db {
    db.(items := map i | i in db.items
                         && !(db.items[i].participant.Some? && db.items[i].participant.value in db.participants
                              && db.participants[db.items[i].participant.value].room == room) :: db.items[i])
  }

  /** `DELETE FROM bridges WHERE id`. */
  function DeleteRoom(db: Db, room: Id): Db { Cascade(db, {room}, {}) }

  // ---- Row consistency: foreign keys hold and every room-owned row carries its room's workspace ----

  /** The columns other tables rely on: a room's workspace, a participant's room, a session's room,
      a leg's room and participant, a batch's workspace and room. */
  ghost function Tenants(rooms: map<Id, Room>): map<Id, Id> { map r | r in rooms :: rooms[r].workspace }

  ghost function Homes(participants: map<Id, Participant>): map<Id, Id> { map p | p in participants :: participants[p].room }

  ghost function SessionRooms(sessions: map<Id, Session>): map<Id, Id> { map s | s in sessions :: sessions[s].room }

  ghost function LegHomes(legs: map<Id, Leg>): map<Id, (Id, Id)> { map l | l in legs :: (legs[l].room, legs[l].participant) }

  ghost predicate ParticipantsFit(tenants: map<Id, Id>, participants: map<Id, Participant>) {
    forall p | p in participants :: participants[p].room in tenants && tenants[participants[p].room] == participants[p].workspace
  }

  ghost predicate SessionsFit(tenants: map<Id, Id>, sessions: map<Id, Session>) {
    forall s | s in sessions :: sessions[s].room in tenants && tenants[sessions[s].room] == sessions[s].workspace
  }

  ghost predicate LegsFit(tenants: map<Id, Id>, homes: map<Id, Id>, legs: map<Id, Leg>) {
    forall l | l in legs ::
      && legs[l].room in tenants && tenants[legs[l].room] == legs[l].workspace
      && legs[l].participant in homes && homes[legs[l].participant] == legs[l].room
  }

  /** A request is its participant's, and its leg, when it has one, is a leg of that participant. */
  ghost predicate RequestsFit(tenants: map<Id, Id>, homes: map<Id, Id>, legHomes: map<Id, (Id, Id)>, requests: map<Id, Request>) {
    forall q | q in requests ::
      && requests[q].room in tenants && tenants[requests[q].room] == requests[q].workspace
      && requests[q].participant in homes && homes[requests[q].participant] == requests[q].room
      && (requests[q].leg.Some? ==> requests[q].leg.value in legHomes && legHomes[requests[q].leg.value].1 == requests[q].participant)
  }

  ghost predicate BatchesFit(tenants: map<Id, Id>, batches: map<Id, Batch>) {
    forall b | b in batches :: batches[b].room in tenants && tenants[batches[b].room] == batches[b].workspace
  }

  /** A batch item carries its batch's workspace and points at a participant of the batch's room. */
  ghost predicate ItemsFit(homes: map<Id, Id>, batches: map<Id, Batch>, items: map<Id, Item>) {
    forall i | i in items ::
      && items[i].batch in batches && batches[items[i].batch].workspace == items[i].workspace
      && (items[i].participant.Some? ==>
            items[i].participant.value in homes && homes[items[i].participant.value] == batches[items[i].batch].room)
  }

  /** An attendance row points into its session's room. */
  ghost predicate AttendanceFits(homes: map<Id, Id>, sessionRooms: map<Id, Id>, legHomes: map<Id, (Id, Id)>,
                                 attendance: map<Id, Attendance>) {
    forall a | a in attendance ::
      && attendance[a].session in sessionRooms
      && (attendance[a].participant.Some? ==>
            attendance[a].participant.value in homes && homes[attendance[a].participant.value] == sessionRooms[attendance[a].session])
      && (attendance[a].leg.Some? ==>
            attendance[a].leg.value in legHomes && legHomes[attendance[a].leg.value].0 == sessionRooms[attendance[a].session])
  }

  ghost predicate Consistent(db: Db) {
    var tenants, homes, legHomes := Tenants(db.rooms), Homes(db.participants), LegHomes(db.legs);
    && ParticipantsFit(tenants, db.participants)
    && SessionsFit(tenants, db.sessions)
    && LegsFit(tenants, homes, db.legs)
    && RequestsFit(tenants, homes, legHomes, db.requests)
    && BatchesFit(tenants, db.batches)
    && ItemsFit(homes, db.batches, db.items)
    && AttendanceFits(homes, SessionRooms(db.sessions), legHomes, db.attendance)
  }

  ghost predicate KeysBelow<V>(table: map<Id, V>, next: Id) {
    forall k | k in table :: k < next
  }

  /** Every id in use is below the counter. */
  ghost predicate IdsBelow(db: Db) {
    && KeysBelow(db.rooms, db.nextId) && KeysBelow(db.participants, db.nextId) && KeysBelow(db.sessions, db.nextId)
    && KeysBelow(db.legs, db.nextId) && KeysBelow(db.attendance, db.nextId) && KeysBelow(db.requests, db.nextId)
    && KeysBelow(db.batches, db.nextId) && KeysBelow(db.items, db.nextId)
  }

  // ---- The partial unique indexes ----

  ghost predicate OneActiveSession(sessions: map<Id, Session>) {
    forall s, t | s in sessions && t in sessions && IsActive(sessions[s].status) && IsActive(sessions[t].status)
      :: sessions[s].room == sessions[t].room ==> s == t
  }

  ghost predicate OneHost(participants: map<Id, Participant>) {
    forall p, q | p in participants && q in participants && participants[p].role == participants[q].role == Host
      :: participants[p].room == participants[q].room ==> p == q
  }

  ghost predicate OneOpenRequest(requests: map<Id, Request>) {
    forall p, q | p in requests && q in requests && IsOpen(requests[p].status) && IsOpen(requests[q].status)
      :: requests[p].room == requests[q].room && requests[p].participant == requests[q].participant ==> p == q
  }
}
