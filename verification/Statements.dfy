/** What every SQL statement of the control API keeps: foreign keys, workspaces, unique indexes
    and, for a statement run for one workspace, every row of the other workspaces. */
module Statements {
  import opened Options
  import opened Tables
  import opened Isolation

  lemma Same(db: Db, workspace: Id)
    requires Sound(db)
    ensures Within(db, db, workspace)
  {
  }

  lemma Then(db: Db, db': Db, db'': Db, workspace: Id)
    requires Within(db, db', workspace) && Within(db', db'', workspace)
    ensures Within(db, db'', workspace)
  {
  }

  // ---- What changing rows of one table keeps, when the columns other tables rely on stay ----

  lemma OutsideRooms(db: Db, rooms: map<Id, Room>, next: Id, workspace: Id)
    requires OtherRooms(rooms, workspace) == OtherRooms(db.rooms, workspace)
    requires db.nextId <= next && StableRooms(db.rooms, rooms, db.nextId)
    ensures SameOutside(db, db.(rooms := rooms, nextId := next), workspace) && Stable(db, db.(rooms := rooms, nextId := next))
  {
  }

  lemma RoomsWritten(db: Db, rooms: map<Id, Room>, workspace: Id)
    requires Sound(db) && rooms.Keys == db.rooms.Keys
    requires forall r | r in rooms :: rooms[r].workspace == db.rooms[r].workspace
    requires forall r | r in rooms && rooms[r].workspace != workspace :: rooms[r] == db.rooms[r]
    ensures Within(db, db.(rooms := rooms), workspace)
  {
    assert Tenants(rooms) == Tenants(db.rooms);
    assert KeysBelow(rooms, db.nextId);
    assert OtherRooms(rooms, workspace) == OtherRooms(db.rooms, workspace);
    OutsideRooms(db, rooms, db.nextId, workspace);
  }

  lemma OutsideParticipants(db: Db, participants: map<Id, Participant>, next: Id, workspace: Id)
    requires OtherParticipants(participants, workspace) == OtherParticipants(db.participants, workspace)
    requires db.nextId <= next && StableParticipants(db.participants, participants, db.nextId)
    ensures SameOutside(db, db.(participants := participants, nextId := next), workspace) && Stable(db, db.(participants := participants, nextId := next))
  {
  }

  lemma ParticipantsStillFit(tenants: map<Id, Id>, before: map<Id, Participant>, participants: map<Id, Participant>, workspace: Id)
    requires ParticipantsFit(tenants, before) && OneHost(before) && participants.Keys == before.Keys
    requires forall p | p in participants ::
               && participants[p].workspace == before[p].workspace
               && participants[p].room == before[p].room
               && participants[p].role == before[p].role
    requires forall p | p in participants && participants[p].workspace != workspace :: participants[p] == before[p]
    ensures ParticipantsFit(tenants, participants) && OneHost(participants) && Homes(participants) == Homes(before)
    ensures OtherParticipants(participants, workspace) == OtherParticipants(before, workspace)
  {
  }

  lemma ParticipantsWritten(db: Db, participants: map<Id, Participant>, workspace: Id)
    requires Sound(db) && participants.Keys == db.participants.Keys
    requires forall p | p in participants ::
               && participants[p].workspace == db.participants[p].workspace
               && participants[p].room == db.participants[p].room
               && participants[p].role == db.participants[p].role
    requires forall p | p in participants && participants[p].workspace != workspace :: participants[p] == db.participants[p]
    ensures Within(db, db.(participants := participants), workspace)
  {
    assert KeysBelow(participants, db.nextId);
    ParticipantsStillFit(Tenants(db.rooms), db.participants, participants, workspace);
    OutsideParticipants(db, participants, db.nextId, workspace);
  }

  lemma OutsideSessions(db: Db, sessions: map<Id, Session>, next: Id, workspace: Id)
    requires OtherSessions(sessions, workspace) == OtherSessions(db.sessions, workspace)
    requires SessionTenants(sessions) == SessionTenants(db.sessions)
    requires db.nextId <= next && StableSessions(db.sessions, sessions, db.nextId)
    ensures SameOutside(db, db.(sessions := sessions, nextId := next), workspace) && Stable(db, db.(sessions := sessions, nextId := next))
  {
  }

  lemma SessionsStillFit(tenants: map<Id, Id>, before: map<Id, Session>, sessions: map<Id, Session>, workspace: Id)
    requires SessionsFit(tenants, before) && OneActiveSession(before) && sessions.Keys == before.Keys
    requires forall s | s in sessions ::
               && sessions[s] == before[s].(status := sessions[s].status)
               && (IsActive(sessions[s].status) ==> IsActive(before[s].status))
    requires forall s | s in sessions && sessions[s].workspace != workspace :: sessions[s] == before[s]
    ensures SessionsFit(tenants, sessions) && OneActiveSession(sessions)
    ensures SessionRooms(sessions) == SessionRooms(before) && SessionTenants(sessions) == SessionTenants(before)
    ensures OtherSessions(sessions, workspace) == OtherSessions(before, workspace)
  {
  }

  lemma SessionsWritten(db: Db, sessions: map<Id, Session>, workspace: Id)
    requires Sound(db) && sessions.Keys == db.sessions.Keys
    requires forall s | s in sessions ::
               && sessions[s] == db.sessions[s].(status := sessions[s].status)
               && (IsActive(sessions[s].status) ==> IsActive(db.sessions[s].status))
    requires forall s | s in sessions && sessions[s].workspace != workspace :: sessions[s] == db.sessions[s]
    ensures Within(db, db.(sessions := sessions), workspace)
  {
    assert KeysBelow(sessions, db.nextId);
    SessionsStillFit(Tenants(db.rooms), db.sessions, sessions, workspace);
    OutsideSessions(db, sessions, db.nextId, workspace);
  }

  lemma OutsideLegs(db: Db, legs: map<Id, Leg>, next: Id, workspace: Id)
    requires OtherLegs(legs, workspace) == OtherLegs(db.legs, workspace)
    requires db.nextId <= next && StableLegs(db.legs, legs, db.nextId)
    ensures SameOutside(db, db.(legs := legs, nextId := next), workspace) && Stable(db, db.(legs := legs, nextId := next))
  {
  }

  lemma LegsStillFit(tenants: map<Id, Id>, homes: map<Id, Id>, before: map<Id, Leg>, legs: map<Id, Leg>, workspace: Id)
    requires LegsFit(tenants, homes, before) && legs.Keys == before.Keys
    requires forall l | l in legs :: legs[l] == before[l].(state := legs[l].state, muted := legs[l].muted)
    requires forall l | l in legs && legs[l].workspace != workspace :: legs[l] == before[l]
    ensures LegsFit(tenants, homes, legs) && LegHomes(legs) == LegHomes(before)
    ensures OtherLegs(legs, workspace) == OtherLegs(before, workspace)
  {
  }

  lemma LegsWritten(db: Db, legs: map<Id, Leg>, workspace: Id)
    requires Sound(db) && legs.Keys == db.legs.Keys
    requires forall l | l in legs :: legs[l] == db.legs[l].(state := legs[l].state, muted := legs[l].muted)
    requires forall l | l in legs && legs[l].workspace != workspace :: legs[l] == db.legs[l]
    ensures Within(db, db.(legs := legs), workspace)
  {
    assert KeysBelow(legs, db.nextId);
    LegsStillFit(Tenants(db.rooms), Homes(db.participants), db.legs, legs, workspace);
    OutsideLegs(db, legs, db.nextId, workspace);
  }

  lemma OutsideRequests(db: Db, requests: map<Id, Request>, next: Id, workspace: Id)
    requires OtherRequests(requests, workspace) == OtherRequests(db.requests, workspace)
    requires db.nextId <= next && StableRequests(db.requests, requests, db.nextId)
    ensures SameOutside(db, db.(requests := requests, nextId := next), workspace) && Stable(db, db.(requests := requests, nextId := next))
  {
  }

  lemma RequestsStillFit(tenants: map<Id, Id>, homes: map<Id, Id>, legHomes: map<Id, (Id, Id)>,
                         before: map<Id, Request>, requests: map<Id, Request>, workspace: Id)
    requires RequestsFit(tenants, homes, legHomes, before) && requests.Keys == before.Keys
    requires forall q | q in requests :: requests[q] == before[q].(status := requests[q].status)
    requires forall q | q in requests && requests[q].workspace != workspace :: requests[q] == before[q]
    ensures RequestsFit(tenants, homes, legHomes, requests)
    ensures OtherRequests(requests, workspace) == OtherRequests(before, workspace)
  {
  }

  lemma RequestsWritten(db: Db, requests: map<Id, Request>, workspace: Id)
    requires Sound(db) && requests.Keys == db.requests.Keys && OneOpenRequest(requests)
    requires forall q | q in requests :: requests[q] == db.requests[q].(status := requests[q].status)
    requires forall q | q in requests && requests[q].workspace != workspace :: requests[q] == db.requests[q]
    ensures Within(db, db.(requests := requests), workspace)
  {
    assert KeysBelow(requests, db.nextId);
    RequestsStillFit(Tenants(db.rooms), Homes(db.participants), LegHomes(db.legs), db.requests, requests, workspace);
    OutsideRequests(db, requests, db.nextId, workspace);
  }

  lemma OutsideItems(db: Db, items: map<Id, Item>, next: Id, workspace: Id)
    requires OtherItems(items, workspace) == OtherItems(db.items, workspace)
    requires db.nextId <= next
    ensures SameOutside(db, db.(items := items, nextId := next), workspace) && Stable(db, db.(items := items, nextId := next))
  {
  }

  lemma ItemsWritten(db: Db, items: map<Id, Item>, workspace: Id)
    requires Sound(db) && items.Keys <= db.items.Keys
    requires forall i | i in items :: items[i] == db.items[i].(name := items[i].name, phone := items[i].phone)
    requires forall i | i in db.items && db.items[i].workspace != workspace :: i in items && items[i] == db.items[i]
    ensures Within(db, db.(items := items), workspace)
  {
    assert KeysBelow(items, db.nextId);
    assert ItemsFit(Homes(db.participants), db.batches, items);
    assert OtherItems(items, workspace) == OtherItems(db.items, workspace);
    OutsideItems(db, items, db.nextId, workspace);
  }

  // ---- Inserts ----

  lemma KeysBelowNext<V>(table: map<Id, V>, next: Id)
    requires KeysBelow(table, next)
    ensures KeysBelow(table, next + 1)
  {
  }

  lemma KeyAdded<V>(table: map<Id, V>, next: Id, row: V)
    requires KeysBelow(table, next)
    ensures KeysBelow(table[next := row], next + 1) && next !in table
  {
  }

  /** The counter advances past the ids in use. */
  lemma IdsAdvance(db: Db)
    requires IdsBelow(db)
    ensures IdsBelow(db.(nextId := db.nextId + 1))
  {
    KeysBelowNext(db.rooms, db.nextId);
    KeysBelowNext(db.participants, db.nextId);
    KeysBelowNext(db.sessions, db.nextId);
    KeysBelowNext(db.legs, db.nextId);
    KeysBelowNext(db.attendance, db.nextId);
    KeysBelowNext(db.requests, db.nextId);
    KeysBelowNext(db.batches, db.nextId);
    KeysBelowNext(db.items, db.nextId);
  }

  lemma InsertRoomWithin(db: Db, workspace: Id, limit: int)
    requires Sound(db)
    ensures Within(db, InsertRoom(db, workspace, limit), workspace)
  {
    var db' := InsertRoom(db, workspace, limit);
    var row := Room(workspace, Ready, "", "", limit, false);
    assert db' == db.(rooms := db.rooms[db.nextId := row], nextId := db.nextId + 1);
    RoomAdded(Tenants(db.rooms), Tenants(db.rooms[db.nextId := row]), db);
    IdsAdvance(db);
    KeyAdded(db.rooms, db.nextId, row);
    assert OtherRooms(db.rooms[db.nextId := row], workspace) == OtherRooms(db.rooms, workspace);
    OutsideRooms(db, db.rooms[db.nextId := row], db.nextId + 1, workspace);
  }

  /** Foreign keys hold against a larger `bridges`. */
  lemma RoomAdded(tenants: map<Id, Id>, tenants': map<Id, Id>, db: Db)
    requires forall r | r in tenants :: r in tenants' && tenants'[r] == tenants[r]
    ensures ParticipantsFit(tenants, db.participants) ==> ParticipantsFit(tenants', db.participants)
    ensures SessionsFit(tenants, db.sessions) ==> SessionsFit(tenants', db.sessions)
    ensures BatchesFit(tenants, db.batches) ==> BatchesFit(tenants', db.batches)
    ensures LegsFit(tenants, Homes(db.participants), db.legs) ==> LegsFit(tenants', Homes(db.participants), db.legs)
    ensures RequestsFit(tenants, Homes(db.participants), LegHomes(db.legs), db.requests)
            ==> RequestsFit(tenants', Homes(db.participants), LegHomes(db.legs), db.requests)
  {
  }

  lemma InsertParticipantWithin(db: Db, workspace: Id, room: Id, role: Role, name: string, phone: string)
    requires Sound(db) && (room in db.rooms ==> db.rooms[room].workspace == workspace)
    ensures Within(db, InsertParticipant(db, workspace, room, role, name, phone), workspace)
  {
    var db' := InsertParticipant(db, workspace, room, role, name, phone);
    var row := Participant(workspace, room, role, name, phone, if role == Host then DesiredActive else DesiredMuted);
    if AcceptsParticipant(db, room, role) {
      assert db' == db.(participants := db.participants[db.nextId := row], nextId := db.nextId + 1);
      IdsAdvance(db);
      KeyAdded(db.participants, db.nextId, row);
      ParticipantFits(Tenants(db.rooms), db, db.nextId, row);
      ParticipantAdded(Homes(db.participants), Homes(db.participants[db.nextId := row]), db);
      OutsideParticipants(db, db.participants[db.nextId := row], db.nextId + 1, workspace);
    } else {
      Same(db, workspace);
    }
  }

  lemma ParticipantFits(tenants: map<Id, Id>, db: Db, id: Id, row: Participant)
    requires ParticipantsFit(tenants, db.participants) && OneHost(db.participants) && id !in db.participants
    requires row.room in tenants && tenants[row.room] == row.workspace
    requires row.role == Host ==> !HasHost(db, row.room)
    ensures var participants := db.participants[id := row];
            && ParticipantsFit(tenants, participants) && OneHost(participants)
            && (forall p | p in Homes(db.participants) :: p in Homes(participants) && Homes(participants)[p] == Homes(db.participants)[p])
            && OtherParticipants(participants, row.workspace) == OtherParticipants(db.participants, row.workspace)
  {
  }

  lemma ParticipantAdded(homes: map<Id, Id>, homes': map<Id, Id>, db: Db)
    requires forall p | p in homes :: p in homes' && homes'[p] == homes[p]
    ensures LegsFit(Tenants(db.rooms), homes, db.legs) ==> LegsFit(Tenants(db.rooms), homes', db.legs)
    ensures RequestsFit(Tenants(db.rooms), homes, LegHomes(db.legs), db.requests)
            ==> RequestsFit(Tenants(db.rooms), homes', LegHomes(db.legs), db.requests)
    ensures ItemsFit(homes, db.batches, db.items) ==> ItemsFit(homes', db.batches, db.items)
    ensures AttendanceFits(homes, SessionRooms(db.sessions), LegHomes(db.legs), db.attendance)
            ==> AttendanceFits(homes', SessionRooms(db.sessions), LegHomes(db.legs), db.attendance)
  {
  }

  lemma InsertSessionWithin(db: Db, workspace: Id, room: Id)
    requires Sound(db) && (room in db.rooms ==> db.rooms[room].workspace == workspace)
    ensures Within(db, InsertSession(db, workspace, room), workspace)
  {
    var db' := InsertSession(db, workspace, room);
    var row := Session(workspace, room, SessionStarting);
    if room in db.rooms && !HasActive(db, room) {
      assert db' == db.(sessions := db.sessions[db.nextId := row], nextId := db.nextId + 1);
      IdsAdvance(db);
      KeyAdded(db.sessions, db.nextId, row);
      assert SessionsFit(Tenants(db.rooms), db.sessions[db.nextId := row]);
      SessionAdded(db, db.nextId, row);
      OutsideSessionAdded(db, db.sessions[db.nextId := row], db.nextId + 1, workspace);
    } else {
      Same(db, workspace);
    }
  }

  lemma SessionAdded(db: Db, id: Id, row: Session)
    requires OneActiveSession(db.sessions) && !HasActive(db, row.room) && id !in db.sessions
    requires AttendanceFits(Homes(db.participants), SessionRooms(db.sessions), LegHomes(db.legs), db.attendance)
    ensures OneActiveSession(db.sessions[id := row])
    ensures AttendanceFits(Homes(db.participants), SessionRooms(db.sessions[id := row]), LegHomes(db.legs), db.attendance)
  {
  }

  lemma OutsideSessionAdded(db: Db, sessions: map<Id, Session>, next: Id, workspace: Id)
    requires forall s | s in db.sessions :: s in sessions && sessions[s] == db.sessions[s]
    requires forall s | s in sessions && s !in db.sessions :: sessions[s].workspace == workspace
    requires forall a | a in db.attendance :: db.attendance[a].session in db.sessions
    requires db.nextId <= next && StableSessions(db.sessions, sessions, db.nextId)
    ensures SameOutside(db, db.(sessions := sessions, nextId := next), workspace) && Stable(db, db.(sessions := sessions, nextId := next))
  {
    assert OtherSessions(sessions, workspace) == OtherSessions(db.sessions, workspace);
    assert OtherAttendance(SessionTenants(sessions), db.attendance, workspace)
        == OtherAttendance(SessionTenants(db.sessions), db.attendance, workspace);
  }

  lemma InsertLegWithin(db: Db, workspace: Id, participant: Id, room: Id, muted: bool)
    requires Sound(db) && (room in db.rooms ==> db.rooms[room].workspace == workspace)
    requires participant in db.participants ==> db.participants[participant].room == room
    ensures Within(db, InsertLeg(db, workspace, participant, room, muted), workspace)
  {
    var db' := InsertLeg(db, workspace, participant, room, muted);
    var row := Leg(workspace, participant, room, Dispatched, muted);
    if participant in db.participants && room in db.rooms {
      assert db' == db.(legs := db.legs[db.nextId := row], nextId := db.nextId + 1);
      LegRowSound(db, row);
      OutsideLegs(db, db.legs[db.nextId := row], db.nextId + 1, workspace);
    } else {
      Same(db, workspace);
    }
  }

  lemma LegRowSound(db: Db, row: Leg)
    requires Sound(db) && RoomIn(db, row.workspace, row.room)
    requires row.participant in db.participants && db.participants[row.participant].room == row.room
    ensures Sound(db.(legs := db.legs[db.nextId := row], nextId := db.nextId + 1))
    ensures OtherLegs(db.legs[db.nextId := row], row.workspace) == OtherLegs(db.legs, row.workspace) && db.nextId !in db.legs
  {
    IdsAdvance(db);
    KeyAdded(db.legs, db.nextId, row);
    LegFits(Tenants(db.rooms), Homes(db.participants), db.legs, db.nextId, row);
    LegAdded(LegHomes(db.legs), LegHomes(db.legs[db.nextId := row]), db);
  }

  lemma LegFits(tenants: map<Id, Id>, homes: map<Id, Id>, legs: map<Id, Leg>, id: Id, row: Leg)
    requires LegsFit(tenants, homes, legs) && id !in legs
    requires row.room in tenants && tenants[row.room] == row.workspace
    requires row.participant in homes && homes[row.participant] == row.room
    ensures LegsFit(tenants, homes, legs[id := row])
    ensures forall l | l in LegHomes(legs) :: l in LegHomes(legs[id := row]) && LegHomes(legs[id := row])[l] == LegHomes(legs)[l]
    ensures OtherLegs(legs[id := row], row.workspace) == OtherLegs(legs, row.workspace)
  {
  }

  lemma LegAdded(homes: map<Id, (Id, Id)>, homes': map<Id, (Id, Id)>, db: Db)
    requires forall l | l in homes :: l in homes' && homes'[l] == homes[l]
    ensures RequestsFit(Tenants(db.rooms), Homes(db.participants), homes, db.requests)
            ==> RequestsFit(Tenants(db.rooms), Homes(db.participants), homes', db.requests)
    ensures AttendanceFits(Homes(db.participants), SessionRooms(db.sessions), homes, db.attendance)
            ==> AttendanceFits(Homes(db.participants), SessionRooms(db.sessions), homes', db.attendance)
  {
  }

  lemma InsertAttendanceWithin(db: Db, session: Id, participant: Id, leg: Id, role: Role, workspace: Id, room: Id)
    requires Sound(db)
    requires session in db.sessions ==> db.sessions[session].room == room && db.sessions[session].workspace == workspace
    requires participant in db.participants ==> db.participants[participant].room == room
    requires leg in db.legs ==> db.legs[leg].room == room
    ensures Within(db, InsertAttendance(db, session, participant, leg, role), workspace)
  {
    var db' := InsertAttendance(db, session, participant, leg, role);
    var row := Attendance(session, Some(participant), Some(leg), role);
    if session in db.sessions && participant in db.participants && leg in db.legs {
      assert db' == db.(attendance := db.attendance[db.nextId := row], nextId := db.nextId + 1);
      AttendanceRowSound(db, row);
      OutsideAttendance(db, db.nextId, row, db.nextId + 1, workspace);
    } else {
      Same(db, workspace);
    }
  }

  lemma AttendanceRowSound(db: Db, row: Attendance)
    requires Sound(db) && row.session in db.sessions && row.participant.Some? && row.leg.Some?
    requires row.participant.value in db.participants && row.leg.value in db.legs
    requires db.participants[row.participant.value].room == db.legs[row.leg.value].room == db.sessions[row.session].room
    ensures Sound(db.(attendance := db.attendance[db.nextId := row], nextId := db.nextId + 1)) && db.nextId !in db.attendance
  {
    IdsAdvance(db);
    KeyAdded(db.attendance, db.nextId, row);
    AttendanceFitsToo(Homes(db.participants), SessionRooms(db.sessions), LegHomes(db.legs), db.attendance, db.nextId, row);
  }

  lemma AttendanceFitsToo(homes: map<Id, Id>, sessionRooms: map<Id, Id>, legHomes: map<Id, (Id, Id)>,
                          attendance: map<Id, Attendance>, id: Id, row: Attendance)
    requires AttendanceFits(homes, sessionRooms, legHomes, attendance)
    requires row.session in sessionRooms && row.participant.Some? && row.leg.Some?
    requires row.participant.value in homes && homes[row.participant.value] == sessionRooms[row.session]
    requires row.leg.value in legHomes && legHomes[row.leg.value].0 == sessionRooms[row.session]
    ensures AttendanceFits(homes, sessionRooms, legHomes, attendance[id := row])
  {
  }

  lemma OutsideAttendance(db: Db, id: Id, row: Attendance, next: Id, workspace: Id)
    requires id !in db.attendance && row.session in db.sessions && db.sessions[row.session].workspace == workspace
    requires db.nextId <= next
    ensures var db' := db.(attendance := db.attendance[id := row], nextId := next);
            SameOutside(db, db', workspace) && Stable(db, db')
  {
    assert OtherAttendance(SessionTenants(db.sessions), db.attendance[id := row], workspace)
        == OtherAttendance(SessionTenants(db.sessions), db.attendance, workspace);
  }

  lemma InsertRequestWithin(db: Db, workspace: Id, room: Id, participant: Id, leg: Id)
    requires Sound(db) && (room in db.rooms ==> db.rooms[room].workspace == workspace)
    requires participant in db.participants ==> db.participants[participant].room == room
    requires leg in db.legs ==> db.legs[leg].participant == participant
    ensures Within(db, InsertRequest(db, workspace, room, participant, leg), workspace)
  {
    InsertRequestIs(db, workspace, room, participant, leg);
    if participant in db.participants && room in db.rooms && leg in db.legs && !HasOpenRequest(db, room, participant) {
      RequestRowWithin(db, Request(workspace, room, participant, Some(leg), Queued));
    } else {
      Same(db, workspace);
    }
  }

  lemma InsertRequestIs(db: Db, workspace: Id, room: Id, participant: Id, leg: Id)
    ensures var row := Request(workspace, room, participant, Some(leg), Queued);
      var free := participant in db.participants && room in db.rooms && leg in db.legs && !HasOpenRequest(db, room, participant);
      && (free ==> InsertRequest(db, workspace, room, participant, leg)
                   == db.(requests := db.requests[db.nextId := row], nextId := db.nextId + 1))
      && (!free ==> InsertRequest(db, workspace, room, participant, leg) == db)
  {
  }

  lemma RequestRowWithin(db: Db, row: Request)
    requires Sound(db) && RoomIn(db, row.workspace, row.room) && !HasOpenRequest(db, row.room, row.participant)
    requires row.participant in db.participants && db.participants[row.participant].room == row.room
    requires row.leg.Some? && row.leg.value in db.legs && db.legs[row.leg.value].participant == row.participant
    ensures Within(db, db.(requests := db.requests[db.nextId := row], nextId := db.nextId + 1), row.workspace)
  {
    RequestRowSound(db, row);
    OutsideRequests(db, db.requests[db.nextId := row], db.nextId + 1, row.workspace);
  }

  lemma RequestRowSound(db: Db, row: Request)
    requires Sound(db) && RoomIn(db, row.workspace, row.room) && !HasOpenRequest(db, row.room, row.participant)
    requires row.participant in db.participants && db.participants[row.participant].room == row.room
    requires row.leg.Some? && row.leg.value in db.legs && db.legs[row.leg.value].participant == row.participant
    ensures Sound(db.(requests := db.requests[db.nextId := row], nextId := db.nextId + 1))
    ensures OtherRequests(db.requests[db.nextId := row], row.workspace) == OtherRequests(db.requests, row.workspace)
  {
    IdsAdvance(db);
    KeyAdded(db.requests, db.nextId, row);
    RequestFits(Tenants(db.rooms), Homes(db.participants), LegHomes(db.legs), db.requests, db.nextId, row);
    RequestOpened(db, db.nextId, row);
  }

  lemma RequestFits(tenants: map<Id, Id>, homes: map<Id, Id>, legHomes: map<Id, (Id, Id)>, requests: map<Id, Request>,
                    id: Id, row: Request)
    requires RequestsFit(tenants, homes, legHomes, requests) && id !in requests
    requires row.room in tenants && tenants[row.room] == row.workspace
    requires row.participant in homes && homes[row.participant] == row.room
    requires row.leg.Some? ==> row.leg.value in legHomes && legHomes[row.leg.value].1 == row.participant
    ensures RequestsFit(tenants, homes, legHomes, requests[id := row])
    ensures OtherRequests(requests[id := row], row.workspace) == OtherRequests(requests, row.workspace)
  {
  }

  /** Writing one request keeps the open-request index when the participant has no open one. */
  lemma RequestOpened(db: Db, id: Id, row: Request)
    requires OneOpenRequest(db.requests) && !HasOpenRequest(db, row.room, row.participant)
    ensures OneOpenRequest(db.requests[id := row])
  {
  }

  lemma InsertBatchWithin(db: Db, workspace: Id, room: Id)
    requires Sound(db) && (room in db.rooms ==> db.rooms[room].workspace == workspace)
    ensures Within(db, InsertBatch(db, workspace, room), workspace)
  {
    var db' := InsertBatch(db, workspace, room);
    var row := Batch(workspace, room);
    if room in db.rooms {
      assert db' == db.(batches := db.batches[db.nextId := row], nextId := db.nextId + 1);
      IdsAdvance(db);
      KeyAdded(db.batches, db.nextId, row);
      BatchAdded(db, row);
      assert OtherBatches(db.batches[db.nextId := row], workspace) == OtherBatches(db.batches, workspace);
      OutsideBatches(db, db.batches[db.nextId := row], db.nextId + 1, workspace);
    } else {
      Same(db, workspace);
    }
  }

  lemma BatchAdded(db: Db, row: Batch)
    requires BatchesFit(Tenants(db.rooms), db.batches) && RoomIn(db, row.workspace, row.room)
    requires ItemsFit(Homes(db.participants), db.batches, db.items) && KeysBelow(db.batches, db.nextId)
    ensures BatchesFit(Tenants(db.rooms), db.batches[db.nextId := row])
    ensures ItemsFit(Homes(db.participants), db.batches[db.nextId := row], db.items)
  {
  }

  lemma OutsideBatches(db: Db, batches: map<Id, Batch>, next: Id, workspace: Id)
    requires OtherBatches(batches, workspace) == OtherBatches(db.batches, workspace)
    requires db.nextId <= next
    ensures SameOutside(db, db.(batches := batches, nextId := next), workspace) && Stable(db, db.(batches := batches, nextId := next))
  {
  }

  lemma InsertItemWithin(db: Db, workspace: Id, batch: Id, participant: Id, name: string, phone: string)
    requires Sound(db) && (batch in db.batches ==> db.batches[batch].workspace == workspace)
    requires batch in db.batches && participant in db.participants ==>
               db.participants[participant].room == db.batches[batch].room
    ensures Within(db, InsertItem(db, workspace, batch, participant, name, phone), workspace)
  {
    var db' := InsertItem(db, workspace, batch, participant, name, phone);
    var row := Item(workspace, batch, Some(participant), name, phone);
    if batch in db.batches && participant in db.participants {
      assert db' == db.(items := db.items[db.nextId := row], nextId := db.nextId + 1);
      IdsAdvance(db);
      KeyAdded(db.items, db.nextId, row);
      ItemFits(Homes(db.participants), db.batches, db.items, db.nextId, row);
      OutsideItems(db, db.items[db.nextId := row], db.nextId + 1, workspace);
    } else {
      Same(db, workspace);
    }
  }

  lemma ItemFits(homes: map<Id, Id>, batches: map<Id, Batch>, items: map<Id, Item>, id: Id, row: Item)
    requires ItemsFit(homes, batches, items) && id !in items
    requires row.batch in batches && batches[row.batch].workspace == row.workspace
    requires row.participant.Some? ==>
               row.participant.value in homes && homes[row.participant.value] == batches[row.batch].room
    ensures ItemsFit(homes, batches, items[id := row])
    ensures OtherItems(items[id := row], row.workspace) == OtherItems(items, row.workspace)
  {
  }

  // ---- Updates ----

  lemma SetRoomStateWithin(db: Db, workspace: Id, room: Id, from: set<RoomState>, to: RoomState)
    requires Sound(db)
    ensures Within(db, SetRoomState(db, workspace, room, from, to), workspace)
  {
    if RoomIn(db, workspace, room) && db.rooms[room].state in from {
      var rows := db.rooms[room := db.rooms[room].(state := to)];
      assert SetRoomState(db, workspace, room, from, to) == db.(rooms := rows);
      RoomsWritten(db, rows, workspace);
    } else {
      Same(db, workspace);
    }
  }

  lemma SetHostCopyWithin(db: Db, workspace: Id, room: Id, name: string, phone: string)
    requires Sound(db)
    ensures Within(db, SetHostCopy(db, workspace, room, name, phone), workspace)
  {
    if RoomIn(db, workspace, room) {
      var rows := db.rooms[room := db.rooms[room].(hostName := name, hostPhone := phone)];
      assert SetHostCopy(db, workspace, room, name, phone) == db.(rooms := rows);
      RoomsWritten(db, rows, workspace);
    } else {
      Same(db, workspace);
    }
  }

  lemma SetRoomLimitsWithin(db: Db, workspace: Id, room: Id, limit: int, tfn: bool)
    requires Sound(db) && (room in db.rooms ==> db.rooms[room].workspace == workspace)
    ensures Within(db, SetRoomLimits(db, room, limit, tfn), workspace)
  {
    if room in db.rooms {
      var rows := db.rooms[room := db.rooms[room].(limit := limit, tfn := tfn)];
      assert SetRoomLimits(db, room, limit, tfn) == db.(rooms := rows);
      RoomsWritten(db, rows, workspace);
    } else {
      Same(db, workspace);
    }
  }

  /** The session updates: the guard of `RUNNING` is what keeps the one-active-session index. */
  lemma SetSessionStatusWithin(db: Db, workspace: Id, session: Id, from: set<SessionStatus>, to: SessionStatus)
    requires Sound(db) && (session in db.sessions ==> db.sessions[session].workspace == workspace)
    requires IsActive(to) ==> from <= ACTIVE_STATUS
    ensures Within(db, SetSessionStatus(db, session, from, to), workspace)
  {
    if session in db.sessions && db.sessions[session].status in from {
      var rows := db.sessions[session := db.sessions[session].(status := to)];
      assert SetSessionStatus(db, session, from, to) == db.(sessions := rows);
      SessionsWritten(db, rows, workspace);
    } else {
      Same(db, workspace);
    }
  }

  lemma SetLegStateWithin(db: Db, workspace: Id, leg: Id, to: LegState)
    requires Sound(db) && (leg in db.legs ==> db.legs[leg].workspace == workspace)
    ensures Within(db, SetLegState(db, leg, to), workspace)
  {
    if leg in db.legs {
      var rows := db.legs[leg := db.legs[leg].(state := to)];
      assert SetLegState(db, leg, to) == db.(legs := rows);
      LegsWritten(db, rows, workspace);
    } else {
      Same(db, workspace);
    }
  }

  lemma SetLegMutedWithin(db: Db, workspace: Id, leg: Id, muted: bool)
    requires Sound(db)
    ensures Within(db, SetLegMuted(db, workspace, leg, muted), workspace)
  {
    if leg in db.legs && db.legs[leg].workspace == workspace {
      var rows := db.legs[leg := db.legs[leg].(muted := muted)];
      assert SetLegMuted(db, workspace, leg, muted) == db.(legs := rows);
      LegsWritten(db, rows, workspace);
    } else {
      Same(db, workspace);
    }
  }

  lemma DropLegWithin(db: Db, workspace: Id, leg: Id)
    requires Sound(db)
    ensures Within(db, DropLeg(db, workspace, leg), workspace)
  {
    if leg in db.legs && db.legs[leg].workspace == workspace {
      SetLegStateWithin(db, workspace, leg, Dropped);
    } else {
      Same(db, workspace);
    }
  }

  lemma SetDesiredWithin(db: Db, workspace: Id, participant: Id, from: set<Desired>, to: Desired)
    requires Sound(db)
    ensures Within(db, SetDesired(db, workspace, participant, from, to), workspace)
  {
    if participant in db.participants && db.participants[participant].workspace == workspace
       && db.participants[participant].desired in from {
      var rows := db.participants[participant := db.participants[participant].(desired := to)];
      assert SetDesired(db, workspace, participant, from, to) == db.(participants := rows);
      ParticipantsWritten(db, rows, workspace);
    } else {
      Same(db, workspace);
    }
  }

  lemma SetContactWithin(db: Db, workspace: Id, participant: Id, name: string, phone: string)
    requires Sound(db)
    ensures Within(db, SetContact(db, workspace, participant, name, phone), workspace)
  {
    if participant in db.participants && db.participants[participant].workspace == workspace {
      var rows := db.participants[participant := db.participants[participant].(name := name, phone := phone)];
      assert SetContact(db, workspace, participant, name, phone) == db.(participants := rows);
      ParticipantsWritten(db, rows, workspace);
    } else {
      Same(db, workspace);
    }
  }

  lemma SetItemContactsWithin(db: Db, workspace: Id, participant: Id, name: string, phone: string)
    requires Sound(db)
    ensures Within(db, SetItemContacts(db, workspace, participant, name, phone), workspace)
  {
    ItemsWritten(db, SetItemContacts(db, workspace, participant, name, phone).items, workspace);
  }

  lemma ActivateRequestWithin(db: Db, workspace: Id, request: Id)
    requires Sound(db)
    ensures Within(db, ActivateRequest(db, workspace, request), workspace)
  {
    if request in db.requests && db.requests[request].workspace == workspace
       && (IsOpen(db.requests[request].status)
           || !HasOpenRequest(db, db.requests[request].room, db.requests[request].participant)) {
      var rows := db.requests[request := db.requests[request].(status := RequestActive)];
      assert ActivateRequest(db, workspace, request) == db.(requests := rows);
      if IsOpen(db.requests[request].status) {
        StillOpen(db.requests, rows);
      } else {
        RequestOpened(db, request, rows[request]);
      }
      RequestsWritten(db, rows, workspace);
    } else {
      Same(db, workspace);
    }
  }

  /** Closing requests, or leaving them open, keeps the open-request index. */
  lemma StillOpen(requests: map<Id, Request>, requests': map<Id, Request>)
    requires OneOpenRequest(requests) && requests'.Keys == requests.Keys
    requires forall q | q in requests' ::
               && requests'[q] == requests[q].(status := requests'[q].status)
               && (IsOpen(requests'[q].status) ==> IsOpen(requests[q].status))
    ensures OneOpenRequest(requests')
  {
  }

  lemma WithdrawRequestWithin(db: Db, workspace: Id, request: Id)
    requires Sound(db)
    ensures Within(db, WithdrawRequest(db, workspace, request), workspace)
  {
    if request in db.requests && db.requests[request].workspace == workspace && IsOpen(db.requests[request].status) {
      var rows := db.requests[request := db.requests[request].(status := Withdrawn)];
      assert WithdrawRequest(db, workspace, request) == db.(requests := rows);
      StillOpen(db.requests, rows);
      RequestsWritten(db, rows, workspace);
    } else {
      Same(db, workspace);
    }
  }

  lemma WithdrawRequestsOfWithin(db: Db, workspace: Id, room: Id, participant: Id)
    requires Sound(db)
    ensures Within(db, WithdrawRequestsOf(db, workspace, room, participant), workspace)
  {
    StillOpen(db.requests, WithdrawRequestsOf(db, workspace, room, participant).requests);
    RequestsWritten(db, WithdrawRequestsOf(db, workspace, room, participant).requests, workspace);
  }

  // ---- Deletes ----

  lemma DeleteItemsOfRoomWithin(db: Db, workspace: Id, room: Id)
    requires Sound(db) && RoomIn(db, workspace, room)
    ensures Within(db, DeleteItemsOfRoom(db, room), workspace)
  {
    forall i | i in db.items && db.items[i].workspace != workspace
      ensures i in DeleteItemsOfRoom(db, room).items
    {
      if db.items[i].participant.Some? {
        assert db.batches[db.items[i].batch].room in Tenants(db.rooms);
      }
    }
    ItemsWritten(db, DeleteItemsOfRoom(db, room).items, workspace);
  }

  /** Cascading deletes of a workspace's rooms and participants reach only that workspace. */
  lemma CascadeWithin(db: Db, workspace: Id, rooms: set<Id>, participants: set<Id>)
    requires Sound(db) && Owned(db, workspace, rooms, participants)
    ensures Within(db, Cascade(db, rooms, participants), workspace)
  {
    CascadeConsistent(db, rooms, participants);
    CascadeOutside(db, workspace, rooms, participants);
    CascadeRest(db, rooms, participants);
    CascadeStable(db, rooms, participants);
  }

  lemma CascadeStable(db: Db, rooms: set<Id>, participants: set<Id>)
    ensures Stable(db, Cascade(db, rooms, participants))
  {
  }

  lemma CascadeRest(db: Db, rooms: set<Id>, participants: set<Id>)
    requires IdsBelow(db) && OneActiveSession(db.sessions) && OneHost(db.participants) && OneOpenRequest(db.requests)
    ensures var db' := Cascade(db, rooms, participants);
            IdsBelow(db') && OneActiveSession(db'.sessions) && OneHost(db'.participants) && OneOpenRequest(db'.requests)
  {
  }

  lemma CascadeConsistent(db: Db, rooms: set<Id>, participants: set<Id>)
    requires Consistent(db)
    ensures Consistent(Cascade(db, rooms, participants))
  {
    CascadeItems(db, rooms, participants);
    CascadeAttendance(db, rooms, participants);
    CascadeRequests(db, rooms, participants);
    CascadeRows(db, rooms, participants);
  }

  lemma CascadeRows(db: Db, rooms: set<Id>, participants: set<Id>)
    requires ParticipantsFit(Tenants(db.rooms), db.participants) && SessionsFit(Tenants(db.rooms), db.sessions)
    requires LegsFit(Tenants(db.rooms), Homes(db.participants), db.legs) && BatchesFit(Tenants(db.rooms), db.batches)
    ensures var db' := Cascade(db, rooms, participants);
            && ParticipantsFit(Tenants(db'.rooms), db'.participants) && SessionsFit(Tenants(db'.rooms), db'.sessions)
            && LegsFit(Tenants(db'.rooms), Homes(db'.participants), db'.legs) && BatchesFit(Tenants(db'.rooms), db'.batches)
  {
  }

  lemma CascadeItems(db: Db, rooms: set<Id>, participants: set<Id>)
    requires ItemsFit(Homes(db.participants), db.batches, db.items)
    ensures var db' := Cascade(db, rooms, participants); ItemsFit(Homes(db'.participants), db'.batches, db'.items)
  {
  }

  lemma CascadeAttendance(db: Db, rooms: set<Id>, participants: set<Id>)
    requires AttendanceFits(Homes(db.participants), SessionRooms(db.sessions), LegHomes(db.legs), db.attendance)
    ensures var db' := Cascade(db, rooms, participants);
            AttendanceFits(Homes(db'.participants), SessionRooms(db'.sessions), LegHomes(db'.legs), db'.attendance)
  {
  }

  lemma CascadeRequests(db: Db, rooms: set<Id>, participants: set<Id>)
    requires RequestsFit(Tenants(db.rooms), Homes(db.participants), LegHomes(db.legs), db.requests)
    ensures var db' := Cascade(db, rooms, participants);
            RequestsFit(Tenants(db'.rooms), Homes(db'.participants), LegHomes(db'.legs), db'.requests)
  {
  }

  /** The rows to be deleted belong to the workspace. */
  ghost predicate Owned(db: Db, workspace: Id, rooms: set<Id>, participants: set<Id>) {
    && (forall r | r in rooms && r in db.rooms :: db.rooms[r].workspace == workspace)
    && (forall p | p in participants && p in db.participants :: db.participants[p].workspace == workspace)
  }

  lemma CascadeOutside(db: Db, workspace: Id, rooms: set<Id>, participants: set<Id>)
    requires Consistent(db) && Owned(db, workspace, rooms, participants)
    ensures SameOutside(db, Cascade(db, rooms, participants), workspace)
  {
    OutsideCascadeRooms(db, workspace, rooms, participants);
    OutsideCascadeSessions(db, workspace, rooms, participants);
    OutsideCascadeBatches(db, workspace, rooms, participants);
    OutsideCascadePeople(db, workspace, rooms, participants);
    OutsideCascadeLegs(db, workspace, rooms, participants);
    OutsideCascadeRequests(db, workspace, rooms, participants);
    OutsideCascadeAttendance(db, workspace, rooms, participants);
    OutsideCascadeItems(db, workspace, rooms, participants);
  }

  lemma OutsideCascadeRooms(db: Db, workspace: Id, rooms: set<Id>, participants: set<Id>)
    requires Owned(db, workspace, rooms, participants)
    ensures OtherRooms(db.rooms, workspace) == OtherRooms(Cascade(db, rooms, participants).rooms, workspace)
  {
  }

  lemma OutsideCascadeSessions(db: Db, workspace: Id, rooms: set<Id>, participants: set<Id>)
    requires SessionsFit(Tenants(db.rooms), db.sessions) && Owned(db, workspace, rooms, participants)
    ensures OtherSessions(db.sessions, workspace) == OtherSessions(Cascade(db, rooms, participants).sessions, workspace)
  {
  }

  lemma OutsideCascadeBatches(db: Db, workspace: Id, rooms: set<Id>, participants: set<Id>)
    requires BatchesFit(Tenants(db.rooms), db.batches) && Owned(db, workspace, rooms, participants)
    ensures OtherBatches(db.batches, workspace) == OtherBatches(Cascade(db, rooms, participants).batches, workspace)
  {
  }

  lemma OutsideCascadePeople(db: Db, workspace: Id, rooms: set<Id>, participants: set<Id>)
    requires ParticipantsFit(Tenants(db.rooms), db.participants) && Owned(db, workspace, rooms, participants)
    ensures OtherParticipants(db.participants, workspace)
         == OtherParticipants(Cascade(db, rooms, participants).participants, workspace)
  {
  }

  lemma OutsideCascadeLegs(db: Db, workspace: Id, rooms: set<Id>, participants: set<Id>)
    requires ParticipantsFit(Tenants(db.rooms), db.participants) && LegsFit(Tenants(db.rooms), Homes(db.participants), db.legs)
    requires Owned(db, workspace, rooms, participants)
    ensures OtherLegs(db.legs, workspace) == OtherLegs(Cascade(db, rooms, participants).legs, workspace)
  {
    forall l | l in db.legs && db.legs[l].workspace != workspace
      ensures l in Cascade(db, rooms, participants).legs
    {
      Spared(db, workspace, rooms, participants, db.legs[l].participant);
    }
  }

  /** A participant of a room outside the workspace is not among the deleted ones. */
  lemma Spared(db: Db, workspace: Id, rooms: set<Id>, participants: set<Id>, p: Id)
    requires ParticipantsFit(Tenants(db.rooms), db.participants) && Owned(db, workspace, rooms, participants)
    requires p in db.participants && db.rooms[db.participants[p].room].workspace != workspace
    ensures p !in participants && db.participants[p].room !in rooms
  {
  }

  lemma OutsideCascadeRequests(db: Db, workspace: Id, rooms: set<Id>, participants: set<Id>)
    requires Consistent(db) && Owned(db, workspace, rooms, participants)
    ensures OtherRequests(db.requests, workspace) == OtherRequests(Cascade(db, rooms, participants).requests, workspace)
  {
    forall q | q in db.requests && db.requests[q].workspace != workspace
      ensures q in Cascade(db, rooms, participants).requests && Cascade(db, rooms, participants).requests[q] == db.requests[q]
    {
      Spared(db, workspace, rooms, participants, db.requests[q].participant);
    }
  }

  lemma OutsideCascadeAttendance(db: Db, workspace: Id, rooms: set<Id>, participants: set<Id>)
    requires ParticipantsFit(Tenants(db.rooms), db.participants) && SessionsFit(Tenants(db.rooms), db.sessions)
    requires LegsFit(Tenants(db.rooms), Homes(db.participants), db.legs)
    requires AttendanceFits(Homes(db.participants), SessionRooms(db.sessions), LegHomes(db.legs), db.attendance)
    requires Owned(db, workspace, rooms, participants)
    ensures var db' := Cascade(db, rooms, participants);
            OtherAttendance(SessionTenants(db.sessions), db.attendance, workspace)
            == OtherAttendance(SessionTenants(db'.sessions), db'.attendance, workspace)
  {
    var db' := Cascade(db, rooms, participants);
    forall a | a in db.attendance && db.sessions[db.attendance[a].session].workspace != workspace
      ensures a in db'.attendance && db'.attendance[a] == db.attendance[a] && db.attendance[a].session in db'.sessions
    {
      if db.attendance[a].participant.Some? {
        Spared(db, workspace, rooms, participants, db.attendance[a].participant.value);
      }
      if db.attendance[a].leg.Some? {
        Spared(db, workspace, rooms, participants, db.legs[db.attendance[a].leg.value].participant);
      }
    }
  }

  lemma OutsideCascadeItems(db: Db, workspace: Id, rooms: set<Id>, participants: set<Id>)
    requires Consistent(db) && Owned(db, workspace, rooms, participants)
    ensures OtherItems(db.items, workspace) == OtherItems(Cascade(db, rooms, participants).items, workspace)
  {
    var db' := Cascade(db, rooms, participants);
    forall i | i in db.items && db.items[i].workspace != workspace
      ensures i in db'.items && db'.items[i] == db.items[i]
    {
      if db.items[i].participant.Some? {
        Spared(db, workspace, rooms, participants, db.items[i].participant.value);
      }
    }
  }
}
