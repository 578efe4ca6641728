/** The two properties every statement of the control API is checked against: the tables stay
    sound, and a statement run for one workspace leaves the rows of the others as they are. */
module Isolation {
  import opened Tables

  ghost predicate Sound(db: Db) {
    Consistent(db) && IdsBelow(db) && OneActiveSession(db.sessions) && OneHost(db.participants) && OneOpenRequest(db.requests)
  }

  // ---- The rows the other workspaces own ----

  ghost function OtherRooms(rooms: map<Id, Room>, workspace: Id): map<Id, Room> {
    map k | k in rooms && rooms[k].workspace != workspace :: rooms[k]
  }

  ghost function OtherParticipants(participants: map<Id, Participant>, workspace: Id): map<Id, Participant> {
    map k | k in participants && participants[k].workspace != workspace :: participants[k]
  }

  ghost function OtherSessions(sessions: map<Id, Session>, workspace: Id): map<Id, Session> {
    map k | k in sessions && sessions[k].workspace != workspace :: sessions[k]
  }

  ghost function OtherLegs(legs: map<Id, Leg>, workspace: Id): map<Id, Leg> {
    map k | k in legs && legs[k].workspace != workspace :: legs[k]
  }

  ghost function OtherRequests(requests: map<Id, Request>, workspace: Id): map<Id, Request> {
    map k | k in requests && requests[k].workspace != workspace :: requests[k]
  }

  ghost function OtherBatches(batches: map<Id, Batch>, workspace: Id): map<Id, Batch> {
    map k | k in batches && batches[k].workspace != workspace :: batches[k]
  }

  ghost function OtherItems(items: map<Id, Item>, workspace: Id): map<Id, Item> {
    map k | k in items && items[k].workspace != workspace :: items[k]
  }

  ghost function SessionTenants(sessions: map<Id, Session>): map<Id, Id> { map s | s in sessions :: sessions[s].workspace }

  /** An attendance row has no workspace column: it belongs to its session's workspace. */
  ghost function OtherAttendance(tenants: map<Id, Id>, attendance: map<Id, Attendance>, workspace: Id): map<Id, Attendance> {
    map k | k in attendance && attendance[k].session in tenants && tenants[attendance[k].session] != workspace :: attendance[k]
  }

  /** Every row that another workspace owns is there before and after, and is the same. */
  ghost predicate SameOutside(db: Db, db': Db, workspace: Id) {
    && OtherRooms(db.rooms, workspace) == OtherRooms(db'.rooms, workspace)
    && OtherParticipants(db.participants, workspace) == OtherParticipants(db'.participants, workspace)
    && OtherSessions(db.sessions, workspace) == OtherSessions(db'.sessions, workspace)
    && OtherLegs(db.legs, workspace) == OtherLegs(db'.legs, workspace)
    && OtherAttendance(SessionTenants(db.sessions), db.attendance, workspace)
       == OtherAttendance(SessionTenants(db'.sessions), db'.attendance, workspace)
    && OtherRequests(db.requests, workspace) == OtherRequests(db'.requests, workspace)
    && OtherBatches(db.batches, workspace) == OtherBatches(db'.batches, workspace)
    && OtherItems(db.items, workspace) == OtherItems(db'.items, workspace)
  }

  /** Ids are issued once, and the columns other rows and in-flight handlers rely on never change. */
  ghost predicate Stable(db: Db, db': Db) {
    && db.nextId <= db'.nextId
    && StableRooms(db.rooms, db'.rooms, db.nextId)
    && StableParticipants(db.participants, db'.participants, db.nextId)
    && StableSessions(db.sessions, db'.sessions, db.nextId)
    && StableLegs(db.legs, db'.legs, db.nextId)
    && StableRequests(db.requests, db'.requests, db.nextId)
  }

  ghost predicate StableRooms(before: map<Id, Room>, after: map<Id, Room>, next: Id) {
    forall r | r in after && r < next :: r in before && after[r].workspace == before[r].workspace
  }

  ghost predicate StableParticipants(before: map<Id, Participant>, after: map<Id, Participant>, next: Id) {
    forall p | p in after && p < next ::
      && p in before && after[p].workspace == before[p].workspace
      && after[p].room == before[p].room && after[p].role == before[p].role
  }

  ghost predicate StableSessions(before: map<Id, Session>, after: map<Id, Session>, next: Id) {
    forall s | s in after && s < next :: s in before && after[s].room == before[s].room
  }

  ghost predicate StableLegs(before: map<Id, Leg>, after: map<Id, Leg>, next: Id) {
    forall l | l in after && l < next ::
      l in before && after[l].room == before[l].room && after[l].participant == before[l].participant
  }

  ghost predicate StableRequests(before: map<Id, Request>, after: map<Id, Request>, next: Id) {
    forall q | q in after && q < next ::
      && q in before && after[q].workspace == before[q].workspace
      && after[q].room == before[q].room && after[q].participant == before[q].participant
  }

  /** A statement run for `workspace` that is sound and stays inside it. */
  ghost predicate Within(db: Db, db': Db, workspace: Id) {
    Sound(db') && SameOutside(db, db', workspace) && Stable(db, db')
  }
}
