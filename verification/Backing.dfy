/** What the room protocol and the roster handlers do to raised hands: they raise none, and close no speaker
    request of a participant who stays. */
module Backing {
  import Text
  import opened Tables
  import opened Frames
  import P = RoomProtocol
  import T = RoomTenancy
  import R = Roster

  /** A raised hand has an open request in its room. */
  predicate Backed(db: Db, p: Id)
    requires p in db.participants
  {
    db.participants[p].desired == HandRaised ==> HasOpenRequest(db, db.participants[p].room, p)
  }

  ghost predicate AllBacked(db: Db, spared: set<Id>) {
    forall p | p in db.participants && p !in spared :: Backed(db, p)
  }

  /** The participant was there, in its room; a raised hand was raised, and an open request is still open. */
  predicate Unharmed(db: Db, db': Db, p: Id)
    requires p in db.participants && p in db'.participants
  {
    && db'.participants[p].room == db.participants[p].room
    && (db'.participants[p].desired == HandRaised ==> db.participants[p].desired == HandRaised)
    && (HasOpenRequest(db, db.participants[p].room, p) ==> HasOpenRequest(db', db.participants[p].room, p))
  }

  predicate Newcomer(db: Db, db': Db, p: Id)
    requires p in db'.participants
  {
    db.nextId <= p && db'.participants[p].desired != HandRaised
  }

  ghost predicate Harmless(db: Db, db': Db) {
    && KeysBelow(db.participants, db.nextId) && KeysBelow(db'.participants, db'.nextId) && db.nextId <= db'.nextId
    && forall p | p in db'.participants :: if p in db.participants then Unharmed(db, db', p) else Newcomer(db, db', p)
  }

  lemma HarmlessBacks(db: Db, db': Db, spared: set<Id>)
    requires AllBacked(db, spared) && Harmless(db, db')
    ensures AllBacked(db', spared)
  {
    forall p | p in db'.participants && p !in spared ensures Backed(db', p) {
      if p in db.participants { assert Backed(db, p) && Unharmed(db, db', p); }
    }
  }

  lemma SameRequests(db: Db, db': Db, room: Id, p: Id)
    requires db'.requests == db.requests
    ensures HasOpenRequest(db', room, p) <==> HasOpenRequest(db, room, p)
  {
  }

  lemma Still(db: Db)
    requires KeysBelow(db.participants, db.nextId)
    ensures Harmless(db, db)
  {
  }

  lemma Both(db: Db, db': Db, db'': Db)
    requires Harmless(db, db') && Harmless(db', db'')
    ensures Harmless(db, db'')
  {
    forall p | p in db''.participants ensures if p in db.participants then Unharmed(db, db'', p) else Newcomer(db, db'', p) {
      if p in db'.participants {
        assert Unharmed(db', db'', p);
        if p in db.participants { assert Unharmed(db, db', p); } else { assert Newcomer(db, db', p); }
      } else {
        assert Newcomer(db', db'', p);
      }
    }
  }

  /** A statement on other tables. */
  lemma Elsewhere(db: Db, db': Db)
    requires KeysBelow(db.participants, db.nextId) && db.nextId <= db'.nextId
    requires db'.participants == db.participants && db'.requests == db.requests
    ensures Harmless(db, db')
  {
    forall p | p in db'.participants ensures Unharmed(db, db', p) { SameRequests(db, db', db.participants[p].room, p); }
  }

  /** Participant rows written in place, no hand raised. */
  lemma PeopleWritten(db: Db, db': Db)
    requires KeysBelow(db.participants, db.nextId) && db'.nextId == db.nextId && db'.requests == db.requests
    requires db'.participants.Keys == db.participants.Keys
    requires forall p | p in db.participants ::
               && db'.participants[p].room == db.participants[p].room
               && (db'.participants[p].desired == HandRaised ==> db.participants[p].desired == HandRaised)
    ensures Harmless(db, db')
  {
    forall p | p in db'.participants ensures Unharmed(db, db', p) { SameRequests(db, db', db.participants[p].room, p); }
  }

  lemma DesiredHarmless(db: Db, workspace: Id, p: Id, from: set<Desired>, to: Desired)
    requires KeysBelow(db.participants, db.nextId) && to != HandRaised
    ensures Harmless(db, SetDesired(db, workspace, p, from, to))
  {
    Still(db);
    if p in db.participants && db.participants[p].workspace == workspace && db.participants[p].desired in from {
      var rows := db.participants[p := db.participants[p].(desired := to)];
      assert SetDesired(db, workspace, p, from, to) == db.(participants := rows);
      PeopleWritten(db, db.(participants := rows));
    }
  }

  lemma ContactHarmless(db: Db, workspace: Id, p: Id, name: string, phone: string)
    requires KeysBelow(db.participants, db.nextId)
    ensures Harmless(db, SetContact(db, workspace, p, name, phone))
  {
    Still(db);
    if p in db.participants && db.participants[p].workspace == workspace {
      var rows := db.participants[p := db.participants[p].(name := name, phone := phone)];
      assert SetContact(db, workspace, p, name, phone) == db.(participants := rows);
      PeopleWritten(db, db.(participants := rows));
    }
  }

  lemma InsertHarmless(db: Db, workspace: Id, room: Id, role: Role, name: string, phone: string)
    requires KeysBelow(db.participants, db.nextId)
    ensures Harmless(db, InsertParticipant(db, workspace, room, role, name, phone))
  {
    var db' := InsertParticipant(db, workspace, room, role, name, phone);
    forall p | p in db'.participants ensures if p in db.participants then Unharmed(db, db', p) else Newcomer(db, db', p) {
      if p in db.participants { SameRequests(db, db', db.participants[p].room, p); }
    }
  }

  /** A cascade takes the requests of those it takes along, and of nobody else in a room that stays. */
  lemma CascadeHarmless(db: Db, rooms: set<Id>, people: set<Id>)
    requires KeysBelow(db.participants, db.nextId)
    ensures Harmless(db, Cascade(db, rooms, people))
  {
    var db' := Cascade(db, rooms, people);
    forall p | p in db'.participants ensures p in db.participants && Unharmed(db, db', p) {
      var room := db.participants[p].room;
      if HasOpenRequest(db, room, p) {
        var q :| q in db.requests && db.requests[q].room == room && db.requests[q].participant == p && IsOpen(db.requests[q].status);
        assert q in db'.requests;
      }
    }
  }

  // ---- Statements of the room protocol ----

  lemma SaveHostHarmless(db: Db, at: P.Place, host: Id, name: string, phone: string)
    requires KeysBelow(db.participants, db.nextId)
    ensures Harmless(db, P.SaveHostTx(db, at, host, name, phone))
  {
    var db1 := SetHostCopy(db, at.workspace, at.room, name, phone);
    CopyAside(db, at, name, phone);
    Elsewhere(db, db1);
    Still(db);
    if HasHost(db, at.room) {
      var db2 := SetContact(db1, at.workspace, host, name, phone);
      var db3 := SetDesired(db2, at.workspace, host, ANY_DESIRED, DesiredActive);
      ContactHarmless(db1, at.workspace, host, name, phone);
      Both(db, db1, db2);
      DesiredHarmless(db2, at.workspace, host, ANY_DESIRED, DesiredActive);
      Both(db, db2, db3);
    } else {
      InsertHarmless(db1, at.workspace, at.room, Host, name, phone);
      Both(db, db1, InsertParticipant(db1, at.workspace, at.room, Host, name, phone));
    }
  }

  lemma ClearHostHarmless(db: Db, at: P.Place)
    requires KeysBelow(db.participants, db.nextId)
    ensures Harmless(db, P.ClearHostTx(db, at))
  {
    var db1 := SetHostCopy(db, at.workspace, at.room, "", "");
    CopyAside(db, at, "", "");
    Elsewhere(db, db1);
    Still(db);
    CascadeHarmless(db1, {}, HostRows(db1, at.workspace, at.room));
    Both(db, db1, DeleteHosts(db1, at.workspace, at.room));
  }

  lemma RemoveRoomHarmless(db: Db, at: P.Place)
    requires KeysBelow(db.participants, db.nextId)
    ensures Harmless(db, P.RemoveRoomTx(db, at))
  {
    var db1 := DeleteItemsOfRoom(db, at.room);
    Elsewhere(db, db1);
    Still(db);
    CascadeHarmless(db1, {at.room}, {});
    Both(db, db1, DeleteRoom(db1, at.room));
  }

  lemma RemoveHarmless(db: Db, workspace: Id, p: Id)
    requires KeysBelow(db.participants, db.nextId)
    ensures Harmless(db, DeleteListener(db, workspace, p))
  {
    Still(db);
    CascadeHarmless(db, {}, {p});
  }

  lemma StatementHarmless(db: Db, a: P.Action)
    requires KeysBelow(db.participants, db.nextId)
    ensures Harmless(db, P.StepDb(db, a))
  {
    Still(db);
    match a
    case SaveHost(at, host, name, phone) => SaveHostHarmless(db, at, host, Text.Trim(name), Text.Trim(phone));
    case ClearHost(at) => ClearHostHarmless(db, at);
    case AddMember(at, role, name, phone) => InsertHarmless(db, at.workspace, at.room, role, name, phone);
    case RemoveMember(workspace, p) => RemoveHarmless(db, workspace, p);
    case RemoveRoom(at) => RemoveRoomHarmless(db, at);
    case _ =>
      StatementAside(db, a);
      Elsewhere(db, P.StepDb(db, a));
  }

  lemma StartHarmless(s: P.State, t: Id, at: P.Place, host: Id)
    requires KeysBelow(s.db.participants, s.db.nextId)
    ensures Harmless(s.db, P.StepStart(s, t, at, host).db)
  {
    Still(s.db);
    P.StartShape(s, t, at, host);
    if RoomIn(s.db, at.workspace, at.room) {
      var db1 := P.EnsureHost(s.db, at);
      InsertHarmless(s.db, at.workspace, at.room, Host, s.db.rooms[at.room].hostName, s.db.rooms[at.room].hostPhone);
      assert Harmless(s.db, db1);
      BegunAside(db1, at);
      Elsewhere(db1, P.Begun(db1, at));
      Both(s.db, db1, P.Begun(db1, at));
    }
  }

  lemma ArrivalHarmless(s: P.State, a: P.Action)
    requires KeysBelow(s.db.participants, s.db.nextId) && (a.Start? || a.Stop? || a.Event? || a.Dial? || a.AddBack?)
    ensures Harmless(s.db, P.Step(s, a).db)
  {
    Still(s.db);
    match a
    case Start(t, at, host) => StartHarmless(s, t, at, host);
    case Event(t, leg, state) => Elsewhere(s.db, SetLegState(s.db, leg, state));
    case _ =>
  }

  lemma LegHarmless(db: Db, workspace: Id, p: Id, room: Id, muted: bool)
    requires KeysBelow(db.participants, db.nextId)
    ensures Harmless(db, InsertLeg(db, workspace, p, room, muted))
  {
    Elsewhere(db, InsertLeg(db, workspace, p, room, muted));
  }

  lemma DispatchHarmless(s: P.State, t: Id, ok: bool)
    requires KeysBelow(s.db.participants, s.db.nextId) && t in s.threads && s.threads[t].Dispatching?
    ensures Harmless(s.db, P.StepDispatch(s, t, ok).db)
  {
    var th, db := s.threads[t], s.db;
    Still(db);
    match th.step
    case InsertingLeg(role) => LegHarmless(db, th.at.workspace, th.participant, th.at.room, role != Host);
    case MarkingFailed(leg) =>
      LegStateAside(db, leg, Failed);
      Elsewhere(db, SetLegState(db, leg, Failed));
    case SettingDesired(_, role) =>
      DesiredHarmless(db, th.at.workspace, th.participant, ANY_DESIRED, if role == Host then DesiredActive else DesiredMuted);
    case Recording(leg, role) =>
      if !th.purpose.LiveCall? {
        AttendanceAside(db, th.purpose.session, th.participant, leg, role);
        Elsewhere(db, InsertAttendance(db, th.purpose.session, th.participant, leg, role));
      }
    case _ =>
  }

  lemma OthersHarmless(s: P.State, t: Id, ok: bool, pick: Id, child: Id)
    requires KeysBelow(s.db.participants, s.db.nextId) && t in s.threads && !T.IsOwn(s.threads[t])
    ensures Harmless(s.db, P.StepAdvance(s, t, ok, pick, child).db)
  {
    Still(s.db);
    match s.threads[t]
    case InsertingGuest(at, name, phone) => InsertHarmless(s.db, at.workspace, at.room, Listener, name, phone);
    case FailingSession(x, _) =>
      StatusAside(s.db, x, ANY_SESSION_STATUS, SessionFailed);
      Elsewhere(s.db, SetSessionStatus(s.db, x, ANY_SESSION_STATUS, SessionFailed));
    case ClosingSession(x, _, terminal) =>
      StatusAside(s.db, x, ACTIVE_STATUS, terminal);
      Elsewhere(s.db, SetSessionStatus(s.db, x, ACTIVE_STATUS, terminal));
    case ResettingRoom(_, at, from) =>
      StateAside(s.db, at, from, Ready);
      Elsewhere(s.db, SetRoomState(s.db, at.workspace, at.room, from, Ready));
    case FindingHostSession(leg) => assert P.StepFindHost(s, t, leg, pick).db == s.db;
    case CheckingRoom(_, _) =>
  }

  lemma AdvanceHarmless(s: P.State, t: Id, ok: bool, pick: Id, child: Id)
    requires KeysBelow(s.db.participants, s.db.nextId) && t in s.threads
    ensures Harmless(s.db, P.StepAdvance(s, t, ok, pick, child).db)
  {
    if s.threads[t].Dispatching? {
      DispatchHarmless(s, t, ok);
    } else if T.IsActivator(s.threads[t]) {
      ActivatorAside(s, t, ok, pick, child);
      Elsewhere(s.db, P.StepActivator(s, t, ok, pick, child).db);
    } else if T.IsStopper(s.threads[t]) {
      StopperAside(s, t, ok, pick);
      Elsewhere(s.db, P.StepStopper(s, t, ok, pick).db);
    } else {
      OthersHarmless(s, t, ok, pick, child);
    }
  }

  /** No statement of the room protocol raises a hand or closes the request of one who stays. */
  lemma CoreHarmless(s: P.State, a: P.Action)
    requires KeysBelow(s.db.participants, s.db.nextId)
    ensures Harmless(s.db, P.Step(s, a).db)
  {
    Still(s.db);
    if a.Advance? {
      if a.t in s.threads { AdvanceHarmless(s, a.t, a.ok, a.pick, a.child); }
    } else if a.Start? || a.Stop? || a.Event? || a.Dial? || a.AddBack? {
      ArrivalHarmless(s, a);
    } else {
      StatementHarmless(s.db, a);
    }
  }

  // ---- Roster handlers ----

  lemma ImportRowHarmless(db: Db, at: P.Place, batch: Id, contact: R.Contact)
    requires KeysBelow(db.participants, db.nextId) && R.ImportRow(db, at, batch, contact).Some?
    ensures Harmless(db, R.ImportRow(db, at, batch, contact).value)
  {
    var name, phone, role := Text.Trim(contact.name), Text.Trim(contact.phone), R.RoleOf(contact.role);
    var db1 := if role == Host then SetHostCopy(db, at.workspace, at.room, name, phone) else db;
    CopyAside(db, at, name, phone);
    Elsewhere(db, db1);
    var db2 := InsertParticipant(db1, at.workspace, at.room, role, name, phone);
    InsertHarmless(db1, at.workspace, at.room, role, name, phone);
    Both(db, db1, db2);
    var db3 := InsertItem(db2, at.workspace, batch, db1.nextId, name, phone);
    Elsewhere(db2, db3);
    Both(db, db2, db3);
  }

  lemma {:induction false} ImportRowsHarmless(db: Db, at: P.Place, batch: Id, contacts: seq<R.Contact>)
    requires KeysBelow(db.participants, db.nextId) && R.ImportRows(db, at, batch, contacts).Some?
    ensures Harmless(db, R.ImportRows(db, at, batch, contacts).value)
  {
    Still(db);
    if contacts != [] {
      var n := |contacts| - 1;
      ImportRowsHarmless(db, at, batch, contacts[..n]);
      var tx := R.ImportRows(db, at, batch, contacts[..n]).value;
      ImportRowHarmless(tx, at, batch, contacts[n]);
      Both(db, tx, R.ImportRow(tx, at, batch, contacts[n]).value);
    }
  }

  lemma ImportHarmless(db: Db, at: P.Place, contacts: seq<R.Contact>)
    requires KeysBelow(db.participants, db.nextId)
    ensures Harmless(db, R.Import(db, at, contacts).1)
  {
    var begun := InsertBatch(db, at.workspace, at.room);
    Still(db);
    Elsewhere(db, begun);
    if R.ImportRows(begun, at, db.nextId, contacts).Some? {
      ImportRowsHarmless(begun, at, db.nextId, contacts);
      Both(db, begun, R.ImportRows(begun, at, db.nextId, contacts).value);
    }
  }

  lemma EditHarmless(db: Db, workspace: Id, p: Id, name: string, phone: string)
    requires KeysBelow(db.participants, db.nextId)
    ensures Harmless(db, R.Edit(db, workspace, p, name, phone).1)
  {
    var db1 := SetContact(db, workspace, p, Text.Trim(name), Text.Trim(phone));
    var db2 := SetItemContacts(db1, workspace, p, Text.Trim(name), Text.Trim(phone));
    Still(db);
    ContactHarmless(db, workspace, p, Text.Trim(name), Text.Trim(phone));
    Elsewhere(db1, db2);
    Both(db, db1, db2);
  }

  lemma UpdateHarmless(db: Db, at: P.Place, limit: int, tfn: bool, valid: bool)
    requires KeysBelow(db.participants, db.nextId)
    ensures Harmless(db, R.UpdateRoom(db, at, limit, tfn, valid).1)
  {
    Still(db);
    if RoomIn(db, at.workspace, at.room) { Elsewhere(db, SetRoomLimits(db, at.room, limit, tfn)); }
  }

  /** Nor does a roster handler. */
  lemma ManagedHarmless(db: Db, op: R.Op)
    requires KeysBelow(db.participants, db.nextId) && R.IsRosterHandler(op)
    ensures Harmless(db, R.Handle(db, op))
  {
    Still(db);
    match op
    case Creating(workspace, limit) => Elsewhere(db, InsertRoom(db, workspace, limit));
    case Updating(at, limit, tfn, valid) => UpdateHarmless(db, at, limit, tfn, valid);
    case SavingHost(at, host, name, phone) => SaveHostHarmless(db, at, host, Text.Trim(name), Text.Trim(phone));
    case ClearingHost(at) => ClearHostHarmless(db, at);
    case Adding(at, contact) => InsertHarmless(db, at.workspace, at.room, Listener, Text.Trim(contact.name), Text.Trim(contact.phone));
    case Importing(at, contacts) => ImportHarmless(db, at, contacts);
    case Editing(workspace, p, name, phone) => EditHarmless(db, workspace, p, name, phone);
    case Removing(workspace, p) => RemoveHarmless(db, workspace, p);
    case RemovingRoom(at) => RemoveRoomHarmless(db, at);
  }
}
