/** The roster handlers and the workspaces: from any sound tables each whole handler leaves sound tables and the
    other workspaces' rows as they were. */
module RosterTenancy {
  import opened Tables
  import opened Isolation
  import opened Statements
  import opened Roster
  import P = RoomProtocol
  import T = RoomTenancy
  import Text

  // ---- Bulk import ----

  /** The import runs inside its transaction: its batch row and its room are there. */
  ghost predicate InImport(db: Db, at: P.Place, batch: Id) {
    && Sound(db) && RoomIn(db, at.workspace, at.room)
    && batch in db.batches && db.batches[batch] == Batch(at.workspace, at.room)
  }

  function RowOf(at: P.Place, contact: Contact): Participant {
    var role := RoleOf(contact.role);
    Participant(at.workspace, at.room, role, Text.Trim(contact.name), Text.Trim(contact.phone),
                if role == Host then DesiredActive else DesiredMuted)
  }

  lemma ItemWithin(db: Db, at: P.Place, batch: Id, p: Id, name: string, phone: string)
    requires InImport(db, at, batch) && p in db.participants && db.participants[p].room == at.room
    ensures var db' := InsertItem(db, at.workspace, batch, p, name, phone);
      Within(db, db', at.workspace) && InImport(db', at, batch) && db'.participants == db.participants && db'.rooms == db.rooms
  {
    InsertItemWithin(db, at.workspace, batch, p, name, phone);
  }

  lemma PersonWithin(db: Db, at: P.Place, batch: Id, role: Role, name: string, phone: string)
    requires InImport(db, at, batch) && AcceptsParticipant(db, at.room, role)
    ensures var db' := InsertParticipant(db, at.workspace, at.room, role, name, phone);
      && Within(db, db', at.workspace) && InImport(db', at, batch) && db'.rooms == db.rooms
      && db'.participants == db.participants[db.nextId := Participant(at.workspace, at.room, role, name, phone,
                                                                       if role == Host then DesiredActive else DesiredMuted)]
  {
    InsertParticipantWithin(db, at.workspace, at.room, role, name, phone);
  }

  lemma CopyWithin(db: Db, at: P.Place, batch: Id, name: string, phone: string)
    requires InImport(db, at, batch)
    ensures var db' := SetHostCopy(db, at.workspace, at.room, name, phone);
      && Within(db, db', at.workspace) && InImport(db', at, batch) && db'.participants == db.participants
      && db'.rooms == db.rooms[at.room := db.rooms[at.room].(hostName := name, hostPhone := phone)]
  {
    SetHostCopyWithin(db, at.workspace, at.room, name, phone);
  }

  /** A HOST row is copied to its room. */
  function CopiedRooms(db: Db, at: P.Place, row: Participant): map<Id, Room>
    requires at.room in db.rooms
  {
    if row.role == Host then db.rooms[at.room := db.rooms[at.room].(hostName := row.name, hostPhone := row.phone)] else db.rooms
  }

  /** One imported row: where it goes, and that it stays in the workspace. */
  lemma RowWithin(db: Db, at: P.Place, batch: Id, contact: Contact)
    requires InImport(db, at, batch) && ImportRow(db, at, batch, contact).Some?
    ensures Within(db, ImportRow(db, at, batch, contact).value, at.workspace)
    ensures InImport(ImportRow(db, at, batch, contact).value, at, batch)
    ensures ImportRow(db, at, batch, contact).value.participants == db.participants[db.nextId := RowOf(at, contact)]
    ensures ImportRow(db, at, batch, contact).value.rooms == CopiedRooms(db, at, RowOf(at, contact))
  {
    var row := RowOf(at, contact);
    var db1 := if row.role == Host then SetHostCopy(db, at.workspace, at.room, row.name, row.phone) else db;
    CopyWithin(db, at, batch, row.name, row.phone);
    Same(db, at.workspace);
    var db2 := InsertParticipant(db1, at.workspace, at.room, row.role, row.name, row.phone);
    PersonWithin(db1, at, batch, row.role, row.name, row.phone);
    Then(db, db1, db2, at.workspace);
    var db3 := InsertItem(db2, at.workspace, batch, db1.nextId, row.name, row.phone);
    ItemWithin(db2, at, batch, db1.nextId, row.name, row.phone);
    Then(db, db2, db3, at.workspace);
  }

  /** The rows of an import one after the other. */
  lemma {:induction false} RowsWithin(begun: Db, at: P.Place, batch: Id, contacts: seq<Contact>)
    requires InImport(begun, at, batch) && ImportRows(begun, at, batch, contacts).Some?
    ensures var tx := ImportRows(begun, at, batch, contacts).value; InImport(tx, at, batch) && Within(begun, tx, at.workspace)
  {
    Same(begun, at.workspace);
    if contacts != [] {
      var n := |contacts| - 1;
      RowsWithin(begun, at, batch, contacts[..n]);
      var tx := ImportRows(begun, at, batch, contacts[..n]).value;
      RowWithin(tx, at, batch, contacts[n]);
      Then(begun, tx, ImportRow(tx, at, batch, contacts[n]).value, at.workspace);
    }
  }

  lemma BatchBegun(db: Db, at: P.Place)
    requires Sound(db) && RoomIn(db, at.workspace, at.room)
    ensures var begun := InsertBatch(db, at.workspace, at.room);
      InImport(begun, at, db.nextId) && Within(db, begun, at.workspace)
  {
    InsertBatchWithin(db, at.workspace, at.room);
  }

  /** The import, committed, refused or rolled back, keeps any sound tables sound and stays in its workspace. */
  lemma ImportWithin(db: Db, at: P.Place, contacts: seq<Contact>)
    requires Sound(db)
    ensures Within(db, Import(db, at, contacts).1, at.workspace)
  {
    Same(db, at.workspace);
    if ImportRefusal(db, at, contacts).None? {
      var begun := InsertBatch(db, at.workspace, at.room);
      BatchBegun(db, at);
      if ImportRows(begun, at, db.nextId, contacts).Some? {
        RowsWithin(begun, at, db.nextId, contacts);
        Then(db, begun, ImportRows(begun, at, db.nextId, contacts).value, at.workspace);
      }
    }
  }

  // ---- All handlers ----

  lemma EditWithin(db: Db, workspace: Id, p: Id, name: string, phone: string)
    requires Sound(db)
    ensures Within(db, Edit(db, workspace, p, name, phone).1, workspace)
  {
    Same(db, workspace);
    var db1 := SetContact(db, workspace, p, Text.Trim(name), Text.Trim(phone));
    SetContactWithin(db, workspace, p, Text.Trim(name), Text.Trim(phone));
    SetItemContactsWithin(db1, workspace, p, Text.Trim(name), Text.Trim(phone));
    Then(db, db1, SetItemContacts(db1, workspace, p, Text.Trim(name), Text.Trim(phone)), workspace);
  }

  lemma UpdateWithin(db: Db, at: P.Place, limit: int, tfn: bool, valid: bool)
    requires Sound(db)
    ensures Within(db, UpdateRoom(db, at, limit, tfn, valid).1, at.workspace)
  {
    Same(db, at.workspace);
    if RoomIn(db, at.workspace, at.room) { SetRoomLimitsWithin(db, at.workspace, at.room, limit, tfn); }
  }

  lemma AddWithin(db: Db, op: Op)
    requires Sound(db) && (op.Adding? || op.Dialling?)
    ensures Within(db, Handle(db, op), op.at.workspace)
  {
    var at := op.at;
    Same(db, at.workspace);
    if RoomIn(db, at.workspace, at.room) {
      match op
      case Adding(_, contact) =>
        InsertParticipantWithin(db, at.workspace, at.room, Listener, Text.Trim(contact.name), Text.Trim(contact.phone));
      case Dialling(_, name, phone) =>
        InsertParticipantWithin(db, at.workspace, at.room, Listener, if Text.Blank(name) then phone else name, phone);
    }
  }

  lemma StartWithin(db: Db, at: P.Place, host: Id)
    requires Sound(db)
    ensures Within(db, Start(db, at, host), at.workspace)
  {
    T.StartSteps(P.State(db, map[]), 0, at, host);
  }

  lemma RemoveWithin(db: Db, workspace: Id, p: Id)
    requires Sound(db)
    ensures Within(db, Remove(db, workspace, p).1, workspace)
  {
    Same(db, workspace);
    T.DeleteListenerWithin(db, workspace, p);
  }

  lemma RoomWithin(db: Db, op: Op)
    requires Sound(db) && (op.Creating? || op.Updating? || op.SavingHost? || op.ClearingHost? || op.RemovingRoom?)
    ensures Within(db, Handle(db, op), WorkspaceOf(op))
  {
    match op
    case Creating(workspace, limit) => Same(db, workspace); InsertRoomWithin(db, workspace, limit);
    case Updating(at, limit, tfn, valid) => UpdateWithin(db, at, limit, tfn, valid);
    case SavingHost(at, host, name, phone) => T.SaveHostWithin(db, at, host, Text.Trim(name), Text.Trim(phone));
    case ClearingHost(at) => T.ClearHostWithin(db, at);
    case RemovingRoom(at) => T.RemoveRoomWithin(db, at);
  }

  /** Every roster handler keeps any sound tables sound and leaves the other workspaces' rows as they were. */
  lemma HandleWithin(db: Db, op: Op)
    requires Sound(db)
    ensures Within(db, Handle(db, op), WorkspaceOf(op))
  {
    match op
    case Creating(_, _) => RoomWithin(db, op);
    case Updating(_, _, _, _) => RoomWithin(db, op);
    case SavingHost(_, _, _, _) => RoomWithin(db, op);
    case ClearingHost(_) => RoomWithin(db, op);
    case Adding(_, _) => AddWithin(db, op);
    case Importing(at, contacts) => ImportWithin(db, at, contacts);
    case Editing(workspace, p, name, phone) => EditWithin(db, workspace, p, name, phone);
    case Removing(workspace, p) => RemoveWithin(db, workspace, p);
    case RemovingRoom(_) => RoomWithin(db, op);
    case StartingRoom(at, host) => StartWithin(db, at, host);
    case Dialling(_, _, _) => AddWithin(db, op);
    case WritingState(at, from, to) => SetRoomStateWithin(db, at.workspace, at.room, from, to);
    case WritingDesired(workspace, p, from, to) => SetDesiredWithin(db, workspace, p, from, to);
  }
}
