/** The roster handlers of the control API, each run to its end as one step: its HTTP status and the tables
    it leaves. A refused or rolled-back handler leaves them as they were. */
module Roster {
  import opened Options
  import opened Tables
  import P = RoomProtocol
  import Text

  datatype Contact = Contact(name: string, phone: string, role: string)

  /** `normalizeParticipantRole`. */
  function RoleOf(role: string): Role { if Text.Upper(Text.Trim(role)) == "HOST" then Host else Listener }

  predicate Unnamed(name: string, phone: string) { Text.Blank(name) || Text.Blank(phone) }

  predicate Busy(db: Db, room: Id)
    requires room in db.rooms
  {
    db.rooms[room].state != Ready
  }

  /** The CHECK constraint on `bridges.participant_limit`. */
  const MAX_LIMIT := 100000

  /** `adminCreateRoom`, and the workspace's own room creation with the workspace's maximum as limit. */
  function CreateRoom(db: Db, workspace: Id, limit: int): (int, Db) {
    if 1 <= limit <= MAX_LIMIT then (201, InsertRoom(db, workspace, limit)) else (400, db)
  }

  /** `adminUpdateRoom`; `tfn` says that a number is chosen, `valid` that it is ACTIVE and the workspace's own. */
  function UpdateRoom(db: Db, at: P.Place, limit: int, tfn: bool, valid: bool): (int, Db) {
    if limit <= 0 then (400, db)
    else if !RoomIn(db, at.workspace, at.room) then (404, db)
    else if Busy(db, at.room) then (409, db)
    else if limit < P.CountIn(db, at.room) then (409, db)
    else if tfn && !valid then (409, db)
    else if MAX_LIMIT < limit then (409, db)
    else (200, SetRoomLimits(db, at.room, limit, tfn))
  }

  /** `host` PUT; `host` is the row its query yields. */
  function SaveHost(db: Db, at: P.Place, host: Id, name: string, phone: string): Db {
    P.SaveHostTx(db, at, host, Text.Trim(name), Text.Trim(phone))
  }

  /** `addRosterParticipant`. */
  function Add(db: Db, at: P.Place, contact: Contact): (int, Db) {
    if !RoomIn(db, at.workspace, at.room) then (404, db)
    else if Busy(db, at.room) then (409, db)
    else if P.CountIn(db, at.room) >= db.rooms[at.room].limit then (409, db)
    else if Unnamed(contact.name, contact.phone) then (400, db)
    else if RoleOf(contact.role) == Host then (400, db)
    else (201, InsertParticipant(db, at.workspace, at.room, Listener, Text.Trim(contact.name), Text.Trim(contact.phone)))
  }

  /** `editRosterParticipant`. */
  function Edit(db: Db, workspace: Id, p: Id, name: string, phone: string): (int, Db) {
    if !(p in db.participants && db.participants[p].workspace == workspace && db.participants[p].room in db.rooms) then (404, db)
    else if db.participants[p].role == Host then (400, db)
    else if Busy(db, db.participants[p].room) then (409, db)
    else if Unnamed(name, phone) then (400, db)
    else (200, SetItemContacts(SetContact(db, workspace, p, Text.Trim(name), Text.Trim(phone)), workspace, p, Text.Trim(name), Text.Trim(phone)))
  }

  /** The `remove` action: it looks at the participant's legs, not at the room's state. */
  function Remove(db: Db, workspace: Id, p: Id): (int, Db) {
    if exists l :: l in db.legs && db.legs[l].participant == p && db.legs[l].workspace == workspace && !IsTerminal(db.legs[l].state)
    then (409, db)
    else if !(p in db.participants && db.participants[p].workspace == workspace && db.participants[p].role != Host) then (404, db)
    else (200, DeleteListener(db, workspace, p))
  }

  /** `dispatchDial` up to its dispatch. */
  function LiveDial(db: Db, at: P.Place, name: string, phone: string): (int, Db) {
    if RoomIn(db, at.workspace, at.room) && db.rooms[at.room].state == Running
       && P.CountIn(db, at.room) < db.rooms[at.room].limit && db.rooms[at.room].tfn
    then (202, InsertParticipant(db, at.workspace, at.room, Listener, if Text.Blank(name) then phone else name, phone))
    else (502, db)
  }

  /** `startRoom`'s transaction. */
  function Start(db: Db, at: P.Place, host: Id): Db { P.StepStart(P.State(db, map[]), 0, at, host).db }

  // ---- Bulk import ----

  function Hosts(contacts: seq<Contact>): nat {
    if contacts == [] then 0
    else Hosts(contacts[..|contacts| - 1]) + (if RoleOf(contacts[|contacts| - 1].role) == Host then 1 else 0)
  }

  predicate AllNamed(contacts: seq<Contact>) {
    forall i | 0 <= i < |contacts| :: !Unnamed(contacts[i].name, contacts[i].phone)
  }

  /** One row of the import; None when the one-host index rejects it. */
  function ImportRow(db: Db, at: P.Place, batch: Id, contact: Contact): Option<Db> {
    var name, phone, role := Text.Trim(contact.name), Text.Trim(contact.phone), RoleOf(contact.role);
    var db1 := if role == Host then SetHostCopy(db, at.workspace, at.room, name, phone) else db;
    if AcceptsParticipant(db1, at.room, role)
    then Some(InsertItem(InsertParticipant(db1, at.workspace, at.room, role, name, phone), at.workspace, batch, db1.nextId, name, phone))
    else None
  }

  function ImportRows(db: Db, at: P.Place, batch: Id, contacts: seq<Contact>): Option<Db> {
    if contacts == [] then Some(db)
    else
      var before := ImportRows(db, at, batch, contacts[..|contacts| - 1]);
      if before.Some? then ImportRow(before.value, at, batch, contacts[|contacts| - 1]) else None
  }

  /** `batch`: everything that is checked before the transaction. */
  function ImportRefusal(db: Db, at: P.Place, contacts: seq<Contact>): Option<int> {
    if contacts == [] then Some(400)
    else if !RoomIn(db, at.workspace, at.room) then Some(404)
    else if Busy(db, at.room) then Some(409)
    else if !AllNamed(contacts) then Some(400)
    else if Hosts(contacts) > 1 then Some(400)
    else if Hosts(contacts) == 1 && db.rooms[at.room].hostPhone != "" then Some(409)
    else if db.rooms[at.room].limit <= 0 || P.CountIn(db, at.room) + |contacts| > db.rooms[at.room].limit then Some(409)
    else None
  }

  function Import(db: Db, at: P.Place, contacts: seq<Contact>): (int, Db) {
    if ImportRefusal(db, at, contacts).Some? then (ImportRefusal(db, at, contacts).value, db)
    else
      var rows := ImportRows(InsertBatch(db, at.workspace, at.room), at, db.nextId, contacts);
      if rows.Some? then (201, rows.value) else (500, db)
  }

  // ---- The handlers as operations ----

  datatype Op =
    | Creating(workspace: Id, limit: int)
    | Updating(at: P.Place, limit: int, tfn: bool, valid: bool)
    | SavingHost(at: P.Place, host: Id, name: string, phone: string)
    | ClearingHost(at: P.Place)
    | Adding(at: P.Place, contact: Contact)
    | Importing(at: P.Place, contacts: seq<Contact>)
    | Editing(workspace: Id, participant: Id, name: string, phone: string)
    | Removing(workspace: Id, participant: Id)
    | RemovingRoom(at: P.Place)
    | StartingRoom(at: P.Place, host: Id)
    | Dialling(at: P.Place, name: string, phone: string)
    // what the rest of the control API writes to these two tables
    | WritingState(at: P.Place, states: set<RoomState>, state: RoomState)
    | WritingDesired(workspace: Id, participant: Id, desires: set<Desired>, desired: Desired)

  function Handle(db: Db, op: Op): Db {
    match op
    case Creating(workspace, limit) => CreateRoom(db, workspace, limit).1
    case Updating(at, limit, tfn, valid) => UpdateRoom(db, at, limit, tfn, valid).1
    case SavingHost(at, host, name, phone) => SaveHost(db, at, host, name, phone)
    case ClearingHost(at) => P.ClearHostTx(db, at)
    case Adding(at, contact) => Add(db, at, contact).1
    case Importing(at, contacts) => Import(db, at, contacts).1
    case Editing(workspace, p, name, phone) => Edit(db, workspace, p, name, phone).1
    case Removing(workspace, p) => Remove(db, workspace, p).1
    case RemovingRoom(at) => P.RemoveRoomTx(db, at)
    case StartingRoom(at, host) => Start(db, at, host)
    case Dialling(at, name, phone) => LiveDial(db, at, name, phone).1
    case WritingState(at, from, to) => SetRoomState(db, at.workspace, at.room, from, to)
    case WritingDesired(workspace, p, from, to) => SetDesired(db, workspace, p, from, to)
  }

  function WorkspaceOf(op: Op): Id {
    match op
    case Creating(workspace, _) => workspace
    case Editing(workspace, _, _, _) => workspace
    case Removing(workspace, _) => workspace
    case WritingDesired(workspace, _, _, _) => workspace
    case _ => op.at.workspace
  }

  /** The handlers of the roster itself; the others stand for what the room protocol does to its tables. */
  predicate IsRosterHandler(op: Op) { !op.StartingRoom? && !op.Dialling? && !op.WritingState? && !op.WritingDesired? }

  lemma {:induction false} RejectedStays(db: Db, at: P.Place, batch: Id, contacts: seq<Contact>, i: nat)
    requires i <= |contacts| && ImportRows(db, at, batch, contacts[..i]).None?
    ensures ImportRows(db, at, batch, contacts).None?
  {
    if i < |contacts| {
      var n := |contacts| - 1;
      assert contacts[..n][..i] == contacts[..i];
      RejectedStays(db, at, batch, contacts[..n], i);
    } else {
      assert contacts[..i] == contacts;
    }
  }

  lemma {:induction false} HostsGrow(contacts: seq<Contact>, i: nat)
    requires i < |contacts|
    ensures Hosts(contacts[..i + 1]) == Hosts(contacts[..i]) + (if RoleOf(contacts[i].role) == Host then 1 else 0)
  {
    assert contacts[..i + 1][..i] == contacts[..i];
  }

  /** The handler `batch` over the tables it shares with the other handlers. */
  class Importer {
    var db: Db

    constructor (db: Db)
      ensures this.db == db
    {
      this.db := db;
    }

    /** Counts the HOST rows and stops at the first row without a name or number. */
    method Scan(contacts: seq<Contact>) returns (hosts: nat, named: bool)
      ensures named <==> AllNamed(contacts)
      ensures named ==> hosts == Hosts(contacts)
    {
      hosts := 0;
      for i := 0 to |contacts|
        invariant AllNamed(contacts[..i]) && hosts == Hosts(contacts[..i])
      {
        HostsGrow(contacts, i);
        if RoleOf(contacts[i].role) == Host { hosts := hosts + 1; }
        if Unnamed(contacts[i].name, contacts[i].phone) { return hosts, false; }
        assert contacts[..i + 1] == contacts[..i] + [contacts[i]];
      }
      assert contacts[..|contacts|] == contacts;
      named := true;
    }

    /** Inserts the rows inside the transaction `tx`; not ok when the index rejects one. */
    method Fill(at: P.Place, batch: Id, contacts: seq<Contact>, begun: Db) returns (tx: Db, ok: bool)
      ensures ok <==> ImportRows(begun, at, batch, contacts).Some?
      ensures ok ==> tx == ImportRows(begun, at, batch, contacts).value
    {
      tx := begun;
      for i := 0 to |contacts|
        invariant ImportRows(begun, at, batch, contacts[..i]) == Some(tx)
      {
        var name, phone, role := Text.Trim(contacts[i].name), Text.Trim(contacts[i].phone), RoleOf(contacts[i].role);
        ghost var before := tx;
        assert contacts[..i + 1][..i] == contacts[..i];
        if role == Host { tx := SetHostCopy(tx, at.workspace, at.room, name, phone); }
        if !AcceptsParticipant(tx, at.room, role) {
          assert ImportRow(before, at, batch, contacts[i]).None?;
          RejectedStays(begun, at, batch, contacts, i + 1);
          return tx, false;
        }
        var participant := tx.nextId;
        tx := InsertParticipant(tx, at.workspace, at.room, role, name, phone);
        tx := InsertItem(tx, at.workspace, batch, participant, name, phone);
        assert ImportRow(before, at, batch, contacts[i]) == Some(tx);
      }
      assert contacts[..|contacts|] == contacts;
      ok := true;
    }

    method Run(at: P.Place, contacts: seq<Contact>) returns (status: int)
      modifies this
      ensures (status, db) == Import(old(db), at, contacts)
    {
      if contacts == [] { return 400; }
      if !RoomIn(db, at.workspace, at.room) { return 404; }
      if Busy(db, at.room) { return 409; }
      var room := db.rooms[at.room];
      var count := P.CountIn(db, at.room);
      var hosts, named := Scan(contacts);
      if !named { return 400; }
      if hosts > 1 { return 400; }
      if hosts == 1 && room.hostPhone != "" { return 409; }
      if room.limit <= 0 || count + |contacts| > room.limit { return 409; }
      var batch := db.nextId;
      var tx, ok := Fill(at, batch, contacts, InsertBatch(db, at.workspace, at.room));
      if !ok { return 500; }
      db := tx;
      return 201;
    }
  }
}
