/** Runs of whole roster handlers, with the room's state and the participants' media state changing in between. */
module RosterRuns {
  import opened Tables
  import opened Isolation
  import opened Statements
  import opened Roster
  import opened RosterTenancy
  import opened RosterTheorems
  import P = RoomProtocol
  import Text

  /** The tables after a run of handlers on the given ones. */
  function From(db: Db, run: seq<Op>): Db {
    if run == [] then db else Handle(From(db, run[..|run| - 1]), run[|run| - 1])
  }

  function After(run: seq<Op>): Db { From(EMPTY_DB, run) }

  lemma AddFits(db: Db, at: P.Place, contact: Contact, over: Id -> nat)
    requires Sound(db) && RosterFits(db.rooms, db.participants, over)
    ensures RosterFits(Add(db, at, contact).1.rooms, Add(db, at, contact).1.participants, over)
  {
    if Add(db, at, contact).0 == 201 { InsertFits(db, at.workspace, at.room, Text.Trim(contact.name), Text.Trim(contact.phone), over); }
  }

  lemma DialFits(db: Db, at: P.Place, name: string, phone: string, over: Id -> nat)
    requires Sound(db) && RosterFits(db.rooms, db.participants, over)
    ensures RosterFits(LiveDial(db, at, name, phone).1.rooms, LiveDial(db, at, name, phone).1.participants, over)
  {
    if LiveDial(db, at, name, phone).0 == 202 {
      InsertFits(db, at.workspace, at.room, if Text.Blank(name) then phone else name, phone, over);
    }
  }

  lemma RoomOpFits(db: Db, op: Op, over: Id -> nat)
    requires Sound(db) && RosterFits(db.rooms, db.participants, over)
    requires op.Creating? || op.Updating? || op.SavingHost? || op.ClearingHost? || op.RemovingRoom?
    ensures RosterFits(Handle(db, op).rooms, Handle(db, op).participants, over)
  {
    match op
    case Creating(workspace, limit) => CreateFits(db, workspace, limit, over);
    case Updating(at, limit, tfn, valid) => UpdateFits(db, at, limit, tfn, valid, over);
    case SavingHost(at, host, name, phone) => SaveHostFits(db, at, host, name, phone, over);
    case ClearingHost(at) => ClearHostFits(db, at, over);
    case RemovingRoom(at) => RemoveRoomFits(db, at, over);
  }

  lemma HandleFits(db: Db, op: Op, over: Id -> nat)
    requires Sound(db) && RosterFits(db.rooms, db.participants, over)
    ensures RosterFits(Handle(db, op).rooms, Handle(db, op).participants, over)
  {
    match op
    case Creating(_, _) => RoomOpFits(db, op, over);
    case Updating(_, _, _, _) => RoomOpFits(db, op, over);
    case SavingHost(_, _, _, _) => RoomOpFits(db, op, over);
    case ClearingHost(_) => RoomOpFits(db, op, over);
    case Adding(at, contact) => AddFits(db, at, contact, over);
    case Importing(at, contacts) => ImportFits(db, at, contacts, over);
    case Editing(workspace, p, name, phone) => EditFits(db, workspace, p, name, phone, over);
    case Removing(workspace, p) => RemoveFits(db, workspace, p, over);
    case RemovingRoom(_) => RoomOpFits(db, op, over);
    case StartingRoom(at, host) => StartFits(db, at, host, over);
    case Dialling(at, name, phone) => DialFits(db, at, name, phone, over);
    case WritingState(at, from, to) => WriteFits(db, at, from, to, over);
    case WritingDesired(workspace, p, from, to) => DesireFits(db, workspace, p, from, to, over);
  }

  lemma {:induction false} ReachableFits(run: seq<Op>)
    ensures Sound(After(run)) && RosterFits(After(run).rooms, After(run).participants, NoneOver)
  {
    if run != [] {
      var before := After(run[..|run| - 1]);
      ReachableFits(run[..|run| - 1]);
      HandleWithin(before, run[|run| - 1]);
      HandleFits(before, run[|run| - 1], NoneOver);
    }
  }

  /** The participant is the room's host, with the name and number of the room's copy. */
  predicate IsCopiedHost(db: Db, r: Id, p: Id)
    requires r in db.rooms
  {
    P.IsHostOf(db, r, p) && db.participants[p].name == db.rooms[r].hostName && db.participants[p].phone == db.rooms[r].hostPhone
  }

  lemma HostIffCopied(db: Db, r: Id, over: nat)
    requires Sound(db) && r in db.rooms && RoomFits(db.rooms[r], People(db.participants, r), over)
    ensures HasHost(db, r) <==> db.rooms[r].hostName != "" && db.rooms[r].hostPhone != ""
    ensures forall p :: P.IsHostOf(db, r, p) ==> IsCopiedHost(db, r, p)
    ensures db.rooms[r].hostName == "" <==> db.rooms[r].hostPhone == ""
  {
    var people := People(db.participants, r);
    if db.rooms[r].hostName == "" && db.rooms[r].hostPhone == "" {
      forall p | p in db.participants && db.participants[p].room == r ensures db.participants[p].role == Listener { assert p in people; }
    } else {
      var h :| h in people && people[h].role == Host && people[h].name == db.rooms[r].hostName && people[h].phone == db.rooms[r].hostPhone;
      assert P.IsHostOf(db, r, h);
    }
  }

  lemma RosterBounds(db: Db, r: Id, over: nat)
    requires Sound(db) && r in db.rooms && RoomFits(db.rooms[r], People(db.participants, r), over)
    ensures |ListenersIn(People(db.participants, r))| <= db.rooms[r].limit + over && P.CountIn(db, r) <= db.rooms[r].limit + over + 1
  {
    CountPeople(db, r);
    AlmostListeners(People(db.participants, r));
  }

  /** What the invariant says of a room: it has a host name and number exactly when it has a HOST participant, of
      which there is one, with the same values; its listeners are at most so many over its limit. */
  ghost predicate CopiesAndBound(db: Db, r: Id, over: nat)
    requires r in db.rooms
  {
    && (db.rooms[r].hostName != "" && db.rooms[r].hostPhone != "" <==> exists p :: IsCopiedHost(db, r, p))
    && (db.rooms[r].hostName == "" <==> db.rooms[r].hostPhone == "")
    && (forall p, q :: P.IsHostOf(db, r, p) && P.IsHostOf(db, r, q) ==> p == q)
    && (forall p :: P.IsHostOf(db, r, p) ==> IsCopiedHost(db, r, p))
    && |ListenersIn(People(db.participants, r))| <= db.rooms[r].limit + over
    && P.CountIn(db, r) <= db.rooms[r].limit + over + 1
  }

  lemma FitsMeans(db: Db, r: Id, over: nat)
    requires Sound(db) && r in db.rooms && RoomFits(db.rooms[r], People(db.participants, r), over)
    ensures CopiesAndBound(db, r, over)
  {
    HostIffCopied(db, r, over);
    RosterBounds(db, r, over);
    if HasHost(db, r) {
      var h :| h in db.participants && db.participants[h].room == r && db.participants[h].role == Host;
      assert IsCopiedHost(db, r, h);
    }
  }

  /** In every reachable state each room's copy is its host's, its listeners are within its limit and everybody
      within one more. */
  lemma RosterCopiesAndBound(run: seq<Op>, r: Id)
    requires r in After(run).rooms
    ensures CopiesAndBound(After(run), r, 0)
  {
    ReachableFits(run);
    FitsMeans(After(run), r, 0);
  }

  /** From any sound tables, while every handler works for one workspace no row of another changes. */
  lemma {:induction false} RosterIsolated(db: Db, run: seq<Op>, workspace: Id)
    requires Sound(db) && forall i | 0 <= i < |run| :: WorkspaceOf(run[i]) == workspace
    ensures Within(db, From(db, run), workspace)
  {
    Same(db, workspace);
    if run != [] {
      var n := |run| - 1;
      RosterIsolated(db, run[..n], workspace);
      HandleWithin(From(db, run[..n]), run[n]);
      Then(db, From(db, run[..n]), From(db, run), workspace);
    }
  }

  const AT := P.Place(7, 0)

  /** The bound is reached: a host saved into a full roster is one more than the limit. */
  lemma HostOverLimit() returns (run: seq<Op>)
    ensures 0 in After(run).rooms && P.CountIn(After(run), 0) == After(run).rooms[0].limit + 1
  {
    var create, add, save := Creating(7, 1), Adding(AT, Contact("l", "+2", "")), SavingHost(AT, 0, "h", "+1");
    run := [create, add, save];
    var db1 := EMPTY_DB.(rooms := map[0 := Room(7, Ready, "", "", 1, false)], nextId := 1);
    assert run[..2][..1] == [create] && run[..2] == [create, add] && [create][..0] == [];
    assert From(EMPTY_DB, []) == EMPTY_DB && After([create]) == Handle(EMPTY_DB, create) == db1;
    var listener := Participant(7, 0, Listener, "l", "+2", DesiredMuted);
    var db2 := db1.(participants := map[1 := listener], nextId := 2);
    AddsListener(db1, db2);
    assert After([create, add]) == db2;
    var db3 := SaveHost(db2, AT, 0, "h", "+1");
    SavesHost(db2, db3);
    assert After(run) == db3;
  }

  lemma AddsListener(db1: Db, db2: Db)
    requires db1 == EMPTY_DB.(rooms := map[0 := Room(7, Ready, "", "", 1, false)], nextId := 1)
    requires db2 == db1.(participants := map[1 := Participant(7, 0, Listener, "l", "+2", DesiredMuted)], nextId := 2)
    ensures Handle(db1, Adding(AT, Contact("l", "+2", ""))) == db2
  {
    assert (set p | p in db1.participants && db1.participants[p].room == 0) == {};
    assert !Text.IsSpace("l"[0]) && !Text.IsSpace("+2"[0]);
    assert Text.Trim("l") == "l" && Text.Trim("+2") == "+2" && RoleOf("") == Listener;
  }

  lemma HostInserted(db2: Db, db: Db)
    requires db == SetHostCopy(db2, 7, 0, "h", "+1") && P.NotRunning(db2, AT) && !HasHost(db2, 0)
    requires db.participants == db2.participants && 0 in db.rooms
    requires !Text.Blank("h") && !Text.Blank("+1")
    ensures P.SaveHostTx(db2, AT, 0, "h", "+1")
         == db.(participants := db.participants[db.nextId := Participant(7, 0, Host, "h", "+1", DesiredActive)], nextId := db.nextId + 1)
  {
    assert !HasHost(db, 0);
  }

  lemma HostNamed()
    ensures Text.Trim("h") == "h" && Text.Trim("+1") == "+1" && !Text.Blank("h") && !Text.Blank("+1")
  {
    assert !Text.IsSpace("h"[0]) && !Text.IsSpace("+1"[0]);
  }

  lemma SavesHost(db2: Db, db3: Db)
    requires db2.rooms == map[0 := Room(7, Ready, "", "", 1, false)] && db2.nextId == 2
    requires db2.participants == map[1 := Participant(7, 0, Listener, "l", "+2", DesiredMuted)]
    requires db3 == SaveHost(db2, AT, 0, "h", "+1")
    ensures 0 in db3.rooms && db3.rooms[0].limit == 1 && P.CountIn(db3, 0) == 2
  {
    HostNamed();
    assert !HasHost(db2, 0);
    Copied(db2, AT, "h", "+1");
    var db := SetHostCopy(db2, 7, 0, "h", "+1");
    HostInserted(db2, db);
    TwoIn(db3, db2.participants[2 := Participant(7, 0, Host, "h", "+1", DesiredActive)]);
  }

  lemma TwoIn(db: Db, people: map<Id, Participant>)
    requires db.participants == people && people.Keys == {1, 2} && people[1].room == 0 && people[2].room == 0
    ensures P.CountIn(db, 0) == 2
  {
    assert (set p | p in db.participants && db.participants[p].room == 0) == {1, 2};
  }
}
