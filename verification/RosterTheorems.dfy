/** Roster invariants over runs of whole handlers: a room's copy of its host is the HOST participant's name and
    number, its listeners stay within its limit, and every handler stays in its workspace. */
module RosterTheorems {
  import opened Counting
  import opened Tables
  import opened Isolation
  import opened Roster
  import opened RosterTenancy
  import P = RoomProtocol
  import T = RoomTenancy
  import Text

  /** One room's roster. */
  function People(participants: map<Id, Participant>, room: Id): map<Id, Participant> {
    map p | p in participants && participants[p].room == room :: participants[p]
  }

  function ListenersIn(people: map<Id, Participant>): set<Id> { set p | p in people && people[p].role == Listener }

  predicate HasHostRow(people: map<Id, Participant>, name: string, phone: string) {
    exists p :: p in people && people[p].role == Host && people[p].name == name && people[p].phone == phone
  }

  predicate NoHostRow(people: map<Id, Participant>) { forall p :: p in people ==> people[p].role == Listener }

  /** The room's copy is the host's name and number, or empty where there is no host. */
  predicate CopyFits(room: Room, people: map<Id, Participant>) {
    if room.hostName == "" && room.hostPhone == "" then NoHostRow(people)
    else !Text.Blank(room.hostName) && !Text.Blank(room.hostPhone) && HasHostRow(people, room.hostName, room.hostPhone)
  }

  /** And its listeners are at most so many over the limit. */
  predicate RoomFits(room: Room, people: map<Id, Participant>, over: nat) {
    CopyFits(room, people) && 1 <= room.limit && |ListenersIn(people)| <= room.limit + over
  }

  ghost predicate RosterFits(rooms: map<Id, Room>, participants: map<Id, Participant>, over: Id -> nat) {
    forall r | r in rooms :: RoomFits(rooms[r], People(participants, r), over(r))
  }

  /** Where the limits hold. */
  function NoneOver(room: Id): nat { 0 }

  /** A room's row and roster are as before, but for the columns the invariant does not look at. */
  ghost predicate RoomKept(db: Db, db': Db, r: Id) {
    && r in db.rooms && r in db'.rooms
    && db'.rooms[r].hostName == db.rooms[r].hostName && db'.rooms[r].hostPhone == db.rooms[r].hostPhone
    && db'.rooms[r].limit == db.rooms[r].limit
    && People(db'.participants, r) == People(db.participants, r)
  }

  // ---- Counting ----

  lemma CountPeople(db: Db, r: Id)
    ensures P.CountIn(db, r) == |People(db.participants, r).Keys|
  {
    assert (set p | p in db.participants && db.participants[p].room == r) == People(db.participants, r).Keys;
  }

  lemma ListenersWithin(people: map<Id, Participant>)
    ensures |ListenersIn(people)| <= |people.Keys|
  {
    Fewer(ListenersIn(people), people.Keys);
  }

  /** With one host at most, a room has at most one person more than listeners. */
  lemma AlmostListeners(people: map<Id, Participant>)
    requires forall p, q | p in people && q in people && people[p].role == people[q].role == Host :: p == q
    ensures |people.Keys| <= |ListenersIn(people)| + 1
  {
    var hosts := people.Keys - ListenersIn(people);
    if hosts != {} {
      var h :| h in hosts;
      assert hosts == {h};
    }
    assert people.Keys == ListenersIn(people) + hosts;
  }

  // ---- One participant more, or some fewer ----

  lemma Joined(participants: map<Id, Participant>, id: Id, row: Participant, r: Id)
    requires id !in participants
    ensures People(participants[id := row], r)
         == if row.room == r then People(participants, r)[id := row] else People(participants, r)
  {
  }

  lemma JoinedListeners(people: map<Id, Participant>, id: Id, row: Participant)
    requires id !in people
    ensures row.role == Listener ==> |ListenersIn(people[id := row])| == |ListenersIn(people)| + 1
    ensures row.role == Host ==> |ListenersIn(people[id := row])| == |ListenersIn(people)|
    ensures |people[id := row].Keys| == |people.Keys| + 1
  {
    assert people[id := row].Keys == people.Keys + {id};
    if row.role == Listener {
      assert ListenersIn(people[id := row]) == ListenersIn(people) + {id};
    } else {
      assert ListenersIn(people[id := row]) == ListenersIn(people);
    }
  }

  /** A listener joins a room that has space. */
  lemma ListenerFits(room: Room, people: map<Id, Participant>, id: Id, row: Participant, over: nat)
    requires RoomFits(room, people, over) && id !in people && row.role == Listener && |people.Keys| < room.limit
    ensures RoomFits(room, people[id := row], over)
  {
    ListenersWithin(people);
    JoinedListeners(people, id, row);
    ListenerKeepsCopy(room, people, id, row);
  }

  lemma ListenerKeepsCopy(room: Room, people: map<Id, Participant>, id: Id, row: Participant)
    requires CopyFits(room, people) && id !in people && row.role == Listener
    ensures CopyFits(room, people[id := row])
  {
    if !(room.hostName == "" && room.hostPhone == "") {
      var p :| p in people && people[p].role == Host && people[p].name == room.hostName && people[p].phone == room.hostPhone;
      assert people[id := row][p] == people[p];
    }
  }

  /** Everyone stays but some listeners: the copy and the limit still fit. */
  lemma ListenersLeave(room: Room, people: map<Id, Participant>, fewer: map<Id, Participant>, over: nat)
    requires RoomFits(room, people, over)
    requires fewer.Keys <= people.Keys && forall p | p in people :: if p in fewer then fewer[p] == people[p] else people[p].role == Listener
    ensures RoomFits(room, fewer, over)
  {
    Fewer(ListenersIn(fewer), ListenersIn(people));
    if !(room.hostName == "" && room.hostPhone == "") {
      var p :| p in people && people[p].role == Host && people[p].name == room.hostName && people[p].phone == room.hostPhone;
      assert p in fewer;
    }
  }

  /** Rows may change in the columns the invariant does not look at. */
  lemma SameRoles(room: Room, people: map<Id, Participant>, after: map<Id, Participant>, over: nat)
    requires RoomFits(room, people, over) && after.Keys == people.Keys
    requires forall p | p in people :: after[p].role == people[p].role
    requires forall p | p in people && people[p].role == Host :: after[p].name == people[p].name && after[p].phone == people[p].phone
    ensures RoomFits(room, after, over)
  {
    assert ListenersIn(after) == ListenersIn(people);
    if !(room.hostName == "" && room.hostPhone == "") {
      var p :| p in people && people[p].role == Host && people[p].name == room.hostName && people[p].phone == room.hostPhone;
      assert after[p].role == Host;
    }
  }

  /** All rooms fit when the one that changed does. */
  lemma OthersKept(db: Db, db': Db, r: Id, over: Id -> nat)
    requires RosterFits(db.rooms, db.participants, over) && db'.rooms.Keys == db.rooms.Keys
    requires forall x | x in db.rooms && x != r :: RoomKept(db, db', x)
    requires r in db.rooms ==> RoomFits(db'.rooms[r], People(db'.participants, r), over(r))
    ensures RosterFits(db'.rooms, db'.participants, over)
  {
    forall x | x in db'.rooms ensures RoomFits(db'.rooms[x], People(db'.participants, x), over(x)) {
      if x != r { assert RoomKept(db, db', x) && RoomFits(db.rooms[x], People(db.participants, x), over(x)); }
    }
  }

  // ---- Each handler ----

  lemma InsertFits(db: Db, workspace: Id, r: Id, name: string, phone: string, over: Id -> nat)
    requires Sound(db) && RosterFits(db.rooms, db.participants, over)
    requires r in db.rooms && P.CountIn(db, r) < db.rooms[r].limit
    ensures var db' := InsertParticipant(db, workspace, r, Listener, name, phone); RosterFits(db'.rooms, db'.participants, over)
  {
    var db' := InsertParticipant(db, workspace, r, Listener, name, phone);
    var row := Participant(workspace, r, Listener, name, phone, DesiredMuted);
    assert db'.rooms == db.rooms && db'.participants == db.participants[db.nextId := row];
    CountPeople(db, r);
    forall x | x in db.rooms ensures x != r ==> RoomKept(db, db', x) { Joined(db.participants, db.nextId, row, x); }
    Joined(db.participants, db.nextId, row, r);
    ListenerFits(db.rooms[r], People(db.participants, r), db.nextId, row, over(r));
    OthersKept(db, db', r, over);
  }

  lemma CreateFits(db: Db, workspace: Id, limit: int, over: Id -> nat)
    requires Sound(db) && RosterFits(db.rooms, db.participants, over)
    ensures var db' := CreateRoom(db, workspace, limit).1; RosterFits(db'.rooms, db'.participants, over)
  {
    var db' := InsertRoom(db, workspace, limit);
    forall r | r in db'.rooms && 1 <= limit ensures RoomFits(db'.rooms[r], People(db'.participants, r), over(r)) {
      if r == db.nextId {
        Empty(db, r);
        assert ListenersIn(map[]) == {};
      } else {
        assert RoomFits(db.rooms[r], People(db.participants, r), over(r));
      }
    }
  }

  lemma Empty(db: Db, r: Id)
    requires Sound(db) && r !in db.rooms
    ensures People(db.participants, r) == map[]
  {
    forall p | p in db.participants ensures db.participants[p].room != r { assert db.participants[p].room in Tenants(db.rooms); }
  }

  lemma UpdateFits(db: Db, at: P.Place, limit: int, tfn: bool, valid: bool, over: Id -> nat)
    requires RosterFits(db.rooms, db.participants, over)
    ensures var db' := UpdateRoom(db, at, limit, tfn, valid).1; RosterFits(db'.rooms, db'.participants, over)
  {
    var db' := UpdateRoom(db, at, limit, tfn, valid).1;
    if db' != db {
      CountPeople(db, at.room);
      ListenersWithin(People(db.participants, at.room));
      OthersKept(db, db', at.room, over);
    }
  }

  lemma EditFits(db: Db, workspace: Id, p: Id, name: string, phone: string, over: Id -> nat)
    requires RosterFits(db.rooms, db.participants, over)
    ensures var db' := Edit(db, workspace, p, name, phone).1; RosterFits(db'.rooms, db'.participants, over)
  {
    var db' := Edit(db, workspace, p, name, phone).1;
    if db' != db {
      var row := db.participants[p].(name := Text.Trim(name), phone := Text.Trim(phone));
      var r := db.participants[p].room;
      assert db'.rooms == db.rooms && db'.participants == db.participants[p := row];
      Rewritten(db, p, row);
      SameRoles(db.rooms[r], People(db.participants, r), People(db'.participants, r), over(r));
      assert forall x | x in db.rooms && x != r :: RoomKept(db, db', x);
      OthersKept(db, db', r, over);
    }
  }

  lemma Rewritten(db: Db, p: Id, row: Participant)
    requires p in db.participants && row.room == db.participants[p].room
    ensures forall r | r != row.room :: People(db.participants[p := row], r) == People(db.participants, r)
    ensures People(db.participants[p := row], row.room) == People(db.participants, row.room)[p := row]
  {
  }

  lemma DesireFits(db: Db, workspace: Id, p: Id, from: set<Desired>, to: Desired, over: Id -> nat)
    requires RosterFits(db.rooms, db.participants, over)
    ensures var db' := SetDesired(db, workspace, p, from, to); RosterFits(db'.rooms, db'.participants, over)
  {
    var db' := SetDesired(db, workspace, p, from, to);
    if db' != db {
      var row := db.participants[p].(desired := to);
      assert db'.rooms == db.rooms && db'.participants == db.participants[p := row];
      Rewritten(db, p, row);
      forall r | r in db.rooms ensures RoomFits(db'.rooms[r], People(db'.participants, r), over(r)) {
        assert RoomFits(db.rooms[r], People(db.participants, r), over(r));
        if r == row.room { SameRoles(db.rooms[r], People(db.participants, r), People(db'.participants, r), over(r)); }
      }
    }
  }

  lemma WriteFits(db: Db, at: P.Place, from: set<RoomState>, to: RoomState, over: Id -> nat)
    requires RosterFits(db.rooms, db.participants, over)
    ensures var db' := SetRoomState(db, at.workspace, at.room, from, to); RosterFits(db'.rooms, db'.participants, over)
  {
    var db' := SetRoomState(db, at.workspace, at.room, from, to);
    forall r | r in db'.rooms ensures RoomFits(db'.rooms[r], People(db'.participants, r), over(r)) {
      assert RoomFits(db.rooms[r], People(db.participants, r), over(r));
    }
  }

  lemma RemoveFits(db: Db, workspace: Id, p: Id, over: Id -> nat)
    requires RosterFits(db.rooms, db.participants, over)
    ensures var db' := Remove(db, workspace, p).1; RosterFits(db'.rooms, db'.participants, over)
  {
    var db' := Remove(db, workspace, p).1;
    if db' != db {
      assert db' == Cascade(db, {}, {p});
      Gone(db, p);
      forall r | r in db.rooms ensures RoomFits(db'.rooms[r], People(db'.participants, r), over(r)) {
        assert RoomFits(db.rooms[r], People(db.participants, r), over(r));
        ListenersLeave(db.rooms[r], People(db.participants, r), People(db'.participants, r), over(r));
      }
    }
  }

  lemma Gone(db: Db, p: Id)
    ensures Cascade(db, {}, {p}).rooms == db.rooms && Cascade(db, {}, {p}).participants == db.participants - {p}
  {
    assert Cascade(db, {}, {p}).participants == db.participants - {p};
  }

  lemma RoomGone(db: Db, room: Id)
    ensures var db' := Cascade(db, {room}, {});
      && db'.rooms == db.rooms - {room}
      && forall r | r != room :: People(db'.participants, r) == People(db.participants, r)
  {
    var db' := Cascade(db, {room}, {});
    forall r | r != room ensures People(db'.participants, r) == People(db.participants, r) {
    }
  }

  lemma RemoveRoomFits(db: Db, at: P.Place, over: Id -> nat)
    requires RosterFits(db.rooms, db.participants, over)
    ensures var db' := P.RemoveRoomTx(db, at); RosterFits(db'.rooms, db'.participants, over)
  {
    var db' := P.RemoveRoomTx(db, at);
    if db' != db {
      var db1 := DeleteItemsOfRoom(db, at.room);
      assert db1.rooms == db.rooms && db1.participants == db.participants;
      RoomGone(db1, at.room);
      forall r | r in db'.rooms ensures RoomFits(db'.rooms[r], People(db'.participants, r), over(r)) {
        assert RoomFits(db.rooms[r], People(db.participants, r), over(r));
      }
    }
  }

  /** The room's host and its copy are replaced together. */
  lemma HostReplaced(room: Room, people: map<Id, Participant>, room': Room, h: Id, row: Participant, over: nat)
    requires RoomFits(room, people, over) && room'.limit == room.limit
    requires row.role == Host && (h in people ==> people[h].role == Host)
    requires !Text.Blank(row.name) && !Text.Blank(row.phone) && room'.hostName == row.name && room'.hostPhone == row.phone
    ensures RoomFits(room', people[h := row], over)
  {
    assert ListenersIn(people[h := row]) == ListenersIn(people);
    assert people[h := row][h] == row;
  }

  /** One room's copy and one HOST row written together. */
  lemma HostWritten(db: Db, db': Db, r: Id, h: Id, row: Participant, over: Id -> nat)
    requires IdsBelow(db) && RosterFits(db.rooms, db.participants, over) && r in db.rooms && row.room == r
    requires db'.rooms == db.rooms[r := db.rooms[r].(hostName := row.name, hostPhone := row.phone)]
    requires db'.participants == db.participants[h := row]
    requires h in db.participants ==> db.participants[h].room == r && db.participants[h].role == Host
    requires row.role == Host && !Text.Blank(row.name) && !Text.Blank(row.phone)
    ensures RosterFits(db'.rooms, db'.participants, over)
  {
    HostSaved(db, h, row);
    HostReplaced(db.rooms[r], People(db.participants, r), db'.rooms[r], h, row, over(r));
    OthersKept(db, db', r, over);
  }

  lemma HostSaved(db: Db, h: Id, row: Participant)
    requires h in db.participants ==> db.participants[h].room == row.room
    ensures People(db.participants[h := row], row.room) == People(db.participants, row.room)[h := row]
    ensures forall r | r != row.room :: People(db.participants[h := row], r) == People(db.participants, r)
  {
  }

  lemma Copied(db: Db, at: P.Place, name: string, phone: string)
    requires RoomIn(db, at.workspace, at.room)
    ensures var db' := SetHostCopy(db, at.workspace, at.room, name, phone);
            db' == db.(rooms := db.rooms[at.room := db.rooms[at.room].(hostName := name, hostPhone := phone)])
  {
  }

  lemma ContactSaved(db: Db, workspace: Id, h: Id, name: string, phone: string)
    requires h in db.participants && db.participants[h].workspace == workspace
    ensures SetDesired(SetContact(db, workspace, h, name, phone), workspace, h, ANY_DESIRED, DesiredActive)
         == db.(participants := db.participants[h := db.participants[h].(name := name, phone := phone, desired := DesiredActive)])
  {
    var db1 := SetContact(db, workspace, h, name, phone);
    AnyDesired(db1.participants[h].desired);
  }

  lemma SaveHostFits(db: Db, at: P.Place, host: Id, givenName: string, givenPhone: string, over: Id -> nat)
    requires Sound(db) && RosterFits(db.rooms, db.participants, over)
    ensures var db' := SaveHost(db, at, host, givenName, givenPhone); RosterFits(db'.rooms, db'.participants, over)
  {
    SaveTxFits(db, at, host, Text.Trim(givenName), Text.Trim(givenPhone), over);
  }

  lemma SaveTxFits(db: Db, at: P.Place, host: Id, name: string, phone: string, over: Id -> nat)
    requires Sound(db) && RosterFits(db.rooms, db.participants, over)
    ensures var db' := P.SaveHostTx(db, at, host, name, phone); RosterFits(db'.rooms, db'.participants, over)
  {
    var db' := P.SaveHostTx(db, at, host, name, phone);
    if P.NotRunning(db, at) && !Text.Blank(name) && !Text.Blank(phone) {
      Copied(db, at, name, phone);
      var db1 := SetHostCopy(db, at.workspace, at.room, name, phone);
      if !HasHost(db, at.room) {
        SaveNewHost(db, at, name, phone, over);
      } else if P.IsHostOf(db, at.room, host) {
        T.HeldPersonWorkspace(db, at, host);
        ContactSaved(db1, at.workspace, host, name, phone);
        HostWritten(db, db', at.room, host, db.participants[host].(name := name, phone := phone, desired := DesiredActive), over);
      }
    }
  }

  lemma SaveNewHost(db: Db, at: P.Place, name: string, phone: string, over: Id -> nat)
    requires Sound(db) && RosterFits(db.rooms, db.participants, over)
    requires P.NotRunning(db, at) && !Text.Blank(name) && !Text.Blank(phone) && !HasHost(db, at.room)
    ensures var db' := InsertParticipant(SetHostCopy(db, at.workspace, at.room, name, phone), at.workspace, at.room, Host, name, phone);
            RosterFits(db'.rooms, db'.participants, over)
  {
    Copied(db, at, name, phone);
    var db1 := SetHostCopy(db, at.workspace, at.room, name, phone);
    assert AcceptsParticipant(db1, at.room, Host);
    HostWritten(db, InsertParticipant(db1, at.workspace, at.room, Host, name, phone), at.room, db.nextId,
                Participant(at.workspace, at.room, Host, name, phone, DesiredActive), over);
  }

  function HostsOf(db: Db, at: P.Place): set<Id> {
    set p | p in db.participants && db.participants[p].room == at.room && db.participants[p].workspace == at.workspace
            && db.participants[p].role == Host
  }

  lemma Leaving(db: Db, people: set<Id>)
    ensures Cascade(db, {}, people).rooms == db.rooms && Cascade(db, {}, people).participants == db.participants - people
  {
    assert Cascade(db, {}, people).participants == db.participants - people;
  }

  lemma ClearedDb(db: Db, at: P.Place)
    requires P.NotRunning(db, at)
    ensures P.ClearHostTx(db, at).rooms == db.rooms[at.room := db.rooms[at.room].(hostName := "", hostPhone := "")]
    ensures P.ClearHostTx(db, at).participants == db.participants - HostsOf(db, at)
  {
    Copied(db, at, "", "");
    var db1 := SetHostCopy(db, at.workspace, at.room, "", "");
    assert HostsOf(db1, at) == HostsOf(db, at);
    Leaving(db1, HostsOf(db1, at));
  }

  lemma HostsGone(db: Db, at: P.Place)
    requires Sound(db) && RoomIn(db, at.workspace, at.room)
    ensures forall r | r != at.room :: People(db.participants - HostsOf(db, at), r) == People(db.participants, r)
    ensures forall p :: p in People(db.participants - HostsOf(db, at), at.room)
                        <==> p in db.participants && db.participants[p].room == at.room && db.participants[p].role == Listener
  {
    forall p | p in db.participants && db.participants[p].room == at.room ensures db.participants[p].workspace == at.workspace {
      T.HeldPersonWorkspace(db, at, p);
    }
  }

  lemma HostCleared(room: Room, people: map<Id, Participant>, room': Room, after: map<Id, Participant>, over: nat)
    requires RoomFits(room, people, over) && room' == room.(hostName := "", hostPhone := "")
    requires forall p :: p in after <==> p in people && people[p].role == Listener
    requires forall p | p in after :: after[p] == people[p]
    ensures RoomFits(room', after, over)
  {
    assert ListenersIn(after) == ListenersIn(people);
  }

  /** One room's copy and its HOST row cleared together. */
  lemma HostRemoved(db: Db, db': Db, at: P.Place, over: Id -> nat)
    requires Sound(db) && RosterFits(db.rooms, db.participants, over) && RoomIn(db, at.workspace, at.room)
    requires db'.rooms == db.rooms[at.room := db.rooms[at.room].(hostName := "", hostPhone := "")]
    requires db'.participants == db.participants - HostsOf(db, at)
    ensures RosterFits(db'.rooms, db'.participants, over)
  {
    HostsGone(db, at);
    HostCleared(db.rooms[at.room], People(db.participants, at.room), db'.rooms[at.room], People(db'.participants, at.room), over(at.room));
    forall x | x in db.rooms && x != at.room ensures RoomKept(db, db', x) { }
    OthersKept(db, db', at.room, over);
  }

  lemma ClearHostFits(db: Db, at: P.Place, over: Id -> nat)
    requires Sound(db) && RosterFits(db.rooms, db.participants, over)
    ensures var db' := P.ClearHostTx(db, at); RosterFits(db'.rooms, db'.participants, over)
  {
    if P.NotRunning(db, at) {
      ClearedDb(db, at);
      HostRemoved(db, P.ClearHostTx(db, at), at, over);
    }
  }

  lemma StartDb(db: Db, at: P.Place, host: Id)
    requires HasHost(db, at.room)
    ensures Start(db, at, host) == db
         || (RoomIn(db, at.workspace, at.room)
             && Start(db, at, host) == P.Begun(db, at))
  {
  }

  lemma StartFits(db: Db, at: P.Place, host: Id, over: Id -> nat)
    requires Sound(db) && RosterFits(db.rooms, db.participants, over)
    ensures var db' := Start(db, at, host); RosterFits(db'.rooms, db'.participants, over)
  {
    if P.StartAllowed(db, at) {
      Hosted(db, at.room, over);
      StartDb(db, at, host);
      BegunFits(db, at, over);
    } else {
      StartRefused(db, at, host);
    }
  }

  lemma StartRefused(db: Db, at: P.Place, host: Id)
    requires !P.StartAllowed(db, at)
    ensures Start(db, at, host) == db
  {
  }

  lemma BegunFits(db: Db, at: P.Place, over: Id -> nat)
    requires RosterFits(db.rooms, db.participants, over)
    ensures var db' := P.Begun(db, at);
            RosterFits(db'.rooms, db'.participants, over)
  {
    var db1 := InsertSession(db, at.workspace, at.room);
    assert db1.rooms == db.rooms && db1.participants == db.participants;
    WriteFits(db1, at, ANY_ROOM_STATE, Starting, over);
  }

  lemma Hosted(db: Db, r: Id, over: Id -> nat)
    requires RosterFits(db.rooms, db.participants, over) && r in db.rooms && !Text.Blank(db.rooms[r].hostName)
    ensures HasHost(db, r)
  {
    var people := People(db.participants, r);
    assert RoomFits(db.rooms[r], people, over(r));
    assert db.rooms[r].hostName != "";
    var p :| p in people && people[p].role == Host && people[p].name == db.rooms[r].hostName && people[p].phone == db.rooms[r].hostPhone;
    assert p in db.participants;
  }

  // ---- Bulk import ----

  /** After k rows: the other rooms are as they were, k people joined, and the copy is the host's. */
  ghost predicate Imported(db: Db, tx: Db, at: P.Place, k: nat) {
    && tx.rooms.Keys == db.rooms.Keys && at.room in db.rooms
    && (forall x | x in db.rooms && x != at.room :: RoomKept(db, tx, x))
    && tx.rooms[at.room].limit == db.rooms[at.room].limit
    && CopyFits(tx.rooms[at.room], People(tx.participants, at.room))
    && |People(tx.participants, at.room).Keys| == |People(db.participants, at.room).Keys| + k
  }

  lemma RowJoined(db: Db, tx: Db, tx': Db, at: P.Place, k: nat, contact: Contact)
    requires Imported(db, tx, at, k) && tx.nextId !in tx.participants && !Unnamed(contact.name, contact.phone)
    requires at.room in tx.rooms && tx'.rooms == CopiedRooms(tx, at, RowOf(at, contact))
    requires tx'.participants == tx.participants[tx.nextId := RowOf(at, contact)]
    ensures Imported(db, tx', at, k + 1)
  {
    var row, people := RowOf(at, contact), People(tx.participants, at.room);
    forall x | x in db.rooms && x != at.room ensures RoomKept(db, tx', x) {
      assert RoomKept(db, tx, x);
      Joined(tx.participants, tx.nextId, row, x);
    }
    Joined(tx.participants, tx.nextId, row, at.room);
    JoinedListeners(people, tx.nextId, row);
    RowFits(tx.rooms[at.room], people, tx.nextId, row, contact);
  }

  lemma RowImported(db: Db, tx: Db, at: P.Place, batch: Id, k: nat, contact: Contact)
    requires InImport(tx, at, batch) && Imported(db, tx, at, k) && ImportRow(tx, at, batch, contact).Some?
    requires !Unnamed(contact.name, contact.phone)
    ensures Imported(db, ImportRow(tx, at, batch, contact).value, at, k + 1)
  {
    RowWithin(tx, at, batch, contact);
    RowJoined(db, tx, ImportRow(tx, at, batch, contact).value, at, k, contact);
  }

  lemma RowFits(room: Room, people: map<Id, Participant>, id: Id, row: Participant, contact: Contact)
    requires CopyFits(room, people) && id !in people && !Unnamed(contact.name, contact.phone)
    requires row.role == RoleOf(contact.role) && row.name == Text.Trim(contact.name) && row.phone == Text.Trim(contact.phone)
    ensures CopyFits(if row.role == Host then room.(hostName := row.name, hostPhone := row.phone) else room, people[id := row])
  {
    if row.role == Host {
      Text.TrimBlank(contact.name);
      Text.TrimBlank(contact.phone);
      assert people[id := row][id] == row;
    } else {
      ListenerKeepsCopy(room, people, id, row);
    }
  }

  lemma {:induction false} RowsImported(db: Db, begun: Db, at: P.Place, batch: Id, contacts: seq<Contact>)
    requires InImport(begun, at, batch) && Imported(db, begun, at, 0) && AllNamed(contacts)
    requires ImportRows(begun, at, batch, contacts).Some?
    ensures Imported(db, ImportRows(begun, at, batch, contacts).value, at, |contacts|)
  {
    if contacts != [] {
      var n := |contacts| - 1;
      RowsWithin(begun, at, batch, contacts[..n]);
      RowsImported(db, begun, at, batch, contacts[..n]);
      RowImported(db, ImportRows(begun, at, batch, contacts[..n]).value, at, batch, n, contacts[n]);
    }
  }

  lemma Begun(db: Db, at: P.Place, over: Id -> nat)
    requires Sound(db) && RosterFits(db.rooms, db.participants, over) && RoomIn(db, at.workspace, at.room)
    ensures var begun := InsertBatch(db, at.workspace, at.room);
      InImport(begun, at, db.nextId) && Imported(db, begun, at, 0)
  {
    BatchBegun(db, at);
    assert RoomFits(db.rooms[at.room], People(db.participants, at.room), over(at.room));
    NobodyYet(db, at);
  }

  lemma NobodyYet(db: Db, at: P.Place)
    requires at.room in db.rooms && CopyFits(db.rooms[at.room], People(db.participants, at.room))
    ensures Imported(db, InsertBatch(db, at.workspace, at.room), at, 0)
  {
    var begun := InsertBatch(db, at.workspace, at.room);
    assert begun.rooms == db.rooms && begun.participants == db.participants;
  }

  lemma ImportedFits(db: Db, tx: Db, at: P.Place, k: nat, over: Id -> nat)
    requires RosterFits(db.rooms, db.participants, over) && Imported(db, tx, at, k)
    requires 1 <= db.rooms[at.room].limit && P.CountIn(db, at.room) + k <= db.rooms[at.room].limit
    ensures RosterFits(tx.rooms, tx.participants, over)
  {
    CountPeople(db, at.room);
    ListenersWithin(People(tx.participants, at.room));
    OthersKept(db, tx, at.room, over);
  }

  /** The transaction of an import that was let through. */
  lemma CommittedFits(db: Db, at: P.Place, contacts: seq<Contact>, over: Id -> nat)
    requires Sound(db) && RosterFits(db.rooms, db.participants, over) && ImportRefusal(db, at, contacts).None?
    requires ImportRows(InsertBatch(db, at.workspace, at.room), at, db.nextId, contacts).Some?
    ensures var tx := ImportRows(InsertBatch(db, at.workspace, at.room), at, db.nextId, contacts).value;
      RosterFits(tx.rooms, tx.participants, over)
  {
    var begun := InsertBatch(db, at.workspace, at.room);
    var tx := ImportRows(begun, at, db.nextId, contacts).value;
    Begun(db, at, over);
    RowsImported(db, begun, at, db.nextId, contacts);
    ImportedFits(db, tx, at, |contacts|, over);
  }

  /** The import keeps the roster invariant. */
  lemma ImportFits(db: Db, at: P.Place, contacts: seq<Contact>, over: Id -> nat)
    requires Sound(db) && RosterFits(db.rooms, db.participants, over)
    ensures var db' := Import(db, at, contacts).1; RosterFits(db'.rooms, db'.participants, over)
  {
    if ImportRefusal(db, at, contacts).None? && ImportRows(InsertBatch(db, at.workspace, at.room), at, db.nextId, contacts).Some? {
      CommittedFits(db, at, contacts, over);
    }
  }

  /** A room whose copy is empty has no host, so the one-host index never rejects an import that was let through. */
  lemma ImportNeverRejected(db: Db, at: P.Place, contacts: seq<Contact>, over: Id -> nat)
    requires Sound(db) && RosterFits(db.rooms, db.participants, over)
    ensures Import(db, at, contacts).0 != 500
  {
    if ImportRefusal(db, at, contacts).None? {
      Begun(db, at, over);
      var begun := InsertBatch(db, at.workspace, at.room);
      if Hosts(contacts) == 1 { NoHostYet(db, at.room, over); }
      assert HasHost(begun, at.room) ==> HasHost(db, at.room);
      RowsAccepted(db, begun, at, db.nextId, contacts);
    }
  }

  lemma NoHostYet(db: Db, r: Id, over: Id -> nat)
    requires RosterFits(db.rooms, db.participants, over) && r in db.rooms && db.rooms[r].hostPhone == ""
    ensures !HasHost(db, r)
  {
    var people := People(db.participants, r);
    assert RoomFits(db.rooms[r], people, over(r));
    forall p | p in db.participants && db.participants[p].room == r ensures db.participants[p].role == Listener { assert p in people; }
  }

  /** A LISTENER row is never rejected, a HOST row only where there is a host. */
  lemma RowAccepted(tx: Db, at: P.Place, batch: Id, contact: Contact)
    requires InImport(tx, at, batch) && (RoleOf(contact.role) == Host ==> !HasHost(tx, at.room))
    ensures ImportRow(tx, at, batch, contact).Some?
    ensures RoleOf(contact.role) == Listener && !HasHost(tx, at.room) ==> !HasHost(ImportRow(tx, at, batch, contact).value, at.room)
  {
    var row := RowOf(at, contact);
    assert HasHost(SetHostCopy(tx, at.workspace, at.room, row.name, row.phone), at.room) ==> HasHost(tx, at.room);
    RowWithin(tx, at, batch, contact);
  }

  lemma {:induction false} RowsAccepted(db: Db, begun: Db, at: P.Place, batch: Id, contacts: seq<Contact>)
    requires InImport(begun, at, batch) && Imported(db, begun, at, 0) && AllNamed(contacts)
    requires Hosts(contacts) <= 1 && (Hosts(contacts) == 1 ==> !HasHost(begun, at.room))
    ensures ImportRows(begun, at, batch, contacts).Some?
    ensures Hosts(contacts) == 0 && !HasHost(begun, at.room) ==> !HasHost(ImportRows(begun, at, batch, contacts).value, at.room)
  {
    if contacts != [] {
      var n := |contacts| - 1;
      RowsAccepted(db, begun, at, batch, contacts[..n]);
      RowsWithin(begun, at, batch, contacts[..n]);
      RowAccepted(ImportRows(begun, at, batch, contacts[..n]).value, at, batch, contacts[n]);
    }
  }
}
