/** What each roster handler answers and writes, row by row: when it succeeds, the rows it leaves, and that it leaves the
    tables alone otherwise. */
module RosterOutcomes {
  import opened Options
  import opened Tables
  import opened Isolation
  import opened Roster
  import T = RoomTenancy
  import RC = RosterContents
  import P = RoomProtocol
  import Text

  /** The room is the workspace's and READY. */
  predicate AtRest(db: Db, at: P.Place) {
    at.room in db.rooms && db.rooms[at.room].workspace == at.workspace && db.rooms[at.room].state == Ready
  }

  function PeopleOf(db: Db, room: Id): set<Id> { set p | p in db.participants && db.participants[p].room == room }

  lemma CountIs(db: Db, room: Id)
    ensures P.CountIn(db, room) == |PeopleOf(db, room)|
  {
    assert (set p | p in db.participants && db.participants[p].room == room) == PeopleOf(db, room);
  }

  // ---- Rooms ----

  /** A room is created READY, without host and number, with the limit asked for, exactly for a limit from 1 to 100000. */
  lemma CreateOutcome(db: Db, workspace: Id, limit: int)
    ensures CreateRoom(db, workspace, limit)
         == if 1 <= limit <= 100000
            then (201, db.(rooms := db.rooms[db.nextId := Room(workspace, Ready, "", "", limit, false)], nextId := db.nextId + 1))
            else (400, db)
  {
  }

  /** A room at rest takes a new limit that its roster fits, with the number flag asked for; else nothing changes. */
  lemma UpdateOutcome(db: Db, at: P.Place, limit: int, tfn: bool, valid: bool)
    ensures var (status, db') := UpdateRoom(db, at, limit, tfn, valid);
      && (status == 200 <==> AtRest(db, at) && 1 <= limit <= 100000 && |PeopleOf(db, at.room)| <= limit && (tfn ==> valid))
      && (status == 200 ==> db' == db.(rooms := db.rooms[at.room := db.rooms[at.room].(limit := limit, tfn := tfn)]))
      && (status != 200 ==> db' == db && status == if limit <= 0 then 400 else if !RoomIn(db, at.workspace, at.room) then 404 else 409)
  {
    CountIs(db, at.room);
  }

  /** The host's row, with the contact and ACTIVE. */
  function HostWith(at: P.Place, name: string, phone: string): Participant {
    Participant(at.workspace, at.room, Host, name, phone, DesiredActive)
  }

  /** Saving the host of a room at rest writes the trimmed name and number to the room's copy and to its HOST row, which
      is the room's own or a new one, ACTIVE; nothing else changes. Without a name or number nothing changes at all. */
  lemma SaveHostOutcome(db: Db, at: P.Place, host: Id, name: string, phone: string)
    requires Sound(db) && at.room in db.rooms
    requires (host in db.participants && db.participants[host].room == at.room && db.participants[host].role == Host)
          || (host == db.nextId && forall p | p in db.participants && db.participants[p].room == at.room :: db.participants[p].role != Host)
    ensures SaveHost(db, at, host, name, phone)
         == if AtRest(db, at) && !Text.Blank(name) && !Text.Blank(phone)
            then db.(rooms := db.rooms[at.room := db.rooms[at.room].(hostName := Text.Trim(name), hostPhone := Text.Trim(phone))],
                     participants := db.participants[host := HostWith(at, Text.Trim(name), Text.Trim(phone))],
                     nextId := if host in db.participants then db.nextId else db.nextId + 1)
            else db
  {
    Text.TrimBlank(name);
    Text.TrimBlank(phone);
    if AtRest(db, at) && !Text.Blank(name) && !Text.Blank(phone) {
      if host in db.participants {
        T.HeldPersonWorkspace(db, at, host);
        HostRewritten(db, at, host, Text.Trim(name), Text.Trim(phone));
      } else {
        assert !HasHost(db, at.room);
        HostAdded(db, at, Text.Trim(name), Text.Trim(phone));
      }
    }
  }

  lemma HostRewritten(db: Db, at: P.Place, host: Id, name: string, phone: string)
    requires AtRest(db, at) && !Text.Blank(name) && !Text.Blank(phone)
    requires host in db.participants && db.participants[host].workspace == at.workspace && db.participants[host].room == at.room
    requires db.participants[host].role == Host
    ensures P.SaveHostTx(db, at, host, name, phone)
         == db.(rooms := db.rooms[at.room := db.rooms[at.room].(hostName := name, hostPhone := phone)],
                participants := db.participants[host := HostWith(at, name, phone)])
  {
    assert HasHost(db, at.room) && P.IsHostOf(db, at.room, host);
    var db1 := SetHostCopy(db, at.workspace, at.room, name, phone);
    var db2 := SetContact(db1, at.workspace, host, name, phone);
    assert db2 == db1.(participants := db.participants[host := db.participants[host].(name := name, phone := phone)]);
    AnyDesired(db2.participants[host].desired);
  }

  lemma HostAdded(db: Db, at: P.Place, name: string, phone: string)
    requires AtRest(db, at) && !Text.Blank(name) && !Text.Blank(phone) && !HasHost(db, at.room)
    ensures P.SaveHostTx(db, at, db.nextId, name, phone)
         == db.(rooms := db.rooms[at.room := db.rooms[at.room].(hostName := name, hostPhone := phone)],
                participants := db.participants[db.nextId := HostWith(at, name, phone)], nextId := db.nextId + 1)
  {
    var db1 := SetHostCopy(db, at.workspace, at.room, name, phone);
    assert !HasHost(db1, at.room);
  }

  // ---- Listeners ----

  function ListenerWith(at: P.Place, name: string, phone: string): Participant {
    Participant(at.workspace, at.room, Listener, name, phone, DesiredMuted)
  }

  /** An add to a room at rest with a place left inserts a MUTED listener with the trimmed contact; else nothing changes. */
  lemma AddOutcome(db: Db, at: P.Place, contact: Contact)
    ensures var (status, db') := Add(db, at, contact);
      && (status == 201 <==> AtRest(db, at) && |PeopleOf(db, at.room)| < db.rooms[at.room].limit
                             && !Text.Blank(contact.name) && !Text.Blank(contact.phone) && RoleOf(contact.role) == Listener)
      && (status == 201 ==> db' == db.(participants := db.participants[db.nextId := ListenerWith(at, Text.Trim(contact.name), Text.Trim(contact.phone))],
                                       nextId := db.nextId + 1))
      && (status != 201 ==> db' == db && status in {400, 404, 409})
  {
    CountIs(db, at.room);
  }

  /** A live dial in a RUNNING room with a number and a place left inserts a MUTED listener, named by the number where no
      name was given; else nothing changes. */
  lemma DialOutcome(db: Db, at: P.Place, name: string, phone: string)
    ensures var (status, db') := LiveDial(db, at, name, phone);
      && (status == 202 <==> at.room in db.rooms && db.rooms[at.room].workspace == at.workspace && db.rooms[at.room].state == Running
                             && db.rooms[at.room].tfn && |PeopleOf(db, at.room)| < db.rooms[at.room].limit)
      && (status == 202 ==> db' == db.(participants := db.participants[db.nextId := ListenerWith(at, if Text.Blank(name) then phone else name, phone)],
                                       nextId := db.nextId + 1))
      && (status != 202 ==> db' == db)
  {
    CountIs(db, at.room);
  }

  /** Batch rows of the participant take the contact. */
  function ItemsWith(items: map<Id, Item>, p: Id, name: string, phone: string): map<Id, Item> {
    map i | i in items :: if items[i].participant == Some(p) then items[i].(name := name, phone := phone) else items[i]
  }

  /** An edit of a listener of a room at rest writes the trimmed name and number to its row and to exactly its batch
      rows, and nothing else; any other edit changes nothing. */
  lemma EditOutcome(db: Db, workspace: Id, p: Id, name: string, phone: string)
    requires Sound(db)
    ensures var (status, db') := Edit(db, workspace, p, name, phone);
      && (status == 200 <==> p in db.participants && AtRest(db, P.Place(workspace, db.participants[p].room))
                             && db.participants[p].role == Listener && !Text.Blank(name) && !Text.Blank(phone))
      && (status == 200 ==>
            db' == db.(participants := db.participants[p := db.participants[p].(name := Text.Trim(name), phone := Text.Trim(phone))],
                       items := ItemsWith(db.items, p, Text.Trim(name), Text.Trim(phone))))
      && (status != 200 ==> db' == db && status in {400, 404, 409})
  {
    if p in db.participants {
      PersonsRoom(db, p);
      if Edit(db, workspace, p, name, phone).0 == 200 {
        RC.ItemsOfMine(db, workspace, p);
        EditWrites(db, workspace, p, Text.Trim(name), Text.Trim(phone));
      }
    }
  }

  lemma PersonsRoom(db: Db, p: Id)
    requires Sound(db) && p in db.participants
    ensures db.participants[p].room in db.rooms && db.rooms[db.participants[p].room].workspace == db.participants[p].workspace
  {
    assert db.participants[p].room in Tenants(db.rooms);
  }

  lemma EditWrites(db: Db, workspace: Id, p: Id, name: string, phone: string)
    requires p in db.participants && db.participants[p].workspace == workspace
    requires forall i | i in db.items && db.items[i].participant == Some(p) :: db.items[i].workspace == workspace
    ensures SetItemContacts(SetContact(db, workspace, p, name, phone), workspace, p, name, phone)
         == db.(participants := db.participants[p := db.participants[p].(name := name, phone := phone)], items := ItemsWith(db.items, p, name, phone))
  {
    var db1 := SetContact(db, workspace, p, name, phone);
    assert db1 == db.(participants := db.participants[p := db.participants[p].(name := name, phone := phone)]);
    assert SetItemContacts(db1, workspace, p, name, phone).items == ItemsWith(db.items, p, name, phone);
  }

  // ---- Deletes ----

  /** The table without these rows. */
  ghost predicate Less<V>(before: map<Id, V>, after: map<Id, V>, gone: set<Id>) {
    after.Keys == before.Keys - gone && forall k | k in after :: after[k] == before[k]
  }

  function LegsOf(db: Db, people: set<Id>): set<Id> { set l | l in db.legs && db.legs[l].participant in people }

  /** Exactly the people go, with their legs and requests; attendance and batch rows stay, and forget them. */
  ghost predicate PeopleGone(db: Db, db': Db, people: set<Id>) {
    && Less(db.participants, db'.participants, people)
    && Less(db.legs, db'.legs, LegsOf(db, people))
    && Less(db.requests, db'.requests, set q | q in db.requests && db.requests[q].participant in people)
    && db'.attendance.Keys == db.attendance.Keys && (forall a | a in db.attendance :: Forgets(db, db.attendance[a], db'.attendance[a], people))
    && db'.items.Keys == db.items.Keys
    && (forall i | i in db.items :: db'.items[i] == if IsOf(db.items[i].participant, people) then db.items[i].(participant := None) else db.items[i])
    && db'.sessions == db.sessions && db'.batches == db.batches && db'.nextId == db.nextId
  }

  predicate IsOf(ref: Option<Id>, ids: set<Id>) { ref.Some? && ref.value in ids }

  predicate Forgets(db: Db, before: Attendance, after: Attendance, people: set<Id>) {
    after == before.(participant := if IsOf(before.participant, people) then None else before.participant,
                     leg := if IsOf(before.leg, LegsOf(db, people)) then None else before.leg)
  }

  /** Which rows a deletion of people, and of no room, takes along. */
  lemma Taken(db: Db, people: set<Id>)
    ensures people + (set p | p in db.participants && db.participants[p].room in {}) == people
    ensures (set l | l in db.legs && (db.legs[l].room in {} || db.legs[l].participant in people)) == LegsOf(db, people)
    ensures (set x | x in db.sessions && db.sessions[x].room in {}) == {} && (set b | b in db.batches && db.batches[b].room in {}) == {}
  {
  }

  lemma TablesGone(db: Db, people: set<Id>)
    ensures var db' := Cascade(db, {}, people);
      && db'.participants == db.participants - people && db'.legs == db.legs - LegsOf(db, people)
      && db'.sessions == db.sessions && db'.batches == db.batches && db'.rooms == db.rooms && db'.nextId == db.nextId
  {
    Taken(db, people);
    assert db.sessions - {} == db.sessions && db.batches - {} == db.batches && db.rooms - {} == db.rooms;
  }

  lemma AttendanceForgets(db: Db, people: set<Id>)
    ensures var db' := Cascade(db, {}, people);
      db'.attendance.Keys == db.attendance.Keys && forall a | a in db.attendance :: Forgets(db, db.attendance[a], db'.attendance[a], people)
  {
    Taken(db, people);
  }

  lemma ItemsForget(db: Db, people: set<Id>)
    ensures var db' := Cascade(db, {}, people);
      && db'.items.Keys == db.items.Keys
      && forall i | i in db.items :: db'.items[i] == if IsOf(db.items[i].participant, people) then db.items[i].(participant := None) else db.items[i]
  {
    Taken(db, people);
  }

  lemma RequestsGone(db: Db, people: set<Id>)
    requires Sound(db)
    ensures Less(db.requests, Cascade(db, {}, people).requests, set q | q in db.requests && db.requests[q].participant in people)
  {
    Taken(db, people);
    var db' := Cascade(db, {}, people);
    forall q | q in db.requests && db.requests[q].leg.Some?
      ensures db.requests[q].leg.value in LegsOf(db, people) <==> db.requests[q].participant in people
    {
      RequestLeg(db, q);
    }
  }

  lemma CascadeGone(db: Db, people: set<Id>)
    requires Sound(db)
    ensures PeopleGone(db, Cascade(db, {}, people), people) && Cascade(db, {}, people).rooms == db.rooms
  {
    TablesGone(db, people);
    AttendanceForgets(db, people);
    ItemsForget(db, people);
    RequestsGone(db, people);
  }

  /** A request's leg is its participant's. */
  lemma RequestLeg(db: Db, q: Id)
    requires Sound(db) && q in db.requests && db.requests[q].leg.Some?
    ensures db.requests[q].leg.value in db.legs && db.legs[db.requests[q].leg.value].participant == db.requests[q].participant
  {
    assert db.requests[q].leg.value in LegHomes(db.legs);
  }

  /** A listener without a live leg is removed, in any state of its room; else nothing changes. */
  lemma RemoveOutcome(db: Db, workspace: Id, p: Id)
    requires Sound(db)
    ensures var (status, db') := Remove(db, workspace, p);
      && (status == 409 <==> exists l :: l in db.legs && db.legs[l].participant == p && db.legs[l].workspace == workspace
                                         && db.legs[l].state !in {Ended, Failed, Dropped})
      && (status == 200 <==> status != 409 && p in db.participants && db.participants[p].workspace == workspace && db.participants[p].role == Listener)
      && (status == 200 ==> PeopleGone(db, db', {p}) && db'.rooms == db.rooms)
      && (status != 200 ==> db' == db && status in {404, 409})
  {
    CascadeGone(db, {p});
    LiveSpelled(db, workspace, p);
  }

  lemma LiveSpelled(db: Db, workspace: Id, p: Id)
    ensures (exists l :: l in db.legs && db.legs[l].participant == p && db.legs[l].workspace == workspace && !IsTerminal(db.legs[l].state))
       <==> (exists l :: l in db.legs && db.legs[l].participant == p && db.legs[l].workspace == workspace && db.legs[l].state !in {Ended, Failed, Dropped})
  {
  }

  function HostsIn(db: Db, room: Id): set<Id> {
    set p | p in db.participants && db.participants[p].room == room && db.participants[p].role == Host
  }

  /** Clearing the host of a room at rest empties the room's copy and removes exactly its HOST; else nothing changes. */
  lemma ClearHostOutcome(db: Db, at: P.Place)
    requires Sound(db)
    ensures AtRest(db, at) ==>
      && PeopleGone(db, P.ClearHostTx(db, at), HostsIn(db, at.room))
      && P.ClearHostTx(db, at).rooms == db.rooms[at.room := db.rooms[at.room].(hostName := "", hostPhone := "")]
    ensures !AtRest(db, at) ==> P.ClearHostTx(db, at) == db
  {
    if AtRest(db, at) {
      var db1 := db.(rooms := db.rooms[at.room := db.rooms[at.room].(hostName := "", hostPhone := "")]);
      ClearsOne(db, at, db1);
      ClearsHosts(db, db1, HostsIn(db, at.room));
    }
  }

  lemma ClearsOne(db: Db, at: P.Place, db1: Db)
    requires Sound(db) && AtRest(db, at) && db1 == db.(rooms := db.rooms[at.room := db.rooms[at.room].(hostName := "", hostPhone := "")])
    ensures P.ClearHostTx(db, at) == Cascade(db1, {}, HostsIn(db, at.room))
  {
    HostsSpelled(db, at);
    assert HostRows(db1, at.workspace, at.room) == HostRows(db, at.workspace, at.room);
    DeletesHosts(db1, at.workspace, at.room, HostsIn(db, at.room));
    ClearsCopy(db, at, db1);
  }

  lemma ClearsCopy(db: Db, at: P.Place, db1: Db)
    requires AtRest(db, at) && db1 == db.(rooms := db.rooms[at.room := db.rooms[at.room].(hostName := "", hostPhone := "")])
    ensures P.ClearHostTx(db, at) == DeleteHosts(db1, at.workspace, at.room)
  {
    assert SetHostCopy(db, at.workspace, at.room, "", "") == db1;
  }

  lemma DeletesHosts(db: Db, workspace: Id, room: Id, hosts: set<Id>)
    requires HostRows(db, workspace, room) == hosts
    ensures DeleteHosts(db, workspace, room) == Cascade(db, {}, hosts)
  {
  }

  /** The room's copy is no matter to the deletion. */
  lemma ClearsHosts(db: Db, db1: Db, hosts: set<Id>)
    requires Sound(db) && db1 == db.(rooms := db1.rooms)
    ensures PeopleGone(db, Cascade(db1, {}, hosts), hosts) && Cascade(db1, {}, hosts).rooms == db1.rooms
  {
    CascadeGone(db, hosts);
    TablesGone(db1, hosts);
    SameElsewhere(db, db1, hosts);
  }

  lemma SameElsewhere(db: Db, db1: Db, people: set<Id>)
    requires db1 == db.(rooms := db1.rooms)
    ensures var a, b := Cascade(db, {}, people), Cascade(db1, {}, people);
      && a.participants == b.participants && a.legs == b.legs && a.requests == b.requests && a.attendance == b.attendance
      && a.items == b.items && a.sessions == b.sessions && a.batches == b.batches && a.nextId == b.nextId
  {
  }

  lemma HostsSpelled(db: Db, at: P.Place)
    requires Sound(db) && RoomIn(db, at.workspace, at.room)
    ensures HostRows(db, at.workspace, at.room) == HostsIn(db, at.room)
  {
    forall p | p in db.participants && db.participants[p].room == at.room ensures db.participants[p].workspace == at.workspace { PersonsRoom(db, p); }
  }

  /** The room is the workspace's and all its legs are over. */
  predicate Deletable(db: Db, at: P.Place) {
    && at.room in db.rooms && db.rooms[at.room].workspace == at.workspace
    && forall l :: l in db.legs && db.legs[l].room == at.room ==> db.legs[l].state in {Ended, Failed, Dropped}
  }

  /** A room without a live leg is deleted with all its rows, and with exactly those; else nothing changes. */
  lemma RemoveRoomOutcome(db: Db, at: P.Place)
    requires Sound(db)
    ensures Deletable(db, at) ==> RoomGone(db, P.RemoveRoomTx(db, at), at.room)
    ensures !Deletable(db, at) ==> P.RemoveRoomTx(db, at) == db
  {
    DeletableIs(db, at);
    if Deletable(db, at) { DeletedRoom(db, at.room); }
  }

  lemma DeletableIs(db: Db, at: P.Place)
    ensures P.RemoveRoomTx(db, at) == if Deletable(db, at) then DeleteRoom(DeleteItemsOfRoom(db, at.room), at.room) else db
  {
  }

  ghost predicate RoomGone(db: Db, db': Db, room: Id) {
    && Less(db.rooms, db'.rooms, {room})
    && Less(db.participants, db'.participants, PeopleOf(db, room))
    && Less(db.sessions, db'.sessions, set x | x in db.sessions && db.sessions[x].room == room)
    && Less(db.legs, db'.legs, set l | l in db.legs && db.legs[l].room == room)
    && Less(db.requests, db'.requests, set q | q in db.requests && db.requests[q].room == room)
    && Less(db.batches, db'.batches, set b | b in db.batches && db.batches[b].room == room)
    && Less(db.attendance, db'.attendance, set a | a in db.attendance && T.OfSession(db, a, room))
    && Less(db.items, db'.items, set i | i in db.items && T.OfBatch(db, i, room))
    && db'.nextId == db.nextId
  }

  lemma DeletedRoom(db: Db, room: Id)
    requires Sound(db)
    ensures RoomGone(db, DeleteRoom(DeleteItemsOfRoom(db, room), room), room)
  {
    var db1 := DeleteItemsOfRoom(db, room);
    RoomRows(db, db1, room);
    RoomSessions(db, db1, room);
    RoomBatches(db, db1, room);
    RoomLegs(db, db1, room);
    RoomRequests(db, db1, room);
    RoomAttendance(db, db1, room);
    RoomItems(db, room);
  }

  /** All tables but the batch rows are as before the room itself is deleted. */
  predicate ButItems(db: Db, db1: Db) { db1 == db.(items := db1.items) }

  lemma RoomRows(db: Db, db1: Db, room: Id)
    requires ButItems(db, db1)
    ensures Less(db.rooms, DeleteRoom(db1, room).rooms, {room}) && DeleteRoom(db1, room).nextId == db.nextId
    ensures Less(db.participants, DeleteRoom(db1, room).participants, PeopleOf(db, room))
  {
    assert {} + (set p | p in db1.participants && db1.participants[p].room in {room}) == PeopleOf(db, room);
  }

  lemma RoomSessions(db: Db, db1: Db, room: Id)
    requires ButItems(db, db1)
    ensures Less(db.sessions, DeleteRoom(db1, room).sessions, set x | x in db.sessions && db.sessions[x].room == room)
  {
  }

  lemma RoomBatches(db: Db, db1: Db, room: Id)
    requires ButItems(db, db1)
    ensures Less(db.batches, DeleteRoom(db1, room).batches, set b | b in db.batches && db.batches[b].room == room)
  {
  }

  lemma RoomLegs(db: Db, db1: Db, room: Id)
    requires Sound(db) && ButItems(db, db1)
    ensures Less(db.legs, DeleteRoom(db1, room).legs, set l | l in db.legs && db.legs[l].room == room)
  {
    forall l | l in db.legs ensures db.legs[l].participant in db.participants && db.participants[db.legs[l].participant].room == db.legs[l].room {
      assert db.legs[l].participant in Homes(db.participants);
    }
  }

  lemma RoomRequests(db: Db, db1: Db, room: Id)
    requires Sound(db) && ButItems(db, db1)
    ensures Less(db.requests, DeleteRoom(db1, room).requests, set q | q in db.requests && db.requests[q].room == room)
  {
    forall q | q in db.requests
      ensures db.requests[q].participant in db.participants && db.participants[db.requests[q].participant].room == db.requests[q].room
    {
      assert db.requests[q].participant in Homes(db.participants);
    }
    forall q | q in db.requests && db.requests[q].leg.Some?
      ensures var leg := db.requests[q].leg.value; leg in db.legs && (db.legs[leg].room == room || db.legs[leg].participant in PeopleOf(db, room) ==> db.requests[q].room == room)
    {
      RequestLeg(db, q);
      LegHome(db, db.requests[q].leg.value);
    }
  }

  lemma LegHome(db: Db, l: Id)
    requires Sound(db) && l in db.legs
    ensures db.legs[l].participant in db.participants && db.participants[db.legs[l].participant].room == db.legs[l].room
  {
    assert db.legs[l].participant in Homes(db.participants);
  }

  /** An attendance row points into its session's room. */
  lemma AttendanceHome(db: Db, a: Id)
    requires Sound(db) && a in db.attendance
    ensures db.attendance[a].session in db.sessions
    ensures var row := db.attendance[a]; var room := db.sessions[row.session].room;
      && (row.participant.Some? ==> row.participant.value in db.participants && db.participants[row.participant.value].room == room)
      && (row.leg.Some? ==> row.leg.value in db.legs && db.legs[row.leg.value].room == room
                            && db.legs[row.leg.value].participant in db.participants && db.participants[db.legs[row.leg.value].participant].room == room)
  {
    var row := db.attendance[a];
    assert row.session in SessionRooms(db.sessions);
    if row.participant.Some? { assert row.participant.value in Homes(db.participants); }
    if row.leg.Some? {
      assert row.leg.value in LegHomes(db.legs);
      LegHome(db, row.leg.value);
    }
  }

  lemma RoomAttendance(db: Db, db1: Db, room: Id)
    requires Sound(db) && ButItems(db, db1)
    ensures Less(db.attendance, DeleteRoom(db1, room).attendance, set a | a in db.attendance && T.OfSession(db, a, room))
  {
    var db' := DeleteRoom(db1, room);
    forall a | a in db.attendance ensures a in db'.attendance <==> !T.OfSession(db, a, room) { RowGoes(db, db1, room, a); }
    forall a | a in db'.attendance ensures db'.attendance[a] == db.attendance[a] { RowStays(db, db1, room, a); }
    assert db'.attendance.Keys <= db.attendance.Keys;
  }

  lemma RowGoes(db: Db, db1: Db, room: Id, a: Id)
    requires Sound(db) && ButItems(db, db1) && a in db.attendance
    ensures a in DeleteRoom(db1, room).attendance <==> !T.OfSession(db, a, room)
  {
    AttendanceHome(db, a);
  }

  lemma RowStays(db: Db, db1: Db, room: Id, a: Id)
    requires Sound(db) && ButItems(db, db1) && a in DeleteRoom(db1, room).attendance
    ensures a in db.attendance && DeleteRoom(db1, room).attendance[a] == db.attendance[a]
  {
    AttendanceHome(db, a);
  }

  /** A batch row's participant is of its batch's room. */
  lemma ItemHome(db: Db, i: Id)
    requires Sound(db) && i in db.items
    ensures var row := db.items[i];
      && row.batch in db.batches
      && (row.participant.Some? ==> row.participant.value in db.participants && db.participants[row.participant.value].room == db.batches[row.batch].room)
  {
    if db.items[i].participant.Some? { assert db.items[i].participant.value in Homes(db.participants); }
  }

  lemma RoomItems(db: Db, room: Id)
    requires Sound(db)
    ensures Less(db.items, DeleteRoom(DeleteItemsOfRoom(db, room), room).items, set i | i in db.items && T.OfBatch(db, i, room))
  {
    var db' := DeleteRoom(DeleteItemsOfRoom(db, room), room);
    forall i | i in db.items ensures i in db'.items <==> !T.OfBatch(db, i, room) { ItemGoes(db, room, i); }
    forall i | i in db'.items ensures db'.items[i] == db.items[i] { ItemStays(db, room, i); }
    assert db'.items.Keys <= db.items.Keys;
  }

  lemma ItemGoes(db: Db, room: Id, i: Id)
    requires Sound(db) && i in db.items
    ensures i in DeleteRoom(DeleteItemsOfRoom(db, room), room).items <==> !T.OfBatch(db, i, room)
  {
    ItemHome(db, i);
  }

  lemma ItemStays(db: Db, room: Id, i: Id)
    requires Sound(db) && i in DeleteRoom(DeleteItemsOfRoom(db, room), room).items
    ensures i in db.items && DeleteRoom(DeleteItemsOfRoom(db, room), room).items[i] == db.items[i]
  {
    ItemHome(db, i);
  }

  // ---- Import ----

  /** An import is committed exactly for a room at rest, rows that all have a name and a number, at most one HOST row and
      none where the room has a host, and places for all; else nothing changes. */
  lemma ImportOutcome(db: Db, at: P.Place, contacts: seq<Contact>)
    requires Sound(db)
    ensures var (status, db') := Import(db, at, contacts);
      && (status == 201 || status == 500 <==>
            && contacts != [] && AtRest(db, at)
            && (forall i | 0 <= i < |contacts| :: !Text.Blank(contacts[i].name) && !Text.Blank(contacts[i].phone))
            && (forall i: nat, j: nat :: !Twice(contacts, i, j))
            && (forall i | 0 <= i < |contacts| && RoleOf(contacts[i].role) == Host :: db.rooms[at.room].hostPhone == "")
            && 0 < db.rooms[at.room].limit && |PeopleOf(db, at.room)| + |contacts| <= db.rooms[at.room].limit)
      && (status != 201 ==> db' == db)
  {
    AtMostOneHost(contacts);
    NoHostRow(contacts);
    CountIs(db, at.room);
  }

  lemma {:induction false} NoHostRow(contacts: seq<Contact>)
    ensures Hosts(contacts) == 0 <==> forall i | 0 <= i < |contacts| :: RoleOf(contacts[i].role) != Host
  {
    if contacts != [] {
      var k := |contacts| - 1;
      NoHostRow(contacts[..k]);
      assert contacts == contacts[..k] + [contacts[k]];
    }
  }

  predicate Twice(contacts: seq<Contact>, i: nat, j: nat) {
    i < j < |contacts| && RoleOf(contacts[i].role) == Host && RoleOf(contacts[j].role) == Host
  }

  /** At most one HOST row. */
  lemma {:induction false} AtMostOneHost(contacts: seq<Contact>)
    ensures Hosts(contacts) <= 1 <==> forall i: nat, j: nat :: !Twice(contacts, i, j)
  {
    if contacts != [] {
      var k := |contacts| - 1;
      AtMostOneHost(contacts[..k]);
      NoHostRow(contacts[..k]);
      assert contacts == contacts[..k] + [contacts[k]];
      forall i: nat, j: nat | j < k ensures Twice(contacts, i, j) <==> Twice(contacts[..k], i, j) { }
      if Hosts(contacts[..k]) >= 1 && RoleOf(contacts[k].role) == Host {
        var i :| 0 <= i < k && RoleOf(contacts[..k][i].role) == Host;
        assert Twice(contacts, i, k);
      }
      if Hosts(contacts[..k]) > 1 {
        var i: nat, j: nat :| Twice(contacts[..k], i, j);
        assert Twice(contacts, i, j);
      }
    }
  }

  /** A row's role is HOST exactly when it says so, in either case and with any space around it. */
  lemma RoleMeans(role: string)
    ensures RoleOf(role) == Host <==>
      var t := Text.Trim(role); |t| == 4 && t[0] in "Hh" && t[1] in "Oo" && t[2] in "Ss" && t[3] in "Tt"
  {
    Text.UpperIs(Text.Trim(role));
  }
}
