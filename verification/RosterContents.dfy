/** What roster handlers write: an import leaves one participant and one batch row a contact, and a listener's
    batch rows carry the listener's contact through every later edit. */
module RosterContents {
  import opened Options
  import opened Tables
  import opened Isolation
  import opened Roster
  import opened RosterTheorems
  import opened RosterRuns
  import opened RosterTenancy
  import P = RoomProtocol
  import Text

  // ---- Import ----

  function ItemOf(at: P.Place, batch: Id, contact: Contact, p: Id): Item {
    Item(at.workspace, batch, Some(p), Text.Trim(contact.name), Text.Trim(contact.phone))
  }

  lemma CopyAside(db: Db, at: P.Place, name: string, phone: string)
    ensures var db' := SetHostCopy(db, at.workspace, at.room, name, phone);
      db'.participants == db.participants && db'.items == db.items && db'.batches == db.batches && db'.nextId == db.nextId
  {
  }

  lemma RowWritten(db: Db, at: P.Place, batch: Id, contact: Contact)
    requires batch in db.batches && ImportRow(db, at, batch, contact).Some?
    ensures var db', n := ImportRow(db, at, batch, contact).value, db.nextId;
      && db'.participants == db.participants[n := RowOf(at, contact)]
      && db'.items == db.items[n + 1 := ItemOf(at, batch, contact, n)]
      && db'.nextId == n + 2 && db'.batches == db.batches
  {
    var row := RowOf(at, contact);
    CopyAside(db, at, row.name, row.phone);
    var db1 := if row.role == Host then SetHostCopy(db, at.workspace, at.room, row.name, row.phone) else db;
    PersonAndItem(db1, at, batch, row);
  }

  lemma PersonAndItem(db: Db, at: P.Place, batch: Id, row: Participant)
    requires batch in db.batches && AcceptsParticipant(db, at.room, row.role)
    requires row.workspace == at.workspace && row.room == at.room && row.desired == if row.role == Host then DesiredActive else DesiredMuted
    ensures var n := db.nextId;
      InsertItem(InsertParticipant(db, at.workspace, at.room, row.role, row.name, row.phone), at.workspace, batch, n, row.name, row.phone)
      == db.(participants := db.participants[n := row],
             items := db.items[n + 1 := Item(at.workspace, batch, Some(n), row.name, row.phone)], nextId := n + 2)
  {
    var db1 := InsertParticipant(db, at.workspace, at.room, row.role, row.name, row.phone);
    assert db1 == db.(participants := db.participants[db.nextId := row], nextId := db.nextId + 1);
  }

  /** The i-th contact has its participant and its batch row. */
  ghost predicate Written(tx: Db, n: Id, at: P.Place, batch: Id, contacts: seq<Contact>, i: nat)
    requires i < |contacts|
  {
    && n + 2 * i in tx.participants
    && tx.participants[n + 2 * i] == Participant(at.workspace, at.room, RoleOf(contacts[i].role), Text.Trim(contacts[i].name), Text.Trim(contacts[i].phone),
                                                 if RoleOf(contacts[i].role) == Host then DesiredActive else DesiredMuted)
    && n + 2 * i + 1 in tx.items
    && tx.items[n + 2 * i + 1] == Item(at.workspace, batch, Some(n + 2 * i), Text.Trim(contacts[i].name), Text.Trim(contacts[i].phone))
  }

  /** Nothing else was added, and nothing that was there changed. */
  ghost predicate OnlyAdded<V>(before: map<Id, V>, after: map<Id, V>, n: Id, count: nat) {
    && (forall k | k in before :: k in after && after[k] == before[k])
    && (forall k | k in after && k !in before :: n <= k)
    && |after| == |before| + count
  }

  ghost predicate OnlyWritten(begun: Db, tx: Db, count: nat) {
    OnlyAdded(begun.participants, tx.participants, begun.nextId, count) && OnlyAdded(begun.items, tx.items, begun.nextId, count)
  }

  lemma OneAdded<V>(before: map<Id, V>, after: map<Id, V>, n: Id, count: nat, k: Id, row: V)
    requires OnlyAdded(before, after, n, count) && n <= k && k !in after
    ensures OnlyAdded(before, after[k := row], n, count + 1)
  {
    assert after[k := row].Keys == after.Keys + {k};
  }

  ghost predicate AllWritten(tx: Db, n: Id, at: P.Place, batch: Id, contacts: seq<Contact>) {
    forall i | 0 <= i < |contacts| :: Written(tx, n, at, batch, contacts, i)
  }

  lemma NextWritten(tx: Db, tx': Db, n: Id, at: P.Place, batch: Id, contacts: seq<Contact>, k: nat)
    requires |contacts| == k + 1 && AllWritten(tx, n, at, batch, contacts[..k]) && tx.nextId == n + 2 * k
    requires tx'.participants == tx.participants[tx.nextId := RowOf(at, contacts[k])]
    requires tx'.items == tx.items[tx.nextId + 1 := ItemOf(at, batch, contacts[k], tx.nextId)]
    ensures AllWritten(tx', n, at, batch, contacts)
  {
    forall i | 0 <= i < |contacts| ensures Written(tx', n, at, batch, contacts, i) {
      if i < k { assert Written(tx, n, at, batch, contacts[..k], i); }
    }
  }

  lemma {:induction false} RowsWritten(begun: Db, at: P.Place, batch: Id, contacts: seq<Contact>)
    requires IdsBelow(begun) && batch in begun.batches && ImportRows(begun, at, batch, contacts).Some?
    ensures var tx := ImportRows(begun, at, batch, contacts).value;
      && tx.nextId == begun.nextId + 2 * |contacts| && tx.batches == begun.batches
      && AllWritten(tx, begun.nextId, at, batch, contacts) && OnlyWritten(begun, tx, |contacts|)
      && KeysBelow(tx.participants, tx.nextId) && KeysBelow(tx.items, tx.nextId)
  {
    if contacts != [] {
      var k := |contacts| - 1;
      RowsWritten(begun, at, batch, contacts[..k]);
      var tx := ImportRows(begun, at, batch, contacts[..k]).value;
      RowWritten(tx, at, batch, contacts[k]);
      NextWritten(tx, ImportRow(tx, at, batch, contacts[k]).value, begun.nextId, at, batch, contacts, k);
      OneAdded(begun.participants, tx.participants, begun.nextId, k, tx.nextId, RowOf(at, contacts[k]));
      OneAdded(begun.items, tx.items, begun.nextId, k, tx.nextId + 1, ItemOf(at, batch, contacts[k], tx.nextId));
    }
  }

  /** The tables an import does not write. */
  ghost predicate Untouched(db: Db, db': Db) {
    db'.sessions == db.sessions && db'.legs == db.legs && db'.attendance == db.attendance && db'.requests == db.requests
  }

  /** The room's copy is the imported host's contact where one is imported, and everything else about the rooms is
      as before. */
  ghost predicate HostCopied(before: map<Id, Room>, after: map<Id, Room>, room: Id, contacts: seq<Contact>)
    requires room in before
  {
    && (Hosts(contacts) == 0 ==> after == before)
    && (forall i | 0 <= i < |contacts| && RoleOf(contacts[i].role) == Host ::
          after == before[room := before[room].(hostName := Text.Trim(contacts[i].name), hostPhone := Text.Trim(contacts[i].phone))])
  }

  lemma RowAside(db: Db, at: P.Place, batch: Id, contact: Contact)
    requires batch in db.batches && RoomIn(db, at.workspace, at.room) && ImportRow(db, at, batch, contact).Some?
    ensures var db' := ImportRow(db, at, batch, contact).value; Untouched(db, db') && db'.rooms == CopiedRooms(db, at, RowOf(at, contact))
  {
    var row := RowOf(at, contact);
    CopyAside(db, at, row.name, row.phone);
    var db1 := if row.role == Host then SetHostCopy(db, at.workspace, at.room, row.name, row.phone) else db;
    PersonAndItem(db1, at, batch, row);
  }

  lemma {:induction false} NoHosts(contacts: seq<Contact>, i: nat)
    requires i < |contacts| && RoleOf(contacts[i].role) == Host
    ensures 1 <= Hosts(contacts)
  {
    if i < |contacts| - 1 { NoHosts(contacts[..|contacts| - 1], i); }
  }

  lemma HostCopiedToo(before: map<Id, Room>, tx: Db, at: P.Place, contacts: seq<Contact>, k: nat)
    requires |contacts| == k + 1 && Hosts(contacts) <= 1 && at.room in before && at.room in tx.rooms
    requires HostCopied(before, tx.rooms, at.room, contacts[..k])
    ensures HostCopied(before, CopiedRooms(tx, at, RowOf(at, contacts[k])), at.room, contacts)
  {
    var after := CopiedRooms(tx, at, RowOf(at, contacts[k]));
    forall i | 0 <= i < |contacts| && RoleOf(contacts[i].role) == Host
      ensures after == before[at.room := before[at.room].(hostName := Text.Trim(contacts[i].name), hostPhone := Text.Trim(contacts[i].phone))]
    {
      if i < k { NoHosts(contacts[..k], i); assert contacts[..k][i] == contacts[i]; }
    }
  }

  lemma {:induction false} RowsAside(begun: Db, at: P.Place, batch: Id, contacts: seq<Contact>)
    requires IdsBelow(begun) && batch in begun.batches && RoomIn(begun, at.workspace, at.room)
    requires ImportRows(begun, at, batch, contacts).Some? && Hosts(contacts) <= 1
    ensures var tx := ImportRows(begun, at, batch, contacts).value;
      Untouched(begun, tx) && RoomIn(tx, at.workspace, at.room) && HostCopied(begun.rooms, tx.rooms, at.room, contacts)
  {
    if contacts != [] {
      var k := |contacts| - 1;
      RowsAside(begun, at, batch, contacts[..k]);
      RowsWritten(begun, at, batch, contacts[..k]);
      var tx := ImportRows(begun, at, batch, contacts[..k]).value;
      RowAside(tx, at, batch, contacts[k]);
      HostCopiedToo(begun.rooms, tx, at, contacts, k);
    }
  }

  /** A committed import adds exactly one batch, and for every contact one participant, with the trimmed contact and
      its role, and one batch row of it, in the contacts' order; an imported host is copied to the room. All other
      rooms, participants, batches and batch rows, and all other tables, are as before. */
  lemma ImportContents(db: Db, at: P.Place, contacts: seq<Contact>)
    requires IdsBelow(db) && Import(db, at, contacts).0 == 201
    ensures at.room in db.rooms
    ensures var db', n := Import(db, at, contacts).1, db.nextId + 1;
      && AllWritten(db', n, at, db.nextId, contacts)
      && OnlyAdded(db.participants, db'.participants, n, |contacts|) && OnlyAdded(db.items, db'.items, n, |contacts|)
      && db'.batches == db.batches[db.nextId := Batch(at.workspace, at.room)]
      && HostCopied(db.rooms, db'.rooms, at.room, contacts) && Untouched(db, db')
  {
    Committed(db, at, contacts);
    BatchAside(db, at);
    RowsWritten(InsertBatch(db, at.workspace, at.room), at, db.nextId, contacts);
    RowsAside(InsertBatch(db, at.workspace, at.room), at, db.nextId, contacts);
  }

  /** The handler answers 201 only when it committed all rows. */
  lemma Committed(db: Db, at: P.Place, contacts: seq<Contact>)
    requires Import(db, at, contacts).0 == 201
    ensures RoomIn(db, at.workspace, at.room) && Hosts(contacts) <= 1
    ensures ImportRows(InsertBatch(db, at.workspace, at.room), at, db.nextId, contacts).Some?
    ensures Import(db, at, contacts).1 == ImportRows(InsertBatch(db, at.workspace, at.room), at, db.nextId, contacts).value
  {
    assert ImportRefusal(db, at, contacts).None?;
  }

  lemma BatchAside(db: Db, at: P.Place)
    requires IdsBelow(db) && at.room in db.rooms
    ensures var begun := InsertBatch(db, at.workspace, at.room);
      && IdsBelow(begun) && begun.batches == db.batches[db.nextId := Batch(at.workspace, at.room)] && begun.nextId == db.nextId + 1
      && begun.participants == db.participants && begun.items == db.items && begun.rooms == db.rooms && Untouched(db, begun)
  {
  }

  // ---- Batch rows follow their listener ----

  /** A batch row of a listener has the listener's name and number. */
  ghost predicate Follows(participants: map<Id, Participant>, items: map<Id, Item>) {
    forall i | i in items && items[i].participant.Some? && items[i].participant.value in participants
      :: Matches(participants[items[i].participant.value], items[i])
  }

  predicate Matches(p: Participant, item: Item) { p.role == Listener ==> item.name == p.name && item.phone == p.phone }

  /** Every batch row points at an issued participant. */
  lemma ItemsPointBack(db: Db)
    requires Sound(db)
    ensures forall i | i in db.items && db.items[i].participant.Some? :: db.items[i].participant.value in db.participants
  {
    forall i | i in db.items && db.items[i].participant.Some? ensures db.items[i].participant.value in db.participants {
      assert db.items[i].participant.value in Homes(db.participants);
    }
  }

  /** One participant row written, nobody's batch rows: a new row, the host's, or one with the same contact. */
  lemma PersonWritten(db: Db, p: Id, row: Participant)
    requires Sound(db) && Follows(db.participants, db.items)
    requires p in db.participants ==> row.role == Host || (row.name == db.participants[p].name && row.phone == db.participants[p].phone && row.role == db.participants[p].role)
    ensures Follows(db.participants[p := row], db.items)
  {
    ItemsPointBack(db);
  }

  lemma CascadeFollows(db: Db, rooms: set<Id>, participants: set<Id>)
    requires Follows(db.participants, db.items)
    ensures var db' := Cascade(db, rooms, participants); Follows(db'.participants, db'.items)
  {
  }

  lemma EditFollows(db: Db, workspace: Id, p: Id, name: string, phone: string)
    requires Sound(db) && Follows(db.participants, db.items)
    ensures var db' := Edit(db, workspace, p, name, phone).1; Follows(db'.participants, db'.items)
  {
    if Edit(db, workspace, p, name, phone).0 == 200 {
      ItemsOfMine(db, workspace, p);
      var n, f := Text.Trim(name), Text.Trim(phone);
      var row := db.participants[p].(name := n, phone := f);
      var db1 := SetContact(db, workspace, p, n, f);
      assert db1 == db.(participants := db.participants[p := row]);
      Rewrites(db.participants, db.items, workspace, p, row);
    }
  }

  lemma ItemsOfMine(db: Db, workspace: Id, p: Id)
    requires Sound(db) && p in db.participants && db.participants[p].workspace == workspace
    ensures forall i | i in db.items && db.items[i].participant == Some(p) :: db.items[i].workspace == workspace
  {
    forall i | i in db.items && db.items[i].participant == Some(p) ensures db.items[i].workspace == workspace {
      var b := db.batches[db.items[i].batch];
      assert Homes(db.participants)[p] == b.room && b.room in Tenants(db.rooms);
    }
  }

  lemma Rewrites(participants: map<Id, Participant>, items: map<Id, Item>, workspace: Id, p: Id, row: Participant)
    requires Follows(participants, items)
    requires forall i | i in items && items[i].participant == Some(p) :: items[i].workspace == workspace
    ensures Follows(participants[p := row],
                    map i | i in items :: if items[i].participant == Some(p) && items[i].workspace == workspace
                                          then items[i].(name := row.name, phone := row.phone) else items[i])
  {
  }

  lemma SaveHostFollows(db: Db, at: P.Place, host: Id, name: string, phone: string)
    requires Sound(db) && Follows(db.participants, db.items)
    ensures var db' := P.SaveHostTx(db, at, host, name, phone); Follows(db'.participants, db'.items)
  {
    if P.NotRunning(db, at) && !Text.Blank(name) && !Text.Blank(phone) {
      Copied(db, at, name, phone);
      var db1 := SetHostCopy(db, at.workspace, at.room, name, phone);
      if HasHost(db, at.room) {
        if P.IsHostOf(db, at.room, host) { HostRowFollows(db, at, host, name, phone); }
      } else {
        assert !HasHost(db1, at.room);
        PersonWritten(db, db.nextId, Participant(at.workspace, at.room, Host, name, phone, DesiredActive));
      }
    }
  }

  lemma HostRowFollows(db: Db, at: P.Place, host: Id, name: string, phone: string)
    requires Sound(db) && Follows(db.participants, db.items) && RoomIn(db, at.workspace, at.room) && P.IsHostOf(db, at.room, host)
    ensures var db' := SetDesired(SetContact(SetHostCopy(db, at.workspace, at.room, name, phone), at.workspace, host, name, phone),
                                  at.workspace, host, ANY_DESIRED, DesiredActive);
      Follows(db'.participants, db'.items)
  {
    var db1 := SetHostCopy(db, at.workspace, at.room, name, phone);
    if db1.participants[host].workspace == at.workspace {
      ContactSaved(db1, at.workspace, host, name, phone);
      PersonWritten(db, host, db.participants[host].(name := name, phone := phone, desired := DesiredActive));
    }
  }

  lemma ImportFollows(db: Db, at: P.Place, contacts: seq<Contact>)
    requires Sound(db) && Follows(db.participants, db.items)
    ensures var db' := Import(db, at, contacts).1; Follows(db'.participants, db'.items)
  {
    if Import(db, at, contacts).0 == 201 {
      BatchAside(db, at);
      ItemsPointBack(db);
      RowsFollow(InsertBatch(db, at.workspace, at.room), at, db.nextId, contacts);
    }
  }

  lemma {:induction false} RowsFollow(begun: Db, at: P.Place, batch: Id, contacts: seq<Contact>)
    requires IdsBelow(begun) && batch in begun.batches && ImportRows(begun, at, batch, contacts).Some?
    requires Follows(begun.participants, begun.items)
    requires forall i | i in begun.items && begun.items[i].participant.Some? :: begun.items[i].participant.value < begun.nextId
    ensures var tx := ImportRows(begun, at, batch, contacts).value;
      && Follows(tx.participants, tx.items)
      && (forall i | i in tx.items && tx.items[i].participant.Some? :: tx.items[i].participant.value < tx.nextId)
  {
    if contacts != [] {
      var k := |contacts| - 1;
      RowsFollow(begun, at, batch, contacts[..k]);
      RowsWritten(begun, at, batch, contacts[..k]);
      var tx := ImportRows(begun, at, batch, contacts[..k]).value;
      RowWritten(tx, at, batch, contacts[k]);
      RowFollows(tx.participants, tx.items, tx.nextId, RowOf(at, contacts[k]), ItemOf(at, batch, contacts[k], tx.nextId));
    }
  }

  lemma RowFollows(participants: map<Id, Participant>, items: map<Id, Item>, n: Id, row: Participant, item: Item)
    requires Follows(participants, items) && KeysBelow(items, n)
    requires forall i | i in items && items[i].participant.Some? :: items[i].participant.value < n
    requires item.participant == Some(n) && item.name == row.name && item.phone == row.phone
    ensures Follows(participants[n := row], items[n + 1 := item])
  {
  }

  lemma JoinFollows(db: Db, workspace: Id, room: Id, role: Role, name: string, phone: string)
    requires Sound(db) && Follows(db.participants, db.items)
    ensures var db' := InsertParticipant(db, workspace, room, role, name, phone); Follows(db'.participants, db'.items)
  {
    if AcceptsParticipant(db, room, role) {
      PersonWritten(db, db.nextId, Participant(workspace, room, role, name, phone, if role == Host then DesiredActive else DesiredMuted));
    }
  }

  lemma DesireFollows(db: Db, workspace: Id, p: Id, from: set<Desired>, to: Desired)
    requires Sound(db) && Follows(db.participants, db.items)
    ensures var db' := SetDesired(db, workspace, p, from, to); Follows(db'.participants, db'.items)
  {
    var db' := SetDesired(db, workspace, p, from, to);
    if db' != db { PersonWritten(db, p, db.participants[p].(desired := to)); }
  }

  lemma StartFollows(db: Db, at: P.Place, host: Id)
    requires Sound(db) && Follows(db.participants, db.items)
    ensures Follows(Start(db, at, host).participants, Start(db, at, host).items)
  {
    var s := P.State(db, map[]);
    P.StartShape(s, 0, at, host);
    if RoomIn(db, at.workspace, at.room) {
      var db1 := P.EnsureHost(db, at);
      if !HasHost(db, at.room) { JoinFollows(db, at.workspace, at.room, Host, db.rooms[at.room].hostName, db.rooms[at.room].hostPhone); }
      P.BegunKeeps(db1, at);
      BegunKeepsItems(db1, at);
    }
  }

  lemma BegunKeepsItems(db: Db, at: P.Place)
    ensures P.Begun(db, at).items == db.items
  {
    assert InsertSession(db, at.workspace, at.room).items == db.items;
  }

  lemma RemoveRoomFollows(db: Db, at: P.Place)
    requires Follows(db.participants, db.items)
    ensures Follows(P.RemoveRoomTx(db, at).participants, P.RemoveRoomTx(db, at).items)
  {
    var db1 := DeleteItemsOfRoom(db, at.room);
    assert Follows(db1.participants, db1.items);
    CascadeFollows(db1, {at.room}, {});
  }

  lemma ClearHostFollows(db: Db, at: P.Place)
    requires Follows(db.participants, db.items)
    ensures Follows(P.ClearHostTx(db, at).participants, P.ClearHostTx(db, at).items)
  {
    var db1 := SetHostCopy(db, at.workspace, at.room, "", "");
    assert db1.participants == db.participants && db1.items == db.items;
    CascadeFollows(db1, {}, set p | p in db1.participants && db1.participants[p].room == at.room
                                    && db1.participants[p].workspace == at.workspace && db1.participants[p].role == Host);
  }

  lemma AddFollows(db: Db, at: P.Place, contact: Contact)
    requires Sound(db) && Follows(db.participants, db.items)
    ensures Follows(Add(db, at, contact).1.participants, Add(db, at, contact).1.items)
  {
    JoinFollows(db, at.workspace, at.room, Listener, Text.Trim(contact.name), Text.Trim(contact.phone));
  }

  lemma DialFollows(db: Db, at: P.Place, name: string, phone: string)
    requires Sound(db) && Follows(db.participants, db.items)
    ensures Follows(LiveDial(db, at, name, phone).1.participants, LiveDial(db, at, name, phone).1.items)
  {
    JoinFollows(db, at.workspace, at.room, Listener, if Text.Blank(name) then phone else name, phone);
  }

  lemma RemoveFollows(db: Db, workspace: Id, p: Id)
    requires Follows(db.participants, db.items)
    ensures Follows(Remove(db, workspace, p).1.participants, Remove(db, workspace, p).1.items)
  {
    CascadeFollows(db, {}, {p});
  }

  lemma HandleFollows(db: Db, op: Op)
    requires Sound(db) && Follows(db.participants, db.items)
    ensures Follows(Handle(db, op).participants, Handle(db, op).items)
  {
    match op
    case SavingHost(at, host, name, phone) => SaveHostFollows(db, at, host, Text.Trim(name), Text.Trim(phone));
    case ClearingHost(at) => ClearHostFollows(db, at);
    case Adding(at, contact) => AddFollows(db, at, contact);
    case Importing(at, contacts) => ImportFollows(db, at, contacts);
    case Editing(workspace, p, name, phone) => EditFollows(db, workspace, p, name, phone);
    case Removing(workspace, p) => RemoveFollows(db, workspace, p);
    case RemovingRoom(at) => RemoveRoomFollows(db, at);
    case StartingRoom(at, host) => StartFollows(db, at, host);
    case Dialling(at, name, phone) => DialFollows(db, at, name, phone);
    case WritingDesired(workspace, p, from, to) => DesireFollows(db, workspace, p, from, to);
    case _ => ElsewhereFollows(db, op);
  }

  lemma ElsewhereFollows(db: Db, op: Op)
    requires Follows(db.participants, db.items) && (op.Creating? || op.Updating? || op.WritingState?)
    ensures Follows(Handle(db, op).participants, Handle(db, op).items)
  {
    assert Handle(db, op).participants == db.participants && Handle(db, op).items == db.items;
  }

  /** In every reachable state a listener's batch rows carry the listener's current name and number. */
  lemma {:induction false} ItemsFollowListeners(run: seq<Op>)
    ensures Follows(After(run).participants, After(run).items)
  {
    if run != [] {
      ItemsFollowListeners(run[..|run| - 1]);
      ReachableFits(run[..|run| - 1]);
      HandleFollows(After(run[..|run| - 1]), run[|run| - 1]);
    }
  }
}
