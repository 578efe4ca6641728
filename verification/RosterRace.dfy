/** Adds and live dials that count a room's roster and insert into it later, while other handlers run in between: a
    room can pass its limit, by as many as there are between count and insert, and by no more. */
module RosterRace {
  import opened Counting
  import opened Options
  import opened Tables
  import opened Isolation
  import opened Statements
  import opened Roster
  import opened RosterTenancy
  import opened RosterTheorems
  import RR = RosterRuns
  import P = RoomProtocol
  import Text

  /** An add or a dial that has passed its checks and is still to insert its listener. */
  datatype Adder = Adder(at: P.Place, name: string, phone: string)

  datatype State = State(db: Db, adders: map<Id, Adder>)

  datatype Action =
    | Count(t: Id, op: Op)   // an add or a dial up to its insert
    | Insert(t: Id)          // its insert
    | Whole(op: Op)          // any handler from its first statement to its last

  const INITIAL := State(EMPTY_DB, map[])

  /** What the handler is to insert, where its checks let it through. */
  function Passed(db: Db, op: Op): Option<Adder> {
    match op
    case Adding(at, contact) => if Add(db, at, contact).0 == 201 then Some(Adder(at, Text.Trim(contact.name), Text.Trim(contact.phone))) else None
    case Dialling(at, name, phone) =>
      if LiveDial(db, at, name, phone).0 == 202 then Some(Adder(at, if Text.Blank(name) then phone else name, phone)) else None
    case _ => None
  }

  /** The INSERT, which the foreign key refuses where the room is gone. */
  function Inserted(db: Db, adder: Adder): Db {
    InsertParticipant(db, adder.at.workspace, adder.at.room, Listener, adder.name, adder.phone)
  }

  function Step(s: State, a: Action): State {
    match a
    case Count(t, op) => if t !in s.adders && Passed(s.db, op).Some? then s.(adders := s.adders[t := Passed(s.db, op).value]) else s
    case Insert(t) => if t in s.adders then State(Inserted(s.db, s.adders[t]), s.adders - {t}) else s
    case Whole(op) => s.(db := Handle(s.db, op))
  }

  function After(run: seq<Action>): State {
    if run == [] then INITIAL else Step(After(run[..|run| - 1]), run[|run| - 1])
  }

  /** Count and insert with nothing in between are the whole handler. */
  lemma CountThenInsert(s: State, t: Id, op: Op)
    requires t !in s.adders && (op.Adding? || op.Dialling?)
    ensures Step(Step(s, Count(t, op)), Insert(t)) == if Passed(s.db, op).Some? then Step(s, Whole(op)) else s
  {
    if Passed(s.db, op).Some? { assert s.adders[t := Passed(s.db, op).value] - {t} == s.adders; }
  }

  // ---- How many are between count and insert ----

  function Pending(adders: map<Id, Adder>, room: Id): set<Id> { set t | t in adders && adders[t].at.room == room }

  /** At most so many in each room at every moment of the run. */
  ghost predicate AtMostPending(run: seq<Action>, most: Id -> nat) {
    forall i, r: Id | 0 <= i <= |run| :: |Pending(After(run[..i]).adders, r)| <= most(r)
  }

  /** How many over its limit a room can be: those that may still come between, less those that are there already. */
  function Over(adders: map<Id, Adder>, most: Id -> nat): Id -> nat {
    (r: Id) => if |Pending(adders, r)| <= most(r) then most(r) - |Pending(adders, r)| else 0
  }

  /** A room's id stands for no other workspace's room, now or later. */
  predicate AdderOk(db: Db, adder: Adder) {
    adder.at.room < db.nextId && (adder.at.room in db.rooms ==> db.rooms[adder.at.room].workspace == adder.at.workspace)
  }

  ghost predicate Good(s: State, most: Id -> nat) {
    && Sound(s.db) && RosterFits(s.db.rooms, s.db.participants, Over(s.adders, most))
    && (forall t | t in s.adders :: AdderOk(s.db, s.adders[t]))
    && (forall r: Id :: |Pending(s.adders, r)| <= most(r))
  }

  // ---- Every step keeps the bound ----

  lemma StillOk(db: Db, db': Db, adders: map<Id, Adder>)
    requires Stable(db, db') && forall t | t in adders :: AdderOk(db, adders[t])
    ensures forall t | t in adders :: AdderOk(db', adders[t])
  {
  }

  lemma PendingOneMore(adders: map<Id, Adder>, t: Id, adder: Adder, r: Id)
    requires t !in adders
    ensures |Pending(adders[t := adder], r)| == |Pending(adders, r)| + (if adder.at.room == r then 1 else 0)
  {
    if adder.at.room == r {
      assert Pending(adders[t := adder], r) == Pending(adders, r) + {t};
    } else {
      assert Pending(adders[t := adder], r) == Pending(adders, r);
    }
  }

  lemma PendingOneLess(adders: map<Id, Adder>, t: Id, r: Id)
    requires t in adders
    ensures |Pending(adders - {t}, r)| == |Pending(adders, r)| - (if adders[t].at.room == r then 1 else 0)
  {
    assert (adders - {t})[t := adders[t]] == adders;
    PendingOneMore(adders - {t}, t, adders[t], r);
  }

  lemma PassedCounts(db: Db, op: Op)
    requires Passed(db, op).Some?
    ensures var at := Passed(db, op).value.at;
      RoomIn(db, at.workspace, at.room) && P.CountIn(db, at.room) < db.rooms[at.room].limit
  {
  }

  lemma CountGood(s: State, t: Id, op: Op, most: Id -> nat)
    requires Good(s, most) && t !in s.adders && Passed(s.db, op).Some?
    requires forall r: Id :: |Pending(Step(s, Count(t, op)).adders, r)| <= most(r)
    ensures Good(Step(s, Count(t, op)), most)
  {
    PassedCounts(s.db, op);
    CountedGood(s, t, Passed(s.db, op).value, most);
  }

  lemma CountedGood(s: State, t: Id, adder: Adder, most: Id -> nat)
    requires Good(s, most) && t !in s.adders && RoomIn(s.db, adder.at.workspace, adder.at.room)
    requires P.CountIn(s.db, adder.at.room) < s.db.rooms[adder.at.room].limit
    requires forall r: Id :: |Pending(s.adders[t := adder], r)| <= most(r)
    ensures Good(s.(adders := s.adders[t := adder]), most)
  {
    var s' := s.(adders := s.adders[t := adder]);
    assert AdderOk(s.db, adder);
    forall r | r in s.db.rooms ensures RoomFits(s.db.rooms[r], People(s.db.participants, r), Over(s'.adders, most)(r)) {
      CountedFits(s, t, adder, most, r);
    }
  }

  lemma CountedFits(s: State, t: Id, adder: Adder, most: Id -> nat, r: Id)
    requires t !in s.adders && r in s.db.rooms && RoomFits(s.db.rooms[r], People(s.db.participants, r), Over(s.adders, most)(r))
    requires adder.at.room == r ==> P.CountIn(s.db, r) < s.db.rooms[r].limit
    requires |Pending(s.adders[t := adder], r)| <= most(r)
    ensures RoomFits(s.db.rooms[r], People(s.db.participants, r), Over(s.adders[t := adder], most)(r))
  {
    PendingOneMore(s.adders, t, adder, r);
    if r == adder.at.room {
      CountPeople(s.db, r);
      ListenersWithin(People(s.db.participants, r));
    }
  }

  lemma InsertedPeople(db: Db, adder: Adder, r: Id)
    requires Sound(db) && r in db.rooms
    ensures var db' := Inserted(db, adder);
      && db'.rooms == db.rooms
      && (r != adder.at.room ==> People(db'.participants, r) == People(db.participants, r))
      && (r == adder.at.room ==>
            var row := Participant(adder.at.workspace, r, Listener, adder.name, adder.phone, DesiredMuted);
            db.nextId !in db.participants && People(db'.participants, r) == People(db.participants, r)[db.nextId := row])
  {
    var row := Participant(adder.at.workspace, adder.at.room, Listener, adder.name, adder.phone, DesiredMuted);
    Joined(db.participants, db.nextId, row, r);
    if adder.at.room in db.rooms { assert Inserted(db, adder).participants == db.participants[db.nextId := row]; }
  }

  lemma InsertGood(s: State, t: Id, most: Id -> nat)
    requires Good(s, most) && t in s.adders
    ensures Good(Step(s, Insert(t)), most)
  {
    var s', adder, db := Step(s, Insert(t)), s.adders[t], s.db;
    assert AdderOk(db, adder);
    InsertParticipantWithin(db, adder.at.workspace, adder.at.room, Listener, adder.name, adder.phone);
    StillOk(db, s'.db, s.adders);
    forall r: Id ensures |Pending(s'.adders, r)| <= most(r) { PendingOneLess(s.adders, t, r); }
    forall r | r in s'.db.rooms ensures RoomFits(s'.db.rooms[r], People(s'.db.participants, r), Over(s'.adders, most)(r)) {
      InsertedPeople(db, adder, r);
      assert RoomFits(db.rooms[r], People(db.participants, r), Over(s.adders, most)(r));
      LessOver(s.adders, t, most, r);
      if r == adder.at.room {
        OneMoreFits(db.rooms[r], People(db.participants, r), Over(s.adders, most)(r), db.nextId,
                    Participant(adder.at.workspace, r, Listener, adder.name, adder.phone, DesiredMuted));
      }
    }
  }

  lemma LessOver(adders: map<Id, Adder>, t: Id, most: Id -> nat, r: Id)
    requires t in adders && |Pending(adders, r)| <= most(r)
    ensures Over(adders - {t}, most)(r) == Over(adders, most)(r) + (if adders[t].at.room == r then 1 else 0)
  {
    PendingOneLess(adders, t, r);
  }

  lemma OneMoreFits(room: Room, people: map<Id, Participant>, over: nat, id: Id, row: Participant)
    requires RoomFits(room, people, over) && id !in people && row.role == Listener
    ensures RoomFits(room, people[id := row], over + 1)
  {
    JoinedListeners(people, id, row);
    ListenerKeepsCopy(room, people, id, row);
  }

  lemma WholeGood(s: State, op: Op, most: Id -> nat)
    requires Good(s, most)
    ensures Good(Step(s, Whole(op)), most)
  {
    HandleWithin(s.db, op);
    RR.HandleFits(s.db, op, Over(s.adders, most));
    StillOk(s.db, Handle(s.db, op), s.adders);
  }

  lemma {:induction false} ReachableGood(run: seq<Action>, most: Id -> nat)
    requires AtMostPending(run, most)
    ensures Good(After(run), most)
  {
    assert run[..|run|] == run;
    if run != [] {
      var n := |run| - 1;
      forall i, r: Id | 0 <= i <= n ensures |Pending(After(run[..n][..i]).adders, r)| <= most(r) { assert run[..n][..i] == run[..i]; }
      ReachableGood(run[..n], most);
      var s := After(run[..n]);
      match run[n]
      case Count(t, op) => if t !in s.adders && Passed(s.db, op).Some? { CountGood(s, t, op, most); }
      case Insert(t) => if t in s.adders { InsertGood(s, t, most); }
      case Whole(op) => WholeGood(s, op, most);
    }
  }

  /** With at most so many adds and dials of a room between count and insert its listeners are at most so many over
      its limit, and its copy of the host is right all the same. */
  lemma RosterBounded(run: seq<Action>, most: Id -> nat, r: Id)
    requires AtMostPending(run, most) && r in After(run).db.rooms
    ensures RR.CopiesAndBound(After(run).db, r, most(r))
    ensures Listeners(After(run).db, r) + |Pending(After(run).adders, r)| <= After(run).db.rooms[r].limit + most(r)
  {
    var s := After(run);
    ReachableGood(run, most);
    assert RoomFits(s.db.rooms[r], People(s.db.participants, r), Over(s.adders, most)(r));
    RR.FitsMeans(s.db, r, most(r));
  }

  // ---- The bound is reached ----

  function Follow(s: State, actions: seq<Action>): State
    decreases |actions|
  {
    if actions == [] then s else Follow(Step(s, actions[0]), actions[1..])
  }

  lemma {:induction false} AfterMore(run: seq<Action>, more: seq<Action>)
    ensures After(run + more) == Follow(After(run), more)
    decreases |more|
  {
    if more == [] {
      assert run + more == run;
    } else {
      assert (run + [more[0]])[..|run|] == run;
      assert run + [more[0]] + more[1..] == run + more;
      AfterMore(run + [more[0]], more[1..]);
    }
  }

  /** At every moment of the continuation at most k adders of the room are between count and insert. */
  predicate FewPending(s: State, actions: seq<Action>, k: nat, r: Id)
    decreases |actions|
  {
    |Pending(s.adders, r)| <= k && (actions != [] ==> FewPending(Step(s, actions[0]), actions[1..], k, r))
  }

  lemma {:induction false} ThenOne(s: State, actions: seq<Action>, a: Action, k: nat, r: Id)
    requires FewPending(s, actions, k, r) && |Pending(Step(Follow(s, actions), a).adders, r)| <= k
    ensures FewPending(s, actions + [a], k, r) && Follow(s, actions + [a]) == Step(Follow(s, actions), a)
    decreases |actions|
  {
    if actions == [] {
      assert actions + [a] == [a] && [a][1..] == [];
    } else {
      assert (actions + [a])[1..] == actions[1..] + [a];
      ThenOne(Step(s, actions[0]), actions[1..], a, k, r);
    }
  }

  const GUEST := Contact("l", "+2", "")

  /** A room at rest with one place left. */
  predicate OneLeft(db: Db, at: P.Place) {
    RoomIn(db, at.workspace, at.room) && !Busy(db, at.room) && P.CountIn(db, at.room) == db.rooms[at.room].limit - 1
  }

  lemma GuestPasses(db: Db, at: P.Place)
    requires OneLeft(db, at)
    ensures Passed(db, Adding(at, GUEST)).Some? && Passed(db, Adding(at, GUEST)).value.at == at
    ensures Handle(db, Adding(at, GUEST)) == Inserted(db, Passed(db, Adding(at, GUEST)).value)
  {
    assert !Text.IsSpace("l"[0]) && !Text.IsSpace("+2"[0]);
    assert Text.Trim("l") == "l" && Text.Trim("+2") == "+2" && RoleOf("") == Listener;
  }

  /** One listener more, and the room's row as before. */
  predicate Grew(db: Db, db': Db, r: Id, n: nat) {
    && r in db.rooms && r in db'.rooms && db'.rooms[r] == db.rooms[r]
    && P.CountIn(db', r) == P.CountIn(db, r) + n
    && |ListenersIn(People(db'.participants, r))| == |ListenersIn(People(db.participants, r))| + n
  }

  lemma InsertedGrows(db: Db, adder: Adder)
    requires Sound(db) && RoomIn(db, adder.at.workspace, adder.at.room)
    ensures Grew(db, Inserted(db, adder), adder.at.room, 1) && Sound(Inserted(db, adder))
  {
    var r := adder.at.room;
    var row := Participant(adder.at.workspace, r, Listener, adder.name, adder.phone, DesiredMuted);
    InsertParticipantWithin(db, adder.at.workspace, r, Listener, adder.name, adder.phone);
    InsertedPeople(db, adder, r);
    CountPeople(db, r);
    CountPeople(Inserted(db, adder), r);
    JoinedListeners(People(db.participants, r), db.nextId, row);
  }

  lemma GrewOn(db: Db, db1: Db, db2: Db, r: Id, n: nat, m: nat)
    requires Grew(db, db1, r, n) && Grew(db1, db2, r, m)
    ensures Grew(db, db2, r, n + m)
  {
  }

  /** The continuation fills the room with n people more, with at most so many adders of it under way at any time. */
  ghost predicate Fills(s: State, more: seq<Action>, at: P.Place, n: nat, k: nat) {
    && Follow(s, more).adders == s.adders && Sound(Follow(s, more).db) && RoomIn(Follow(s, more).db, at.workspace, at.room)
    && Grew(s.db, Follow(s, more).db, at.room, n) && FewPending(s, more, k, at.room)
  }

  /** An adder that counted before the others inserts after them. */
  lemma Around(s: State, s1: State, at: P.Place, a: Action, t: Id, adder: Adder, rest: seq<Action>, n: nat, k: nat) returns (more: seq<Action>)
    requires t !in s.adders && adder.at == at && s1 == s.(adders := s.adders[t := adder]) && Step(s, a) == s1
    requires Fills(s1, rest, at, n, k) && |Pending(s.adders, at.room)| <= k
    ensures Fills(s, more, at, n + 1, k)
  {
    var s2 := Follow(s1, rest);
    assert s2.adders[t] == adder && s2.adders - {t} == s.adders;
    InsertedGrows(s2.db, adder);
    GrewOn(s.db, s2.db, Inserted(s2.db, adder), at.room, n, 1);
    assert Step(s2, Insert(t)) == State(Inserted(s2.db, adder), s.adders);
    ThenOne(s1, rest, Insert(t), k, at.room);
    more := [a] + (rest + [Insert(t)]);
    assert more[1..] == rest + [Insert(t)];
  }

  lemma LastPlace(s: State, at: P.Place) returns (more: seq<Action>)
    requires Sound(s.db) && OneLeft(s.db, at)
    ensures Fills(s, more, at, 1, |Pending(s.adders, at.room)|)
  {
    GuestPasses(s.db, at);
    InsertedGrows(s.db, Passed(s.db, Adding(at, GUEST)).value);
    more := [Whole(Adding(at, GUEST))];
    assert more[1..] == [];
  }

  lemma Counts(s: State, at: P.Place) returns (t: Id, adder: Adder)
    requires OneLeft(s.db, at)
    ensures t !in s.adders && adder.at == at && Step(s, Count(t, Adding(at, GUEST))) == s.(adders := s.adders[t := adder])
    ensures |Pending(s.adders[t := adder], at.room)| == |Pending(s.adders, at.room)| + 1
  {
    t := Unused(s.adders.Keys);
    GuestPasses(s.db, at);
    adder := Passed(s.db, Adding(at, GUEST)).value;
    PendingOneMore(s.adders, t, adder, at.room);
  }

  /** n adders count before the last place is taken, and insert after it was. */
  lemma {:induction false} Overfill(s: State, at: P.Place, n: nat, k: nat) returns (more: seq<Action>)
    requires Sound(s.db) && OneLeft(s.db, at) && k == |Pending(s.adders, at.room)| + n
    ensures Fills(s, more, at, n + 1, k)
    decreases n, 1
  {
    if n == 0 {
      more := LastPlace(s, at);
    } else {
      more := OneMoreAdder(s, at, n, k);
    }
  }

  lemma {:induction false} OneMoreAdder(s: State, at: P.Place, n: nat, k: nat) returns (more: seq<Action>)
    requires Sound(s.db) && OneLeft(s.db, at) && k == |Pending(s.adders, at.room)| + n && n > 0
    ensures Fills(s, more, at, n + 1, k)
    decreases n, 0
  {
    var t, adder := Counts(s, at);
    var s1 := State(s.db, s.adders[t := adder]);
    var rest := Overfill(s1, at, n - 1, k);
    more := Around(s, s1, at, Count(t, Adding(at, GUEST)), t, adder, rest, n, k);
  }

  lemma ReachableSound(run: seq<Action>, most: Id -> nat)
    requires AtMostPending(run, most)
    ensures Sound(After(run).db)
  {
    ReachableGood(run, most);
  }

  function Listeners(db: Db, r: Id): nat { |ListenersIn(People(db.participants, r))| }

  lemma AllListeners(db: Db, r: Id)
    requires !HasHost(db, r)
    ensures Listeners(db, r) == P.CountIn(db, r)
  {
    CountPeople(db, r);
    forall p | p in db.participants && db.participants[p].room == r ensures db.participants[p].role == Listener { }
    assert ListenersIn(People(db.participants, r)) == People(db.participants, r).Keys;
  }

  /** From every reachable state in which a room at rest without a host has one place left and nobody is adding to
      it, it can come, with at most k adders between count and insert all along, to k listeners more than its limit. */
  lemma RosterBoundIsReached(run: seq<Action>, most: Id -> nat, at: P.Place, k: nat) returns (more: seq<Action>)
    requires AtMostPending(run, most) && OneLeft(After(run).db, at) && Pending(After(run).adders, at.room) == {}
    requires !HasHost(After(run).db, at.room)
    ensures FewPending(After(run), more, k, at.room) && at.room in After(run + more).db.rooms
    ensures Listeners(After(run + more).db, at.room) == After(run + more).db.rooms[at.room].limit + k
  {
    ReachableSound(run, most);
    more := FilledBeyond(After(run), at, k);
    AfterMore(run, more);
  }

  lemma FilledBeyond(s: State, at: P.Place, k: nat) returns (more: seq<Action>)
    requires Sound(s.db) && OneLeft(s.db, at) && Pending(s.adders, at.room) == {} && !HasHost(s.db, at.room)
    ensures FewPending(s, more, k, at.room) && at.room in Follow(s, more).db.rooms
    ensures Listeners(Follow(s, more).db, at.room) == Follow(s, more).db.rooms[at.room].limit + k
  {
    AllListeners(s.db, at.room);
    more := Overfill(s, at, k, k);
  }

  /** A room for one, two listeners: an add that counted first inserts after another. */
  lemma TwoAddsPassTheLimit() returns (run: seq<Action>)
    ensures 0 in After(run).db.rooms && After(run).db.rooms[0].limit == 1 && Listeners(After(run).db, 0) == 2 && After(run).adders == map[]
  {
    var create, at := Whole(Creating(7, 1)), P.Place(7, 0);
    var db := EMPTY_DB.(rooms := map[0 := Room(7, Ready, "", "", 1, false)], nextId := 1);
    assert [create][..0] == [] && After([create]) == State(db, map[]);
    CountPeople(db, 0);
    assert People(db.participants, 0).Keys == {};
    HandleWithin(EMPTY_DB, Creating(7, 1));
    var more := Overfill(State(db, map[]), at, 1, 1);
    AllListeners(db, 0);
    AfterMore([create], more);
    run := [create] + more;
  }
}
