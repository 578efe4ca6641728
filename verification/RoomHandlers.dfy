/** What the room handlers achieve when nothing comes in between: a start that is answered brings the room up
    and calls exactly its listeners, a stop ends the session and drops every live leg, and the end of the host's
    call ends the session. */
module RoomHandlers {
  import opened Options
  import opened Tables
  import opened Isolation
  import opened RoomProtocol
  import opened Continuations
  import opened RoomTenancy
  import opened Dispatches

  // ---- stopRoom ----

  function Drops(t: Id, order: seq<Id>): seq<Action> {
    if order == [] then [] else [Advance(t, true, order[0], 0)] + Drops(t, order[1..])
  }

  /** The rows of the named legs, dropped. */
  function Dropping(legs: map<Id, Leg>, gone: set<Id>): map<Id, Leg> {
    map l | l in legs :: if l in gone then legs[l].(state := Dropped) else legs[l]
  }

  /** A stopper that drops the legs it listed, in the order given. */
  lemma {:induction false} DropsAll(s: State, t: Id, at: Place, session: Id, todo: set<Id>, order: seq<Id>)
    requires t in s.threads && s.threads[t] == DroppingLegs(session, at, todo)
    requires todo == set l | l in order
    requires forall i, j | 0 <= i < j < |order| :: order[i] != order[j]
    requires forall l | l in todo :: l in s.db.legs && s.db.legs[l].workspace == at.workspace
    ensures Follow(s, Drops(t, order))
         == State(s.db.(legs := Dropping(s.db.legs, todo)), s.threads[t := DroppingLegs(session, at, {})])
    decreases |order|
  {
    if order == [] {
      assert todo == {} && Dropping(s.db.legs, todo) == s.db.legs && s.threads[t := DroppingLegs(session, at, {})] == s.threads;
    } else {
      var pick, rest := order[0], order[1..];
      var s1 := Step(s, Advance(t, true, pick, 0));
      DropsOne(s, t, at, session, todo, pick);
      RestOf(order);
      DropsAll(s1, t, at, session, todo - {pick}, rest);
      DroppedOne(s.db.legs, todo, pick);
      Overwritten(s.threads, t, DroppingLegs(session, at, todo - {pick}), DroppingLegs(session, at, {}));
      assert Drops(t, order)[0] == Advance(t, true, pick, 0) && Drops(t, order)[1..] == Drops(t, rest);
    }
  }

  lemma DroppedOne(legs: map<Id, Leg>, todo: set<Id>, pick: Id)
    requires pick in todo && pick in legs
    ensures Dropping(legs[pick := legs[pick].(state := Dropped)], todo - {pick}) == Dropping(legs, todo)
  {
  }

  lemma RestOf(order: seq<Id>)
    requires order != [] && forall i, j | 0 <= i < j < |order| :: order[i] != order[j]
    ensures (set l | l in order) - {order[0]} == set l | l in order[1..]
  {
    forall l | l in order && l != order[0] ensures l in order[1..] {
      var i :| 0 <= i < |order| && order[i] == l;
      assert order[1..][i - 1] == l;
    }
    forall l | l in order[1..] ensures l in order && l != order[0] {
      var i :| 0 <= i < |order| - 1 && order[1..][i] == l;
      assert order[i + 1] == l;
    }
  }

  lemma DropsOne(s: State, t: Id, at: Place, session: Id, todo: set<Id>, pick: Id)
    requires t in s.threads && s.threads[t] == DroppingLegs(session, at, todo) && pick in todo
    requires pick in s.db.legs && s.db.legs[pick].workspace == at.workspace
    ensures Step(s, Advance(t, true, pick, 0))
         == State(s.db.(legs := s.db.legs[pick := s.db.legs[pick].(state := Dropped)]), s.threads[t := DroppingLegs(session, at, todo - {pick})])
  {
    assert Step(s, Advance(t, true, pick, 0)) == StepStopper(s, t, true, pick);
  }

  /** The tables after a stop: the session ENDED, the room READY, the listed legs DROPPED. */
  function StoppedDb(db: Db, at: Place, session: Id): Db
    requires at.room in db.rooms && session in db.sessions
  {
    db.(legs := Dropping(db.legs, LiveLegsOf(db, at)),
        sessions := db.sessions[session := db.sessions[session].(status := SessionEnded)],
        rooms := db.rooms[at.room := db.rooms[at.room].(state := Ready)])
  }

  lemma Ends(s: State, t: Id, at: Place, session: Id)
    requires t in s.threads && s.threads[t] == DroppingLegs(session, at, {})
    requires RoomIn(s.db, at.workspace, at.room) && session in s.db.sessions && s.db.sessions[session].workspace == at.workspace
    ensures Follow(s, [Go(t), Go(t), Go(t)])
         == State(s.db.(sessions := s.db.sessions[session := s.db.sessions[session].(status := SessionEnded)],
                        rooms := s.db.rooms[at.room := s.db.rooms[at.room].(state := Ready)]), s.threads - {t})
  {
    var s1 := State(s.db, s.threads[t := EndingSession(session, at)]);
    assert Step(s, Go(t)) == StepStopper(s, t, true, 0) == s1;
    var ended := s.db.(sessions := s.db.sessions[session := s.db.sessions[session].(status := SessionEnded)]);
    var s2 := State(ended, s.threads[t := ResettingRoom(session, at, ANY_ROOM_STATE)]);
    EndsSession(s1, t, at, session);
    Overwritten(s.threads, t, EndingSession(session, at), ResettingRoom(session, at, ANY_ROOM_STATE));
    Resets(s2, t, at, session);
    assert s2.threads - {t} == s.threads - {t};
    FollowThree(s, Go(t), Go(t), Go(t));
  }

  lemma EndsSession(s: State, t: Id, at: Place, session: Id)
    requires t in s.threads && s.threads[t] == EndingSession(session, at)
    requires session in s.db.sessions && s.db.sessions[session].workspace == at.workspace
    ensures Step(s, Go(t))
         == State(s.db.(sessions := s.db.sessions[session := s.db.sessions[session].(status := SessionEnded)]),
                  s.threads[t := ResettingRoom(session, at, ANY_ROOM_STATE)])
  {
    AnyState(s.db.sessions[session].status, Ready);
    assert Step(s, Go(t)) == StepStopper(s, t, true, 0);
  }

  lemma Resets(s: State, t: Id, at: Place, session: Id)
    requires t in s.threads && s.threads[t] == ResettingRoom(session, at, ANY_ROOM_STATE) && RoomIn(s.db, at.workspace, at.room)
    ensures Step(s, Go(t)) == State(s.db.(rooms := s.db.rooms[at.room := s.db.rooms[at.room].(state := Ready)]), s.threads - {t})
  {
    AnyState(SessionEnded, s.db.rooms[at.room].state);
  }

  /** A stop that nothing interrupts, whose sidecars accept every drop: whatever the order of the drops, the
      session ends, the room is READY, and every leg that was live in the room is DROPPED; nothing else changes. */
  lemma StopAlone(s: State, t: Id, at: Place, session: Id, order: seq<Id>)
    requires Good(s) && t !in s.threads && IsActiveIn(s.db, at, session) && RoomIn(s.db, at.workspace, at.room)
    requires (set l | l in order) == LiveLegsOf(s.db, at) && forall i, j | 0 <= i < j < |order| :: order[i] != order[j]
    ensures Follow(s, [Stop(t, at, session), Go(t)] + Drops(t, order) + [Go(t), Go(t), Go(t)])
         == State(StoppedDb(s.db, at, session), s.threads)
  {
    var s2 := State(s.db, s.threads[t := DroppingLegs(session, at, LiveLegsOf(s.db, at))]);
    var begin, middle, finish := [Stop(t, at, session), Go(t)], Drops(t, order), [Go(t), Go(t), Go(t)];
    Lists(s, t, at, session);
    DropsAndEnds(s2, t, at, session, order);
    assert s2.threads - {t} == s.threads;
    assert begin + middle + finish == begin + (middle + finish);
    FollowOn(s, begin, middle + finish);
  }

  lemma DropsAndEnds(s: State, t: Id, at: Place, session: Id, order: seq<Id>)
    requires t in s.threads && s.threads[t] == DroppingLegs(session, at, LiveLegsOf(s.db, at))
    requires IsActiveIn(s.db, at, session) && RoomIn(s.db, at.workspace, at.room)
    requires (set l | l in order) == LiveLegsOf(s.db, at) && forall i, j | 0 <= i < j < |order| :: order[i] != order[j]
    ensures Follow(s, Drops(t, order) + [Go(t), Go(t), Go(t)]) == State(StoppedDb(s.db, at, session), s.threads - {t})
  {
    var s3 := State(s.db.(legs := Dropping(s.db.legs, LiveLegsOf(s.db, at))), s.threads[t := DroppingLegs(session, at, {})]);
    DropsAll(s, t, at, session, LiveLegsOf(s.db, at), order);
    Ends(s3, t, at, session);
    assert s3.threads - {t} == s.threads - {t};
    FollowOn(s, Drops(t, order), [Go(t), Go(t), Go(t)]);
  }

  lemma Lists(s: State, t: Id, at: Place, session: Id)
    requires t !in s.threads && IsActiveIn(s.db, at, session)
    ensures Follow(s, [Stop(t, at, session), Go(t)]) == State(s.db, s.threads[t := DroppingLegs(session, at, LiveLegsOf(s.db, at))])
  {
    var s1 := State(s.db, s.threads[t := ListingLegs(session, at)]);
    assert Step(s, Stop(t, at, session)) == s1;
    assert Step(s1, Go(t)) == StepStopper(s1, t, true, 0);
    assert s1.threads[t := DroppingLegs(session, at, LiveLegsOf(s.db, at))] == s.threads[t := DroppingLegs(session, at, LiveLegsOf(s.db, at))];
    FollowTwo(s, Stop(t, at, session), Go(t));
  }

  /** A stop that nothing interrupts, whose sidecars accept every drop, leaves every leg of the room ENDED, FAILED or
      DROPPED and every session of the room ENDED or FAILED, the room READY, and the rest of the tables as it was. */
  lemma StopLeavesNoLiveLeg(s: State, t: Id, at: Place, session: Id, order: seq<Id>)
    requires Good(s) && Step(s, Stop(t, at, session)) != s
    requires forall l :: l in order <==> l in s.db.legs && s.db.legs[l].room == at.room && s.db.legs[l].state !in {Ended, Failed, Dropped}
    requires forall i, j | 0 <= i < j < |order| :: order[i] != order[j]
    ensures var db, db' := s.db, Follow(s, [Stop(t, at, session), Go(t)] + Drops(t, order) + [Go(t), Go(t), Go(t)]).db;
      && db'.legs.Keys == db.legs.Keys && db'.sessions.Keys == db.sessions.Keys && session in db.sessions && at.room in db.rooms
      && (forall l | l in db.legs ::
            if l in order then db'.legs[l] == db.legs[l].(state := Dropped) else db'.legs[l] == db.legs[l])
      && (forall l | l in db'.legs && db'.legs[l].room == at.room :: db'.legs[l].state in {Ended, Failed, Dropped})
      && (forall x | x in db'.sessions && db'.sessions[x].room == at.room :: db'.sessions[x].status in {SessionEnded, SessionFailed})
      && db' == db.(legs := db'.legs, sessions := db.sessions[session := db.sessions[session].(status := SessionEnded)],
                    rooms := db.rooms[at.room := db.rooms[at.room].(state := Ready)])
  {
    StopGuard(s, t, at, session);
    SessionPlace(s.db, session);
    LegsOwned(s.db, at);
    StopAlone(s, t, at, session, order);
    ClosedAll(s.db, at, session);
  }

  /** A stop goes on exactly for a STARTING or RUNNING session of the room. */
  lemma StopGuard(s: State, t: Id, at: Place, session: Id)
    ensures Step(s, Stop(t, at, session)) != s <==>
      && t !in s.threads && session in s.db.sessions && s.db.sessions[session].room == at.room
      && s.db.sessions[session].workspace == at.workspace && s.db.sessions[session].status in {SessionStarting, SessionRunning}
  {
    if t !in s.threads { assert t in s.threads[t := ListingLegs(session, at)]; }
  }

  lemma LegsOwned(db: Db, at: Place)
    requires Sound(db) && RoomIn(db, at.workspace, at.room)
    ensures forall l | l in db.legs && db.legs[l].room == at.room :: db.legs[l].workspace == at.workspace
  {
    forall l | l in db.legs && db.legs[l].room == at.room ensures db.legs[l].workspace == at.workspace {
      assert Tenants(db.rooms)[at.room] == db.legs[l].workspace;
    }
  }

  lemma ClosedAll(db: Db, at: Place, session: Id)
    requires Sound(db) && RoomIn(db, at.workspace, at.room) && IsActiveIn(db, at, session)
    ensures var db' := StoppedDb(db, at, session);
      forall x | x in db'.sessions && db'.sessions[x].room == at.room :: db'.sessions[x].status in {SessionEnded, SessionFailed}
  {
  }

  // ---- events and finishHostSession ----

  /** The tables after the host's leg of an active session was reported terminal. */
  function HostGoneDb(db: Db, leg: Id, state: LegState, session: Id): Db
    requires session in db.sessions && db.sessions[session].room in db.rooms
  {
    var row := db.sessions[session];
    SetLegState(db, leg, state)
      .(sessions := db.sessions[session := row.(status := if row.status == SessionStarting then SessionFailed else SessionEnded)],
        rooms := db.rooms[row.room := db.rooms[row.room].(state := Ready)])
  }

  lemma SessionPlace(db: Db, session: Id)
    requires Sound(db) && session in db.sessions
    ensures RoomIn(db, db.sessions[session].workspace, db.sessions[session].room)
  {
    assert db.sessions[session].room in Tenants(db.rooms);
  }

  lemma LegWriteKeepsHost(db: Db, leg: Id, state: LegState, session: Id)
    ensures IsHostSessionOf(SetLegState(db, leg, state), leg, session) <==> IsHostSessionOf(db, leg, session)
    ensures SetLegState(db, leg, state).rooms == db.rooms && SetLegState(db, leg, state).sessions == db.sessions
  {
    var db' := SetLegState(db, leg, state);
    assert db'.attendance == db.attendance && db'.sessions == db.sessions && db'.participants == db.participants;
  }

  lemma Closes(s: State, t: Id, session: Id, at: Place, terminal: SessionStatus)
    requires t in s.threads && s.threads[t] == ClosingSession(session, at, terminal)
    requires RoomIn(s.db, at.workspace, at.room) && session in s.db.sessions && IsActive(s.db.sessions[session].status)
    ensures Follow(s, [Go(t), Go(t)])
         == State(s.db.(sessions := s.db.sessions[session := s.db.sessions[session].(status := terminal)],
                        rooms := s.db.rooms[at.room := s.db.rooms[at.room].(state := Ready)]), s.threads - {t})
  {
    var closed := s.db.(sessions := s.db.sessions[session := s.db.sessions[session].(status := terminal)]);
    var s1 := State(closed, s.threads[t := ResettingRoom(session, at, {Starting, Running})]);
    assert Step(s, Go(t)) == s1;
    assert s1.threads - {t} == s.threads - {t};
    FollowTwo(s, Go(t), Go(t));
    if s.db.rooms[at.room].state == Ready {
      assert s.db.rooms[at.room := s.db.rooms[at.room].(state := Ready)] == s.db.rooms;
    }
  }

  lemma HostEnds(s: State, t: Id, leg: Id, state: LegState, session: Id, at: Place, terminal: SessionStatus)
    requires t !in s.threads && IsTerminal(state) && IsHostSessionOf(s.db, leg, session)
    requires at == Place(s.db.sessions[session].workspace, s.db.sessions[session].room) && RoomIn(s.db, at.workspace, at.room)
    requires terminal == if s.db.sessions[session].status == SessionStarting then SessionFailed else SessionEnded
    ensures Follow(s, [Event(t, leg, state), Advance(t, true, session, 0), Go(t), Go(t)])
         == State(HostGoneDb(s.db, leg, state, session), s.threads)
  {
    var s2 := State(SetLegState(s.db, leg, state), s.threads[t := ClosingSession(session, at, terminal)]);
    LegWriteKeepsHost(s.db, leg, state, session);
    Reported(s, t, leg, state, session);
    Closes(s2, t, session, at, terminal);
    assert s2.threads - {t} == s.threads;
    Joined(s, t, leg, state, session);
  }

  /** A report that the host's leg has ended, handled without interruption: the session it attends is closed,
      FAILED if it was still STARTING and ENDED otherwise, and the room is READY. */
  lemma HostEndAlone(s: State, t: Id, leg: Id, state: LegState, session: Id)
    requires Good(s) && t !in s.threads && IsTerminal(state) && IsHostSessionOf(s.db, leg, session)
    requires s.db.sessions[session].room in s.db.rooms
    ensures Follow(s, [Event(t, leg, state), Advance(t, true, session, 0), Go(t), Go(t)])
         == State(HostGoneDb(s.db, leg, state, session), s.threads)
  {
    var row := s.db.sessions[session];
    SessionPlace(s.db, session);
    HostEnds(s, t, leg, state, session, Place(row.workspace, row.room), if row.status == SessionStarting then SessionFailed else SessionEnded);
  }

  lemma Joined(s: State, t: Id, leg: Id, state: LegState, session: Id)
    ensures Follow(s, [Event(t, leg, state), Advance(t, true, session, 0), Go(t), Go(t)])
         == Follow(Follow(s, [Event(t, leg, state), Advance(t, true, session, 0)]), [Go(t), Go(t)])
  {
    var first, last := [Event(t, leg, state), Advance(t, true, session, 0)], [Go(t), Go(t)];
    assert first + last == [Event(t, leg, state), Advance(t, true, session, 0), Go(t), Go(t)];
    FollowOn(s, first, last);
  }

  lemma Reported(s: State, t: Id, leg: Id, state: LegState, session: Id)
    requires t !in s.threads && IsTerminal(state) && IsHostSessionOf(s.db, leg, session)
    ensures var row, db := s.db.sessions[session], SetLegState(s.db, leg, state);
      Follow(s, [Event(t, leg, state), Advance(t, true, session, 0)])
      == State(db, s.threads[t := ClosingSession(session, Place(row.workspace, row.room),
                                                 if row.status == SessionStarting then SessionFailed else SessionEnded)])
  {
    var row, db := s.db.sessions[session], SetLegState(s.db, leg, state);
    LegWriteKeepsHost(s.db, leg, state, session);
    var s1 := State(db, s.threads[t := FindingHostSession(leg)]);
    assert Step(s, Event(t, leg, state)) == s1;
    assert Step(s1, Advance(t, true, session, 0)) == StepFindHost(s1, t, leg, session);
    var next := ClosingSession(session, Place(row.workspace, row.room), if row.status == SessionStarting then SessionFailed else SessionEnded);
    assert s1.threads[t := next] == s.threads[t := next];
    FollowTwo(s, Event(t, leg, state), Advance(t, true, session, 0));
  }

  // ---- startRoom and activateRoomAfterHost ----

  /** The tables once the host of session x is called on leg x + 1. */
  function CalledDb(db: Db, at: Place, host: Id, status: SessionStatus, state: RoomState, legState: LegState): Db
    requires at.room in db.rooms && host in db.participants
  {
    var x := db.nextId;
    db.(rooms := db.rooms[at.room := db.rooms[at.room].(state := state)],
        sessions := db.sessions[x := Session(at.workspace, at.room, status)],
        legs := db.legs[x + 1 := Leg(at.workspace, host, at.room, legState, false)],
        participants := db.participants[host := db.participants[host].(desired := DesiredActive)],
        attendance := db.attendance[x + 2 := Attendance(x, Some(host), Some(x + 1), Host)],
        nextId := x + 3)
  }

  /** The tables the start transaction leaves. */
  function StartedDb(db: Db, at: Place): Db
    requires at.room in db.rooms
  {
    db.(sessions := db.sessions[db.nextId := Session(at.workspace, at.room, SessionStarting)],
        rooms := db.rooms[at.room := db.rooms[at.room].(state := Starting)],
        nextId := db.nextId + 1)
  }

  /** The state after the start transaction: the host is about to be called. */
  function Taken(threads: map<Id, Thread>, t: Id, at: Place, host: Id, db: Db): State
    requires at.room in db.rooms
  {
    State(StartedDb(db, at), threads[t := Dispatching(at, host, HostCall(db.nextId), LookUp)])
  }

  /** The start transaction on tables that have their host. */
  lemma Starts(s: State, t: Id, at: Place, host: Id)
    requires t !in s.threads && StartAllowed(s.db, at) && !HasActive(s.db, at.room)
    requires IsHostOf(EnsureHost(s.db, at), at.room, host)
    requires at.room in EnsureHost(s.db, at).rooms
    ensures Follow(s, [Start(t, at, host)]) == Taken(s.threads, t, at, host, EnsureHost(s.db, at))
  {
    EnsureHostKeeps(s.db, at);
    var db := EnsureHost(s.db, at);
    assert !HasActive(db, at.room);
    AnyState(SessionStarting, db.rooms[at.room].state);
    assert Begun(db, at) == StartedDb(db, at);
    FollowOne(s, Start(t, at, host));
  }

  /** The activator from the poll that sees the host up to the fan-out. */
  lemma Activates(s: State, t: Id, at: Place, x: Id, leg: Id)
    requires t in s.threads && s.threads[t] == Polling(x, at, leg)
    requires leg in s.db.legs && IsUp(s.db.legs[leg].state)
    requires x in s.db.sessions && s.db.sessions[x].status == SessionStarting
    requires RoomIn(s.db, at.workspace, at.room) && s.db.rooms[at.room].state == Starting
    ensures Follow(s, [Go(t), Go(t)] + [Go(t), Go(t)])
         == State(s.db.(sessions := s.db.sessions[x := s.db.sessions[x].(status := SessionRunning)],
                        rooms := s.db.rooms[at.room := s.db.rooms[at.room].(state := Running)]),
                  s.threads[t := FanningOut(x, at, leg, ListenersOf(s.db, at))])
  {
    var db2 := s.db.(sessions := s.db.sessions[x := s.db.sessions[x].(status := SessionRunning)]);
    var s2 := State(db2, s.threads[t := MarkingRunning(x, at, leg)]);
    Promotes(s, t, at, x, leg);
    FansOut(s2, t, at, x, leg);
    assert ListenersOf(db2, at) == ListenersOf(s.db, at);
    Overwritten(s.threads, t, MarkingRunning(x, at, leg), FanningOut(x, at, leg, ListenersOf(s.db, at)));
    FollowOn(s, [Go(t), Go(t)], [Go(t), Go(t)]);
  }

  lemma Promotes(s: State, t: Id, at: Place, x: Id, leg: Id)
    requires t in s.threads && s.threads[t] == Polling(x, at, leg)
    requires leg in s.db.legs && IsUp(s.db.legs[leg].state)
    requires x in s.db.sessions && s.db.sessions[x].status == SessionStarting
    ensures Follow(s, [Go(t), Go(t)])
         == State(s.db.(sessions := s.db.sessions[x := s.db.sessions[x].(status := SessionRunning)]), s.threads[t := MarkingRunning(x, at, leg)])
  {
    var s1 := State(s.db, s.threads[t := Promoting(x, at, leg)]);
    assert Step(s, Go(t)) == StepActivator(s, t, true, 0, 0) == s1;
    assert Step(s1, Go(t)) == StepActivator(s1, t, true, 0, 0);
    Overwritten(s.threads, t, Promoting(x, at, leg), MarkingRunning(x, at, leg));
    FollowTwo(s, Go(t), Go(t));
  }

  lemma FansOut(s: State, t: Id, at: Place, x: Id, leg: Id)
    requires t in s.threads && s.threads[t] == MarkingRunning(x, at, leg)
    requires RoomIn(s.db, at.workspace, at.room) && s.db.rooms[at.room].state == Starting
    ensures Follow(s, [Go(t), Go(t)])
         == State(s.db.(rooms := s.db.rooms[at.room := s.db.rooms[at.room].(state := Running)]),
                  s.threads[t := FanningOut(x, at, leg, ListenersOf(s.db, at))])
  {
    var db1 := s.db.(rooms := s.db.rooms[at.room := s.db.rooms[at.room].(state := Running)]);
    var s1 := State(db1, s.threads[t := ListingListeners(x, at, leg)]);
    assert Step(s, Go(t)) == StepActivator(s, t, true, 0, 0) == s1;
    assert ListenersOf(db1, at) == ListenersOf(s.db, at);
    assert Step(s1, Go(t)) == StepActivator(s1, t, true, 0, 0);
    FollowTwo(s, Go(t), Go(t));
  }

  function Calling(t: Id): seq<Action> { Turns(t, 5) }

  /** The accepted dispatch of the host, up to the activator. */
  lemma Calls(threads: map<Id, Thread>, t: Id, at: Place, host: Id, db: Db)
    requires RoomIn(db, at.workspace, at.room) && db.rooms[at.room].tfn
    requires IsHostOf(db, at.room, host) && db.participants[host].workspace == at.workspace
    ensures Follow(Taken(threads, t, at, host, db), Calling(t))
         == State(CalledDb(db, at, host, SessionStarting, Starting, Dispatched), threads[t := Polling(db.nextId, at, db.nextId + 1)])
  {
    var s1 := Taken(threads, t, at, host, db);
    DispatchCalls(s1, t, at, host, HostCall(db.nextId));
    assert s1.threads[t := Polling(db.nextId, at, db.nextId + 1)] == threads[t := Polling(db.nextId, at, db.nextId + 1)];
  }

  function Answering(t: Id, u: Id, leg: Id, state: LegState): seq<Action> {
    [Event(u, leg, state)] + ([Go(t), Go(t)] + [Go(t), Go(t)])
  }

  /** The host answers, and the activator goes up to its fan-out. */
  lemma AnswerActivates(s: State, t: Id, u: Id, at: Place, host: Id, db: Db, state: LegState)
    requires RoomIn(db, at.workspace, at.room) && host in db.participants && IsUp(state)
    requires s.db == CalledDb(db, at, host, SessionStarting, Starting, Dispatched)
    requires t in s.threads && s.threads[t] == Polling(db.nextId, at, db.nextId + 1) && u !in s.threads
    ensures Follow(s, Answering(t, u, db.nextId + 1, state))
         == State(CalledDb(db, at, host, SessionRunning, Running, state),
                  s.threads[t := FanningOut(db.nextId, at, db.nextId + 1, ListenersOf(db, at))])
  {
    var x := db.nextId;
    var s1 := State(CalledDb(db, at, host, SessionStarting, Starting, state), s.threads);
    Answers(s, u, at, host, db, state);
    Activates(s1, t, at, x, x + 1);
    FollowOne(s, Event(u, x + 1, state));
    FollowOn(s, [Event(u, x + 1, state)], [Go(t), Go(t)] + [Go(t), Go(t)]);
    assert ListenersOf(s1.db, at) == ListenersOf(db, at);
    RunningDb(db, at, host, state);
  }

  lemma Answers(s: State, u: Id, at: Place, host: Id, db: Db, state: LegState)
    requires at.room in db.rooms && host in db.participants && IsUp(state) && u !in s.threads
    requires s.db == CalledDb(db, at, host, SessionStarting, Starting, Dispatched)
    ensures Step(s, Event(u, db.nextId + 1, state)) == State(CalledDb(db, at, host, SessionStarting, Starting, state), s.threads)
  {
    assert Step(s, Event(u, db.nextId + 1, state)).db.legs == CalledDb(db, at, host, SessionStarting, Starting, state).legs;
  }

  lemma RunningDb(db: Db, at: Place, host: Id, state: LegState)
    requires at.room in db.rooms && host in db.participants
    ensures var s, x := CalledDb(db, at, host, SessionStarting, Starting, state), db.nextId;
      s.(sessions := s.sessions[x := s.sessions[x].(status := SessionRunning)], rooms := s.rooms[at.room := s.rooms[at.room].(state := Running)])
      == CalledDb(db, at, host, SessionRunning, Running, state)
  {
  }

  lemma CallsAndActivates(threads: map<Id, Thread>, t: Id, u: Id, at: Place, host: Id, db: Db, state: LegState)
    requires RoomIn(db, at.workspace, at.room) && db.rooms[at.room].tfn
    requires IsHostOf(db, at.room, host) && db.participants[host].workspace == at.workspace
    requires u !in threads && t != u && IsUp(state)
    ensures Follow(Taken(threads, t, at, host, db), Calling(t) + Answering(t, u, db.nextId + 1, state))
         == State(CalledDb(db, at, host, SessionRunning, Running, state),
                  threads[t := FanningOut(db.nextId, at, db.nextId + 1, ListenersOf(db, at))])
  {
    var x := db.nextId;
    Calls(threads, t, at, host, db);
    var s1 := State(CalledDb(db, at, host, SessionStarting, Starting, Dispatched), threads[t := Polling(x, at, x + 1)]);
    AnswerActivates(s1, t, u, at, host, db, state);
    Overwritten(threads, t, Polling(x, at, x + 1), FanningOut(x, at, x + 1, ListenersOf(db, at)));
    Chain(Taken(threads, t, at, host, db), Calling(t), s1, Answering(t, u, x + 1, state),
          State(CalledDb(db, at, host, SessionRunning, Running, state), threads[t := FanningOut(x, at, x + 1, ListenersOf(db, at))]));
  }

  /** A start that nothing interrupts, whose host answers: the room and its new session are RUNNING, the host's
      leg is unmuted and up, and the activator is about to call exactly the room's listeners. */
  lemma StartAlone(s: State, t: Id, u: Id, at: Place, host: Id, state: LegState, db: Db)
    requires Good(s) && t !in s.threads && u !in s.threads && t != u && IsUp(state)
    requires StartAllowed(s.db, at) && !HasActive(s.db, at.room)
    requires db == EnsureHost(s.db, at) && at.room in db.rooms && IsHostOf(db, at.room, host)
    ensures Follow(s, [Start(t, at, host)] + (Calling(t) + Answering(t, u, db.nextId + 1, state)))
         == State(CalledDb(db, at, host, SessionRunning, Running, state),
                  s.threads[t := FanningOut(db.nextId, at, db.nextId + 1, ListenersOf(db, at))])
  {
    StartReady(s, at, host, db);
    Starts(s, t, at, host);
    CallsAndActivates(s.threads, t, u, at, host, db, state);
    FollowOn(s, [Start(t, at, host)], Calling(t) + Answering(t, u, db.nextId + 1, state));
  }

  lemma StartReady(s: State, at: Place, host: Id, db: Db)
    requires Good(s) && StartAllowed(s.db, at) && db == EnsureHost(s.db, at) && IsHostOf(db, at.room, host)
    ensures RoomIn(db, at.workspace, at.room) && db.rooms[at.room].tfn && db.participants[host].workspace == at.workspace
  {
    EnsureHostKeeps(s.db, at);
    StartWithin(s.db, at);
    HeldPersonWorkspace(db, at, host);
  }
}
