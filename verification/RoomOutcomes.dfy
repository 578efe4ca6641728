/** What a start, a report and the activator come to when nothing comes in between: everybody is called, or the session
    fails and the room is READY again. */
module RoomOutcomes {
  import opened Options
  import opened Tables
  import opened Isolation
  import opened RoomProtocol
  import opened RoomTenancy
  import opened Continuations
  import opened Dispatches
  import RH = RoomHandlers
  import Text

  // ---- startRoom ----

  /** The host's row: the room's, or the one the start is about to insert. */
  predicate HostRow(db: Db, at: Place, host: Id) {
    || (host in db.participants && db.participants[host].room == at.room && db.participants[host].role == Host)
    || (host == db.nextId && forall p | p in db.participants && db.participants[p].room == at.room :: db.participants[p].role != Host)
  }

  /** A start takes effect exactly for a READY room with a host, an ACTIVE number and a roster within the limit, that
      has no STARTING or RUNNING session. */
  lemma StartGuard(s: State, t: Id, at: Place, host: Id)
    requires IdsBelow(s.db)
    ensures Step(s, Start(t, at, host)) != s <==>
      && t !in s.threads && at.room in s.db.rooms && s.db.rooms[at.room].workspace == at.workspace
      && s.db.rooms[at.room].state == Ready && s.db.rooms[at.room].tfn
      && !Text.Blank(s.db.rooms[at.room].hostName) && !Text.Blank(s.db.rooms[at.room].hostPhone)
      && 0 < s.db.rooms[at.room].limit
      && |set p | p in s.db.participants && s.db.participants[p].room == at.room| <= s.db.rooms[at.room].limit
      && (forall x | x in s.db.sessions && s.db.sessions[x].room == at.room :: s.db.sessions[x].status in {SessionEnded, SessionFailed})
      && HostRow(s.db, at, host)
  {
    if t !in s.threads && StartAllowed(s.db, at) {
      Closed(s.db, at.room);
      Ensured(s.db, at, host);
      EnsureHostKeeps(s.db, at);
      assert t in s.threads[t := Dispatching(at, host, HostCall(EnsureHost(s.db, at).nextId), LookUp)];
    }
  }

  lemma Closed(db: Db, room: Id)
    ensures !HasActive(db, room) <==>
      forall x | x in db.sessions && db.sessions[x].room == room :: db.sessions[x].status in {SessionEnded, SessionFailed}
  {
    if HasActive(db, room) {
      var x :| x in db.sessions && db.sessions[x].room == room && IsActive(db.sessions[x].status);
    }
  }

  /** With the host's row, inserted from the room's copy where there is none. */
  function Hosted(db: Db, at: Place, host: Id): Db
    requires at.room in db.rooms
  {
    if host in db.participants then db
    else
      db.(participants := db.participants[host := Participant(at.workspace, at.room, Host, db.rooms[at.room].hostName,
                                                              db.rooms[at.room].hostPhone, DesiredActive)],
          nextId := host + 1)
  }

  lemma Ensured(db: Db, at: Place, host: Id)
    requires IdsBelow(db) && at.room in db.rooms
    ensures HostRow(db, at, host) <==> IsHostOf(EnsureHost(db, at), at.room, host)
    ensures HostRow(db, at, host) ==> EnsureHost(db, at) == Hosted(db, at, host)
  {
    if HasHost(db, at.room) {
      var p :| p in db.participants && db.participants[p].room == at.room && db.participants[p].role == Host;
      assert EnsureHost(db, at) == db;
    } else {
      assert db.nextId !in db.participants;
    }
  }

  /** The actions of a start whose host answers and whose calls are all accepted. */
  function Starting(t: Id, u: Id, at: Place, host: Id, leg: Id, state: LegState, order: seq<Id>): seq<Action> {
    [Start(t, at, host)] + (RH.Calling(t) + RH.Answering(t, u, leg, state)) + (CallEach(t, u, order) + [Go(t)])
  }

  /** A start that takes effect, whose host answers and whose calls are all accepted, with nothing in between: room and
      session are RUNNING, the host's leg is up, unmuted and attended, and every LISTENER of the room, in whatever
      order, and nobody else, has one DISPATCHED and muted leg that attends the session. */
  lemma StartCallsEveryone(s: State, t: Id, u: Id, at: Place, host: Id, db: Db, state: LegState, order: seq<Id>)
    requires Good(s) && Step(s, Start(t, at, host)) != s && u !in s.threads && t != u && state in {Answered, InBridge}
    requires at.room in s.db.rooms && db == Hosted(s.db, at, host)
    requires forall p :: p in order <==> p in s.db.participants && s.db.participants[p].room == at.room && s.db.participants[p].role == Listener
    requires forall i, j | 0 <= i < j < |order| :: order[i] != order[j]
    ensures at.room in db.rooms && host in db.participants
    ensures Follow(s, Starting(t, u, at, host, db.nextId + 1, state, order))
         == State(FannedOut(RH.CalledDb(db, at, host, SessionRunning, Running, state), at, db.nextId, order), s.threads)
  {
    StartTaken(s, t, at, host);
    CanBeCalled(s.db, at, host, order);
    Composes(s, t, u, at, host, db, state, order);
  }

  /** What a start that takes effect finds. */
  predicate CanStart(db: Db, at: Place, host: Id) {
    && StartAllowed(db, at) && RoomIn(db, at.workspace, at.room) && db.rooms[at.room].tfn && db.rooms[at.room].state == Ready
    && !HasActive(db, at.room) && HostRow(db, at, host)
  }

  lemma StartTaken(s: State, t: Id, at: Place, host: Id)
    requires IdsBelow(s.db) && Step(s, Start(t, at, host)) != s
    ensures t !in s.threads && CanStart(s.db, at, host)
    ensures EnsureHost(s.db, at) == Hosted(s.db, at, host) && IsHostOf(Hosted(s.db, at, host), at.room, host)
  {
    StartGuard(s, t, at, host);
    Closed(s.db, at.room);
    Ensured(s.db, at, host);
  }

  /** The host and the listeners, all of them to be called. */
  ghost predicate HostedCan(db: Db, at: Place, host: Id, order: seq<Id>) {
    && RoomIn(db, at.workspace, at.room) && db.rooms[at.room].tfn
    && host in db.participants && db.participants[host].role == Host
    && (forall p :: p in order <==> p in db.participants && db.participants[p].room == at.room && db.participants[p].role == Listener)
    && (forall p | p in order :: db.participants[p].workspace == at.workspace)
  }

  lemma CanBeCalled(db: Db, at: Place, host: Id, order: seq<Id>)
    requires Sound(db) && RoomIn(db, at.workspace, at.room) && db.rooms[at.room].tfn && HostRow(db, at, host)
    requires forall p :: p in order <==> p in db.participants && db.participants[p].room == at.room && db.participants[p].role == Listener
    ensures HostedCan(Hosted(db, at, host), at, host, order)
  {
    HostedKeeps(db, at, host);
    Rostered(db, at, order);
    ListedToo(db, Hosted(db, at, host), at, host, order);
  }

  lemma Composes(s: State, t: Id, u: Id, at: Place, host: Id, db: Db, state: LegState, order: seq<Id>)
    requires Good(s) && t !in s.threads && u !in s.threads && t != u && IsUp(state)
    requires StartAllowed(s.db, at) && !HasActive(s.db, at.room) && db == EnsureHost(s.db, at) && at.room in db.rooms
    requires IsHostOf(db, at.room, host) && HostedCan(db, at, host, order)
    requires forall i, j | 0 <= i < j < |order| :: order[i] != order[j]
    ensures Follow(s, Starting(t, u, at, host, db.nextId + 1, state, order))
         == State(FannedOut(RH.CalledDb(db, at, host, SessionRunning, Running, state), at, db.nextId, order), s.threads)
  {
    var called := RH.CalledDb(db, at, host, SessionRunning, Running, state);
    var s1 := State(called, s.threads[t := FanningOut(db.nextId, at, db.nextId + 1, ListenersOf(db, at))]);
    RH.StartAlone(s, t, u, at, host, state, db);
    CallsRoom(s.threads, t, u, at, host, db, state, order);
    Chain(s, [Start(t, at, host)] + (RH.Calling(t) + RH.Answering(t, u, db.nextId + 1, state)), s1, CallEach(t, u, order) + [Go(t)],
          State(FannedOut(called, at, db.nextId, order), s.threads));
  }

  lemma ListedToo(db: Db, db1: Db, at: Place, host: Id, order: seq<Id>)
    requires forall p | p in db.participants :: p in db1.participants && db1.participants[p] == db.participants[p]
    requires host in db1.participants && db1.participants[host].role == Host && forall p | p in db1.participants && p != host :: p in db.participants
    requires forall p :: p in order <==> p in db.participants && db.participants[p].room == at.room && db.participants[p].role == Listener
    ensures forall p :: p in order <==> p in db1.participants && db1.participants[p].room == at.room && db1.participants[p].role == Listener
  {
  }

  lemma HostedKeeps(db: Db, at: Place, host: Id)
    requires IdsBelow(db) && HostRow(db, at, host) && at.room in db.rooms
    ensures var db1 := Hosted(db, at, host);
      && db1.rooms == db.rooms && host in db1.participants && db1.participants[host].role == Host
      && (forall p | p in db.participants :: p in db1.participants && db1.participants[p] == db.participants[p])
      && (forall p | p in db1.participants && p != host :: p in db.participants)
  {
  }

  lemma Rostered(db: Db, at: Place, order: seq<Id>)
    requires Sound(db) && RoomIn(db, at.workspace, at.room)
    requires forall p :: p in order <==> p in db.participants && db.participants[p].room == at.room && db.participants[p].role == Listener
    ensures forall p | p in order :: db.participants[p].workspace == at.workspace
  {
    forall p | p in order ensures db.participants[p].workspace == at.workspace { HeldPersonWorkspace(db, at, p); }
  }

  /** The running session of a called host calls the listeners of its room, and they can be called. */
  lemma CallsRoom(threads: map<Id, Thread>, t: Id, u: Id, at: Place, host: Id, db: Db, state: LegState, order: seq<Id>)
    requires t !in threads && u !in threads && t != u && RoomIn(db, at.workspace, at.room) && db.rooms[at.room].tfn
    requires host in db.participants && db.participants[host].role == Host
    requires forall p :: p in order <==> p in db.participants && db.participants[p].room == at.room && db.participants[p].role == Listener
    requires forall p | p in order :: db.participants[p].workspace == at.workspace
    requires forall i, j | 0 <= i < j < |order| :: order[i] != order[j]
    ensures var called := RH.CalledDb(db, at, host, SessionRunning, Running, state);
      Follow(State(called, threads[t := FanningOut(db.nextId, at, db.nextId + 1, ListenersOf(db, at))]), CallEach(t, u, order) + [Go(t)])
      == State(FannedOut(called, at, db.nextId, order), threads)
  {
    var called := RH.CalledDb(db, at, host, SessionRunning, Running, state);
    var s1 := State(called, threads[t := FanningOut(db.nextId, at, db.nextId + 1, ListenersOf(db, at))]);
    forall p | p in order ensures Callable(called, at, p) && called.participants[p].role == Listener { assert called.participants[p] == db.participants[p]; }
    FanOutCallsAll(s1, t, u, db.nextId, at, db.nextId + 1, ListenersOf(db, at), order);
    assert s1.threads - {t} == threads;
  }

  /** The session fails and the room is READY: the last two statements of a start whose host was not called. */
  lemma FailsSession(s: State, t: Id, at: Place, x: Id)
    requires t in s.threads && s.threads[t] == FailingSession(x, at) && RoomIn(s.db, at.workspace, at.room) && x in s.db.sessions
    ensures Follow(s, [Go(t), Go(t)])
         == State(s.db.(sessions := s.db.sessions[x := s.db.sessions[x].(status := SessionFailed)],
                        rooms := s.db.rooms[at.room := s.db.rooms[at.room].(state := Ready)]), s.threads - {t})
  {
    var db1 := s.db.(sessions := s.db.sessions[x := s.db.sessions[x].(status := SessionFailed)]);
    var s1 := State(db1, s.threads[t := ResettingRoom(x, at, ANY_ROOM_STATE)]);
    AnyState(s.db.sessions[x].status, s.db.rooms[at.room].state);
    assert Step(s, Go(t)) == s1;
    RH.Resets(s1, t, at, x);
    assert s1.threads - {t} == s.threads - {t};
    FollowTwo(s, Go(t), Go(t));
  }

  /** A start whose host call the sidecar refuses: the session is there and FAILED, the host's leg FAILED, and the room
      READY as before. */
  lemma StartFails(s: State, t: Id, at: Place, host: Id)
    requires Good(s) && Step(s, Start(t, at, host)) != s
    ensures at.room in s.db.rooms
    ensures var db := Hosted(s.db, at, host);
      Follow(s, [Start(t, at, host)] + ([Go(t), Go(t)] + [Advance(t, false, 0, 0), Go(t)] + [Go(t), Go(t)]))
      == State(db.(sessions := db.sessions[db.nextId := Session(at.workspace, at.room, SessionFailed)],
                   legs := db.legs[db.nextId + 1 := Leg(at.workspace, host, at.room, Failed, false)], nextId := db.nextId + 2),
               s.threads)
  {
    StartTaken(s, t, at, host);
    StartedFails(s, t, at, host);
  }

  lemma StartedFails(s: State, t: Id, at: Place, host: Id)
    requires Good(s) && t !in s.threads && CanStart(s.db, at, host)
    requires EnsureHost(s.db, at) == Hosted(s.db, at, host) && IsHostOf(Hosted(s.db, at, host), at.room, host)
    ensures var db := Hosted(s.db, at, host);
      Follow(s, [Start(t, at, host)] + ([Go(t), Go(t)] + [Advance(t, false, 0, 0), Go(t)] + [Go(t), Go(t)]))
      == State(db.(sessions := db.sessions[db.nextId := Session(at.workspace, at.room, SessionFailed)],
                   legs := db.legs[db.nextId + 1 := Leg(at.workspace, host, at.room, Failed, false)], nextId := db.nextId + 2),
               s.threads)
  {
    var db := Hosted(s.db, at, host);
    var end := db.(sessions := db.sessions[db.nextId := Session(at.workspace, at.room, SessionFailed)],
                   legs := db.legs[db.nextId + 1 := Leg(at.workspace, host, at.room, Failed, false)], nextId := db.nextId + 2);
    var s1 := RH.Taken(s.threads, t, at, host, db);
    var rest := [Go(t), Go(t)] + [Advance(t, false, 0, 0), Go(t)] + [Go(t), Go(t)];
    assert Follow(s, [Start(t, at, host)]) == s1 by { RH.Starts(s, t, at, host); }
    assert Follow(s1, rest) == State(end, s.threads) by {
      EnsureHostKeeps(s.db, at);
      RH.StartReady(s, at, host, db);
      RefusedEnds(s.threads, t, at, host, db);
    }
    Chain(s, [Start(t, at, host)], s1, rest, State(end, s.threads));
  }

  lemma RefusedEnds(threads: map<Id, Thread>, t: Id, at: Place, host: Id, db: Db)
    requires t !in threads && RoomIn(db, at.workspace, at.room) && db.rooms[at.room].tfn && db.rooms[at.room].state == Ready
    requires IsHostOf(db, at.room, host) && db.participants[host].workspace == at.workspace
    ensures Follow(RH.Taken(threads, t, at, host, db), [Go(t), Go(t)] + [Advance(t, false, 0, 0), Go(t)] + [Go(t), Go(t)])
         == State(db.(sessions := db.sessions[db.nextId := Session(at.workspace, at.room, SessionFailed)],
                      legs := db.legs[db.nextId + 1 := Leg(at.workspace, host, at.room, Failed, false)], nextId := db.nextId + 2), threads)
  {
    var s1, x := RH.Taken(threads, t, at, host, db), db.nextId;
    DispatchRefused(s1, t, at, host, HostCall(x));
    var s2 := Follow(s1, [Go(t), Go(t)] + [Advance(t, false, 0, 0), Go(t)]);
    FailsSession(s2, t, at, x);
    assert s2.threads - {t} == threads;
    assert s2.db.rooms[at.room := s2.db.rooms[at.room].(state := Ready)] == db.rooms;
    assert s2.db.sessions[x := s2.db.sessions[x].(status := SessionFailed)] == db.sessions[x := Session(at.workspace, at.room, SessionFailed)];
    FollowOn(s1, [Go(t), Go(t)] + [Advance(t, false, 0, 0), Go(t)], [Go(t), Go(t)]);
  }

  // ---- activateRoomAfterHost ----

  /** The activator goes on waiting exactly while its time is not up and the host's leg is neither up nor over. */
  lemma PollWaits(s: State, t: Id, at: Place, x: Id, leg: Id, ok: bool)
    requires t in s.threads && s.threads[t] == Polling(x, at, leg)
    ensures Step(s, Advance(t, ok, 0, 0)) == s <==>
      ok && (leg in s.db.legs ==> s.db.legs[leg].state !in {LegState.Answered, InBridge, Ended, Failed, Dropped})
  {
    assert Step(s, Advance(t, ok, 0, 0)) == StepActivator(s, t, ok, 0, 0);
  }

  /** When its time is up, or the host's leg is over, a STARTING session is FAILED and the room READY. */
  lemma GivesUp(s: State, t: Id, at: Place, x: Id, leg: Id, ok: bool)
    requires t in s.threads && s.threads[t] == Polling(x, at, leg) && RoomIn(s.db, at.workspace, at.room)
    requires x in s.db.sessions && s.db.sessions[x].status == SessionStarting
    requires !ok || (leg in s.db.legs && s.db.legs[leg].state in {Ended, Failed, Dropped})
    ensures Follow(s, [Advance(t, ok, 0, 0)] + [Go(t), Go(t)])
         == State(s.db.(sessions := s.db.sessions[x := s.db.sessions[x].(status := SessionFailed)],
                        rooms := s.db.rooms[at.room := s.db.rooms[at.room].(state := Ready)]), s.threads - {t})
  {
    var s1 := State(s.db, s.threads[t := GivingUp(x, at)]);
    assert Step(s, Advance(t, ok, 0, 0)) == StepActivator(s, t, ok, 0, 0) == s1;
    var db1 := s.db.(sessions := s.db.sessions[x := s.db.sessions[x].(status := SessionFailed)]);
    var s2 := State(db1, s.threads[t := ResettingRoom(x, at, ANY_ROOM_STATE)]);
    Overwritten(s.threads, t, GivingUp(x, at), ResettingRoom(x, at, ANY_ROOM_STATE));
    assert Step(s1, Go(t)) == StepActivator(s1, t, true, 0, 0) == s2;
    RH.Resets(s2, t, at, x);
    assert s2.threads - {t} == s.threads - {t};
    FollowTwo(s1, Go(t), Go(t));
    FollowOne(s, Advance(t, ok, 0, 0));
    FollowOn(s, [Advance(t, ok, 0, 0)], [Go(t), Go(t)]);
  }

  // ---- events and finishHostSession ----

  /** The leg attends the session as its host's. */
  predicate HostLegOf(db: Db, leg: Id, x: Id) {
    exists a :: a in db.attendance && db.attendance[a].session == x && db.attendance[a].leg == Some(leg) && ByHost(db, a)
  }

  predicate ByHost(db: Db, a: Id)
    requires a in db.attendance
  {
    var p := db.attendance[a].participant;
    p.Some? && p.value in db.participants && db.participants[p.value].role == Host
  }

  lemma SameJoin(db: Db, leg: Id, x: Id)
    requires x in db.sessions && db.sessions[x].status in {SessionStarting, SessionRunning}
    ensures IsHostSessionOf(db, leg, x) <==> HostLegOf(db, leg, x)
  {
    if HostLegOf(db, leg, x) {
      var a :| a in db.attendance && db.attendance[a].session == x && db.attendance[a].leg == Some(leg) && ByHost(db, a);
      assert AttendsAsHost(db, a, leg, x);
    }
    if IsHostSessionOf(db, leg, x) {
      var a :| a in db.attendance && AttendsAsHost(db, a, leg, x);
      assert ByHost(db, a);
    }
  }

  /** The end of a host's leg, reported: a STARTING session of it is FAILED, a RUNNING one ENDED, its room READY, the leg
      as reported, and the rest as before. */
  lemma HostEndCloses(s: State, t: Id, leg: Id, state: LegState, x: Id)
    requires Good(s) && t !in s.threads && state in {Ended, Failed, Dropped} && leg in s.db.legs
    requires x in s.db.sessions && s.db.sessions[x].status in {SessionStarting, SessionRunning} && HostLegOf(s.db, leg, x)
    ensures s.db.sessions[x].room in s.db.rooms
    ensures var row := s.db.sessions[x];
      Follow(s, [Event(t, leg, state), Advance(t, true, x, 0), Go(t), Go(t)])
      == State(s.db.(legs := s.db.legs[leg := s.db.legs[leg].(state := state)],
                     sessions := s.db.sessions[x := row.(status := if row.status == SessionStarting then SessionFailed else SessionEnded)],
                     rooms := s.db.rooms[row.room := s.db.rooms[row.room].(state := Ready)]),
               s.threads)
  {
    SameJoin(s.db, leg, x);
    RH.SessionPlace(s.db, x);
    RH.HostEndAlone(s, t, leg, state, x);
  }

  /** Any other leg's end, reported, and any report that is not of an end, touches the leg only. */
  lemma OtherReports(s: State, t: Id, leg: Id, state: LegState, pick: Id)
    requires t !in s.threads && leg in s.db.legs
    requires forall x | x in s.db.sessions && s.db.sessions[x].status in {SessionStarting, SessionRunning} :: !HostLegOf(s.db, leg, x)
    ensures var written := State(s.db.(legs := s.db.legs[leg := s.db.legs[leg].(state := state)]), s.threads);
      && (state !in {Ended, Failed, Dropped} ==> Step(s, Event(t, leg, state)) == written)
      && (state in {Ended, Failed, Dropped} ==> Follow(s, [Event(t, leg, state), Advance(t, true, pick, 0)]) == written)
  {
    if state in {Ended, Failed, Dropped} { EndReported(s, t, leg, state, pick); }
  }

  lemma EndReported(s: State, t: Id, leg: Id, state: LegState, pick: Id)
    requires t !in s.threads && leg in s.db.legs && IsTerminal(state)
    requires forall x | x in s.db.sessions && s.db.sessions[x].status in {SessionStarting, SessionRunning} :: !HostLegOf(s.db, leg, x)
    ensures Follow(s, [Event(t, leg, state), Advance(t, true, pick, 0)])
         == State(s.db.(legs := s.db.legs[leg := s.db.legs[leg].(state := state)]), s.threads)
  {
    var db := SetLegState(s.db, leg, state);
    var s1 := State(db, s.threads[t := FindingHostSession(leg)]);
    assert Step(s, Event(t, leg, state)) == s1;
    FindsNone(s1, t, s.db, leg, state, pick);
    assert s1.threads - {t} == s.threads;
    FollowTwo(s, Event(t, leg, state), Advance(t, true, pick, 0));
  }

  lemma FindsNone(s: State, t: Id, before: Db, leg: Id, state: LegState, pick: Id)
    requires t in s.threads && s.threads[t] == FindingHostSession(leg) && s.db == SetLegState(before, leg, state)
    requires forall x | x in before.sessions && before.sessions[x].status in {SessionStarting, SessionRunning} :: !HostLegOf(before, leg, x)
    ensures Step(s, Advance(t, true, pick, 0)) == State(s.db, s.threads - {t})
  {
    NoHostSession(before, leg, state);
    assert Step(s, Advance(t, true, pick, 0)) == StepFindHost(s, t, leg, pick);
  }

  lemma NoHostSession(db: Db, leg: Id, state: LegState)
    requires forall x | x in db.sessions && db.sessions[x].status in {SessionStarting, SessionRunning} :: !HostLegOf(db, leg, x)
    ensures var db' := SetLegState(db, leg, state); !HasHostSession(db', leg) && forall x :: !IsHostSessionOf(db', leg, x)
  {
    forall x ensures !IsHostSessionOf(SetLegState(db, leg, state), leg, x) {
      RH.LegWriteKeepsHost(db, leg, state, x);
      if IsHostSessionOf(db, leg, x) { SameJoin(db, leg, x); }
    }
  }
}
