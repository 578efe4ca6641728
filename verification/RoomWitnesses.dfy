/** Runs that show what the room protocol does not promise: the premise of RoomMirrorsSession is needed,
    and how a closed session was closed can still change. */
module RoomWitnesses {
  import opened Options
  import opened Tables
  import opened RoomProtocol
  import opened RoomPromises
  import Text

  const AT := Place(7, 0)

  /** The run leads to the state. */
  ghost predicate Leads(run: seq<Action>, s: State) { After(run) == s }

  lemma Extend(run: seq<Action>, s: State, a: Action) returns (longer: seq<Action>)
    requires Leads(run, s)
    ensures longer == run + [a] && Leads(longer, Step(s, a))
  {
    longer := run + [a];
    assert longer[..|run|] == run;
  }

  /** One more move of thread t. */
  lemma Move(run: seq<Action>, s: State, t: Id, ok: bool, pick: Id, s': State) returns (longer: seq<Action>)
    requires Leads(run, s) && StepAdvance(s, t, ok, pick, 0) == s'
    ensures longer == run + [Advance(t, ok, pick, 0)] && Leads(longer, s')
  {
    longer := Extend(run, s, Advance(t, ok, pick, 0));
  }

  function Configured(state: RoomState, sessions: map<Id, Session>, legs: map<Id, Leg>, nextId: Id): Db {
    EMPTY_DB.(rooms := map[0 := Room(7, state, "h", "+1", 5, true)],
              participants := map[1 := Participant(7, 0, Host, "h", "+1", DesiredActive)],
              sessions := sessions, legs := legs, nextId := nextId)
  }

  /** A READY room with a host and a number. */
  lemma Setup() returns (run: seq<Action>)
    ensures Leads(run, State(Configured(Ready, map[], map[], 2), map[]))
  {
    run := Extend([], INITIAL, CreateRoom(7, 5));
    run := Extend(run, Step(INITIAL, CreateRoom(7, 5)), ConfigureRoom(0, 5, true));
    var db := EMPTY_DB.(rooms := map[0 := Room(7, Ready, "", "", 5, true)], nextId := 1);
    assert Leads(run, State(db, map[]));
    run := Extend(run, State(db, map[]), SaveHost(AT, 0, "h", "+1"));
    assert !Text.IsSpace("h"[0]) && !Text.IsSpace("+1"[0]);
    assert Text.Trim("h") == "h" && Text.Trim("+1") == "+1";
    assert Step(State(db, map[]), SaveHost(AT, 0, "h", "+1")).db == Configured(Ready, map[], map[], 2);
  }

  /** Starting it. */
  lemma Begin(run: seq<Action>, s: State, t: Id, db: Db) returns (longer: seq<Action>)
    requires Leads(run, s) && t !in s.threads && !HasActive(s.db, 0)
    requires s.db.rooms == map[0 := Room(7, Ready, "h", "+1", 5, true)]
    requires s.db.participants == map[1 := Participant(7, 0, Host, "h", "+1", DesiredActive)]
    requires db == s.db.(rooms := map[0 := Room(7, Starting, "h", "+1", 5, true)],
                         sessions := s.db.sessions[s.db.nextId := Session(7, 0, SessionStarting)], nextId := s.db.nextId + 1)
    ensures Leads(longer, State(db, s.threads[t := Dispatching(AT, 1, HostCall(s.db.nextId), LookUp)]))
  {
    longer := Extend(run, s, Start(t, AT, 1));
    assert !Text.IsSpace("h"[0]) && !Text.IsSpace("+1"[0]);
    assert (set p | p in s.db.participants && s.db.participants[p].room == 0) == {1};
    assert HasHost(s.db, 0) by { assert 1 in s.db.participants; }
    assert StepStart(s, t, AT, 1).db == db;
  }

  /** A room with session 2, its host leg 3 dispatched, and the activator polling as thread 10. */
  function Called(state: RoomState, status: SessionStatus, legState: LegState): Db {
    Configured(state, map[2 := Session(7, 0, status)], map[3 := Leg(7, 1, 0, legState, false)], 5)
      .(attendance := map[4 := Attendance(2, Some(1), Some(3), Host)])
  }

  /** The tables while the host is called, before and after the leg is there. */
  function Begun(): Db { Configured(Starting, map[2 := Session(7, 0, SessionStarting)], map[], 3) }

  function Legged(): Db { Configured(Starting, map[2 := Session(7, 0, SessionStarting)], map[3 := Leg(7, 1, 0, Dispatched, false)], 4) }

  lemma HostLegged(run: seq<Action>) returns (longer: seq<Action>)
    requires Leads(run, State(Begun(), map[10 := Dispatching(AT, 1, HostCall(2), LookUp)]))
    ensures Leads(longer, State(Legged(), map[10 := Dispatching(AT, 1, HostCall(2), Originating(3, Host))]))
  {
    var s := State(Begun(), map[10 := Dispatching(AT, 1, HostCall(2), LookUp)]);
    var s1 := State(Begun(), map[10 := Dispatching(AT, 1, HostCall(2), InsertingLeg(Host))]);
    longer := Move(run, s, 10, true, 0, s1);
    longer := Move(longer, s1, 10, true, 0, State(Legged(), map[10 := Dispatching(AT, 1, HostCall(2), Originating(3, Host))]));
  }

  lemma HostDispatch(run: seq<Action>) returns (longer: seq<Action>)
    requires Leads(run, State(Begun(), map[10 := Dispatching(AT, 1, HostCall(2), LookUp)]))
    ensures Leads(longer, State(Called(Starting, SessionStarting, Dispatched), map[10 := Polling(2, AT, 3)]))
  {
    longer := HostLegged(run);
    var s2 := State(Legged(), map[10 := Dispatching(AT, 1, HostCall(2), Originating(3, Host))]);
    var s3 := State(Legged(), map[10 := Dispatching(AT, 1, HostCall(2), SettingDesired(3, Host))]);
    longer := Move(longer, s2, 10, true, 0, s3);
    var s4 := State(Legged(), map[10 := Dispatching(AT, 1, HostCall(2), Recording(3, Host))]);
    assert SetDesired(Legged(), 7, 1, ANY_DESIRED, DesiredActive) == Legged();
    longer := Move(longer, s3, 10, true, 0, s4);
    longer := Move(longer, s4, 10, true, 0, State(Called(Starting, SessionStarting, Dispatched), map[10 := Polling(2, AT, 3)]));
  }

  lemma Stopped(run: seq<Action>) returns (longer: seq<Action>)
    requires Leads(run, State(Called(Starting, SessionStarting, Dispatched), map[10 := Polling(2, AT, 3)]))
    ensures Leads(longer, State(Called(Ready, SessionEnded, Dropped), map[10 := Polling(2, AT, 3)]))
  {
    var db := Called(Starting, SessionStarting, Dispatched);
    var activator := Polling(2, AT, 3);
    longer := Extend(run, State(db, map[10 := activator]), Stop(11, AT, 2));
    var s1 := State(db, map[10 := activator, 11 := ListingLegs(2, AT)]);
    assert LiveLegsOf(db, AT) == {3};
    var s2 := State(db, map[10 := activator, 11 := DroppingLegs(2, AT, {3})]);
    longer := Move(longer, s1, 11, true, 0, s2);
    var s3 := State(Called(Starting, SessionStarting, Dropped), map[10 := activator, 11 := DroppingLegs(2, AT, {})]);
    assert DropLeg(db, 7, 3) == s3.db && {3} - {3} == {};
    longer := Move(longer, s2, 11, true, 3, s3);
    longer := Closed(longer, s3);
  }

  lemma Closed(run: seq<Action>, s3: State) returns (longer: seq<Action>)
    requires Leads(run, s3)
    requires s3 == State(Called(Starting, SessionStarting, Dropped), map[10 := Polling(2, AT, 3), 11 := DroppingLegs(2, AT, {})])
    ensures Leads(longer, State(Called(Ready, SessionEnded, Dropped), map[10 := Polling(2, AT, 3)]))
  {
    var s4 := State(s3.db, map[10 := Polling(2, AT, 3), 11 := EndingSession(2, AT)]);
    longer := Move(run, s3, 11, true, 0, s4);
    longer := Reset(longer, s4);
  }

  lemma Reset(run: seq<Action>, s4: State) returns (longer: seq<Action>)
    requires Leads(run, s4)
    requires s4 == State(Called(Starting, SessionStarting, Dropped), map[10 := Polling(2, AT, 3), 11 := EndingSession(2, AT)])
    ensures Leads(longer, State(Called(Ready, SessionEnded, Dropped), map[10 := Polling(2, AT, 3)]))
  {
    var s5 := State(Called(Starting, SessionEnded, Dropped), map[10 := Polling(2, AT, 3), 11 := ResettingRoom(2, AT, ANY_ROOM_STATE)]);
    EndsTheSession(s4, s5);
    longer := Move(run, s4, 11, true, 0, s5);
    longer := Move(longer, s5, 11, true, 0, State(Called(Ready, SessionEnded, Dropped), map[10 := Polling(2, AT, 3)]));
  }

  lemma EndsTheSession(s4: State, s5: State)
    requires s4 == State(Called(Starting, SessionStarting, Dropped), map[10 := Polling(2, AT, 3), 11 := EndingSession(2, AT)])
    requires s5 == State(Called(Starting, SessionEnded, Dropped), map[10 := Polling(2, AT, 3), 11 := ResettingRoom(2, AT, ANY_ROOM_STATE)])
    ensures Step(s4, Advance(11, true, 0, 0)) == s5
  {
    assert Step(s4, Advance(11, true, 0, 0)) == StepStopper(s4, 11, true, 0);
  }

  /** Session 5 begun on the stopped room. */
  function Restarted(state: RoomState): Db {
    Called(state, SessionEnded, Dropped).(sessions := map[2 := Session(7, 0, SessionEnded), 5 := Session(7, 0, SessionStarting)], nextId := 6)
  }

  lemma Stale(run: seq<Action>) returns (longer: seq<Action>)
    requires Leads(run, State(Restarted(Starting), map[10 := Polling(2, AT, 3), 12 := Dispatching(AT, 1, HostCall(5), LookUp)]))
    ensures Leads(longer, State(Restarted(Ready), map[12 := Dispatching(AT, 1, HostCall(5), LookUp)]))
  {
    var db := Restarted(Starting);
    var starter := Dispatching(AT, 1, HostCall(5), LookUp);
    var s := State(db, map[10 := Polling(2, AT, 3), 12 := starter]);
    var s1 := State(db, map[10 := GivingUp(2, AT), 12 := starter]);
    longer := Move(run, s, 10, true, 0, s1);
    var s2 := State(db, map[10 := ResettingRoom(2, AT, ANY_ROOM_STATE), 12 := starter]);
    assert SetSessionStatus(db, 2, {SessionStarting}, SessionFailed) == db;
    longer := Move(longer, s1, 10, true, 0, s2);
    longer := StaleReset(longer, s2);
  }

  lemma StaleReset(run: seq<Action>, s2: State) returns (longer: seq<Action>)
    requires Leads(run, s2)
    requires s2 == State(Restarted(Starting), map[10 := ResettingRoom(2, AT, ANY_ROOM_STATE), 12 := Dispatching(AT, 1, HostCall(5), LookUp)])
    ensures Leads(longer, State(Restarted(Ready), map[12 := Dispatching(AT, 1, HostCall(5), LookUp)]))
  {
    assert SetRoomState(s2.db, 7, 0, ANY_ROOM_STATE, Ready) == Restarted(Ready);
    longer := Move(run, s2, 10, true, 0, State(Restarted(Ready), map[12 := Dispatching(AT, 1, HostCall(5), LookUp)]));
  }

  /** Stop, start, and then the stopped session's activator resets the room: it reads READY, with no write
      pending, while its new session is STARTING. */
  lemma StaleActivator() returns (run: seq<Action>)
    ensures 0 in After(run).db.rooms && Settled(After(run), 0) && !Mirrors(After(run).db, 0)
    ensures After(run).db.rooms[0].state == Ready && HasSession(After(run).db, 0, SessionStarting)
  {
    run := Setup();
    run := Begin(run, State(Configured(Ready, map[], map[], 2), map[]), 10,
                 Configured(Starting, map[2 := Session(7, 0, SessionStarting)], map[], 3));
    run := HostDispatch(run);
    run := Stopped(run);
    run := Begin(run, State(Called(Ready, SessionEnded, Dropped), map[10 := Polling(2, AT, 3)]), 12, Restarted(Starting));
    run := Stale(run);
    assert 5 in Restarted(Ready).sessions;
  }

  /** A stop that is already under way when the host call fails: FAILED becomes ENDED. */
  lemma FailedBecomesEnded() returns (run: seq<Action>, later: seq<Action>, x: Id)
    ensures run <= later
    ensures x in After(run).db.sessions && After(run).db.sessions[x].status == SessionFailed
    ensures x in After(later).db.sessions && After(later).db.sessions[x].status == SessionEnded
  {
    run := Setup();
    var db := Configured(Starting, map[2 := Session(7, 0, SessionStarting)], map[], 3);
    run := Begin(run, State(Configured(Ready, map[], map[], 2), map[]), 10, db);
    var s := State(db, map[10 := Dispatching(AT, 1, HostCall(2), LookUp)]);
    var s1 := State(db, map[10 := FailingSession(2, AT)]);
    run := Move(run, s, 10, false, 0, s1);
    run := Extend(run, s1, Stop(11, AT, 2));
    var s2 := State(db, map[10 := FailingSession(2, AT), 11 := ListingLegs(2, AT)]);
    var failed := Configured(Starting, map[2 := Session(7, 0, SessionFailed)], map[], 3);
    var s3 := State(failed, map[10 := ResettingRoom(2, AT, ANY_ROOM_STATE), 11 := ListingLegs(2, AT)]);
    run := Move(run, s2, 10, true, 0, s3);
    later, x := LaterEnded(run, failed);
  }

  lemma LaterEnded(run: seq<Action>, db: Db) returns (later: seq<Action>, x: Id)
    requires db == Configured(Starting, map[2 := Session(7, 0, SessionFailed)], map[], 3)
    requires Leads(run, State(db, map[10 := ResettingRoom(2, AT, ANY_ROOM_STATE), 11 := ListingLegs(2, AT)]))
    ensures run <= later && x == 2 && x in After(later).db.sessions && After(later).db.sessions[x].status == SessionEnded
  {
    x := 2;
    var resetting := ResettingRoom(2, AT, ANY_ROOM_STATE);
    var s := State(db, map[10 := resetting, 11 := ListingLegs(2, AT)]);
    assert LiveLegsOf(db, AT) == {};
    var s1 := State(db, map[10 := resetting, 11 := DroppingLegs(2, AT, {})]);
    later := Move(run, s, 11, true, 0, s1);
    var s2 := State(db, map[10 := resetting, 11 := EndingSession(2, AT)]);
    later := Move(later, s1, 11, true, 0, s2);
    var ended := Configured(Starting, map[2 := Session(7, 0, SessionEnded)], map[], 3);
    later := Move(later, s2, 11, true, 0, State(ended, map[10 := resetting, 11 := resetting]));
  }
}
