/** Runs of the control API: a raised hand without a request, two grants at once past a limit of one, and a run
    that fills every table and empties them all by one delete. */
module SpeakerWitnesses {
  import opened Options
  import opened Tables
  import opened SpeakerProtocol
  import P = RoomProtocol
  import W = RoomWitnesses
  import H = RoomHandlers
  import SC = SpeakerContinuations
  import C = SpeakerCap
  import S = SpeakerTightness
  import R = Roster
  import PC = Continuations
  import T = RoomTenancy
  import Text

  /** The run leads to the world, under a limit of one speaker. */
  ghost predicate Leads(run: seq<Action>, w: World) { After(1, run) == w }

  /** No grant has arrived. */
  predicate Ungranted(run: seq<Action>) { forall i | 0 <= i < |run| :: !run[i].Grant? }

  function Lifted(run: seq<P.Action>): seq<Action> { if run == [] then [] else Lifted(run[..|run| - 1]) + [Core(run[|run| - 1])] }

  /** A run of the room protocol is a run with no speaker handler. */
  lemma {:induction false} Lift(run: seq<P.Action>)
    ensures Leads(Lifted(run), World(P.After(run), map[])) && Ungranted(Lifted(run))
  {
    if run != [] {
      var n := |run| - 1;
      Lift(run[..n]);
      assert Lifted(run)[..|Lifted(run)| - 1] == Lifted(run[..n]);
    }
  }

  lemma Extend(run: seq<Action>, w: World, a: Action, w': World) returns (longer: seq<Action>)
    requires Leads(run, w) && Step(w, 1, a) == w'
    ensures longer == run + [a] && Leads(longer, w')
  {
    longer := run + [a];
    assert longer[..|run|] == run;
  }

  /** A dispatched host, its leg 3 live. */
  lemma HostOnLine() returns (run: seq<P.Action>)
    ensures W.Leads(run, P.State(W.Called(Starting, SessionStarting, Dispatched), map[10 := P.Polling(2, W.AT, 3)]))
  {
    run := W.Setup();
    run := W.Begin(run, P.State(W.Configured(Ready, map[], map[], 2), map[]), 10,
                   W.Configured(Starting, map[2 := Session(7, 0, SessionStarting)], map[], 3));
    run := W.HostDispatch(run);
  }

  /** One statement of handler t. */
  lemma Move(run: seq<Action>, w: World, t: Id, pick: Id, w': World) returns (longer: seq<Action>)
    requires Leads(run, w) && StepNext(w, 1, t, true, pick) == w'
    ensures longer == run + [Next(t, true, pick)] && Leads(longer, w')
  {
    longer := Extend(run, w, Next(t, true, pick), w');
  }

  function Online(desired: Desired, requests: map<Id, Request>, nextId: Id): Db {
    W.Called(Starting, SessionStarting, Dispatched)
      .(participants := map[1 := Participant(7, 0, Host, "h", "+1", desired)], requests := requests, nextId := nextId)
  }

  const POLLING := map[10 := P.Polling(2, W.AT, 3)]
  const ASKED := Online(DesiredActive, map[5 := Request(7, 0, 1, Some(3), Queued)], 6)
  const CLOSED := Online(DesiredActive, map[5 := Request(7, 0, 1, Some(3), Withdrawn)], 6)
  const RAISED := Online(HandRaised, map[5 := Request(7, 0, 1, Some(3), Withdrawn)], 6)

  lemma Pressed() returns (run: seq<Action>)
    ensures Leads(run, World(P.State(ASKED, POLLING), map[20 := Raising(7, 1)]))
  {
    var prefix := HostOnLine();
    Lift(prefix);
    var core := P.State(Online(DesiredActive, map[], 5), POLLING);
    assert P.After(prefix) == core;
    var w1 := World(core, map[20 := Queueing(7, 0, 1, 3)]);
    run := Extend(Lifted(prefix), World(core, map[]), Digit(20, 3, true), w1);
    run := Move(run, w1, 20, 0, World(P.State(ASKED, POLLING), map[20 := Raising(7, 1)]));
  }

  lemma Unasked() returns (run: seq<Action>)
    ensures Leads(run, World(P.State(CLOSED, POLLING), map[20 := Raising(7, 1), 21 := Lowering(7, 1)]))
  {
    run := Pressed();
    var w2 := World(P.State(ASKED, POLLING), map[20 := Raising(7, 1)]);
    var w3 := World(P.State(ASKED, POLLING), map[20 := Raising(7, 1), 21 := Withdrawing(7, 0, 1)]);
    run := Extend(run, w2, Digit(21, 3, false), w3);
    assert WithdrawRequestsOf(ASKED, 7, 0, 1).requests == CLOSED.requests;
    run := Move(run, w3, 21, 0, World(P.State(CLOSED, POLLING), map[20 := Raising(7, 1), 21 := Lowering(7, 1)]));
  }

  /** `#` between the two writes of `0`: the hand stays up, with no request, when both are done. */
  lemma RaisedWithoutRequest() returns (run: seq<Action>)
    ensures After(1, run).speakers == map[] && 1 in After(1, run).core.db.participants
    ensures After(1, run).core.db.participants[1].desired == HandRaised
    ensures !HasOpenRequest(After(1, run).core.db, After(1, run).core.db.participants[1].room, 1)
  {
    run := Unasked();
    var w4 := World(P.State(CLOSED, POLLING), map[20 := Raising(7, 1), 21 := Lowering(7, 1)]);
    var w5 := World(P.State(CLOSED, POLLING), map[20 := Raising(7, 1)]);
    run := Move(run, w4, 21, 0, w5);
    run := Move(run, w5, 20, 0, World(P.State(RAISED, POLLING), map[]));
  }

  // ---- Two grants at once ----

  /** A RUNNING room with its host on leg 3 and, from id 5 on, listener 5 on leg 6. */
  function BothOnline(legs: map<Id, Leg>, requests: map<Id, Request>, nextId: Id): Db {
    W.Called(Running, SessionRunning, Answered)
      .(participants := map[1 := Participant(7, 0, Host, "h", "+1", DesiredActive), 5 := Participant(7, 0, Listener, "l", "+2", DesiredMuted)],
        legs := legs, requests := requests, nextId := nextId)
  }

  const HOST_LEG := Leg(7, 1, 0, Answered, false)
  const BOTH_LEGS := map[3 := HOST_LEG, 6 := Leg(7, 5, 0, Dispatched, true)]
  const LISTING := P.ListingListeners(2, W.AT, 3)

  lemma RoomRunning() returns (run: seq<P.Action>)
    ensures W.Leads(run, P.State(W.Called(Running, SessionRunning, Answered), map[10 := LISTING]))
  {
    run := HostOnLine();
    var s := P.State(W.Called(Starting, SessionStarting, Dispatched), map[10 := P.Polling(2, W.AT, 3)]);
    run := W.Extend(run, s, P.Event(13, 3, Answered));
    var s1 := P.State(W.Called(Starting, SessionStarting, Answered), map[10 := P.Polling(2, W.AT, 3)]);
    assert P.Step(s, P.Event(13, 3, Answered)) == s1;
    run := Promoted(run, s1);
  }

  lemma Promoted(prefix: seq<P.Action>, s1: P.State) returns (run: seq<P.Action>)
    requires s1 == P.State(W.Called(Starting, SessionStarting, Answered), map[10 := P.Polling(2, W.AT, 3)]) && W.Leads(prefix, s1)
    ensures W.Leads(run, P.State(W.Called(Running, SessionRunning, Answered), map[10 := LISTING]))
  {
    var s2 := P.State(s1.db, map[10 := P.Promoting(2, W.AT, 3)]);
    run := W.Move(prefix, s1, 10, true, 0, s2);
    var s3 := P.State(W.Called(Starting, SessionRunning, Answered), map[10 := P.MarkingRunning(2, W.AT, 3)]);
    run := W.Move(run, s2, 10, true, 0, s3);
    run := W.Move(run, s3, 10, true, 0, P.State(W.Called(Running, SessionRunning, Answered), map[10 := LISTING]));
  }

  lemma ListenerOnLine() returns (run: seq<P.Action>, threads: map<Id, P.Thread>)
    ensures W.Leads(run, P.State(BothOnline(BOTH_LEGS, map[], 7), threads))
  {
    run := RoomRunning();
    var s := P.State(W.Called(Running, SessionRunning, Answered), map[10 := LISTING]);
    var add := P.AddMember(W.AT, Listener, "l", "+2");
    run := W.Extend(run, s, add);
    var db := BothOnline(map[3 := HOST_LEG], map[], 6);
    assert P.Step(s, add).db == db;
    var s1 := P.State(db, map[10 := LISTING]);
    run := W.Extend(run, s1, P.AddBack(14, 7, 5));
    run, threads := AddedBack(run, P.State(db, map[10 := LISTING, 14 := P.CheckingRoom(W.AT, 5)]));
  }

  lemma AddedBack(run: seq<P.Action>, s2: P.State) returns (longer: seq<P.Action>, threads: map<Id, P.Thread>)
    requires W.Leads(run, s2)
    requires s2 == P.State(BothOnline(map[3 := HOST_LEG], map[], 6), map[10 := LISTING, 14 := P.CheckingRoom(W.AT, 5)])
    ensures W.Leads(longer, P.State(BothOnline(BOTH_LEGS, map[], 7), threads))
  {
    var db := s2.db;
    var s3 := P.State(db, map[10 := LISTING, 14 := P.Dispatching(W.AT, 5, P.LiveCall, P.LookUp)]);
    longer := W.Move(run, s2, 14, true, 0, s3);
    var s4 := P.State(db, map[10 := LISTING, 14 := P.Dispatching(W.AT, 5, P.LiveCall, P.InsertingLeg(Listener))]);
    longer := W.Move(longer, s3, 14, true, 0, s4);
    threads := map[10 := LISTING, 14 := P.Dispatching(W.AT, 5, P.LiveCall, P.Originating(6, Listener))];
    longer := W.Move(longer, s4, 14, true, 0, P.State(BothOnline(BOTH_LEGS, map[], 7), threads));
  }

  function Asked(host: RequestStatus, listener: RequestStatus): map<Id, Request> {
    map[7 := Request(7, 0, 1, Some(3), host), 8 := Request(7, 0, 5, Some(6), listener)]
  }

  /** Both press `0`. */
  lemma BothAsk() returns (run: seq<Action>, core: P.State)
    ensures core.db == BothOnline(BOTH_LEGS, Asked(Queued, Queued), 9)
    ensures Leads(run, World(core, map[20 := Raising(7, 1), 21 := Raising(7, 5)])) && Ungranted(run)
  {
    var prefix, threads := ListenerOnLine();
    Lift(prefix);
    var db0 := BothOnline(BOTH_LEGS, map[], 7);
    var w0 := World(P.State(db0, threads), map[]);
    var w1 := World(P.State(db0, threads), map[20 := Queueing(7, 0, 1, 3)]);
    run := Extend(Lifted(prefix), w0, Digit(20, 3, true), w1);
    var db1 := BothOnline(BOTH_LEGS, map[7 := Request(7, 0, 1, Some(3), Queued)], 8);
    var w2 := World(P.State(db1, threads), map[20 := Raising(7, 1)]);
    run := Extend(run, w1, Next(20, true, 0), w2);
    run, core := ListenerAsks(run, threads);
  }

  lemma ListenerAsks(prefix: seq<Action>, threads: map<Id, P.Thread>) returns (run: seq<Action>, core: P.State)
    requires Leads(prefix, World(P.State(BothOnline(BOTH_LEGS, map[7 := Request(7, 0, 1, Some(3), Queued)], 8), threads), map[20 := Raising(7, 1)]))
    requires Ungranted(prefix)
    ensures core.db == BothOnline(BOTH_LEGS, Asked(Queued, Queued), 9)
    ensures Leads(run, World(core, map[20 := Raising(7, 1), 21 := Raising(7, 5)])) && Ungranted(run)
  {
    var db1 := BothOnline(BOTH_LEGS, map[7 := Request(7, 0, 1, Some(3), Queued)], 8);
    var w2 := World(P.State(db1, threads), map[20 := Raising(7, 1)]);
    var w3 := World(P.State(db1, threads), map[20 := Raising(7, 1), 21 := Queueing(7, 0, 5, 6)]);
    run := Extend(prefix, w2, Digit(21, 6, true), w3);
    core := P.State(BothOnline(BOTH_LEGS, Asked(Queued, Queued), 9), threads);
    run := Extend(run, w3, Next(21, true, 0), World(core, map[20 := Raising(7, 1), 21 := Raising(7, 5)]));
  }

  lemma BothWait(db: Db)
    requires db == BothOnline(BOTH_LEGS, Asked(Queued, Queued), 9)
    ensures S.AllWait(db, 7, 0, [7, 8]) && ApprovedIn(db, 7, 0) == {}
  {
    assert S.HasLeg(db, db.requests[7], 3) && S.HasLeg(db, db.requests[8], 6);
    assert S.Waits(db, 7, 0, 7) && S.Waits(db, 7, 0, 8);
  }

  /** Under a limit of one, with never more than two grants between count and write, two approved speakers: the
      bound of SpeakersBounded for k = 2. */
  lemma TwoGrantsPassTheLimit() returns (run: seq<Action>)
    ensures C.AtMostPending(1, 2, run, 7, 0) && C.Speaking(After(1, run), 7, 0) == 2
  {
    var asked, core := BothAsk();
    BothWait(core.db);
    S.NonePending(1, asked, 7, 0);
    assert C.AtMostPending(1, 2, asked, 7, 0);
    var more := S.BoundIsReached(1, asked, 7, 0, [7, 8]);
    run := asked + more;
  }

  // ---- Every table at once ----

  const GUEST := R.Contact("l", "+2", "")

  /** The host has pressed `0` and hung up: the session is FAILED, its leg ENDED, its request open. */
  const OVER := W.Called(Ready, SessionFailed, Ended).(requests := map[5 := Request(7, 0, 1, Some(3), Queued)], nextId := 6)

  /** Then a listener is imported as batch 6, participant 7 and batch row 8. */
  const FULL := OVER.(participants := OVER.participants[7 := Participant(7, 0, Listener, "l", "+2", DesiredMuted)],
                      batches := map[6 := Batch(7, 0)], items := map[8 := Item(7, 6, Some(7), "l", "+2")], nextId := 9)

  lemma HostAttends()
    ensures P.IsHostSessionOf(ASKED, 3, 2) && ASKED.sessions[2] == Session(7, 0, SessionStarting)
  {
    assert P.AttendsAsHost(ASKED, 4, 3, 2);
  }

  lemma GoneDb()
    requires 2 in ASKED.sessions && ASKED.sessions[2].room in ASKED.rooms
    ensures H.HostGoneDb(ASKED, 3, Ended, 2) == OVER
  {
    var gone := H.HostGoneDb(ASKED, 3, Ended, 2);
    assert gone.legs == OVER.legs && gone.sessions == OVER.sessions && gone.rooms == OVER.rooms;
  }

  lemma HostGone()
    ensures var acts := [P.Event(11, 3, Ended), P.Advance(11, true, 2, 0), PC.Go(11), PC.Go(11)];
      PC.Follow(P.State(ASKED, POLLING), acts) == P.State(OVER, POLLING)
  {
    HostAttends();
    GoneDb();
    H.HostEnds(P.State(ASKED, POLLING), 11, 3, Ended, 2, W.AT, SessionFailed);
  }

  lemma HangsUp() returns (run: seq<Action>)
    ensures Leads(run, World(P.State(OVER, POLLING), map[20 := Raising(7, 1)]))
  {
    run := Pressed();
    var acts := [P.Event(11, 3, Ended), P.Advance(11, true, 2, 0), PC.Go(11), PC.Go(11)];
    HostGone();
    SC.FollowCored(World(P.State(ASKED, POLLING), map[20 := Raising(7, 1)]), 1, acts);
    SC.AfterMore(1, run, SC.Cored(acts));
    run := run + SC.Cored(acts);
  }

  lemma GuestImported()
    ensures R.Handle(OVER, R.Importing(W.AT, [GUEST])) == FULL
  {
    assert !Text.IsSpace("l"[0]) && !Text.IsSpace("+2"[0]);
    assert Text.Trim("l") == "l" && Text.Trim("+2") == "+2" && R.RoleOf("") == Listener;
    assert (set p | p in OVER.participants && OVER.participants[p].room == 0) == {1};
    assert R.Hosts([GUEST]) == 0 && [GUEST][..0] == [];
    assert R.ImportRefusal(OVER, W.AT, [GUEST]).None?;
    var begun := OVER.(batches := map[6 := Batch(7, 0)], nextId := 7);
    assert InsertBatch(OVER, 7, 0) == begun;
    assert R.ImportRows(begun, W.AT, 6, []) == Some(begun);
    assert R.ImportRow(begun, W.AT, 6, GUEST) == Some(FULL);
    assert R.ImportRows(begun, W.AT, 6, [GUEST]) == Some(FULL);
  }

  /** Every table has a row of the room. */
  predicate Filled(db: Db, room: Id) {
    && room in db.rooms
    && (exists k :: k in db.participants && db.participants[k].room == room)
    && (exists k :: k in db.sessions && db.sessions[k].room == room)
    && (exists k :: k in db.legs && db.legs[k].room == room)
    && (exists k :: k in db.requests && db.requests[k].room == room)
    && (exists k :: k in db.batches && db.batches[k].room == room)
    && (exists k :: k in db.attendance && T.OfSession(db, k, room))
    && (exists k :: k in db.items && T.OfBatch(db, k, room))
  }

  predicate NothingLive(db: Db) { RoomIn(db, 7, 0) && forall l :: l in db.legs ==> IsTerminal(db.legs[l].state) }

  lemma FullIsFilled()
    ensures Filled(FULL, 0) && NothingLive(FULL)
  {
    assert 0 in FULL.rooms && 1 in FULL.participants && 2 in FULL.sessions && 3 in FULL.legs;
    assert 4 in FULL.attendance && T.OfSession(FULL, 4, 0) && 5 in FULL.requests && 6 in FULL.batches;
    assert 8 in FULL.items && T.OfBatch(FULL, 8, 0);
  }

  /** Start, press `0`, hang up, import a listener: a row of the room in every table. Deleting the room takes all. */
  lemma FilledAndEmptied() returns (run: seq<Action>, later: seq<Action>)
    ensures run <= later && Filled(After(1, run).core.db, 0) && T.NoneOf(After(1, later).core.db, 0)
  {
    run := HangsUp();
    var w := World(P.State(OVER, POLLING), map[20 := Raising(7, 1)]);
    GuestImported();
    FullIsFilled();
    var full := World(P.State(FULL, POLLING), map[20 := Raising(7, 1)]);
    run := Extend(run, w, Managed(R.Importing(W.AT, [GUEST])), full);
    later := Emptied(run, full);
  }

  lemma Emptied(run: seq<Action>, full: World) returns (later: seq<Action>)
    requires Leads(run, full) && NothingLive(full.core.db)
    ensures run <= later && T.NoneOf(After(1, later).core.db, 0)
  {
    var db := full.core.db;
    T.DeleteTakesAll(db, W.AT);
    var gone := World(P.State(P.RemoveRoomTx(db, W.AT), full.core.threads), full.speakers);
    later := Extend(run, full, Core(P.RemoveRoom(W.AT)), gone);
  }
}
