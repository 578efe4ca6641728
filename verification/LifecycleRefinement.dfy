/** The statement-level room protocol refines the lifecycle machine, so what that machine keeps holds
    of the tables and threads in every reachable state. */
module LifecycleRefinement {
  import Text
  import opened Options
  import opened Tables
  import opened RoomProtocol
  import opened RoomTenancy
  import L = Lifecycle

  // ---- The lifecycle part of a state ----

  function ViewOf(th: Thread): Option<L.View> {
    match th
    case Dispatching(at, _, purpose, _) => if purpose.HostCall? then Some(L.Trying(purpose.session, at.room)) else None
    case FailingSession(x, at) => Some(L.Trying(x, at.room))
    case Polling(x, at, _) => Some(L.Trying(x, at.room))
    case Promoting(x, at, _) => Some(L.Checking(x, at.room))
    case GivingUp(x, at) => Some(L.Trying(x, at.room))
    case MarkingRunning(x, at, _) => Some(L.Marking(x, at.room))
    case ListingListeners(x, at, _) => Some(L.Listing(x, at.room))
    case FanningOut(x, at, _, _) => Some(L.Fanning(x, at.room))
    case ListingLegs(x, at) => Some(L.Closing(x, at.room))
    case DroppingLegs(x, at, _) => Some(L.Closing(x, at.room))
    case EndingSession(x, at) => Some(L.Closing(x, at.room))
    case ClosingSession(x, at, _) => Some(L.Closing(x, at.room))
    case ResettingRoom(x, at, _) => Some(L.Resetting(x, at.room))
    case _ => None
  }

  ghost function RoomStates(rooms: map<Id, Room>): map<Id, RoomState> { map r | r in rooms :: rooms[r].state }

  ghost function SessionRows(sessions: map<Id, Session>): map<Id, L.Row> {
    map x | x in sessions :: L.Row(sessions[x].room, sessions[x].status)
  }

  ghost function Views(threads: map<Id, Thread>): map<Id, L.View> {
    map t | t in threads && ViewOf(threads[t]).Some? :: ViewOf(threads[t]).value
  }

  ghost function LifeOf(s: State): L.Life {
    L.Life(RoomStates(s.db.rooms), SessionRows(s.db.sessions), Views(s.threads), s.db.nextId)
  }

  /** What an action does to the lifecycle. */
  ghost function EffectOf(s: State, a: Action): L.Effect {
    match a
    case CreateRoom(_, _) => L.AddRoom
    case RemoveRoom(at) => if RemoveRoomTx(s.db, at) == s.db then L.Nothing else L.RemoveRoom(at.room)
    case Start(t, at, host) =>
      if StepStart(s, t, at, host) == s then L.Nothing else L.Begin(t, at.room, EnsureHost(s.db, at).nextId)
    case Stop(t, at, session) =>
      if t !in s.threads && IsActiveIn(s.db, at, session) then L.Bind(t, session) else L.Nothing
    case Advance(t, ok, pick, child) => if t in s.threads then AdvanceEffect(s, t, ok, pick) else L.Nothing
    case _ => L.Nothing
  }

  ghost function AdvanceEffect(s: State, t: Id, ok: bool, pick: Id): L.Effect
    requires t in s.threads
  {
    match s.threads[t]
    case FailingSession(_, _) => L.Close(t, ANY_SESSION_STATUS, SessionFailed)
    case GivingUp(_, _) => L.Close(t, {SessionStarting}, SessionFailed)
    case EndingSession(_, _) => L.Close(t, ANY_SESSION_STATUS, SessionEnded)
    case ClosingSession(_, _, terminal) => L.Close(t, ACTIVE_STATUS, terminal)
    case Polling(_, _, leg) =>
      if ok && leg in s.db.legs && IsUp(s.db.legs[leg].state) then L.Check(t) else L.Nothing
    case Promoting(_, _, _) => L.Promote(t)
    case MarkingRunning(_, _, _) => L.Mark(t)
    case ListingListeners(_, _, _) => L.List(t)
    case FanningOut(_, _, _, todo) => if todo == {} then L.Leave(t) else L.Nothing
    case ResettingRoom(_, _, from) => L.Reset(t, from)
    case FindingHostSession(leg) =>
      if IsHostSessionOf(s.db, leg, pick) then L.Bind(t, pick) else L.Nothing
    case _ => L.Nothing
  }

  ghost predicate Refined(s: State, s': State, e: L.Effect) {
    L.Allowed(LifeOf(s), e, s'.db.nextId) && LifeOf(s') == L.Do(LifeOf(s), e, s'.db.nextId)
  }

  // ---- Pieces of the lifecycle part ----

  lemma SameView(threads: map<Id, Thread>, t: Id, next: Thread)
    requires t in threads ==> ViewOf(threads[t]) == ViewOf(next)
    requires t !in threads ==> ViewOf(next) == None
    ensures Views(threads[t := next]) == Views(threads)
  {
  }

  lemma NewView(threads: map<Id, Thread>, t: Id, next: Thread)
    requires ViewOf(next).Some?
    ensures Views(threads[t := next]) == Views(threads)[t := ViewOf(next).value]
  {
  }

  lemma NoView(threads: map<Id, Thread>, t: Id)
    ensures Views(threads - {t}) == Views(threads) - {t}
  {
  }

  lemma NoViewBefore(threads: map<Id, Thread>, t: Id)
    requires t in threads ==> ViewOf(threads[t]) == None
    ensures Views(threads - {t}) == Views(threads)
  {
  }

  lemma StateWritten(rooms: map<Id, Room>, r: Id, to: RoomState)
    requires r in rooms
    ensures RoomStates(rooms[r := rooms[r].(state := to)]) == RoomStates(rooms)[r := to]
  {
  }

  lemma StatusWritten(sessions: map<Id, Session>, x: Id, to: SessionStatus)
    requires x in sessions
    ensures SessionRows(sessions[x := sessions[x].(status := to)]) == SessionRows(sessions)[x := L.Row(sessions[x].room, to)]
  {
  }

  /** A move that writes neither sessions nor room states and leaves the thread's view alone. */
  lemma QuietMove(s: State, t: Id, db: Db, next: Thread)
    requires t in s.threads && ViewOf(s.threads[t]) == ViewOf(next)
    requires db.rooms == s.db.rooms && db.sessions == s.db.sessions && s.db.nextId <= db.nextId
    ensures Refined(s, Become(s, t, db, next), L.Nothing)
  {
    SameView(s.threads, t, next);
  }

  lemma QuietFinish(s: State, t: Id, db: Db)
    requires t in s.threads && ViewOf(s.threads[t]) == None
    requires db.rooms == s.db.rooms && db.sessions == s.db.sessions && s.db.nextId <= db.nextId
    ensures Refined(s, Finish(s, t, db), L.Nothing)
  {
    NoViewBefore(s.threads, t);
  }

  lemma Stutter(s: State)
    ensures Refined(s, s, L.Nothing)
  {
  }

  // ---- One lemma a kind of step ----

  /** The statements of a dispatch leave `bridges` and `room_sessions` alone. */
  ghost predicate Aside(db: Db, db': Db) {
    db'.rooms == db.rooms && db'.sessions == db.sessions && db.nextId <= db'.nextId
  }

  lemma DispatchEnds(s: State, t: Id, db: Db, at: Place, purpose: Purpose, leg: Id)
    requires t in s.threads && s.threads[t].Dispatching? && s.threads[t].at == at && s.threads[t].purpose == purpose
    requires Aside(s.db, db)
    ensures Refined(s, DispatchFailed(s, t, db, at, purpose), L.Nothing)
    ensures Refined(s, DispatchDone(s, t, db, at, purpose, leg), L.Nothing)
  {
    if purpose.HostCall? {
      QuietMove(s, t, db, FailingSession(purpose.session, at));
      QuietMove(s, t, db, Polling(purpose.session, at, leg));
    } else {
      QuietFinish(s, t, db);
    }
  }

  lemma DispatchGoesOn(s: State, t: Id, db: Db, step: DispatchStep)
    requires t in s.threads && s.threads[t].Dispatching? && Aside(s.db, db)
    ensures Refined(s, Become(s, t, db, s.threads[t].(step := step)), L.Nothing)
  {
    QuietMove(s, t, db, s.threads[t].(step := step));
  }

  lemma DispatchAside(db: Db, at: Place, participant: Id, leg: Id, session: Id, role: Role, to: Desired)
    ensures Aside(db, db) && Aside(db, InsertLeg(db, at.workspace, participant, at.room, role != Host))
    ensures Aside(db, SetLegState(db, leg, Failed))
    ensures Aside(db, SetDesired(db, at.workspace, participant, ANY_DESIRED, to))
    ensures Aside(db, InsertAttendance(db, session, participant, leg, role))
  {
  }

  lemma DispatchBegins(s: State, t: Id, ok: bool)
    requires t in s.threads && s.threads[t].Dispatching? && (s.threads[t].step.LookUp? || s.threads[t].step.InsertingLeg?)
    ensures Refined(s, StepDispatch(s, t, ok), L.Nothing)
  {
    var Dispatching(at, participant, purpose, step) := s.threads[t];
    DispatchEnds(s, t, s.db, at, purpose, 0);
    match step
    case LookUp =>
      if participant in s.db.participants {
        DispatchGoesOn(s, t, s.db, InsertingLeg(s.db.participants[participant].role));
      }
    case InsertingLeg(role) =>
      DispatchAside(s.db, at, participant, 0, 0, role, DesiredActive);
      DispatchGoesOn(s, t, InsertLeg(s.db, at.workspace, participant, at.room, role != Host), Originating(s.db.nextId, role));
  }

  lemma DispatchRefines(s: State, t: Id, ok: bool)
    requires t in s.threads && s.threads[t].Dispatching?
    ensures Refined(s, StepDispatch(s, t, ok), L.Nothing)
  {
    var Dispatching(at, participant, purpose, step) := s.threads[t];
    match step
    case Originating(leg, role) =>
      DispatchGoesOn(s, t, s.db, if ok then SettingDesired(leg, role) else MarkingFailed(leg));
    case MarkingFailed(leg) =>
      DispatchAside(s.db, at, participant, leg, 0, Host, DesiredActive);
      DispatchEnds(s, t, SetLegState(s.db, leg, Failed), at, purpose, leg);
    case SettingDesired(leg, role) =>
      var to := if role == Host then DesiredActive else DesiredMuted;
      var db := SetDesired(s.db, at.workspace, participant, ANY_DESIRED, to);
      DispatchAside(s.db, at, participant, leg, 0, role, to);
      if purpose.LiveCall? { QuietFinish(s, t, db); } else { DispatchGoesOn(s, t, db, Recording(leg, role)); }
    case Recording(leg, role) =>
      if purpose.LiveCall? {
        DispatchEnds(s, t, s.db, at, purpose, leg);
      } else {
        DispatchAside(s.db, at, participant, leg, purpose.session, role, DesiredActive);
        DispatchEnds(s, t, InsertAttendance(s.db, purpose.session, participant, leg, role), at, purpose, leg);
      }
    case _ => DispatchBegins(s, t, ok);
  }

  lemma CloseRefines(s: State, t: Id, session: Id, at: Place, from: set<SessionStatus>, to: SessionStatus, states: set<RoomState>)
    requires t in s.threads && !IsActive(to)
    requires (ViewOf(s.threads[t]) == Some(L.Trying(session, at.room)) && SessionStarting in from)
             || (ViewOf(s.threads[t]) == Some(L.Closing(session, at.room)) && ACTIVE_STATUS <= from)
    ensures Refined(s, Become(s, t, SetSessionStatus(s.db, session, from, to), ResettingRoom(session, at, states)), L.Close(t, from, to))
  {
    NewView(s.threads, t, ResettingRoom(session, at, states));
    if session in s.db.sessions && s.db.sessions[session].status in from { StatusWritten(s.db.sessions, session, to); }
  }

  lemma ClosersRefine(s: State, t: Id, ok: bool, pick: Id, child: Id)
    requires t in s.threads && ThreadOk(s.db, s.threads[t])
    requires s.threads[t].FailingSession? || s.threads[t].ClosingSession?
    ensures Refined(s, StepAdvance(s, t, ok, pick, child), AdvanceEffect(s, t, ok, pick))
  {
    match s.threads[t]
    case FailingSession(session, at) =>
      CloseRefines(s, t, session, at, ANY_SESSION_STATUS, SessionFailed, ANY_ROOM_STATE);
    case ClosingSession(session, at, terminal) =>
      CloseRefines(s, t, session, at, ACTIVE_STATUS, terminal, {Starting, Running});
  }

  lemma DroppingRefines(s: State, t: Id, ok: bool, pick: Id)
    requires t in s.threads && (s.threads[t].ListingLegs? || s.threads[t].DroppingLegs?)
    ensures Refined(s, StepStopper(s, t, ok, pick), AdvanceEffect(s, t, ok, pick))
  {
    match s.threads[t]
    case ListingLegs(session, at) =>
      QuietMove(s, t, s.db, DroppingLegs(session, at, LiveLegsOf(s.db, at)));
    case DroppingLegs(session, at, todo) =>
      Stutter(s);
      QuietMove(s, t, s.db, EndingSession(session, at));
      QuietMove(s, t, if ok then DropLeg(s.db, at.workspace, pick) else s.db, DroppingLegs(session, at, todo - {pick}));
  }

  lemma EndRefines(s: State, t: Id, ok: bool, pick: Id)
    requires Good(s) && t in s.threads && s.threads[t].EndingSession?
    ensures Refined(s, StepStopper(s, t, ok, pick), AdvanceEffect(s, t, ok, pick))
  {
    var EndingSession(session, at) := s.threads[t];
    assert ThreadOk(s.db, s.threads[t]);
    HeldSessionWorkspace(s.db, at, session);
    CloseRefines(s, t, session, at, ANY_SESSION_STATUS, SessionEnded, ANY_ROOM_STATE);
  }

  lemma EndingRefines(s: State, t: Id, ok: bool, pick: Id)
    requires Good(s) && t in s.threads && IsStopper(s.threads[t])
    ensures Refined(s, StepStopper(s, t, ok, pick), AdvanceEffect(s, t, ok, pick))
  {
    if s.threads[t].EndingSession? { EndRefines(s, t, ok, pick); } else { DroppingRefines(s, t, ok, pick); }
  }

  lemma ResetRefines(s: State, t: Id, ok: bool, pick: Id, child: Id)
    requires t in s.threads && s.threads[t].ResettingRoom? && ThreadOk(s.db, s.threads[t])
    ensures Refined(s, StepAdvance(s, t, ok, pick, child), AdvanceEffect(s, t, ok, pick))
  {
    var ResettingRoom(_, at, from) := s.threads[t];
    NoView(s.threads, t);
    if at.room in s.db.rooms && s.db.rooms[at.room].state in from { StateWritten(s.db.rooms, at.room, Ready); }
  }

  lemma PollingRefines(s: State, t: Id, ok: bool, pick: Id, child: Id)
    requires t in s.threads && s.threads[t].Polling?
    ensures Refined(s, StepActivator(s, t, ok, pick, child), AdvanceEffect(s, t, ok, pick))
  {
    var Polling(session, at, leg) := s.threads[t];
    Stutter(s);
    QuietMove(s, t, s.db, GivingUp(session, at));
    NewView(s.threads, t, Promoting(session, at, leg));
  }

  lemma PromotionRefines(s: State, t: Id, ok: bool, pick: Id, child: Id)
    requires t in s.threads && s.threads[t].Promoting?
    ensures Refined(s, StepActivator(s, t, ok, pick, child), AdvanceEffect(s, t, ok, pick))
  {
    var Promoting(session, at, leg) := s.threads[t];
    if session in s.db.sessions && s.db.sessions[session].status == SessionStarting {
      NewView(s.threads, t, MarkingRunning(session, at, leg));
      StatusWritten(s.db.sessions, session, SessionRunning);
    } else {
      NoView(s.threads, t);
    }
  }

  lemma MarkingRefines(s: State, t: Id, ok: bool, pick: Id, child: Id)
    requires t in s.threads && s.threads[t].MarkingRunning? && ThreadOk(s.db, s.threads[t])
    ensures Refined(s, StepActivator(s, t, ok, pick, child), AdvanceEffect(s, t, ok, pick))
  {
    var MarkingRunning(session, at, leg) := s.threads[t];
    NewView(s.threads, t, ListingListeners(session, at, leg));
    if at.room in s.db.rooms { StateWritten(s.db.rooms, at.room, Running); }
  }

  lemma FanOutRefines(s: State, t: Id, ok: bool, pick: Id, child: Id)
    requires t in s.threads && (s.threads[t].ListingListeners? || s.threads[t].FanningOut?)
    ensures Refined(s, StepActivator(s, t, ok, pick, child), AdvanceEffect(s, t, ok, pick))
  {
    match s.threads[t]
    case ListingListeners(session, at, leg) =>
      NewView(s.threads, t, FanningOut(session, at, leg, ListenersOf(s.db, at)));
    case FanningOut(session, at, leg, todo) =>
      Stutter(s);
      NoView(s.threads, t);
      var next := FanningOut(session, at, leg, todo - {pick});
      SameView(s.threads, t, next);
      if child !in s.threads { SameView(s.threads[t := next], child, Dispatching(at, pick, FanOutCall(session), LookUp)); }
  }

  lemma LiveCallRefines(s: State, t: Id, ok: bool, pick: Id, child: Id)
    requires t in s.threads && (s.threads[t].CheckingRoom? || s.threads[t].InsertingGuest?)
    ensures Refined(s, StepAdvance(s, t, ok, pick, child), L.Nothing)
  {
    QuietFinish(s, t, s.db);
    match s.threads[t]
    case CheckingRoom(at, participant) => QuietMove(s, t, s.db, Dispatching(at, participant, LiveCall, LookUp));
    case InsertingGuest(at, name, phone) =>
      QuietMove(s, t, InsertParticipant(s.db, at.workspace, at.room, Listener, name, phone), Dispatching(at, s.db.nextId, LiveCall, LookUp));
  }

  lemma FindHostRefines(s: State, t: Id, leg: Id, session: Id)
    requires t in s.threads && s.threads[t] == FindingHostSession(leg)
    ensures var l := if IsHostSessionOf(s.db, leg, session) then L.Bind(t, session) else L.Nothing;
            Refined(s, StepFindHost(s, t, leg, session), l)
  {
    Stutter(s);
    QuietFinish(s, t, s.db);
    if IsHostSessionOf(s.db, leg, session) {
      var row := s.db.sessions[session];
      NewView(s.threads, t, ClosingSession(session, Place(row.workspace, row.room),
                                           if row.status == SessionStarting then SessionFailed else SessionEnded));
    }
  }

  lemma ActivatorRefines(s: State, t: Id, ok: bool, pick: Id, child: Id)
    requires t in s.threads && IsActivator(s.threads[t]) && ThreadOk(s.db, s.threads[t])
    ensures Refined(s, StepActivator(s, t, ok, pick, child), AdvanceEffect(s, t, ok, pick))
  {
    if s.threads[t].Polling? {
      PollingRefines(s, t, ok, pick, child);
    } else if s.threads[t].ListingListeners? || s.threads[t].FanningOut? {
      FanOutRefines(s, t, ok, pick, child);
    } else if s.threads[t].Promoting? {
      PromotionRefines(s, t, ok, pick, child);
    } else if s.threads[t].MarkingRunning? {
      MarkingRefines(s, t, ok, pick, child);
    } else {
      CloseRefines(s, t, s.threads[t].session, s.threads[t].at, {SessionStarting}, SessionFailed, ANY_ROOM_STATE);
    }
  }

  lemma AdvanceRefines(s: State, t: Id, ok: bool, pick: Id, child: Id)
    requires Good(s) && t in s.threads
    ensures Refined(s, StepAdvance(s, t, ok, pick, child), AdvanceEffect(s, t, ok, pick))
  {
    assert ThreadOk(s.db, s.threads[t]);
    if s.threads[t].Dispatching? {
      DispatchRefines(s, t, ok);
    } else if IsActivator(s.threads[t]) {
      ActivatorRefines(s, t, ok, pick, child);
    } else if IsStopper(s.threads[t]) {
      EndingRefines(s, t, ok, pick);
    } else if s.threads[t].FindingHostSession? {
      FindHostRefines(s, t, s.threads[t].leg, pick);
    } else if s.threads[t].FailingSession? || s.threads[t].ClosingSession? {
      ClosersRefine(s, t, ok, pick, child);
    } else if s.threads[t].ResettingRoom? {
      ResetRefines(s, t, ok, pick, child);
    } else {
      LiveCallRefines(s, t, ok, pick, child);
    }
  }

  lemma StartRefines(s: State, t: Id, at: Place, host: Id)
    requires Good(s)
    ensures Refined(s, StepStart(s, t, at, host), EffectOf(s, Start(t, at, host)))
  {
    if t in s.threads || !StartAllowed(s.db, at) {
      Stutter(s);
    } else {
      var db := EnsureHost(s.db, at);
      if HasActive(db, at.room) || !IsHostOf(db, at.room, host) {
        Stutter(s);
      } else {
        BeginRefines(s, t, at, host, db);
      }
    }
  }

  lemma Started(db: Db, at: Place)
    requires RoomIn(db, at.workspace, at.room) && db.rooms[at.room].state == Ready && !HasActive(db, at.room)
    ensures var db' := Begun(db, at);
            && RoomStates(db'.rooms) == RoomStates(db.rooms)[at.room := Starting]
            && SessionRows(db'.sessions) == SessionRows(db.sessions)[db.nextId := L.Row(at.room, SessionStarting)]
            && db'.nextId == db.nextId + 1
  {
    var db1 := InsertSession(db, at.workspace, at.room);
    assert db1.rooms == db.rooms && db1.rooms[at.room].state in ANY_ROOM_STATE;
    StateWritten(db.rooms, at.room, Starting);
    SessionBegun(db.sessions, db.nextId, Session(at.workspace, at.room, SessionStarting));
  }

  lemma BeginRefines(s: State, t: Id, at: Place, host: Id, db: Db)
    requires IdsBelow(s.db) && t !in s.threads && StartAllowed(s.db, at) && db == EnsureHost(s.db, at)
    requires !HasActive(db, at.room) && IsHostOf(db, at.room, host)
    ensures Refined(s, StepStart(s, t, at, host), L.Begin(t, at.room, db.nextId))
    ensures StepStart(s, t, at, host) != s
  {
    assert db.rooms == s.db.rooms && db.sessions == s.db.sessions && s.db.nextId <= db.nextId;
    Started(db, at);
    NewView(s.threads, t, Dispatching(at, host, HostCall(db.nextId), LookUp));
    NoneActive(s, at.room);
    assert t in StepStart(s, t, at, host).threads;
  }

  lemma SessionBegun(sessions: map<Id, Session>, x: Id, row: Session)
    ensures SessionRows(sessions[x := row]) == SessionRows(sessions)[x := L.Row(row.room, row.status)]
  {
  }

  lemma NoneActive(s: State, room: Id)
    ensures HasActive(s.db, room) <==> L.SomeActive(LifeOf(s), room)
  {
    if HasActive(s.db, room) {
      var x :| x in s.db.sessions && s.db.sessions[x].room == room && IsActive(s.db.sessions[x].status);
      assert L.ActiveIn(LifeOf(s), x, room);
    }
  }

  lemma StopRefines(s: State, t: Id, at: Place, session: Id)
    ensures Refined(s, StepStop(s, t, at, session), EffectOf(s, Stop(t, at, session)))
  {
    Stutter(s);
    NewView(s.threads, t, ListingLegs(session, at));
  }

  lemma ArrivalRefines(s: State, a: Action)
    requires a.Event? || a.Dial? || a.AddBack? || a.WriteLeg? || a.AddMember? || a.ConfigureRoom?
    ensures Refined(s, Step(s, a), L.Nothing)
  {
    Stutter(s);
    match a
    case Event(t, leg, state) => if t !in s.threads { SameView(s.threads, t, FindingHostSession(leg)); }
    case Dial(t, at, name, phone) => if t !in s.threads { SameView(s.threads, t, InsertingGuest(at, if Text.Blank(name) then phone else name, phone)); }
    case AddBack(t, workspace, participant) =>
      if t !in s.threads && participant in s.db.participants {
        SameView(s.threads, t, CheckingRoom(Place(workspace, s.db.participants[participant].room), participant));
      }
    case ConfigureRoom(room, limit, tfn) =>
      assert RoomStates(SetRoomLimits(s.db, room, limit, tfn).rooms) == RoomStates(s.db.rooms);
    case _ =>
  }

  lemma CascadePeople(db: Db, participants: set<Id>)
    ensures Aside(db, Cascade(db, {}, participants))
  {
    assert Cascade(db, {}, participants).rooms == db.rooms;
    assert Cascade(db, {}, participants).sessions == db.sessions;
  }

  lemma SameStates(db: Db, room: Id, row: Room)
    requires room in db.rooms && row.state == db.rooms[room].state
    ensures RoomStates(db.rooms[room := row]) == RoomStates(db.rooms)
  {
  }

  lemma HostUpdated(db: Db, at: Place, host: Id, name: string, phone: string)
    ensures Aside(db, SetDesired(SetContact(db, at.workspace, host, name, phone), at.workspace, host, ANY_DESIRED, DesiredActive))
  {
    var db1 := SetContact(db, at.workspace, host, name, phone);
    assert Aside(db, db1);
    assert Aside(db1, SetDesired(db1, at.workspace, host, ANY_DESIRED, DesiredActive));
  }

  lemma HostInserted(db: Db, at: Place, name: string, phone: string)
    ensures Aside(db, InsertParticipant(db, at.workspace, at.room, Host, name, phone))
  {
  }

  lemma SaveHostRefines(s: State, at: Place, host: Id, givenName: string, givenPhone: string)
    ensures Refined(s, Step(s, SaveHost(at, host, givenName, givenPhone)), L.Nothing)
  {
    Stutter(s);
    var name, phone := Text.Trim(givenName), Text.Trim(givenPhone);
    if NotRunning(s.db, at) {
      SameStates(s.db, at.room, s.db.rooms[at.room].(hostName := name, hostPhone := phone));
      var db1 := SetHostCopy(s.db, at.workspace, at.room, name, phone);
      HostUpdated(db1, at, host, name, phone);
      HostInserted(db1, at, name, phone);
    }
  }

  lemma ClearHostRefines(s: State, at: Place)
    ensures Refined(s, Step(s, ClearHost(at)), L.Nothing)
  {
    Stutter(s);
    if NotRunning(s.db, at) {
      SameStates(s.db, at.room, s.db.rooms[at.room].(hostName := "", hostPhone := ""));
      var db1 := SetHostCopy(s.db, at.workspace, at.room, "", "");
      CascadePeople(db1, set p | p in db1.participants && db1.participants[p].room == at.room
                                 && db1.participants[p].workspace == at.workspace && db1.participants[p].role == Host);
    }
  }

  lemma RemoveMemberRefines(s: State, workspace: Id, participant: Id)
    ensures Refined(s, Step(s, RemoveMember(workspace, participant)), L.Nothing)
  {
    Stutter(s);
    CascadePeople(s.db, {participant});
  }

  lemma CreateRoomRefines(s: State, workspace: Id, limit: int)
    ensures Refined(s, Step(s, CreateRoom(workspace, limit)), L.AddRoom)
  {
    assert RoomStates(s.db.rooms[s.db.nextId := Room(workspace, Ready, "", "", limit, false)])
        == RoomStates(s.db.rooms)[s.db.nextId := Ready];
  }

  lemma RemoveRoomRefines(s: State, at: Place)
    ensures Refined(s, Step(s, RemoveRoom(at)), EffectOf(s, RemoveRoom(at)))
  {
    Stutter(s);
    if RemoveRoomTx(s.db, at) != s.db {
      var db := DeleteItemsOfRoom(s.db, at.room);
      CascadeRoom(db, at.room);
    }
  }

  lemma CascadeRoom(db: Db, room: Id)
    ensures var db' := Cascade(db, {room}, {});
            && RoomStates(db'.rooms) == RoomStates(db.rooms) - {room} && db'.nextId == db.nextId
            && SessionRows(db'.sessions)
               == map x | x in SessionRows(db.sessions) && SessionRows(db.sessions)[x].room != room :: SessionRows(db.sessions)[x]
  {
  }

  /** Every action of the protocol is a step of the lifecycle machine. */
  lemma StepRefines(s: State, a: Action)
    requires Good(s)
    ensures Refined(s, Step(s, a), EffectOf(s, a))
  {
    match a
    case Start(t, at, host) => StartRefines(s, t, at, host);
    case Stop(t, at, session) => StopRefines(s, t, at, session);
    case Advance(t, ok, pick, child) =>
      if t in s.threads { AdvanceRefines(s, t, ok, pick, child); } else { Stutter(s); }
    case CreateRoom(workspace, limit) => CreateRoomRefines(s, workspace, limit);
    case SaveHost(at, host, name, phone) => SaveHostRefines(s, at, host, name, phone);
    case ClearHost(at) => ClearHostRefines(s, at);
    case RemoveMember(workspace, participant) => RemoveMemberRefines(s, workspace, participant);
    case RemoveRoom(at) => RemoveRoomRefines(s, at);
    case _ => ArrivalRefines(s, a);
  }
}
