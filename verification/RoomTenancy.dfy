/** The room protocol, statement by statement: foreign keys, workspaces and indexes hold in every
    reachable state, what a thread holds stays true of the tables, and a handler's statements
    touch its own workspace only. */
module RoomTenancy {
  import opened Options
  import opened Tables
  import opened Isolation
  import opened Statements
  import opened RoomProtocol
  import Text

  // ---- What a thread holds ----

  function PlaceOf(th: Thread): Option<Place> {
    if th.FindingHostSession? then None else Some(th.at)
  }

  function SessionOf(th: Thread): Option<Id> {
    match th
    case Dispatching(_, _, purpose, _) => if purpose.LiveCall? then None else Some(purpose.session)
    case FindingHostSession(_) => None
    case CheckingRoom(_, _) => None
    case InsertingGuest(_, _, _) => None
    case _ => Some(th.session)
  }

  function PersonOf(th: Thread): Option<Id> {
    match th
    case Dispatching(_, participant, _, _) => Some(participant)
    case CheckingRoom(_, participant) => Some(participant)
    case _ => None
  }

  function LegOf(th: Thread): Option<Id> {
    match th
    case Dispatching(_, _, _, step) => if step.LookUp? || step.InsertingLeg? then None else Some(step.leg)
    case Polling(_, _, leg) => Some(leg)
    case Promoting(_, _, leg) => Some(leg)
    case MarkingRunning(_, _, leg) => Some(leg)
    case ListingListeners(_, _, leg) => Some(leg)
    case FanningOut(_, _, leg, _) => Some(leg)
    case _ => None
  }

  function TodoOf(th: Thread): set<Id> { if th.FanningOut? then th.todo else {} }

  // A held id was issued, and its row, while it exists, is of the thread's room.

  predicate PlaceHeld(db: Db, at: Place) {
    at.room < db.nextId && (at.room in db.rooms ==> db.rooms[at.room].workspace == at.workspace)
  }

  predicate SessionHeld(db: Db, at: Place, session: Id) {
    session < db.nextId && (session in db.sessions ==> db.sessions[session].room == at.room)
  }

  predicate PersonHeld(db: Db, at: Place, participant: Id) {
    participant < db.nextId && (participant in db.participants ==> db.participants[participant].room == at.room)
  }

  predicate LegHeld(db: Db, at: Place, leg: Id) {
    leg < db.nextId && (leg in db.legs ==> db.legs[leg].room == at.room)
  }

  ghost predicate ThreadOk(db: Db, th: Thread) {
    && (PlaceOf(th).Some? ==>
          && PlaceHeld(db, th.at)
          && (SessionOf(th).Some? ==> SessionHeld(db, th.at, SessionOf(th).value))
          && (PersonOf(th).Some? ==> PersonHeld(db, th.at, PersonOf(th).value))
          && (LegOf(th).Some? ==> LegHeld(db, th.at, LegOf(th).value))
          && (forall p | p in TodoOf(th) :: PersonHeld(db, th.at, p)))
    && (th.ClosingSession? ==> !IsActive(th.terminal))
    && (th.ResettingRoom? ==> {Starting, Running} <= th.from)
  }

  ghost predicate ThreadsOk(s: State) {
    forall t | t in s.threads :: ThreadOk(s.db, s.threads[t])
  }

  ghost predicate Good(s: State) { Sound(s.db) && ThreadsOk(s) }

  lemma StableThread(db: Db, db': Db, th: Thread)
    requires Stable(db, db') && ThreadOk(db, th)
    ensures ThreadOk(db', th)
  {
  }

  lemma StableThreads(s: State, db: Db)
    requires Stable(s.db, db) && ThreadsOk(s)
    ensures ThreadsOk(State(db, s.threads))
  {
    forall t | t in s.threads ensures ThreadOk(db, s.threads[t]) { StableThread(s.db, db, s.threads[t]); }
  }

  // ---- The statements that hold nothing across them ----

  /** The workspace an action runs for, where it is one handler's. */
  ghost function WorkspaceOf(s: State, a: Action): Id {
    match a
    case Start(_, at, _) => at.workspace
    case Stop(_, at, _) => at.workspace
    case Event(_, leg, _) => if leg in s.db.legs then s.db.legs[leg].workspace else 0
    case Dial(_, at, _, _) => at.workspace
    case AddBack(_, workspace, _) => workspace
    case Advance(t, _, _, _) =>
      if t in s.threads && PlaceOf(s.threads[t]).Some? then s.threads[t].at.workspace else 0
    case CreateRoom(workspace, _) => workspace
    case ConfigureRoom(room, _, _) => if room in s.db.rooms then s.db.rooms[room].workspace else 0
    case SaveHost(at, _, _, _) => at.workspace
    case ClearHost(at) => at.workspace
    case AddMember(at, _, _, _) => at.workspace
    case RemoveMember(workspace, _) => workspace
    case RemoveRoom(at) => at.workspace
    case WriteLeg(leg, _) => if leg in s.db.legs then s.db.legs[leg].workspace else 0
  }

  lemma SaveHostWithin(db: Db, at: Place, host: Id, name: string, phone: string)
    requires Sound(db)
    ensures Within(db, SaveHostTx(db, at, host, name, phone), at.workspace)
  {
    if !NotRunning(db, at) || Text.Blank(name) || Text.Blank(phone) || (HasHost(db, at.room) && !IsHostOf(db, at.room, host)) {
      Same(db, at.workspace);
    } else {
      var db1 := SetHostCopy(db, at.workspace, at.room, name, phone);
      SetHostCopyWithin(db, at.workspace, at.room, name, phone);
      if HasHost(db, at.room) {
        var db2 := SetContact(db1, at.workspace, host, name, phone);
        SetContactWithin(db1, at.workspace, host, name, phone);
        SetDesiredWithin(db2, at.workspace, host, ANY_DESIRED, DesiredActive);
        Then(db, db1, db2, at.workspace);
        Then(db, db2, SaveHostTx(db, at, host, name, phone), at.workspace);
      } else {
        InsertParticipantWithin(db1, at.workspace, at.room, Host, name, phone);
        Then(db, db1, SaveHostTx(db, at, host, name, phone), at.workspace);
      }
    }
  }

  lemma DeleteHostsWithin(db: Db, at: Place)
    requires Sound(db)
    ensures Within(db, DeleteHosts(db, at.workspace, at.room), at.workspace)
  {
    CascadeWithin(db, at.workspace, {}, set p | p in db.participants && db.participants[p].room == at.room
                                                && db.participants[p].workspace == at.workspace && db.participants[p].role == Host);
  }

  lemma ClearHostWithin(db: Db, at: Place)
    requires Sound(db)
    ensures Within(db, ClearHostTx(db, at), at.workspace)
  {
    if NotRunning(db, at) {
      var db1 := SetHostCopy(db, at.workspace, at.room, "", "");
      SetHostCopyWithin(db, at.workspace, at.room, "", "");
      DeleteHostsWithin(db1, at);
      Then(db, db1, ClearHostTx(db, at), at.workspace);
    } else {
      Same(db, at.workspace);
    }
  }

  lemma RemoveRoomWithin(db: Db, at: Place)
    requires Sound(db)
    ensures Within(db, RemoveRoomTx(db, at), at.workspace)
  {
    if !RoomIn(db, at.workspace, at.room) || (exists l :: l in db.legs && db.legs[l].room == at.room && !IsTerminal(db.legs[l].state)) {
      Same(db, at.workspace);
    } else {
      DeleteRoomWithin(db, at);
    }
  }

  lemma DeleteRoomWithin(db: Db, at: Place)
    requires Sound(db) && RoomIn(db, at.workspace, at.room)
    ensures Within(db, DeleteRoom(DeleteItemsOfRoom(db, at.room), at.room), at.workspace)
  {
    var db1 := DeleteItemsOfRoom(db, at.room);
    DeleteItemsOfRoomWithin(db, at.workspace, at.room);
    RoomOwned(db1, at);
    CascadeWithin(db1, at.workspace, {at.room}, {});
    Then(db, db1, DeleteRoom(db1, at.room), at.workspace);
  }

  predicate OfSession(db: Db, a: Id, room: Id)
    requires a in db.attendance
  {
    db.attendance[a].session in db.sessions && db.sessions[db.attendance[a].session].room == room
  }

  predicate OfBatch(db: Db, i: Id, room: Id)
    requires i in db.items
  {
    db.items[i].batch in db.batches && db.batches[db.items[i].batch].room == room
  }

  /** No table has a row of the room. */
  ghost predicate NoneOf(db: Db, room: Id) {
    && room !in db.rooms
    && (forall k | k in db.participants :: db.participants[k].room != room)
    && (forall k | k in db.sessions :: db.sessions[k].room != room)
    && (forall k | k in db.legs :: db.legs[k].room != room)
    && (forall k | k in db.requests :: db.requests[k].room != room)
    && (forall k | k in db.batches :: db.batches[k].room != room)
    && (forall k | k in db.attendance :: !OfSession(db, k, room))
    && (forall k | k in db.items :: !OfBatch(db, k, room))
  }

  /** Deleting a room without a live leg leaves no row of it in any table. */
  lemma DeleteTakesAll(db: Db, at: Place)
    requires RoomIn(db, at.workspace, at.room) && forall l :: l in db.legs && db.legs[l].room == at.room ==> IsTerminal(db.legs[l].state)
    ensures NoneOf(RemoveRoomTx(db, at), at.room)
  {
    var db1 := DeleteItemsOfRoom(db, at.room);
    assert RemoveRoomTx(db, at) == DeleteRoom(db1, at.room);
    NoneLeft(db1, at.room);
  }

  lemma NoneLeft(db: Db, room: Id)
    ensures NoneOf(DeleteRoom(db, room), room)
  {
  }

  lemma RoomOwned(db: Db, at: Place)
    requires at.room in db.rooms ==> db.rooms[at.room].workspace == at.workspace
    ensures Owned(db, at.workspace, {at.room}, {})
  {
  }

  lemma DeleteListenerWithin(db: Db, workspace: Id, participant: Id)
    requires Sound(db)
    ensures Within(db, DeleteListener(db, workspace, participant), workspace)
  {
    if participant in db.participants && db.participants[participant].workspace == workspace
       && db.participants[participant].role != Host {
      CascadeWithin(db, workspace, {}, {participant});
    } else {
      Same(db, workspace);
    }
  }

  lemma AddMemberWithin(db: Db, a: Action)
    requires Sound(db) && a.AddMember?
    ensures Within(db, StepDb(db, a), a.at.workspace)
  {
    Same(db, a.at.workspace);
    if RoomIn(db, a.at.workspace, a.at.room) { InsertParticipantWithin(db, a.at.workspace, a.at.room, a.role, a.name, a.phone); }
  }

  lemma WriteLegWithin(db: Db, workspace: Id, leg: Id, state: LegState)
    requires Sound(db) && (leg in db.legs ==> db.legs[leg].workspace == workspace)
    ensures Within(db, StepDb(db, WriteLeg(leg, state)), workspace)
  {
    SetLegStateWithin(db, workspace, leg, state);
    Same(db, workspace);
  }

  lemma HostDbWithin(db: Db, a: Action)
    requires Sound(db) && (a.SaveHost? || a.ClearHost? || a.RemoveRoom?)
    ensures Within(db, StepDb(db, a), a.at.workspace)
  {
    match a
    case SaveHost(at, host, name, phone) => SaveHostWithin(db, at, host, Text.Trim(name), Text.Trim(phone));
    case ClearHost(at) => ClearHostWithin(db, at);
    case RemoveRoom(at) => RemoveRoomWithin(db, at);
  }

  lemma RoomDbWithin(db: Db, a: Action, workspace: Id)
    requires Sound(db) && (a.CreateRoom? || a.ConfigureRoom?)
    requires a.CreateRoom? ==> workspace == a.workspace
    requires a.ConfigureRoom? ==> (a.room in db.rooms ==> db.rooms[a.room].workspace == workspace)
    ensures Within(db, StepDb(db, a), workspace)
  {
    match a
    case CreateRoom(_, limit) => InsertRoomWithin(db, workspace, limit);
    case ConfigureRoom(room, limit, tfn) => SetRoomLimitsWithin(db, workspace, room, limit, tfn);
  }

  lemma RemoveMemberWithin(db: Db, workspace: Id, participant: Id)
    requires Sound(db)
    ensures Within(db, StepDb(db, RemoveMember(workspace, participant)), workspace)
  {
    DeleteListenerWithin(db, workspace, participant);
  }

  lemma DbWithin(s: State, a: Action)
    requires Sound(s.db)
    ensures Within(s.db, StepDb(s.db, a), WorkspaceOf(s, a))
  {
    if a.CreateRoom? || a.ConfigureRoom? {
      RoomDbWithin(s.db, a, WorkspaceOf(s, a));
    } else if a.SaveHost? || a.ClearHost? || a.RemoveRoom? {
      HostDbWithin(s.db, a);
    } else if a.AddMember? {
      AddMemberWithin(s.db, a);
    } else if a.RemoveMember? {
      RemoveMemberWithin(s.db, a.workspace, a.participant);
    } else if a.WriteLeg? {
      WriteLegWithin(s.db, WorkspaceOf(s, a), a.leg, a.state);
    } else {
      Same(s.db, WorkspaceOf(s, a));
    }
  }

  // ---- Threads ----

  /** What one action keeps. */
  ghost predicate StepsWell(s: State, s': State, workspace: Id) {
    Within(s.db, s'.db, workspace) && ThreadsOk(s')
  }

  lemma Stutters(s: State, workspace: Id)
    requires Good(s)
    ensures StepsWell(s, s, workspace)
  {
    Same(s.db, workspace);
  }

  lemma Becomes(s: State, t: Id, db: Db, th: Thread, workspace: Id)
    requires Good(s) && Within(s.db, db, workspace) && ThreadOk(db, th)
    ensures StepsWell(s, Become(s, t, db, th), workspace)
  {
    StableThreads(s, db);
  }

  /** The next program counter holds nothing the last one did not. */
  predicate Continues(th: Thread, next: Thread) {
    && PlaceOf(th).Some? && PlaceOf(next) == PlaceOf(th) && !next.ClosingSession?
    && (next.ResettingRoom? ==> {Starting, Running} <= next.from)
    && (SessionOf(next).Some? ==> SessionOf(next) == SessionOf(th))
    && (PersonOf(next).Some? ==> PersonOf(next) == PersonOf(th))
    && (LegOf(next).Some? ==> LegOf(next) == LegOf(th))
    && TodoOf(next) <= TodoOf(th)
  }

  lemma Moves(s: State, t: Id, db: Db, next: Thread)
    requires Good(s) && t in s.threads && Continues(s.threads[t], next) && Within(s.db, db, next.at.workspace)
    ensures StepsWell(s, Become(s, t, db, next), next.at.workspace)
  {
    StableThread(s.db, db, s.threads[t]);
    assert ThreadOk(db, next);
    Becomes(s, t, db, next, next.at.workspace);
  }

  lemma Finishes(s: State, t: Id, db: Db, workspace: Id)
    requires Good(s) && Within(s.db, db, workspace)
    ensures StepsWell(s, Finish(s, t, db), workspace)
  {
    StableThreads(s, db);
  }

  lemma StartWithin(db: Db, at: Place)
    requires Sound(db) && RoomIn(db, at.workspace, at.room)
    ensures Within(db, EnsureHost(db, at), at.workspace)
    ensures RoomIn(EnsureHost(db, at), at.workspace, at.room)
  {
    if HasHost(db, at.room) {
      Same(db, at.workspace);
    } else {
      InsertParticipantWithin(db, at.workspace, at.room, Host, db.rooms[at.room].hostName, db.rooms[at.room].hostPhone);
    }
  }

  lemma StartSteps(s: State, t: Id, at: Place, host: Id)
    requires Good(s)
    ensures StepsWell(s, StepStart(s, t, at, host), at.workspace)
  {
    if t in s.threads || !StartAllowed(s.db, at) {
      Stutters(s, at.workspace);
    } else {
      var db := EnsureHost(s.db, at);
      StartWithin(s.db, at);
      if HasActive(db, at.room) || !IsHostOf(db, at.room, host) {
        Stutters(s, at.workspace);
      } else {
        var db1 := InsertSession(db, at.workspace, at.room);
        InsertSessionWithin(db, at.workspace, at.room);
        Then(s.db, db, db1, at.workspace);
        var db2 := SetRoomState(db1, at.workspace, at.room, ANY_ROOM_STATE, Starting);
        SetRoomStateWithin(db1, at.workspace, at.room, ANY_ROOM_STATE, Starting);
        Then(s.db, db1, db2, at.workspace);
        StartedThread(db, db2, at, host);
        Becomes(s, t, db2, Dispatching(at, host, HostCall(db.nextId), LookUp), at.workspace);
      }
    }
  }

  lemma StartedThread(db: Db, db2: Db, at: Place, host: Id)
    requires IdsBelow(db) && RoomIn(db, at.workspace, at.room) && IsHostOf(db, at.room, host) && !HasActive(db, at.room)
    requires db2 == Begun(db, at)
    ensures ThreadOk(db2, Dispatching(at, host, HostCall(db.nextId), LookUp))
  {
  }

  lemma LookUpSteps(s: State, t: Id, ok: bool)
    requires Good(s) && t in s.threads && s.threads[t].Dispatching? && s.threads[t].step.LookUp?
    ensures StepsWell(s, StepDispatch(s, t, ok), s.threads[t].at.workspace)
  {
    var Dispatching(at, participant, purpose, _) := s.threads[t];
    assert ThreadOk(s.db, s.threads[t]);
    Same(s.db, at.workspace);
    DispatchFails(s, t, s.db, at, purpose);
    if participant in s.db.participants {
      Moves(s, t, s.db, Dispatching(at, participant, purpose, InsertingLeg(s.db.participants[participant].role)));
    }
  }

  lemma InsertingLegSteps(s: State, t: Id, ok: bool)
    requires Good(s) && t in s.threads && s.threads[t].Dispatching? && s.threads[t].step.InsertingLeg?
    ensures StepsWell(s, StepDispatch(s, t, ok), s.threads[t].at.workspace)
  {
    var db := s.db;
    var Dispatching(at, participant, purpose, InsertingLeg(role)) := s.threads[t];
    assert ThreadOk(db, s.threads[t]);
    if participant in db.participants && at.room in db.rooms {
      var db' := InsertLeg(db, at.workspace, participant, at.room, role != Host);
      InsertLegWithin(db, at.workspace, participant, at.room, role != Host);
      NewLegHeld(db, at, participant, role != Host);
      StableThread(db, db', s.threads[t]);
      Becomes(s, t, db', Dispatching(at, participant, purpose, Originating(db.nextId, role)), at.workspace);
    } else {
      Same(db, at.workspace);
      DispatchFails(s, t, db, at, purpose);
    }
  }

  lemma NewLegHeld(db: Db, at: Place, participant: Id, muted: bool)
    requires participant in db.participants && at.room in db.rooms
    ensures LegHeld(InsertLeg(db, at.workspace, participant, at.room, muted), at, db.nextId)
  {
  }

  lemma OriginatedSteps(s: State, t: Id, ok: bool)
    requires Good(s) && t in s.threads && s.threads[t].Dispatching?
    requires s.threads[t].step.Originating? || s.threads[t].step.MarkingFailed?
    ensures StepsWell(s, StepDispatch(s, t, ok), s.threads[t].at.workspace)
  {
    var db := s.db;
    var Dispatching(at, participant, purpose, step) := s.threads[t];
    assert ThreadOk(db, s.threads[t]);
    match step
    case Originating(leg, role) =>
      Same(db, at.workspace);
      Moves(s, t, db, Dispatching(at, participant, purpose, if ok then SettingDesired(leg, role) else MarkingFailed(leg)));
    case MarkingFailed(leg) =>
      HeldLegWorkspace(db, at, leg);
      SetLegStateWithin(db, at.workspace, leg, Failed);
      DispatchFails(s, t, SetLegState(db, leg, Failed), at, purpose);
  }

  lemma SettingDesiredSteps(s: State, t: Id, ok: bool)
    requires Good(s) && t in s.threads && s.threads[t].Dispatching? && s.threads[t].step.SettingDesired?
    ensures StepsWell(s, StepDispatch(s, t, ok), s.threads[t].at.workspace)
  {
    var db := s.db;
    var Dispatching(at, participant, purpose, SettingDesired(leg, role)) := s.threads[t];
    var to := if role == Host then DesiredActive else DesiredMuted;
    var db' := SetDesired(db, at.workspace, participant, ANY_DESIRED, to);
    SetDesiredWithin(db, at.workspace, participant, ANY_DESIRED, to);
    if purpose.LiveCall? {
      Finishes(s, t, db', at.workspace);
    } else {
      Moves(s, t, db', Dispatching(at, participant, purpose, Recording(leg, role)));
    }
  }

  lemma RecordingSteps(s: State, t: Id, ok: bool)
    requires Good(s) && t in s.threads && s.threads[t].Dispatching? && s.threads[t].step.Recording?
    ensures StepsWell(s, StepDispatch(s, t, ok), s.threads[t].at.workspace)
  {
    var db := s.db;
    var Dispatching(at, participant, purpose, Recording(leg, role)) := s.threads[t];
    assert ThreadOk(db, s.threads[t]);
    if purpose.LiveCall? {
      Same(db, at.workspace);
      DispatchSucceeds(s, t, db, at, purpose, leg);
    } else {
      HeldSessionWorkspace(db, at, purpose.session);
      InsertAttendanceWithin(db, purpose.session, participant, leg, role, at.workspace, at.room);
      DispatchSucceeds(s, t, InsertAttendance(db, purpose.session, participant, leg, role), at, purpose, leg);
    }
  }

  lemma DispatchSteps(s: State, t: Id, ok: bool)
    requires Good(s) && t in s.threads && s.threads[t].Dispatching?
    ensures StepsWell(s, StepDispatch(s, t, ok), s.threads[t].at.workspace)
  {
    match s.threads[t].step
    case LookUp => LookUpSteps(s, t, ok);
    case InsertingLeg(_) => InsertingLegSteps(s, t, ok);
    case Originating(_, _) => OriginatedSteps(s, t, ok);
    case MarkingFailed(_) => OriginatedSteps(s, t, ok);
    case SettingDesired(_, _) => SettingDesiredSteps(s, t, ok);
    case Recording(_, _) => RecordingSteps(s, t, ok);
  }

  lemma HeldLegWorkspace(db: Db, at: Place, leg: Id)
    requires Sound(db) && PlaceHeld(db, at) && LegHeld(db, at, leg)
    ensures leg in db.legs ==> db.legs[leg].workspace == at.workspace
  {
    if leg in db.legs { assert at.room in Tenants(db.rooms); }
  }

  lemma HeldPersonWorkspace(db: Db, at: Place, participant: Id)
    requires Sound(db) && RoomIn(db, at.workspace, at.room)
    requires participant in db.participants && db.participants[participant].room == at.room
    ensures db.participants[participant].workspace == at.workspace
  {
    assert at.room in Tenants(db.rooms);
  }

  lemma HeldSessionWorkspace(db: Db, at: Place, session: Id)
    requires Sound(db) && PlaceHeld(db, at) && SessionHeld(db, at, session)
    ensures session in db.sessions ==> db.sessions[session].workspace == at.workspace
  {
    if session in db.sessions { assert at.room in Tenants(db.rooms); }
  }

  lemma DispatchFails(s: State, t: Id, db: Db, at: Place, purpose: Purpose)
    requires Good(s) && t in s.threads && s.threads[t].Dispatching? && s.threads[t].at == at && s.threads[t].purpose == purpose
    requires Within(s.db, db, at.workspace)
    ensures StepsWell(s, DispatchFailed(s, t, db, at, purpose), at.workspace)
  {
    Finishes(s, t, db, at.workspace);
    if purpose.HostCall? { Moves(s, t, db, FailingSession(purpose.session, at)); }
  }

  lemma DispatchSucceeds(s: State, t: Id, db: Db, at: Place, purpose: Purpose, leg: Id)
    requires Good(s) && t in s.threads && s.threads[t].Dispatching? && s.threads[t].at == at && s.threads[t].purpose == purpose
    requires LegOf(s.threads[t]) == Some(leg) && Within(s.db, db, at.workspace)
    ensures StepsWell(s, DispatchDone(s, t, db, at, purpose, leg), at.workspace)
  {
    Finishes(s, t, db, at.workspace);
    if purpose.HostCall? { Moves(s, t, db, Polling(purpose.session, at, leg)); }
  }

  predicate IsActivator(th: Thread) {
    th.Polling? || th.Promoting? || th.MarkingRunning? || th.ListingListeners? || th.FanningOut? || th.GivingUp?
  }

  lemma PollingSteps(s: State, t: Id, ok: bool, pick: Id, child: Id)
    requires Good(s) && t in s.threads && s.threads[t].Polling?
    ensures StepsWell(s, StepActivator(s, t, ok, pick, child), s.threads[t].at.workspace)
  {
    var Polling(session, at, leg) := s.threads[t];
    assert ThreadOk(s.db, s.threads[t]);
    Stutters(s, at.workspace);
    Same(s.db, at.workspace);
    Moves(s, t, s.db, GivingUp(session, at));
    Moves(s, t, s.db, Promoting(session, at, leg));
  }

  lemma PromotionSteps(s: State, t: Id, ok: bool, pick: Id, child: Id)
    requires Good(s) && t in s.threads && (s.threads[t].Promoting? || s.threads[t].MarkingRunning?)
    ensures StepsWell(s, StepActivator(s, t, ok, pick, child), s.threads[t].at.workspace)
  {
    var db := s.db;
    assert ThreadOk(db, s.threads[t]);
    match s.threads[t]
    case Promoting(session, at, leg) =>
      HeldSessionWorkspace(db, at, session);
      if session in db.sessions && db.sessions[session].status == SessionStarting {
        SetSessionStatusWithin(db, at.workspace, session, {SessionStarting}, SessionRunning);
        Moves(s, t, SetSessionStatus(db, session, {SessionStarting}, SessionRunning), MarkingRunning(session, at, leg));
      } else {
        Same(db, at.workspace);
        Finishes(s, t, db, at.workspace);
      }
    case MarkingRunning(session, at, leg) =>
      SetRoomStateWithin(db, at.workspace, at.room, {Starting}, Running);
      Moves(s, t, SetRoomState(db, at.workspace, at.room, {Starting}, Running), ListingListeners(session, at, leg));
  }

  lemma FanOutSteps(s: State, t: Id, ok: bool, pick: Id, child: Id)
    requires Good(s) && t in s.threads && (s.threads[t].ListingListeners? || s.threads[t].FanningOut?)
    ensures StepsWell(s, StepActivator(s, t, ok, pick, child), s.threads[t].at.workspace)
  {
    var db := s.db;
    var th := s.threads[t];
    assert ThreadOk(db, th);
    var w := th.at.workspace;
    Same(db, w);
    match th
    case ListingListeners(session, at, leg) =>
      ListenersHeld(db, at);
      Becomes(s, t, db, FanningOut(session, at, leg, ListenersOf(db, at)), w);
    case FanningOut(session, at, leg, todo) =>
      if pick in todo && child !in s.threads {
        var s' := Become(s, t, db, FanningOut(session, at, leg, todo - {pick}));
        Becomes(s, t, db, FanningOut(session, at, leg, todo - {pick}), w);
        assert ThreadOk(db, Dispatching(at, pick, FanOutCall(session), LookUp));
        Becomes(s', child, db, Dispatching(at, pick, FanOutCall(session), LookUp), w);
      } else {
        Stutters(s, w);
        Finishes(s, t, db, w);
      }
  }

  lemma ActivatorSteps(s: State, t: Id, ok: bool, pick: Id, child: Id)
    requires Good(s) && t in s.threads && IsActivator(s.threads[t])
    ensures StepsWell(s, StepActivator(s, t, ok, pick, child), s.threads[t].at.workspace)
  {
    match s.threads[t]
    case Polling(_, _, _) => PollingSteps(s, t, ok, pick, child);
    case ListingListeners(_, _, _) => FanOutSteps(s, t, ok, pick, child);
    case FanningOut(_, _, _, _) => FanOutSteps(s, t, ok, pick, child);
    case GivingUp(_, _) => GivingUpSteps(s, t, ok, pick, child);
    case _ => PromotionSteps(s, t, ok, pick, child);
  }

  lemma ListenersHeld(db: Db, at: Place)
    requires IdsBelow(db)
    ensures forall p | p in ListenersOf(db, at) :: PersonHeld(db, at, p)
  {
  }

  predicate IsStopper(th: Thread) { th.ListingLegs? || th.DroppingLegs? || th.EndingSession? }

  lemma DroppingSteps(s: State, t: Id, ok: bool, pick: Id)
    requires Good(s) && t in s.threads && (s.threads[t].ListingLegs? || s.threads[t].DroppingLegs?)
    ensures StepsWell(s, StepStopper(s, t, ok, pick), s.threads[t].at.workspace)
  {
    var db := s.db;
    var w := s.threads[t].at.workspace;
    Same(db, w);
    match s.threads[t]
    case ListingLegs(session, at) =>
      Moves(s, t, db, DroppingLegs(session, at, LiveLegsOf(db, at)));
    case DroppingLegs(session, at, todo) =>
      if pick in todo {
        DropLegWithin(db, w, pick);
        Moves(s, t, if ok then DropLeg(db, w, pick) else db, DroppingLegs(session, at, todo - {pick}));
      } else {
        Stutters(s, w);
        Moves(s, t, db, EndingSession(session, at));
      }
  }

  lemma EndingSteps(s: State, t: Id, ok: bool, pick: Id)
    requires Good(s) && t in s.threads && s.threads[t].EndingSession?
    ensures StepsWell(s, StepStopper(s, t, ok, pick), s.threads[t].at.workspace)
  {
    var db := s.db;
    var EndingSession(session, at) := s.threads[t];
    assert ThreadOk(db, s.threads[t]);
    var next := ResettingRoom(session, at, ANY_ROOM_STATE);
    if session in db.sessions && db.sessions[session].workspace == at.workspace {
      SetSessionStatusWithin(db, at.workspace, session, ANY_SESSION_STATUS, SessionEnded);
      Moves(s, t, SetSessionStatus(db, session, ANY_SESSION_STATUS, SessionEnded), next);
    } else {
      Same(db, at.workspace);
      Moves(s, t, db, next);
    }
  }

  lemma StopperSteps(s: State, t: Id, ok: bool, pick: Id)
    requires Good(s) && t in s.threads && IsStopper(s.threads[t])
    ensures StepsWell(s, StepStopper(s, t, ok, pick), s.threads[t].at.workspace)
  {
    if s.threads[t].EndingSession? { EndingSteps(s, t, ok, pick); } else { DroppingSteps(s, t, ok, pick); }
  }

  lemma FindHostSteps(s: State, t: Id, leg: Id, session: Id, workspace: Id)
    requires Good(s) && t in s.threads
    ensures StepsWell(s, StepFindHost(s, t, leg, session), workspace)
  {
    Same(s.db, workspace);
    if IsHostSessionOf(s.db, leg, session) {
      var row := s.db.sessions[session];
      var terminal := if row.status == SessionStarting then SessionFailed else SessionEnded;
      ActiveHeld(s.db, session, terminal);
      Becomes(s, t, s.db, ClosingSession(session, Place(row.workspace, row.room), terminal), workspace);
    } else {
      Stutters(s, workspace);
      Finishes(s, t, s.db, workspace);
    }
  }

  lemma ActiveHeld(db: Db, session: Id, terminal: SessionStatus)
    requires Sound(db) && session in db.sessions && !IsActive(terminal)
    ensures var at := Place(db.sessions[session].workspace, db.sessions[session].room);
            ThreadOk(db, ClosingSession(session, at, terminal)) && ThreadOk(db, ListingLegs(session, at))
  {
    assert db.sessions[session].room in Tenants(db.rooms);
  }

  /** A held session is closed and the room's READY write comes next. */
  lemma ClosesSession(s: State, t: Id, from: set<SessionStatus>, to: SessionStatus, states: set<RoomState>)
    requires Good(s) && t in s.threads && (s.threads[t].FailingSession? || s.threads[t].ClosingSession? || s.threads[t].GivingUp?)
    requires !IsActive(to) && {Starting, Running} <= states
    ensures var th := s.threads[t];
      StepsWell(s, Become(s, t, SetSessionStatus(s.db, th.session, from, to), ResettingRoom(th.session, th.at, states)), th.at.workspace)
  {
    var th := s.threads[t];
    assert ThreadOk(s.db, th);
    HeldSessionWorkspace(s.db, th.at, th.session);
    SetSessionStatusWithin(s.db, th.at.workspace, th.session, from, to);
    Moves(s, t, SetSessionStatus(s.db, th.session, from, to), ResettingRoom(th.session, th.at, states));
  }

  lemma GivingUpSteps(s: State, t: Id, ok: bool, pick: Id, child: Id)
    requires Good(s) && t in s.threads && s.threads[t].GivingUp?
    ensures StepsWell(s, StepActivator(s, t, ok, pick, child), s.threads[t].at.workspace)
  {
    ClosesSession(s, t, {SessionStarting}, SessionFailed, ANY_ROOM_STATE);
  }

  lemma SessionClosers(s: State, t: Id, ok: bool, pick: Id, child: Id)
    requires Good(s) && t in s.threads && (s.threads[t].FailingSession? || s.threads[t].ClosingSession?)
    ensures StepsWell(s, StepAdvance(s, t, ok, pick, child), s.threads[t].at.workspace)
  {
    assert ThreadOk(s.db, s.threads[t]);
    match s.threads[t]
    case FailingSession(_, _) => ClosesSession(s, t, ANY_SESSION_STATUS, SessionFailed, ANY_ROOM_STATE);
    case ClosingSession(_, _, terminal) => ClosesSession(s, t, ACTIVE_STATUS, terminal, {Starting, Running});
  }

  lemma CheckingSteps(s: State, t: Id, ok: bool, pick: Id, child: Id)
    requires Good(s) && t in s.threads && s.threads[t].CheckingRoom?
    ensures StepsWell(s, StepAdvance(s, t, ok, pick, child), s.threads[t].at.workspace)
  {
    var CheckingRoom(at, participant) := s.threads[t];
    assert ThreadOk(s.db, s.threads[t]);
    Same(s.db, at.workspace);
    Finishes(s, t, s.db, at.workspace);
    Becomes(s, t, s.db, Dispatching(at, participant, LiveCall, LookUp), at.workspace);
  }

  lemma GuestSteps(s: State, t: Id, ok: bool, pick: Id, child: Id)
    requires Good(s) && t in s.threads && s.threads[t].InsertingGuest?
    ensures StepsWell(s, StepAdvance(s, t, ok, pick, child), s.threads[t].at.workspace)
  {
    var db := s.db;
    var InsertingGuest(at, name, phone) := s.threads[t];
    assert ThreadOk(db, s.threads[t]);
    Same(db, at.workspace);
    Finishes(s, t, db, at.workspace);
    if at.room in db.rooms {
      var db' := InsertParticipant(db, at.workspace, at.room, Listener, name, phone);
      InsertParticipantWithin(db, at.workspace, at.room, Listener, name, phone);
      StableThread(db, db', s.threads[t]);
      Becomes(s, t, db', Dispatching(at, db.nextId, LiveCall, LookUp), at.workspace);
    }
  }

  lemma ResettingSteps(s: State, t: Id, ok: bool, pick: Id, child: Id)
    requires Good(s) && t in s.threads && s.threads[t].ResettingRoom?
    ensures StepsWell(s, StepAdvance(s, t, ok, pick, child), s.threads[t].at.workspace)
  {
    var ResettingRoom(_, at, from) := s.threads[t];
    SetRoomStateWithin(s.db, at.workspace, at.room, from, Ready);
    Finishes(s, t, SetRoomState(s.db, at.workspace, at.room, from, Ready), at.workspace);
  }

  /** Threads whose steps have a function of their own. */
  predicate IsOwn(th: Thread) { th.Dispatching? || IsActivator(th) || IsStopper(th) }

  lemma OwnSteps(s: State, t: Id, ok: bool, pick: Id, child: Id)
    requires Good(s) && t in s.threads && IsOwn(s.threads[t])
    ensures StepsWell(s, StepAdvance(s, t, ok, pick, child), s.threads[t].at.workspace)
  {
    if s.threads[t].Dispatching? {
      DispatchSteps(s, t, ok);
    } else if IsActivator(s.threads[t]) {
      ActivatorSteps(s, t, ok, pick, child);
    } else {
      StopperSteps(s, t, ok, pick);
    }
  }

  lemma PlacedSteps(s: State, t: Id, ok: bool, pick: Id, child: Id)
    requires Good(s) && t in s.threads && !s.threads[t].FindingHostSession? && !IsOwn(s.threads[t])
    ensures StepsWell(s, StepAdvance(s, t, ok, pick, child), s.threads[t].at.workspace)
  {
    match s.threads[t]
    case FailingSession(_, _) => SessionClosers(s, t, ok, pick, child);
    case ClosingSession(_, _, _) => SessionClosers(s, t, ok, pick, child);
    case CheckingRoom(_, _) => CheckingSteps(s, t, ok, pick, child);
    case InsertingGuest(_, _, _) => GuestSteps(s, t, ok, pick, child);
    case ResettingRoom(_, _, _) => ResettingSteps(s, t, ok, pick, child);
  }

  lemma FindingSteps(s: State, t: Id, ok: bool, pick: Id, child: Id)
    requires Good(s) && t in s.threads && s.threads[t].FindingHostSession?
    ensures StepsWell(s, StepAdvance(s, t, ok, pick, child), 0)
  {
    FindHostSteps(s, t, s.threads[t].leg, pick, 0);
  }

  lemma AdvanceSteps(s: State, t: Id, ok: bool, pick: Id, child: Id)
    requires Good(s)
    ensures StepsWell(s, StepAdvance(s, t, ok, pick, child), WorkspaceOf(s, Advance(t, ok, pick, child)))
  {
    if t !in s.threads {
      Stutters(s, 0);
    } else if s.threads[t].FindingHostSession? {
      FindingSteps(s, t, ok, pick, child);
    } else if IsOwn(s.threads[t]) {
      OwnSteps(s, t, ok, pick, child);
    } else {
      PlacedSteps(s, t, ok, pick, child);
    }
  }

  lemma PersonFound(db: Db, at: Place, participant: Id)
    requires Sound(db) && participant in db.participants
    requires at == Place(db.participants[participant].workspace, db.participants[participant].room)
    ensures ThreadOk(db, CheckingRoom(at, participant))
  {
    assert at.room in Tenants(db.rooms);
  }

  lemma RequestSteps(s: State, a: Action)
    requires Good(s) && (a.Dial? || a.AddBack?)
    ensures StepsWell(s, Step(s, a), WorkspaceOf(s, a))
  {
    var w := WorkspaceOf(s, a);
    Stutters(s, w);
    match a
    case Dial(t, at, name, phone) =>
      if RoomIn(s.db, at.workspace, at.room) {
        assert ThreadOk(s.db, InsertingGuest(at, name, phone));
        Becomes(s, t, s.db, InsertingGuest(at, name, phone), w);
      }
    case AddBack(t, workspace, participant) =>
      if participant in s.db.participants && s.db.participants[participant].workspace == workspace {
        var at := Place(workspace, s.db.participants[participant].room);
        PersonFound(s.db, at, participant);
        Becomes(s, t, s.db, CheckingRoom(at, participant), w);
      }
  }

  lemma StopSteps(s: State, t: Id, at: Place, session: Id)
    requires Good(s)
    ensures StepsWell(s, StepStop(s, t, at, session), at.workspace)
  {
    Stutters(s, at.workspace);
    if IsActiveIn(s.db, at, session) {
      ActiveHeld(s.db, session, SessionEnded);
      Becomes(s, t, s.db, ListingLegs(session, at), at.workspace);
    }
  }

  lemma EventSteps(s: State, t: Id, leg: Id, state: LegState)
    requires Good(s)
    ensures StepsWell(s, StepEvent(s, t, leg, state), WorkspaceOf(s, Event(t, leg, state)))
  {
    var w := WorkspaceOf(s, Event(t, leg, state));
    var db := SetLegState(s.db, leg, state);
    Stutters(s, w);
    SetLegStateWithin(s.db, w, leg, state);
    StableThreads(s, db);
    assert ThreadOk(db, FindingHostSession(leg));
    Becomes(s, t, db, FindingHostSession(leg), w);
  }

  /** Every action of the room protocol keeps foreign keys, workspaces and indexes, keeps what threads
      hold, and leaves the rows of every workspace but its own as they were. */
  lemma StepWithin(s: State, a: Action)
    requires Good(s)
    ensures StepsWell(s, Step(s, a), WorkspaceOf(s, a)) && Good(Step(s, a))
  {
    match a
    case Start(t, at, host) => StartSteps(s, t, at, host);
    case Stop(t, at, session) => StopSteps(s, t, at, session);
    case Event(t, leg, state) => EventSteps(s, t, leg, state);
    case Dial(_, _, _, _) => RequestSteps(s, a);
    case AddBack(_, _, _) => RequestSteps(s, a);
    case Advance(t, ok, pick, child) => AdvanceSteps(s, t, ok, pick, child);
    case _ =>
      DbWithin(s, a);
      StableThreads(s, StepDb(s.db, a));
  }
}
