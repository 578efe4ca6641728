/** What the control API keeps under every interleaving of speaker handlers, room handlers and roster handlers:
    foreign keys, workspaces and the unique indexes. */
module SpeakerTheorems {
  import opened Tables
  import opened Isolation
  import opened Statements
  import opened SpeakerProtocol
  import P = RoomProtocol
  import T = RoomTenancy
  import R = Roster
  import RT = RosterTenancy

  // ---- Tenancy and indexes ----

  /** What a handler holds is still true of the tables. */
  ghost predicate HandlerOk(db: Db, h: Speaker) {
    match h
    case Queueing(workspace, room, participant, leg) =>
      && room < db.nextId && participant < db.nextId && leg < db.nextId
      && (room in db.rooms ==> db.rooms[room].workspace == workspace)
      && (participant in db.participants ==> db.participants[participant].room == room)
      && (leg in db.legs ==> db.legs[leg].participant == participant)
      && PersonHeld(db, workspace, participant)
    case Raising(workspace, participant) => PersonHeld(db, workspace, participant)
    case Withdrawing(workspace, room, participant) =>
      PersonHeld(db, workspace, participant) && (participant in db.participants ==> db.participants[participant].room == room)
    case Lowering(workspace, participant) => PersonHeld(db, workspace, participant)
    case Closing(workspace, request, participant) =>
      && PersonHeld(db, workspace, participant) && request < db.nextId
      && (request in db.requests ==> db.requests[request].participant == participant)
    case Muting(workspace, participant) => PersonHeld(db, workspace, participant)
    case Checking(workspace, request, room, _, _) => RequestHeld(db, workspace, request, room)
    case Locating(workspace, request, room, _, _) => RequestHeld(db, workspace, request, room)
    case Granting(workspace, request, room, _, _) => RequestHeld(db, workspace, request, room)
    case _ => true
  }

  predicate PersonHeld(db: Db, workspace: Id, participant: Id) {
    participant < db.nextId && (participant in db.participants ==> db.participants[participant].workspace == workspace)
  }

  predicate RequestHeld(db: Db, workspace: Id, request: Id, room: Id) {
    request < db.nextId
    && (request in db.requests ==> db.requests[request].workspace == workspace && db.requests[request].room == room)
  }

  ghost predicate Good(w: World) {
    T.Good(w.core) && forall t | t in w.speakers :: HandlerOk(w.core.db, w.speakers[t])
  }

  ghost function WorkspaceOf(w: World, a: Action): Id {
    match a
    case Core(action) => T.WorkspaceOf(w.core, action)
    case Managed(op) => R.WorkspaceOf(op)
    case Next(t, _, _) => if t in w.speakers then w.speakers[t].workspace else 0
    case _ => 0
  }

  lemma StableHandler(db: Db, db': Db, h: Speaker)
    requires Stable(db, db') && HandlerOk(db, h)
    ensures HandlerOk(db', h)
  {
  }

  lemma StableHandlers(db: Db, db': Db, speakers: map<Id, Speaker>)
    requires Stable(db, db') && forall t | t in speakers :: HandlerOk(db, speakers[t])
    ensures forall t | t in speakers :: HandlerOk(db', speakers[t])
  {
    forall t | t in speakers ensures HandlerOk(db', speakers[t]) { StableHandler(db, db', speakers[t]); }
  }

  /** Every statement of a speaker handler keeps the tables sound and stays in the handler's workspace. */
  lemma NextWithin(db: Db, h: Speaker, ok: bool)
    requires Sound(db) && HandlerOk(db, h)
    ensures Within(db, NextDb(db, h, ok), h.workspace)
  {
    match h
    case Queueing(workspace, room, participant, leg) => InsertRequestWithin(db, workspace, room, participant, leg);
    case Raising(_, _) => LowerWithin(db, h, ok);
    case Withdrawing(workspace, room, participant) => WithdrawRequestsOfWithin(db, workspace, room, participant);
    case Lowering(_, _) => LowerWithin(db, h, ok);
    case Closing(workspace, request, _) => WithdrawRequestWithin(db, workspace, request);
    case Muting(_, _) => LowerWithin(db, h, ok);
    case Checking(workspace, _, _, _, _) => Same(db, workspace);
    case Locating(workspace, _, _, _, _) => Same(db, workspace);
    case Granting(workspace, request, _, _, _) =>
      Same(db, workspace);
      ActivateRequestWithin(db, workspace, request);
    case Activating(_, _, _) => LowerWithin(db, h, ok);
    case Opening(workspace, leg) => SetLegMutedWithin(db, workspace, leg, false);
    case SettingLeg(_, _, _, _) => DeedWithin(db, h, ok);
    case Settling(_, _, _) => DeedWithin(db, h, ok);
  }

  lemma SetLegForWithin(db: Db, workspace: Id, leg: Id, deed: Deed)
    requires Sound(db)
    ensures Within(db, SetLegFor(db, workspace, leg, deed), workspace)
  {
    if deed.Drop? { DropLegWithin(db, workspace, leg); } else { SetLegMutedWithin(db, workspace, leg, deed.Mute?); }
  }

  lemma SetDesiredForWithin(db: Db, workspace: Id, participant: Id, deed: Deed)
    requires Sound(db)
    ensures Within(db, SetDesiredFor(db, workspace, participant, deed), workspace)
  {
    SetDesiredWithin(db, workspace, participant, ANY_DESIRED,
                     match deed case Mute => DesiredMuted case Unmute => DesiredActive case Drop => DesiredDropped);
  }

  lemma DeedWithin(db: Db, h: Speaker, ok: bool)
    requires Sound(db) && (h.SettingLeg? || h.Settling?)
    ensures Within(db, NextDb(db, h, ok), h.workspace)
  {
    match h
    case SettingLeg(workspace, _, leg, deed) => SetLegForWithin(db, workspace, leg, deed);
    case Settling(workspace, participant, deed) => SetDesiredForWithin(db, workspace, participant, deed);
  }

  lemma LowerWithin(db: Db, h: Speaker, ok: bool)
    requires Sound(db) && (h.Raising? || h.Lowering? || h.Muting? || h.Activating?)
    ensures Within(db, NextDb(db, h, ok), h.workspace)
  {
    match h
    case Raising(workspace, participant) => SetDesiredWithin(db, workspace, participant, RAISABLE, HandRaised);
    case Lowering(workspace, participant) => SetDesiredWithin(db, workspace, participant, {HandRaised}, DesiredMuted);
    case Muting(workspace, participant) => SetDesiredWithin(db, workspace, participant, ANY_DESIRED, DesiredMuted);
    case Activating(workspace, participant, _) => SetDesiredWithin(db, workspace, participant, ANY_DESIRED, DesiredActive);
  }

  lemma PcOk(db: Db, limit: nat, h: Speaker, ok: bool, pick: Id)
    requires HandlerOk(db, h) && NextPc(db, limit, h, ok, pick).Some?
    ensures HandlerOk(db, NextPc(db, limit, h, ok, pick).value)
  {
  }

  /** A participant of a room has the room's workspace. */
  lemma ParticipantOf(db: Db, p: Id, room: Id)
    requires Sound(db) && p in Homes(db.participants) && Homes(db.participants)[p] == room && room in Tenants(db.rooms)
    ensures p in db.participants && db.participants[p].workspace == Tenants(db.rooms)[room]
  {
  }

  lemma ArrivalOk(db: Db, leg: Id)
    requires Sound(db) && leg in db.legs
    ensures var row := db.legs[leg];
      && HandlerOk(db, Queueing(row.workspace, row.room, row.participant, leg))
      && HandlerOk(db, Withdrawing(row.workspace, row.room, row.participant))
  {
    ParticipantOf(db, db.legs[leg].participant, db.legs[leg].room);
  }

  lemma RequestOk(db: Db, request: Id)
    requires Sound(db) && request in db.requests
    ensures var row := db.requests[request];
      && HandlerOk(db, Closing(row.workspace, request, row.participant))
      && HandlerOk(db, Checking(row.workspace, request, row.room, row.participant, row.leg))
  {
    ParticipantOf(db, db.requests[request].participant, db.requests[request].room);
  }

  lemma DigitOk(w: World, t: Id, leg: Id, zero: bool)
    requires Good(w)
    ensures Good(StepDigit(w, t, leg, zero)) && StepDigit(w, t, leg, zero).core == w.core
  {
    if leg in w.core.db.legs { ArrivalOk(w.core.db, leg); }
  }

  lemma RequestArrivalOk(w: World, t: Id, workspace: Id, request: Id, grant: bool)
    requires Good(w)
    ensures Good(StepRequest(w, t, workspace, request, grant)) && StepRequest(w, t, workspace, request, grant).core == w.core
  {
    if request in w.core.db.requests { RequestOk(w.core.db, request); }
  }

  lemma ActOk(w: World, t: Id, workspace: Id, participant: Id, leg: Id, deed: Deed, ok: bool)
    requires Good(w)
    ensures Good(StepAct(w, t, workspace, participant, leg, deed, ok)) && StepAct(w, t, workspace, participant, leg, deed, ok).core == w.core
  {
  }

  lemma NextStep(w: World, limit: nat, t: Id, ok: bool, pick: Id)
    requires Good(w) && t in w.speakers
    ensures Good(StepNext(w, limit, t, ok, pick)) && Within(w.core.db, StepNext(w, limit, t, ok, pick).core.db, w.speakers[t].workspace)
  {
    var db := NextDb(w.core.db, w.speakers[t], ok);
    NextWithin(w.core.db, w.speakers[t], ok);
    StableHandlers(w.core.db, db, w.speakers);
    T.StableThreads(w.core, db);
    var pc := NextPc(w.core.db, limit, w.speakers[t], ok, pick);
    if pc.Some? {
      PcOk(w.core.db, limit, w.speakers[t], ok, pick);
      StableHandler(w.core.db, db, pc.value);
    }
  }

  lemma ArrivalStep(w: World, limit: nat, a: Action)
    requires Good(w) && IsRequest(a)
    ensures Good(Step(w, limit, a)) && Step(w, limit, a).core == w.core
  {
    match a
    case Digit(t, leg, zero) => DigitOk(w, t, leg, zero);
    case Withdraw(t, workspace, request) => RequestArrivalOk(w, t, workspace, request, false);
    case Grant(t, workspace, request) => RequestArrivalOk(w, t, workspace, request, true);
    case Act(t, workspace, participant, leg, deed, ok) => ActOk(w, t, workspace, participant, leg, deed, ok);
  }

  lemma ManagedStep(w: World, op: R.Op)
    requires Good(w)
    ensures Good(StepManaged(w, op)) && Within(w.core.db, StepManaged(w, op).core.db, R.WorkspaceOf(op))
  {
    var db := R.Handle(w.core.db, op);
    Same(w.core.db, R.WorkspaceOf(op));
    RT.HandleWithin(w.core.db, op);
    StableHandlers(w.core.db, db, w.speakers);
    T.StableThreads(w.core, db);
  }

  /** Whatever handler or goroutine runs next, it keeps every foreign key, workspace column and unique index,
      among them at most one open request a participant, and leaves the other workspaces' rows alone. */
  lemma StepWithin(w: World, limit: nat, a: Action)
    requires Good(w)
    ensures Good(Step(w, limit, a)) && Within(w.core.db, Step(w, limit, a).core.db, WorkspaceOf(w, a))
  {
    match a
    case Core(action) =>
      T.StepWithin(w.core, action);
      StableHandlers(w.core.db, P.Step(w.core, action).db, w.speakers);
    case Managed(op) => ManagedStep(w, op);
    case Next(t, ok, pick) => if t in w.speakers { NextStep(w, limit, t, ok, pick); } else { Same(w.core.db, 0); }
    case _ =>
      ArrivalStep(w, limit, a);
      Same(w.core.db, 0);
  }

  lemma {:induction false} ReachableGood(limit: nat, run: seq<Action>)
    ensures Good(After(limit, run))
  {
    if run != [] {
      ReachableGood(limit, run[..|run| - 1]);
      StepWithin(After(limit, run[..|run| - 1]), limit, run[|run| - 1]);
    }
  }

  /** A participant has at most one open request in a room, in every reachable state. */
  lemma OneOpenRequestPerParticipant(limit: nat, run: seq<Action>, p: Id, q: Id)
    requires var db := After(limit, run).core.db;
      && p in db.requests && q in db.requests && IsOpen(db.requests[p].status) && IsOpen(db.requests[q].status)
      && db.requests[p].room == db.requests[q].room && db.requests[p].participant == db.requests[q].participant
    ensures p == q
  {
    ReachableGood(limit, run);
  }

  /** In every reachable state participants, sessions, legs, requests and batches carry their room's workspace,
      and batch rows their batch's. */
  lemma RowsCarryWorkspace(limit: nat, run: seq<Action>)
    ensures var db := After(limit, run).core.db;
      && (forall p | p in db.participants :: RoomIn(db, db.participants[p].workspace, db.participants[p].room))
      && (forall x | x in db.sessions :: RoomIn(db, db.sessions[x].workspace, db.sessions[x].room))
      && (forall l | l in db.legs :: RoomIn(db, db.legs[l].workspace, db.legs[l].room))
      && (forall q | q in db.requests :: RoomIn(db, db.requests[q].workspace, db.requests[q].room))
      && (forall b | b in db.batches :: RoomIn(db, db.batches[b].workspace, db.batches[b].room))
      && (forall i | i in db.items :: BatchIn(db, db.items[i].workspace, db.items[i].batch))
  {
    ReachableGood(limit, run);
    CarryWorkspace(After(limit, run).core.db);
  }

  predicate BatchIn(db: Db, workspace: Id, batch: Id) { batch in db.batches && db.batches[batch].workspace == workspace }

  lemma CarryWorkspace(db: Db)
    requires Consistent(db)
    ensures forall p | p in db.participants :: RoomIn(db, db.participants[p].workspace, db.participants[p].room)
    ensures forall x | x in db.sessions :: RoomIn(db, db.sessions[x].workspace, db.sessions[x].room)
    ensures forall l | l in db.legs :: RoomIn(db, db.legs[l].workspace, db.legs[l].room)
    ensures forall q | q in db.requests :: RoomIn(db, db.requests[q].workspace, db.requests[q].room)
    ensures forall b | b in db.batches :: RoomIn(db, db.batches[b].workspace, db.batches[b].room)
    ensures forall i | i in db.items :: BatchIn(db, db.items[i].workspace, db.items[i].batch)
  {
    assert forall r | r in Tenants(db.rooms) :: r in db.rooms && Tenants(db.rooms)[r] == db.rooms[r].workspace;
  }

  /** Step i of the run writes for the workspace or writes nothing. */
  ghost predicate WritesFor(limit: nat, run: seq<Action>, i: nat, workspace: Id)
    requires i < |run|
  {
    WorkspaceOf(After(limit, run[..i]), run[i]) == workspace || After(limit, run[..i + 1]).core.db == After(limit, run[..i]).core.db
  }

  lemma WritesBefore(limit: nat, run: seq<Action>, shorter: seq<Action>, k: nat, workspace: Id)
    requires run != [] && shorter == run[..|run| - 1] && forall i | k <= i < |run| :: WritesFor(limit, run, i, workspace)
    ensures forall i | k <= i < |shorter| :: WritesFor(limit, shorter, i, workspace)
  {
    forall i | k <= i < |shorter| ensures WritesFor(limit, shorter, i, workspace) {
      assert shorter[..i] == run[..i] && shorter[..i + 1] == run[..i + 1];
      assert WritesFor(limit, run, i, workspace);
    }
  }

  /** Tenant isolation over whole runs: from any reachable state on, while every action that writes belongs to one
      workspace, no row of another changes in any table. */
  lemma {:induction false} RunIsolated(limit: nat, run: seq<Action>, k: nat, workspace: Id)
    requires k <= |run| && forall i | k <= i < |run| :: WritesFor(limit, run, i, workspace)
    ensures SameOutside(After(limit, run[..k]).core.db, After(limit, run).core.db, workspace)
  {
    if k == |run| {
      assert run[..k] == run;
    } else {
      var n := |run| - 1;
      var shorter := run[..n];
      assert shorter[..k] == run[..k] && run[..n + 1] == run;
      WritesBefore(limit, run, shorter, k, workspace);
      assert WritesFor(limit, run, n, workspace);
      RunIsolated(limit, shorter, k, workspace);
      ReachableGood(limit, shorter);
      StepWithin(After(limit, shorter), limit, run[n]);
    }
  }
}
