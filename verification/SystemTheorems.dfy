/** What the control API promises of rooms and sessions over every run, under every interleaving: the statements of
    the room protocol and of the speaker handlers, and whole roster handlers, in any order. */
module SystemTheorems {
  import Text
  import opened Options
  import opened Tables
  import opened SpeakerProtocol
  import opened SpeakerTheorems
  import P = RoomProtocol
  import R = Roster
  import LR = LifecycleRefinement
  import RP = RoomPromises
  import L = Lifecycle

  // ---- Every action is a step of the lifecycle machine ----

  lemma DesiredAside(db: Db, workspace: Id, p: Id)
    ensures forall from, to :: LR.Aside(db, SetDesired(db, workspace, p, from, to))
  {
  }

  lemma LegAside(db: Db, workspace: Id, leg: Id, deed: Deed)
    ensures LR.Aside(db, SetLegFor(db, workspace, leg, deed)) && LR.Aside(db, SetLegMuted(db, workspace, leg, false))
  {
  }

  /** The speaker handlers write neither rooms nor sessions. */
  lemma SpeakerAside(db: Db, h: Speaker, ok: bool)
    ensures LR.Aside(db, NextDb(db, h, ok))
  {
    match h
    case Raising(workspace, p) => DesiredAside(db, workspace, p);
    case Lowering(workspace, p) => DesiredAside(db, workspace, p);
    case Muting(workspace, p) => DesiredAside(db, workspace, p);
    case Activating(workspace, p, _) => DesiredAside(db, workspace, p);
    case Settling(workspace, p, _) => DesiredAside(db, workspace, p);
    case Opening(workspace, leg) => LegAside(db, workspace, leg, Mute);
    case SettingLeg(workspace, _, leg, deed) => LegAside(db, workspace, leg, deed);
    case _ =>
  }

  /** Rooms keep their states, and sessions are not written. */
  ghost predicate Beside(db: Db, db': Db) {
    LR.RoomStates(db'.rooms) == LR.RoomStates(db.rooms) && db'.sessions == db.sessions && db.nextId <= db'.nextId
  }

  lemma ImportRowBeside(db: Db, at: P.Place, batch: Id, contact: R.Contact)
    requires R.ImportRow(db, at, batch, contact).Some?
    ensures Beside(db, R.ImportRow(db, at, batch, contact).value)
  {
    var name, phone, role := Text.Trim(contact.name), Text.Trim(contact.phone), R.RoleOf(contact.role);
    var db1 := if role == Host then SetHostCopy(db, at.workspace, at.room, name, phone) else db;
    assert Beside(db, db1);
    var db2 := InsertParticipant(db1, at.workspace, at.room, role, name, phone);
    assert LR.Aside(db1, db2);
  }

  lemma {:induction false} ImportRowsBeside(db: Db, at: P.Place, batch: Id, contacts: seq<R.Contact>)
    requires R.ImportRows(db, at, batch, contacts).Some?
    ensures Beside(db, R.ImportRows(db, at, batch, contacts).value)
  {
    if contacts != [] {
      var n := |contacts| - 1;
      ImportRowsBeside(db, at, batch, contacts[..n]);
      ImportRowBeside(R.ImportRows(db, at, batch, contacts[..n]).value, at, batch, contacts[n]);
    }
  }

  lemma ImportBeside(db: Db, at: P.Place, contacts: seq<R.Contact>)
    ensures Beside(db, R.Import(db, at, contacts).1)
  {
    var begun := InsertBatch(db, at.workspace, at.room);
    assert LR.Aside(db, begun);
    if R.ImportRows(begun, at, db.nextId, contacts).Some? { ImportRowsBeside(begun, at, db.nextId, contacts); }
  }

  lemma EditBeside(db: Db, workspace: Id, p: Id, name: string, phone: string)
    ensures Beside(db, R.Edit(db, workspace, p, name, phone).1)
  {
    var db1 := SetContact(db, workspace, p, Text.Trim(name), Text.Trim(phone));
    assert LR.Aside(db, db1);
    assert LR.Aside(db1, SetItemContacts(db1, workspace, p, Text.Trim(name), Text.Trim(phone)));
  }

  lemma AddBeside(db: Db, at: P.Place, contact: R.Contact)
    ensures Beside(db, R.Add(db, at, contact).1)
  {
    assert LR.Aside(db, InsertParticipant(db, at.workspace, at.room, Listener, Text.Trim(contact.name), Text.Trim(contact.phone)));
  }

  lemma UpdateBeside(db: Db, at: P.Place, limit: int, tfn: bool, valid: bool)
    ensures Beside(db, R.UpdateRoom(db, at, limit, tfn, valid).1)
  {
    assert Beside(db, SetRoomLimits(db, at.room, limit, tfn));
  }

  ghost function EffectOf(w: World, a: Action): L.Effect {
    match a
    case Core(action) => LR.EffectOf(w.core, action)
    case Managed(op) =>
      (match op
       case Creating(_, limit) => if 1 <= limit <= R.MAX_LIMIT then L.AddRoom else L.Nothing
       case RemovingRoom(at) => LR.EffectOf(w.core, P.RemoveRoom(at))
       case _ => L.Nothing)
    case _ => L.Nothing
  }

  lemma BesideRefines(s: P.State, db: Db)
    requires Beside(s.db, db)
    ensures LR.Refined(s, P.State(db, s.threads), L.Nothing)
  {
  }

  lemma QuietManaged(s: P.State, op: R.Op)
    requires op.Updating? || op.Adding? || op.Importing? || op.Editing?
    ensures LR.Refined(s, P.State(R.Handle(s.db, op), s.threads), L.Nothing)
  {
    match op
    case Updating(at, limit, tfn, valid) => UpdateBeside(s.db, at, limit, tfn, valid);
    case Adding(at, contact) => AddBeside(s.db, at, contact);
    case Importing(at, contacts) => ImportBeside(s.db, at, contacts);
    case Editing(workspace, p, name, phone) => EditBeside(s.db, workspace, p, name, phone);
    BesideRefines(s, R.Handle(s.db, op));
  }

  /** These handlers are transactions the room protocol has too. */
  lemma HostManaged(s: P.State, op: R.Op)
    requires op.SavingHost? || op.ClearingHost?
    ensures LR.Refined(s, P.State(R.Handle(s.db, op), s.threads), L.Nothing)
  {
    match op
    case SavingHost(at, host, name, phone) =>
      assert P.State(R.Handle(s.db, op), s.threads) == P.Step(s, P.SaveHost(at, host, name, phone));
      LR.SaveHostRefines(s, at, host, name, phone);
    case ClearingHost(at) =>
      assert P.State(R.Handle(s.db, op), s.threads) == P.Step(s, P.ClearHost(at));
      LR.ClearHostRefines(s, at);
  }

  lemma RemoveManaged(s: P.State, workspace: Id, p: Id)
    ensures LR.Refined(s, P.State(R.Handle(s.db, R.Removing(workspace, p)), s.threads), L.Nothing)
  {
    LR.Stutter(s);
    RemovesOrNot(s.db, workspace, p);
    LR.RemoveMemberRefines(s, workspace, p);
  }

  lemma RemovesOrNot(db: Db, workspace: Id, p: Id)
    ensures R.Handle(db, R.Removing(workspace, p)) == db || R.Handle(db, R.Removing(workspace, p)) == P.StepDb(db, P.RemoveMember(workspace, p))
  {
  }

  lemma RemoveRoomManaged(s: P.State, at: P.Place)
    ensures LR.Refined(s, P.State(R.Handle(s.db, R.RemovingRoom(at)), s.threads), LR.EffectOf(s, P.RemoveRoom(at)))
  {
    assert P.State(R.Handle(s.db, R.RemovingRoom(at)), s.threads) == P.Step(s, P.RemoveRoom(at));
    LR.RemoveRoomRefines(s, at);
  }

  lemma CreateManaged(s: P.State, workspace: Id, limit: int)
    ensures LR.Refined(s, P.State(R.Handle(s.db, R.Creating(workspace, limit)), s.threads),
                       if 1 <= limit <= R.MAX_LIMIT then L.AddRoom else L.Nothing)
  {
    LR.Stutter(s);
    if 1 <= limit <= R.MAX_LIMIT {
      assert P.State(R.Handle(s.db, R.Creating(workspace, limit)), s.threads) == P.Step(s, P.CreateRoom(workspace, limit));
      LR.CreateRoomRefines(s, workspace, limit);
    }
  }

  lemma ManagedRefines(s: P.State, op: R.Op, e: L.Effect)
    requires R.IsRosterHandler(op) && e == EffectOf(World(s, map[]), Managed(op))
    ensures LR.Refined(s, P.State(R.Handle(s.db, op), s.threads), e)
  {
    match op
    case Creating(workspace, limit) => CreateManaged(s, workspace, limit);
    case SavingHost(_, _, _, _) => HostManaged(s, op);
    case ClearingHost(_) => HostManaged(s, op);
    case Removing(workspace, p) => RemoveManaged(s, workspace, p);
    case RemovingRoom(at) => RemoveRoomManaged(s, at);
    case _ => QuietManaged(s, op);
  }

  /** Every action of the control API is a step of the lifecycle machine. */
  lemma StepRefines(w: World, limit: nat, a: Action)
    requires Good(w)
    ensures LR.Refined(w.core, Step(w, limit, a).core, EffectOf(w, a))
  {
    match a
    case Core(action) => LR.StepRefines(w.core, action);
    case Managed(op) => if R.IsRosterHandler(op) { ManagedRefines(w.core, op, EffectOf(w, a)); } else { LR.Stutter(w.core); }
    case Next(t, ok, pick) =>
      LR.Stutter(w.core);
      if t in w.speakers {
        SpeakerAside(w.core.db, w.speakers[t], ok);
        BesideRefines(w.core, NextDb(w.core.db, w.speakers[t], ok));
      }
    case _ =>
      ArrivalStep(w, limit, a);
      LR.Stutter(w.core);
  }

  /** The speaker and roster handlers move no thread of the room protocol. */
  lemma SameThreads(w: World, limit: nat, a: Action)
    requires Good(w) && !a.Core?
    ensures Step(w, limit, a).core.threads == w.core.threads
  {
    if IsRequest(a) { ArrivalStep(w, limit, a); }
  }

  // ---- Runs ----

  function At(limit: nat, run: seq<Action>, i: nat): World
    requires i <= |run|
  {
    After(limit, run[..i])
  }

  lemma AtNext(limit: nat, run: seq<Action>, i: nat)
    requires i < |run|
    ensures At(limit, run, i + 1) == Step(At(limit, run, i), limit, run[i])
  {
    assert run[..i + 1][..i] == run[..i];
  }

  /** A step of the run seen by the lifecycle machine. */
  lemma LifeStep(limit: nat, run: seq<Action>, i: nat)
    requires i < |run|
    ensures LR.Refined(At(limit, run, i).core, At(limit, run, i + 1).core, EffectOf(At(limit, run, i), run[i]))
  {
    AtNext(limit, run, i);
    ReachableGood(limit, run[..i]);
    StepRefines(At(limit, run, i), limit, run[i]);
  }

  lemma {:induction false} ReachableLife(limit: nat, run: seq<Action>, i: nat)
    requires i <= |run|
    ensures var l := LR.LifeOf(At(limit, run, i).core); L.Basic(l) && L.NoStuck(l)
  {
    if i > 0 {
      ReachableLife(limit, run, i - 1);
      LifeStep(limit, run, i - 1);
      var l, e, next := LR.LifeOf(At(limit, run, i - 1).core), EffectOf(At(limit, run, i - 1), run[i - 1]), At(limit, run, i).core.db.nextId;
      L.BasicKept(l, e, next);
      L.NoStuckKept(l, e, next);
    }
  }

  lemma Whole(limit: nat, run: seq<Action>)
    ensures At(limit, run, |run|) == After(limit, run)
  {
    assert run[..|run|] == run;
  }

  /** A room that is not READY has an active session or a READY write still to come. */
  lemma NoStuckRoom(limit: nat, run: seq<Action>, room: Id)
    requires var db := After(limit, run).core.db; room in db.rooms && db.rooms[room].state != Ready
    ensures HasActive(After(limit, run).core.db, room) || RP.ReadyPending(After(limit, run).core, room)
  {
    Whole(limit, run);
    ReachableLife(limit, run, |run|);
    RP.NotStuckInLife(After(limit, run).core, room);
  }

  /** With no handler in flight a room without an active session is READY. */
  lemma QuiescentRoom(limit: nat, run: seq<Action>, room: Id)
    requires var s := After(limit, run).core; room in s.db.rooms && s.threads == map[] && !HasActive(s.db, room)
    ensures After(limit, run).core.db.rooms[room].state == Ready
  {
    if After(limit, run).core.db.rooms[room].state != Ready { NoStuckRoom(limit, run, room); }
  }

  /** A room never has two active sessions. */
  lemma OneActiveSessionPerRoom(limit: nat, run: seq<Action>, x: Id, y: Id)
    requires var sessions := After(limit, run).core.db.sessions;
      && x in sessions && y in sessions && sessions[x].room == sessions[y].room
      && IsActive(sessions[x].status) && IsActive(sessions[y].status)
    ensures x == y
  {
    ReachableGood(limit, run);
  }

  // ---- Never resurrected, promoted once, listed once ----

  lemma StepsForward(limit: nat, run: seq<Action>, i: nat)
    requires i < |run|
    ensures L.Forward(LR.LifeOf(At(limit, run, i).core), LR.LifeOf(At(limit, run, i + 1).core))
  {
    ReachableLife(limit, run, i);
    LifeStep(limit, run, i);
    L.StepForward(LR.LifeOf(At(limit, run, i).core), EffectOf(At(limit, run, i), run[i]), At(limit, run, i + 1).core.db.nextId);
  }

  lemma {:induction false} StaysPast(limit: nat, run: seq<Action>, i: nat, j: nat, x: Id, rank: nat)
    requires i <= j <= |run| && RP.Past(At(limit, run, i).core, x, rank)
    ensures RP.Past(At(limit, run, j).core, x, rank)
    decreases j - i
  {
    if i < j {
      StepsForward(limit, run, i);
      var l, l' := LR.LifeOf(At(limit, run, i).core), LR.LifeOf(At(limit, run, i + 1).core);
      if x in l'.sessions { assert x in l.sessions; }
      StaysPast(limit, run, i + 1, j, x, rank);
    }
  }

  /** A session that has ENDED or FAILED is never STARTING or RUNNING again. */
  lemma NeverResurrected(limit: nat, run: seq<Action>, i: nat, j: nat, x: Id)
    requires i <= j <= |run|
    requires var db := At(limit, run, i).core.db; x in db.sessions && !IsActive(db.sessions[x].status)
    ensures var db := At(limit, run, j).core.db; x in db.sessions ==> !IsActive(db.sessions[x].status)
  {
    ReachableGood(limit, run[..i]);
    StaysPast(limit, run, i, j, x, 2);
  }

  function StatusAt(limit: nat, run: seq<Action>, i: nat, x: Id): Option<SessionStatus>
    requires i <= |run|
  {
    var sessions := At(limit, run, i).core.db.sessions;
    if x in sessions then Some(sessions[x].status) else None
  }

  /** Step i of the run moves the session from STARTING to RUNNING. */
  predicate Promotes(limit: nat, run: seq<Action>, i: nat, x: Id)
    requires i < |run|
  {
    StatusAt(limit, run, i, x) == Some(SessionStarting) && StatusAt(limit, run, i + 1, x) == Some(SessionRunning)
  }

  lemma NotPromotedLater(limit: nat, run: seq<Action>, i: nat, j: nat, x: Id)
    requires i < j < |run| && Promotes(limit, run, i, x)
    ensures !Promotes(limit, run, j, x)
  {
    ReachableGood(limit, run[..i + 1]);
    StaysPast(limit, run, i + 1, j, x, 1);
  }

  lemma PromotedOnce(limit: nat, run: seq<Action>, i: nat, j: nat, x: Id)
    requires i < |run| && j < |run| && Promotes(limit, run, i, x) && Promotes(limit, run, j, x)
    ensures i == j
  {
    if i < j { NotPromotedLater(limit, run, i, j, x); }
    if j < i { NotPromotedLater(limit, run, j, i, x); }
  }

  /** A RUNNING session got there by a promotion. */
  lemma {:induction false} RunningWasPromoted(limit: nat, run: seq<Action>, k: nat, x: Id) returns (i: nat)
    requires k <= |run| && StatusAt(limit, run, k, x) == Some(SessionRunning)
    ensures i < k && Promotes(limit, run, i, x)
  {
    StepsForward(limit, run, k - 1);
    var l, l' := LR.LifeOf(At(limit, run, k - 1).core), LR.LifeOf(At(limit, run, k).core);
    assert x in l'.sessions && l'.sessions[x].status == SessionRunning;
    assert x in l.sessions && L.Rank(l.sessions[x].status) <= 1;
    if StatusAt(limit, run, k - 1, x) == Some(SessionStarting) {
      i := k - 1;
    } else {
      i := RunningWasPromoted(limit, run, k - 1, x);
    }
  }

  /** Step i lists the listeners that the activator of the session then calls. */
  predicate Lists(limit: nat, run: seq<Action>, i: nat, x: Id)
    requires i < |run|
  {
    && run[i].Core? && run[i].action.Advance?
    && var threads, t := At(limit, run, i).core.threads, run[i].action.t;
    t in threads && threads[t].ListingListeners? && threads[t].session == x
  }

  lemma {:induction false} StaysFanned(limit: nat, run: seq<Action>, i: nat, j: nat, x: Id)
    requires i <= j <= |run| && L.Fanned(LR.LifeOf(At(limit, run, i).core), x)
    ensures L.Fanned(LR.LifeOf(At(limit, run, j).core), x)
    decreases j - i
  {
    if i < j {
      LifeStep(limit, run, i);
      L.FannedKept(LR.LifeOf(At(limit, run, i).core), EffectOf(At(limit, run, i), run[i]), At(limit, run, i + 1).core.db.nextId, x);
      StaysFanned(limit, run, i + 1, j, x);
    }
  }

  lemma FannedAfter(limit: nat, run: seq<Action>, i: nat, x: Id)
    requires i < |run| && Lists(limit, run, i, x)
    ensures L.Fanned(LR.LifeOf(At(limit, run, i + 1).core), x)
  {
    ReachableLife(limit, run, i);
    LifeStep(limit, run, i);
    var w, t := At(limit, run, i), run[i].action.t;
    RP.ListingThread(w.core, t);
    assert EffectOf(w, run[i]) == L.List(t);
    L.ListFans(LR.LifeOf(w.core), t, At(limit, run, i + 1).core.db.nextId);
  }

  lemma NoSecondFanOut(limit: nat, run: seq<Action>, i: nat, j: nat, x: Id)
    requires i < j < |run| && Lists(limit, run, i, x)
    ensures !Lists(limit, run, j, x)
  {
    FannedAfter(limit, run, i, x);
    StaysFanned(limit, run, i + 1, j, x);
    if Lists(limit, run, j, x) { RP.ListingThread(At(limit, run, j).core, run[j].action.t); }
  }

  /** A session's activator lists its listeners at most once. */
  lemma FansOutOnce(limit: nat, run: seq<Action>, i: nat, j: nat, x: Id)
    requires i < |run| && j < |run| && Lists(limit, run, i, x) && Lists(limit, run, j, x)
    ensures i == j
  {
    if i < j { NoSecondFanOut(limit, run, i, j, x); }
    if j < i { NoSecondFanOut(limit, run, j, i, x); }
  }

  // ---- The room mirrors its session ----

  /** The starts of the run's first n actions are orderly. */
  ghost predicate OrderlyRun(limit: nat, run: seq<Action>, n: nat)
    requires n <= |run|
  {
    forall i | 0 <= i < n && run[i].Core? :: RP.Orderly(At(limit, run, i).core, run[i].action)
  }

  lemma OrderlyEffect(w: World, a: Action)
    requires a.Core? ==> RP.Orderly(w.core, a.action)
    ensures L.Orderly(LR.LifeOf(w.core), EffectOf(w, a))
  {
    if a.Core? { RP.OrderlyLife(w.core, a.action); }
  }

  lemma {:induction false} ReachableMirrors(limit: nat, run: seq<Action>, i: nat)
    requires i <= |run| && OrderlyRun(limit, run, i)
    ensures L.Mirrors(LR.LifeOf(At(limit, run, i).core))
  {
    if i > 0 {
      ReachableMirrors(limit, run, i - 1);
      ReachableLife(limit, run, i - 1);
      LifeStep(limit, run, i - 1);
      OrderlyEffect(At(limit, run, i - 1), run[i - 1]);
      L.MirrorsKept(LR.LifeOf(At(limit, run, i - 1).core), EffectOf(At(limit, run, i - 1), run[i - 1]), At(limit, run, i).core.db.nextId);
    }
  }

  /** With orderly starts a settled room is READY iff it has no active session, STARTING iff its active session is
      STARTING, and RUNNING iff that is RUNNING. */
  lemma RoomMirrorsSession(limit: nat, run: seq<Action>, room: Id)
    requires OrderlyRun(limit, run, |run|) && room in After(limit, run).core.db.rooms && RP.Settled(After(limit, run).core, room)
    ensures RP.Mirrors(After(limit, run).core.db, room)
  {
    Whole(limit, run);
    ReachableLife(limit, run, |run|);
    ReachableMirrors(limit, run, |run|);
    RP.MirrorsInLife(After(limit, run).core, room);
  }
}
