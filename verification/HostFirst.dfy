/** Host first: no listener is called in a room before a HOST leg of that room was up, and the fan-out of a
    session follows that session's own host leg and its move from STARTING to RUNNING. Over runs of the whole
    control API. */
module HostFirst {
  import opened Tables
  import opened Isolation
  import opened Frames
  import opened RoomProtocol
  import opened RoomTenancy
  import opened LifecycleRefinement
  import L = Lifecycle
  import R = Roster
  import W = SpeakerProtocol
  import ST = SpeakerTheorems
  import SY = SystemTheorems

  predicate IsHostLeg(db: Db, leg: Id)
    requires leg in db.legs
  {
    db.legs[leg].participant in db.participants && db.participants[db.legs[leg].participant].role == Host
  }

  /** A HOST leg of the room is ANSWERED or IN_BRIDGE. */
  predicate HostUp(db: Db, room: Id) {
    exists l :: l in db.legs && db.legs[l].room == room && IsUp(db.legs[l].state) && IsHostLeg(db, l)
  }

  /** The action inserts the leg that calls the session's host. */
  predicate CallsHost(s: State, a: Action, x: Id, leg: Id) {
    AddsLeg(s, a) && s.threads[a.t].purpose == HostCall(x) && leg == s.db.nextId
    && s.db.participants[s.threads[a.t].participant].role == Host
  }

  // ---- What a run has shown so far ----

  /** Rooms whose host was up; host legs by session, those that were up, and the sessions promoted after that. */
  datatype Facts = Facts(up: set<Id>, called: set<(Id, Id)>, answered: set<(Id, Id)>, promoted: set<Id>)

  predicate Less(f: Facts, g: Facts) {
    f.up <= g.up && f.called <= g.called && f.answered <= g.answered && f.promoted <= g.promoted
  }

  function UpRooms(db: Db): set<Id> {
    set l | l in db.legs && IsUp(db.legs[l].state) && IsHostLeg(db, l) :: db.legs[l].room
  }

  function Observe(f: Facts, db: Db): Facts {
    f.(up := f.up + UpRooms(db),
       answered := f.answered + set c | c in f.called && c.1 in db.legs && IsUp(db.legs[c.1].state))
  }

  function Learn(f: Facts, s: State, a: Action): Facts {
    if !a.Advance? || a.t !in s.threads then f
    else
      var th := s.threads[a.t];
      if th.Dispatching? && th.purpose.HostCall? && CallsHost(s, a, th.purpose.session, s.db.nextId) then
        f.(called := f.called + {(th.purpose.session, s.db.nextId)})
      else if th.Promoting? && (th.session, th.leg) in f.answered && th.session in s.db.sessions
              && s.db.sessions[th.session].status == SessionStarting then
        f.(promoted := f.promoted + {th.session})
      else f
  }

  function NextFacts(f: Facts, s: State, a: Action): Facts { Observe(Learn(f, s, a), Step(s, a).db) }

  /** The speaker and roster handlers teach no more than the tables they leave. */
  function WorldFacts(f: Facts, w: W.World, limit: nat, a: W.Action): Facts {
    if a.Core? then NextFacts(f, w.core, a.action) else Observe(f, W.Step(w, limit, a).core.db)
  }

  function FactsOf(limit: nat, run: seq<W.Action>): Facts {
    if run == [] then Facts({}, {}, {}, {})
    else WorldFacts(FactsOf(limit, run[..|run| - 1]), W.After(limit, run[..|run| - 1]), limit, run[|run| - 1])
  }

  // ---- What a thread's program counter says about the past ----

  ghost predicate HostLegIfAny(db: Db, leg: Id) { leg in db.legs ==> IsHostLeg(db, leg) }

  ghost predicate HostIfAny(db: Db, p: Id) { p in db.participants ==> db.participants[p].role == Host }

  ghost predicate RoleIfAny(db: Db, p: Id, role: Role) { p in db.participants ==> db.participants[p].role == role }

  ghost predicate Backed(f: Facts, db: Db, th: Thread) {
    match th
    case Dispatching(at, p, purpose, step) =>
      && (step.InsertingLeg? ==> RoleIfAny(db, p, step.role))
      && (match purpose
          case HostCall(x) => HostIfAny(db, p) && (LegOf(th).Some? ==> (x, LegOf(th).value) in f.called && HostLegIfAny(db, LegOf(th).value))
          case FanOutCall(x) => at.room in f.up && x in f.promoted
          case LiveCall => at.room in f.up)
    case Polling(x, at, leg) => (x, leg) in f.called && HostLegIfAny(db, leg)
    case Promoting(x, at, leg) => (x, leg) in f.answered && at.room in f.up
    case MarkingRunning(x, at, _) => at.room in f.up && x in f.promoted
    case ListingListeners(x, at, _) => at.room in f.up && x in f.promoted
    case FanningOut(x, at, _, _) => at.room in f.up && x in f.promoted
    case InsertingGuest(at, _, _) => at.room in f.up
    case _ => true
  }

  ghost predicate RoomsBacked(f: Facts, db: Db) {
    forall r | r in db.rooms && db.rooms[r].state == Running :: r in f.up
  }

  ghost predicate AllBacked(f: Facts, s: State) {
    RoomsBacked(f, s.db) && forall t | t in s.threads :: Backed(f, s.db, s.threads[t])
  }

  lemma StaysHostLeg(db: Db, db': Db, leg: Id)
    requires Sound(db) && Sound(db') && Stable(db, db') && leg < db.nextId && HostLegIfAny(db, leg)
    ensures HostLegIfAny(db', leg)
  {
    if leg in db'.legs {
      assert leg in db.legs && db'.legs[leg].participant == db.legs[leg].participant;
      var p := db.legs[leg].participant;
      assert p in Homes(db.participants) && p in Homes(db'.participants);
    }
  }

  lemma StaysBacked(f: Facts, g: Facts, db: Db, db': Db, th: Thread)
    requires Sound(db) && Sound(db') && Stable(db, db') && ThreadOk(db, th) && Less(f, g) && Backed(f, db, th)
    ensures Backed(g, db', th)
  {
    if LegOf(th).Some? && HostLegIfAny(db, LegOf(th).value) { StaysHostLeg(db, db', LegOf(th).value); }
  }

  lemma Grows(f: Facts, s: State, a: Action)
    ensures Less(f, NextFacts(f, s, a))
    ensures UpRooms(Step(s, a).db) <= NextFacts(f, s, a).up
  {
  }

  // ---- One step ----

  /** The thread t is the only one a step changes, apart from a goroutine it starts. */
  ghost predicate NewThreadsBacked(g: Facts, s: State, s': State) {
    forall u | u in s'.threads && !(u in s.threads && s.threads[u] == s'.threads[u]) :: Backed(g, s'.db, s'.threads[u])
  }

  lemma BecomesBacked(g: Facts, s: State, t: Id, db: Db, next: Thread)
    requires Backed(g, db, next)
    ensures NewThreadsBacked(g, s, Become(s, t, db, next))
  {
  }

  lemma FinishesBacked(g: Facts, s: State, t: Id, db: Db)
    ensures NewThreadsBacked(g, s, Finish(s, t, db))
  {
  }

  lemma DispatchEndsBacked(g: Facts, s: State, t: Id, db: Db, at: Place, purpose: Purpose, leg: Id)
    requires purpose.HostCall? ==> (purpose.session, leg) in g.called && HostLegIfAny(db, leg)
    ensures NewThreadsBacked(g, s, DispatchDone(s, t, db, at, purpose, leg))
  {
    FinishesBacked(g, s, t, db);
    if purpose.HostCall? { BecomesBacked(g, s, t, db, Polling(purpose.session, at, leg)); }
  }

  lemma DispatchFailsBacked(g: Facts, s: State, t: Id, db: Db, at: Place, purpose: Purpose)
    ensures NewThreadsBacked(g, s, DispatchFailed(s, t, db, at, purpose))
  {
    FinishesBacked(g, s, t, db);
    if purpose.HostCall? { BecomesBacked(g, s, t, db, FailingSession(purpose.session, at)); }
  }

  /** `g` backs the thread in the tables the dispatch step leaves. */
  lemma DispatchBacked(g: Facts, s: State, t: Id, ok: bool)
    requires t in s.threads && s.threads[t].Dispatching? && !s.threads[t].step.InsertingLeg?
    requires Backed(g, StepDispatch(s, t, ok).db, s.threads[t])
    ensures NewThreadsBacked(g, s, StepDispatch(s, t, ok))
  {
    var s' := StepDispatch(s, t, ok);
    var Dispatching(at, p, purpose, step) := s.threads[t];
    match step
    case LookUp =>
      DispatchFailsBacked(g, s, t, s.db, at, purpose);
      if p in s.db.participants { BecomesBacked(g, s, t, s.db, Dispatching(at, p, purpose, InsertingLeg(s.db.participants[p].role))); }
    case Originating(leg, role) =>
      BecomesBacked(g, s, t, s.db, Dispatching(at, p, purpose, if ok then SettingDesired(leg, role) else MarkingFailed(leg)));
    case MarkingFailed(leg) =>
      DispatchFailsBacked(g, s, t, s'.db, at, purpose);
    case SettingDesired(leg, role) =>
      FinishesBacked(g, s, t, s'.db);
      BecomesBacked(g, s, t, s'.db, Dispatching(at, p, purpose, Recording(leg, role)));
    case Recording(leg, role) =>
      DispatchEndsBacked(g, s, t, s'.db, at, purpose, leg);
  }

  lemma InsertBacked(g: Facts, s: State, t: Id, ok: bool)
    requires t in s.threads && s.threads[t].Dispatching? && s.threads[t].step.InsertingLeg?
    requires Backed(g, s.db, s.threads[t])
    requires AddsLeg(s, Advance(t, ok, 0, 0)) && s.threads[t].purpose.HostCall? ==> (s.threads[t].purpose.session, s.db.nextId) in g.called
    ensures NewThreadsBacked(g, s, StepDispatch(s, t, ok))
  {
    var Dispatching(at, p, purpose, InsertingLeg(role)) := s.threads[t];
    DispatchFailsBacked(g, s, t, s.db, at, purpose);
    if p in s.db.participants && at.room in s.db.rooms {
      var db := InsertLeg(s.db, at.workspace, p, at.room, role != Host);
      assert Backed(g, db, Dispatching(at, p, purpose, Originating(s.db.nextId, role)));
      BecomesBacked(g, s, t, db, Dispatching(at, p, purpose, Originating(s.db.nextId, role)));
    }
  }

  lemma PollBacked(g: Facts, s: State, t: Id, ok: bool, pick: Id, child: Id)
    requires t in s.threads && s.threads[t].Polling?
    requires var th := s.threads[t]; th.leg in s.db.legs && IsUp(s.db.legs[th.leg].state) ==>
               (th.session, th.leg) in g.answered && th.at.room in g.up
    ensures NewThreadsBacked(g, s, StepActivator(s, t, ok, pick, child))
  {
    var Polling(x, at, leg) := s.threads[t];
    BecomesBacked(g, s, t, s.db, GivingUp(x, at));
    if leg in s.db.legs && IsUp(s.db.legs[leg].state) { BecomesBacked(g, s, t, s.db, Promoting(x, at, leg)); }
  }

  lemma ActivatorBacked(g: Facts, s: State, t: Id, ok: bool, pick: Id, child: Id)
    requires t in s.threads && IsActivator(s.threads[t]) && !s.threads[t].Polling?
    requires Backed(g, s.db, s.threads[t])
    requires var th := s.threads[t];
             th.Promoting? && th.session in s.db.sessions && s.db.sessions[th.session].status == SessionStarting ==> th.session in g.promoted
    ensures NewThreadsBacked(g, s, StepActivator(s, t, ok, pick, child))
  {
    var s' := StepActivator(s, t, ok, pick, child);
    FinishesBacked(g, s, t, s.db);
    match s.threads[t]
    case Promoting(x, at, leg) =>
      if x in s.db.sessions && s.db.sessions[x].status == SessionStarting { BecomesBacked(g, s, t, s'.db, MarkingRunning(x, at, leg)); }
    case MarkingRunning(x, at, leg) => BecomesBacked(g, s, t, s'.db, ListingListeners(x, at, leg));
    case ListingListeners(x, at, leg) => BecomesBacked(g, s, t, s.db, FanningOut(x, at, leg, ListenersOf(s.db, at)));
    case FanningOut(x, at, leg, todo) =>
      var s1 := Become(s, t, s.db, FanningOut(x, at, leg, todo - {pick}));
      BecomesBacked(g, s, t, s.db, FanningOut(x, at, leg, todo - {pick}));
      BecomesBacked(g, s1, child, s.db, Dispatching(at, pick, FanOutCall(x), LookUp));
    case GivingUp(x, at) => BecomesBacked(g, s, t, s'.db, ResettingRoom(x, at, ANY_ROOM_STATE));
  }

  lemma StopperBacked(g: Facts, s: State, t: Id, ok: bool, pick: Id)
    requires t in s.threads && IsStopper(s.threads[t])
    ensures NewThreadsBacked(g, s, StepStopper(s, t, ok, pick))
  {
    var s' := StepStopper(s, t, ok, pick);
    assert s' == s || (t in s'.threads && s' == Become(s, t, s'.db, s'.threads[t]));
    if s' != s { BecomesBacked(g, s, t, s'.db, s'.threads[t]); }
  }

  lemma LiveBacked(g: Facts, s: State, t: Id, ok: bool, pick: Id, child: Id)
    requires t in s.threads && (s.threads[t].CheckingRoom? || s.threads[t].InsertingGuest?)
    requires RoomsBacked(g, s.db) && Backed(g, s.db, s.threads[t])
    ensures NewThreadsBacked(g, s, StepAdvance(s, t, ok, pick, child))
  {
    var s' := StepAdvance(s, t, ok, pick, child);
    FinishesBacked(g, s, t, s.db);
    match s.threads[t]
    case CheckingRoom(at, p) =>
      if RoomIn(s.db, at.workspace, at.room) && s.db.rooms[at.room].state == Running {
        BecomesBacked(g, s, t, s.db, Dispatching(at, p, LiveCall, LookUp));
      }
    case InsertingGuest(at, name, phone) =>
      BecomesBacked(g, s, t, s'.db, Dispatching(at, s.db.nextId, LiveCall, LookUp));
  }

  lemma ClosersBacked(g: Facts, s: State, t: Id, ok: bool, pick: Id, child: Id)
    requires t in s.threads
    requires var th := s.threads[t]; th.FailingSession? || th.ClosingSession? || th.ResettingRoom? || th.FindingHostSession?
    ensures NewThreadsBacked(g, s, StepAdvance(s, t, ok, pick, child))
  {
    var s' := StepAdvance(s, t, ok, pick, child);
    FinishesBacked(g, s, t, s'.db);
    match s.threads[t]
    case FailingSession(x, at) => BecomesBacked(g, s, t, s'.db, ResettingRoom(x, at, ANY_ROOM_STATE));
    case ClosingSession(x, at, _) => BecomesBacked(g, s, t, s'.db, ResettingRoom(x, at, {Starting, Running}));
    case ResettingRoom(_, _, _) =>
    case FindingHostSession(leg) =>
      if IsHostSessionOf(s.db, leg, pick) {
        var row := s.db.sessions[pick];
        BecomesBacked(g, s, t, s.db, ClosingSession(pick, Place(row.workspace, row.room),
                                                    if row.status == SessionStarting then SessionFailed else SessionEnded));
      }
  }

  lemma StartBacked(g: Facts, s: State, t: Id, at: Place, host: Id)
    ensures NewThreadsBacked(g, s, StepStart(s, t, at, host))
  {
    if t !in s.threads && StartAllowed(s.db, at) {
      var db := EnsureHost(s.db, at);
      if !HasActive(db, at.room) && IsHostOf(db, at.room, host) {
        var db' := Begun(db, at);
        BegunKeeps(db, at);
        BecomesBacked(g, s, t, db', Dispatching(at, host, HostCall(db.nextId), LookUp));
      }
    }
  }

  lemma ArrivalsBacked(g: Facts, s: State, a: Action)
    requires RoomsBacked(g, s.db) && !a.Advance?
    ensures NewThreadsBacked(g, s, Step(s, a))
  {
    match a
    case Start(t, at, host) => StartBacked(g, s, t, at, host);
    case Stop(t, at, x) => BecomesBacked(g, s, t, s.db, ListingLegs(x, at));
    case Event(t, leg, state) => BecomesBacked(g, s, t, SetLegState(s.db, leg, state), FindingHostSession(leg));
    case Dial(t, at, name, phone) =>
      if RoomIn(s.db, at.workspace, at.room) && s.db.rooms[at.room].state == Running {
        BecomesBacked(g, s, t, s.db, InsertingGuest(at, name, phone));
      }
    case AddBack(t, workspace, p) =>
      if p in s.db.participants { BecomesBacked(g, s, t, s.db, CheckingRoom(Place(workspace, s.db.participants[p].room), p)); }
    case _ =>
  }

  /** Only the activator's write makes a room RUNNING. */
  lemma RunningRooms(s: State, a: Action, r: Id)
    requires Good(s) && r in Step(s, a).db.rooms && Step(s, a).db.rooms[r].state == Running
    ensures (r in s.db.rooms && s.db.rooms[r].state == Running)
         || (a.Advance? && a.t in s.threads && s.threads[a.t].MarkingRunning? && s.threads[a.t].at.room == r)
  {
    StepRefines(s, a);
    RunningInLife(s, Step(s, a), EffectOf(s, a), r);
    MarkEffect(s, a);
  }

  lemma MarkEffect(s: State, a: Action)
    ensures EffectOf(s, a).Mark? ==> a.Advance? && EffectOf(s, a).t == a.t
  {
  }

  lemma RunningInLife(s: State, s': State, e: L.Effect, r: Id)
    requires Refined(s, s', e) && r in s'.db.rooms && s'.db.rooms[r].state == Running
    ensures (r in s.db.rooms && s.db.rooms[r].state == Running)
         || (e.Mark? && e.t in s.threads && s.threads[e.t].MarkingRunning? && s.threads[e.t].at.room == r)
  {
    assert r in LifeOf(s').rooms;
    L.OnlyMarkRuns(LifeOf(s), e, s'.db.nextId, r);
  }

  /** What the run learns from an action before it looks at the new tables. */
  lemma Learned(f: Facts, s: State, a: Action)
    requires a.Advance? && a.t in s.threads && Backed(f, s.db, s.threads[a.t]) && ThreadOk(s.db, s.threads[a.t])
    ensures var th, g := s.threads[a.t], NextFacts(f, s, a);
      && (th.Dispatching? && th.purpose.HostCall? && AddsLeg(s, a) ==> (th.purpose.session, s.db.nextId) in g.called)
      && (th.Promoting? && th.session in s.db.sessions && s.db.sessions[th.session].status == SessionStarting ==> th.session in g.promoted)
  {
  }

  lemma PollSees(f: Facts, s: State, a: Action)
    requires a.Advance? && a.t in s.threads && s.threads[a.t].Polling?
    requires Backed(f, s.db, s.threads[a.t]) && ThreadOk(s.db, s.threads[a.t])
    ensures var th, g := s.threads[a.t], NextFacts(f, s, a);
      th.leg in s.db.legs && IsUp(s.db.legs[th.leg].state) ==> (th.session, th.leg) in g.answered && th.at.room in g.up
  {
    var th := s.threads[a.t];
    assert Step(s, a).db == StepActivator(s, a.t, a.ok, a.pick, a.child).db == s.db;
    if th.leg in s.db.legs && IsUp(s.db.legs[th.leg].state) { assert th.at.room in UpRooms(s.db); }
  }

  lemma NewThreads(f: Facts, s: State, a: Action)
    requires Good(s) && Good(Step(s, a)) && Stable(s.db, Step(s, a).db) && AllBacked(f, s)
    ensures NewThreadsBacked(NextFacts(f, s, a), s, Step(s, a))
  {
    var g := NextFacts(f, s, a);
    Grows(f, s, a);
    if !a.Advance? {
      ArrivalsBacked(g, s, a);
    } else if a.t in s.threads {
      var th := s.threads[a.t];
      Learned(f, s, a);
      assert Backed(g, s.db, th);
      if th.Dispatching? {
        if th.step.InsertingLeg? {
          InsertBacked(g, s, a.t, a.ok);
        } else {
          StaysBacked(f, g, s.db, Step(s, a).db, th);
          DispatchBacked(g, s, a.t, a.ok);
        }
      } else if th.Polling? {
        PollSees(f, s, a);
        PollBacked(g, s, a.t, a.ok, a.pick, a.child);
      } else if IsActivator(th) {
        ActivatorBacked(g, s, a.t, a.ok, a.pick, a.child);
      } else if IsStopper(th) {
        StopperBacked(g, s, a.t, a.ok, a.pick);
      } else if th.CheckingRoom? || th.InsertingGuest? {
        LiveBacked(g, s, a.t, a.ok, a.pick, a.child);
      } else {
        ClosersBacked(g, s, a.t, a.ok, a.pick, a.child);
      }
    }
  }

  lemma StepBacked(f: Facts, s: State, a: Action)
    requires Good(s) && AllBacked(f, s)
    ensures AllBacked(NextFacts(f, s, a), Step(s, a))
  {
    var g, s' := NextFacts(f, s, a), Step(s, a);
    StepWithin(s, a);
    Grows(f, s, a);
    NewThreads(f, s, a);
    forall t | t in s'.threads ensures Backed(g, s'.db, s'.threads[t]) {
      if t in s.threads && s.threads[t] == s'.threads[t] { StaysBacked(f, g, s.db, s'.db, s.threads[t]); }
    }
    forall r | r in s'.db.rooms && s'.db.rooms[r].state == Running ensures r in g.up {
      RunningRooms(s, a, r);
      if !(r in s.db.rooms && s.db.rooms[r].state == Running) { assert Backed(f, s.db, s.threads[a.t]); }
    }
  }

  /** A step of a speaker or roster handler: the threads are as they were, and no room becomes RUNNING. */
  lemma OtherStepBacked(f: Facts, w: W.World, limit: nat, a: W.Action)
    requires ST.Good(w) && AllBacked(f, w.core) && !a.Core?
    ensures AllBacked(WorldFacts(f, w, limit, a), W.Step(w, limit, a).core)
  {
    var g, s, s' := WorldFacts(f, w, limit, a), w.core, W.Step(w, limit, a).core;
    ST.StepWithin(w, limit, a);
    SY.StepRefines(w, limit, a);
    SY.SameThreads(w, limit, a);
    forall t | t in s'.threads ensures Backed(g, s'.db, s'.threads[t]) {
      assert Backed(f, s.db, s.threads[t]) && ThreadOk(s.db, s.threads[t]);
      StaysBacked(f, g, s.db, s'.db, s.threads[t]);
    }
    forall r | r in s'.db.rooms && s'.db.rooms[r].state == Running ensures r in g.up { RunningInLife(s, s', SY.EffectOf(w, a), r); }
  }

  lemma {:induction false} ReachableBacked(limit: nat, run: seq<W.Action>)
    ensures AllBacked(FactsOf(limit, run), W.After(limit, run).core)
  {
    if run != [] {
      var before, a := run[..|run| - 1], run[|run| - 1];
      var w := W.After(limit, before);
      ReachableBacked(limit, before);
      ST.ReachableGood(limit, before);
      if a.Core? { StepBacked(FactsOf(limit, before), w.core, a.action); } else { OtherStepBacked(FactsOf(limit, before), w, limit, a); }
    }
  }

  // ---- From facts to positions of the run ----

  function DbAt(limit: nat, run: seq<W.Action>, i: nat): Db
    requires i <= |run|
  {
    SY.At(limit, run, i).core.db
  }

  lemma PrefixAt(limit: nat, run: seq<W.Action>, k: nat, i: nat)
    requires i <= k <= |run|
    ensures SY.At(limit, run[..k], i) == SY.At(limit, run, i) && (i < k ==> run[..k][i] == run[i])
  {
    assert run[..k][..i] == run[..i];
  }

  lemma {:induction false} UpSeen(limit: nat, run: seq<W.Action>, room: Id) returns (i: nat)
    requires room in FactsOf(limit, run).up
    ensures i <= |run| && HostUp(DbAt(limit, run, i), room)
  {
    var n := |run| - 1;
    var before := run[..n];
    if room in FactsOf(limit, before).up {
      i := UpSeen(limit, before, room);
      PrefixAt(limit, run, n, i);
    } else {
      i := |run|;
      SY.Whole(limit, run);
      assert room in UpRooms(W.After(limit, run).core.db);
    }
  }

  /** The i-th action inserts the leg that calls the session's host. */
  predicate CallsHostAt(limit: nat, run: seq<W.Action>, i: nat, x: Id, leg: Id)
    requires i < |run|
  {
    run[i].Core? && CallsHost(SY.At(limit, run, i).core, run[i].action, x, leg)
  }

  lemma {:induction false} CallSeen(limit: nat, run: seq<W.Action>, x: Id, leg: Id) returns (i: nat)
    requires (x, leg) in FactsOf(limit, run).called
    ensures i < |run| && CallsHostAt(limit, run, i, x, leg)
  {
    var n := |run| - 1;
    if (x, leg) in FactsOf(limit, run[..n]).called {
      i := CallSeen(limit, run[..n], x, leg);
      PrefixAt(limit, run, n, i);
    } else {
      i := n;
    }
  }

  lemma {:induction false} AnswerSeen(limit: nat, run: seq<W.Action>, x: Id, leg: Id) returns (i: nat, j: nat)
    requires (x, leg) in FactsOf(limit, run).answered
    ensures i < j <= |run| && CallsHostAt(limit, run, i, x, leg)
    ensures leg in DbAt(limit, run, j).legs && IsUp(DbAt(limit, run, j).legs[leg].state)
  {
    var n := |run| - 1;
    if (x, leg) in FactsOf(limit, run[..n]).answered {
      i, j := AnswerSeen(limit, run[..n], x, leg);
      PrefixAt(limit, run, n, i);
      PrefixAt(limit, run, n, j);
    } else {
      assert (x, leg) in FactsOf(limit, run).called;
      i := CallSeen(limit, run, x, leg);
      j := |run|;
      SY.Whole(limit, run);
    }
  }

  /** Action i calls the session's host on the leg, the leg is up before action j, and action m moves the
      session from STARTING to RUNNING. */
  ghost predicate OwnHostFirst(limit: nat, run: seq<W.Action>, x: Id, host: Id, i: nat, j: nat, m: nat) {
    && i < j <= m < |run| && CallsHostAt(limit, run, i, x, host)
    && host in DbAt(limit, run, j).legs && IsUp(DbAt(limit, run, j).legs[host].state)
    && SY.Promotes(limit, run, m, x)
  }

  lemma OwnHostEarlier(limit: nat, run: seq<W.Action>, k: nat, x: Id, host: Id, i: nat, j: nat, m: nat)
    requires k <= |run| && OwnHostFirst(limit, run[..k], x, host, i, j, m)
    ensures OwnHostFirst(limit, run, x, host, i, j, m) && m < k
  {
    PrefixAt(limit, run, k, i);
    PrefixAt(limit, run, k, j);
    PrefixAt(limit, run, k, m);
    PrefixAt(limit, run, k, m + 1);
  }

  lemma {:induction false} PromotionSeen(limit: nat, run: seq<W.Action>, x: Id) returns (host: Id, i: nat, j: nat, m: nat)
    requires x in FactsOf(limit, run).promoted
    ensures OwnHostFirst(limit, run, x, host, i, j, m)
  {
    var n := |run| - 1;
    if x in FactsOf(limit, run[..n]).promoted {
      host, i, j, m := PromotionSeen(limit, run[..n], x);
      OwnHostEarlier(limit, run, n, x, host, i, j, m);
    } else {
      host, i, j := NewPromotion(limit, run, x);
      m := n;
    }
  }

  lemma NewPromotion(limit: nat, run: seq<W.Action>, x: Id) returns (host: Id, i: nat, j: nat)
    requires run != [] && x in FactsOf(limit, run).promoted && x !in FactsOf(limit, run[..|run| - 1]).promoted
    ensures OwnHostFirst(limit, run, x, host, i, j, |run| - 1)
  {
    var n := |run| - 1;
    var s := W.After(limit, run[..n]).core;
    host := s.threads[run[n].action.t].leg;
    i, j := AnswerSeen(limit, run[..n], x, host);
    PrefixAt(limit, run, n, i);
    PrefixAt(limit, run, n, j);
    SY.AtNext(limit, run, n);
    PromotingStep(s, run[n].action);
  }

  lemma PromotingStep(s: State, a: Action)
    requires a.Advance? && a.t in s.threads && s.threads[a.t].Promoting?
    requires var x := s.threads[a.t].session; x in s.db.sessions && s.db.sessions[x].status == SessionStarting
    ensures var x := s.threads[a.t].session; x in Step(s, a).db.sessions && Step(s, a).db.sessions[x].status == SessionRunning
  {
  }

  // ---- The theorems ----

  /** The run's k-th action creates the leg. */
  predicate Creates(limit: nat, run: seq<W.Action>, k: nat, leg: Id)
    requires k < |run|
  {
    leg in DbAt(limit, run, k + 1).legs && leg !in DbAt(limit, run, k).legs
  }

  lemma DesiredKeepsLegs(db: Db, workspace: Id, p: Id)
    ensures forall from, to :: SetDesired(db, workspace, p, from, to).legs == db.legs
  {
  }

  lemma LegWriteKeepsLegs(db: Db, workspace: Id, leg: Id, deed: W.Deed)
    ensures W.SetLegFor(db, workspace, leg, deed).legs.Keys == db.legs.Keys
  {
    if leg in db.legs {
      match deed
      case Mute => SameKeys(db.legs, leg, db.legs[leg].(muted := true));
      case Unmute => SameKeys(db.legs, leg, db.legs[leg].(muted := false));
      case Drop => SameKeys(db.legs, leg, db.legs[leg].(state := Dropped));
    }
  }

  /** No speaker handler creates or deletes a leg. */
  lemma SpeakerKeepsLegs(db: Db, h: W.Speaker, ok: bool)
    ensures W.NextDb(db, h, ok).legs.Keys == db.legs.Keys
  {
    match h
    case Raising(workspace, p) => DesiredKeepsLegs(db, workspace, p);
    case Lowering(workspace, p) => DesiredKeepsLegs(db, workspace, p);
    case Muting(workspace, p) => DesiredKeepsLegs(db, workspace, p);
    case Activating(workspace, p, _) => DesiredKeepsLegs(db, workspace, p);
    case Settling(workspace, p, _) => DesiredKeepsLegs(db, workspace, p);
    case Opening(workspace, leg) =>
      assert W.NextDb(db, h, ok) == W.SetLegFor(db, workspace, leg, W.Unmute);
      LegWriteKeepsLegs(db, workspace, leg, W.Unmute);
    case SettingLeg(workspace, _, leg, deed) => LegWriteKeepsLegs(db, workspace, leg, deed);
    case _ =>
  }

  lemma OtherKeepsLegs(w: W.World, limit: nat, a: W.Action)
    requires ST.Good(w) && !a.Core?
    ensures W.Step(w, limit, a).core.db.legs.Keys <= w.core.db.legs.Keys
  {
    match a
    case Managed(op) => if R.IsRosterHandler(op) { ManagedTakes(w.core.db, op); }
    case Next(t, ok, pick) => if t in w.speakers { SpeakerKeepsLegs(w.core.db, w.speakers[t], ok); }
    case _ => ST.ArrivalStep(w, limit, a);
  }

  lemma CreatesByDispatch(s: State, a: Action, leg: Id)
    requires leg in Step(s, a).db.legs && leg !in s.db.legs
    ensures AddsLeg(s, a) && leg == s.db.nextId
    ensures Step(s, a).db.legs[leg].participant == s.threads[a.t].participant && Step(s, a).db.legs[leg].room == s.threads[a.t].at.room
    ensures Step(s, a).db.participants == s.db.participants
  {
    if !AddsLeg(s, a) {
      CoreTakes(s, a);
      assert false;
    }
    assert Step(s, a) == StepDispatch(s, a.t, a.ok);
  }

  /** The thread whose dispatch is the k-th action. */
  predicate DispatchesAt(limit: nat, run: seq<W.Action>, k: nat)
    requires k < |run|
  {
    run[k].Core? && AddsLeg(SY.At(limit, run, k).core, run[k].action)
  }

  function DispatchAt(limit: nat, run: seq<W.Action>, k: nat): Thread
    requires k < |run| && DispatchesAt(limit, run, k)
  {
    SY.At(limit, run, k).core.threads[run[k].action.t]
  }

  /** Legs are created by the dispatch paths only, as the new row of the participant the dispatch calls. */
  lemma CreatedByDispatch(limit: nat, run: seq<W.Action>, k: nat, leg: Id)
    requires k < |run| && Creates(limit, run, k, leg)
    ensures DispatchesAt(limit, run, k) && leg == DbAt(limit, run, k).nextId
    ensures var th, row := DispatchAt(limit, run, k), DbAt(limit, run, k + 1).legs[leg];
            row.participant == th.participant && row.room == th.at.room
    ensures DbAt(limit, run, k + 1).participants == DbAt(limit, run, k).participants
  {
    SY.AtNext(limit, run, k);
    ST.ReachableGood(limit, run[..k]);
    if run[k].Core? {
      CreatesByDispatch(SY.At(limit, run, k).core, run[k].action, leg);
    } else {
      OtherKeepsLegs(SY.At(limit, run, k), limit, run[k]);
      assert false;
    }
  }

  lemma BackedAt(limit: nat, run: seq<W.Action>, k: nat, t: Id)
    requires k <= |run| && t in SY.At(limit, run, k).core.threads
    ensures Backed(FactsOf(limit, run[..k]), DbAt(limit, run, k), SY.At(limit, run, k).core.threads[t])
  {
    ReachableBacked(limit, run[..k]);
  }

  /** A new leg is DISPATCHED, and muted exactly when its participant is a LISTENER. */
  lemma CreatedMuted(limit: nat, run: seq<W.Action>, k: nat, leg: Id)
    requires k < |run| && Creates(limit, run, k, leg)
    ensures var db := DbAt(limit, run, k + 1);
      && db.legs[leg].state == Dispatched
      && (db.legs[leg].muted <==> IsListenerLeg(db, leg)) && (!db.legs[leg].muted <==> IsHostLeg(db, leg))
  {
    CreatedByDispatch(limit, run, k, leg);
    BackedAt(limit, run, k, run[k].action.t);
    SY.AtNext(limit, run, k);
    NewLegRow(SY.At(limit, run, k).core, run[k].action);
  }

  lemma NewLegRow(s: State, a: Action)
    requires AddsLeg(s, a)
    ensures var th := s.threads[a.t];
      Step(s, a).db.legs == s.db.legs[s.db.nextId := Leg(th.at.workspace, th.participant, th.at.room, Dispatched, th.step.role != Host)]
  {
    assert Step(s, a) == StepDispatch(s, a.t, a.ok);
  }

  predicate IsListenerLeg(db: Db, leg: Id) {
    leg in db.legs && db.legs[leg].participant in db.participants && db.participants[db.legs[leg].participant].role == Listener
  }

  /** Every LISTENER leg ever created is preceded by a state where a HOST leg of its room was up. */
  lemma ListenerAfterHost(limit: nat, run: seq<W.Action>, k: nat, leg: Id) returns (i: nat)
    requires k < |run| && Creates(limit, run, k, leg) && IsListenerLeg(DbAt(limit, run, k + 1), leg)
    ensures i <= k && HostUp(DbAt(limit, run, i), DbAt(limit, run, k + 1).legs[leg].room)
  {
    CreatedByDispatch(limit, run, k, leg);
    BackedAt(limit, run, k, run[k].action.t);
    i := UpSeen(limit, run[..k], DispatchAt(limit, run, k).at.room);
    PrefixAt(limit, run, k, i);
  }

  /** Every leg the fan-out of a session creates is preceded by the call of the session's own host, then a
      state where that host leg was up, then the session's move from STARTING to RUNNING. */
  lemma FanOutAfterOwnHost(limit: nat, run: seq<W.Action>, k: nat, leg: Id, x: Id) returns (host: Id, i: nat, j: nat, m: nat)
    requires k < |run| && Creates(limit, run, k, leg)
    requires DispatchesAt(limit, run, k) && DispatchAt(limit, run, k).purpose == FanOutCall(x)
    ensures OwnHostFirst(limit, run, x, host, i, j, m) && m < k
  {
    BackedAt(limit, run, k, run[k].action.t);
    host, i, j, m := PromotionSeen(limit, run[..k], x);
    OwnHostEarlier(limit, run, k, x, host, i, j, m);
  }

  /** A session's listeners are listed only after its host was called, was up, and the session was promoted. */
  lemma FansOutAfterPromotion(limit: nat, run: seq<W.Action>, k: nat, x: Id) returns (host: Id, i: nat, j: nat, m: nat)
    requires k < |run| && SY.Lists(limit, run, k, x)
    ensures OwnHostFirst(limit, run, x, host, i, j, m) && m < k
  {
    BackedAt(limit, run, k, run[k].action.t);
    host, i, j, m := PromotionSeen(limit, run[..k], x);
    OwnHostEarlier(limit, run, k, x, host, i, j, m);
  }
}
