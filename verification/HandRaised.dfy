/** Raised hands and speaker requests when every speaker handler runs from its first statement to its last: a
    participant whose hand is raised has exactly one open request, however the room protocol's statements and the
    roster handlers come in between. */
module HandRaised {
  import opened Options
  import opened Tables
  import opened Isolation
  import opened Statements
  import opened SpeakerProtocol
  import opened Backing
  import P = RoomProtocol
  import R = Roster
  import RT = RosterTenancy
  import T = RoomTenancy
  import ST = SpeakerTheorems

  // ---- Whole handlers: their statements one after the other ----

  function Left(h: Speaker): nat {
    match h
    case Queueing(_, _, _, _) => 1
    case Withdrawing(_, _, _) => 1
    case Closing(_, _, _) => 1
    case Checking(_, _, _, _, _) => 4
    case Locating(_, _, _, _, _) => 3
    case Granting(_, _, _, _, _) => 2
    case Activating(_, _, _) => 1
    case SettingLeg(_, _, _, _) => 1
    case _ => 0
  }

  /** The handler runs on to its end with nothing in between. */
  function Rest(db: Db, limit: nat, h: Speaker, ok: bool, pick: Id): Db
    decreases Left(h)
  {
    var pc := NextPc(db, limit, h, ok, pick);
    if pc.Some? then Rest(NextDb(db, h, ok), limit, pc.value, ok, pick) else NextDb(db, h, ok)
  }

  /** A request handled from its first statement to its last. */
  function Serve(db: Db, limit: nat, a: Action, ok: bool, pick: Id): Db
    requires IsRequest(a)
  {
    var w := Step(World(P.State(db, map[]), map[]), limit, a);
    if a.t in w.speakers then Rest(db, limit, w.speakers[a.t], ok, pick) else db
  }

  datatype Whole =
    | Served(limit: nat, request: Action, ok: bool, pick: Id)  // a speaker handler, whole
    | Stepped(step: P.Action)                                 // one statement of the room protocol
    | Rostered(op: R.Op)                                      // a roster handler, whole

  function Handle(s: P.State, x: Whole): P.State {
    match x
    case Served(limit, a, ok, pick) => if IsRequest(a) then s.(db := Serve(s.db, limit, a, ok, pick)) else s
    case Stepped(a) => P.Step(s, a)
    case Rostered(op) => if R.IsRosterHandler(op) then s.(db := R.Handle(s.db, op)) else s
  }

  function After(run: seq<Whole>): P.State {
    if run == [] then P.INITIAL else Handle(After(run[..|run| - 1]), run[|run| - 1])
  }

  // ---- What the two writes of a handler do to the others ----

  lemma DesiredBacked(db: Db, workspace: Id, p: Id, from: set<Desired>, to: Desired, spared: set<Id>)
    requires AllBacked(db, spared)
    requires to != HandRaised || p !in db.participants || HasOpenRequest(db, db.participants[p].room, p)
    ensures AllBacked(SetDesired(db, workspace, p, from, to), spared)
  {
    var db' := SetDesired(db, workspace, p, from, to);
    forall x | x in db'.participants && x !in spared ensures Backed(db', x) {
      assert Backed(db, x);
      SameRequests(db, db', db'.participants[x].room, x);
    }
  }

  /** Lowering a hand takes its participant out of the spared ones. */
  lemma LoweredBacked(db: Db, workspace: Id, p: Id, from: set<Desired>, to: Desired)
    requires AllBacked(db, {p}) && to != HandRaised && HandRaised in from
    requires p in db.participants ==> db.participants[p].workspace == workspace
    ensures AllBacked(SetDesired(db, workspace, p, from, to), {})
  {
    DesiredBacked(db, workspace, p, from, to, {p});
    var db' := SetDesired(db, workspace, p, from, to);
    forall x | x in db'.participants ensures Backed(db', x) {
      if x != p { assert x !in {p}; }
    }
  }

  /** Requests that stay open, by id. */
  ghost predicate StayOpen(before: map<Id, Request>, after: map<Id, Request>, spared: set<Id>) {
    forall q | q in before && IsOpen(before[q].status) && before[q].participant !in spared ::
      q in after && IsOpen(after[q].status) && after[q].room == before[q].room && after[q].participant == before[q].participant
  }

  lemma RequestsBacked(db: Db, db': Db, spared: set<Id>)
    requires AllBacked(db, {}) && db'.participants == db.participants && StayOpen(db.requests, db'.requests, spared)
    ensures AllBacked(db', spared)
  {
    forall p | p in db'.participants && p !in spared ensures Backed(db', p) {
      assert Backed(db, p);
      if db.participants[p].desired == HandRaised {
        var q :| q in db.requests && db.requests[q].room == db.participants[p].room && db.requests[q].participant == p
                 && IsOpen(db.requests[q].status);
        assert q in db'.requests;
      }
    }
  }

  // ---- Each handler ----

  /** After the INSERT of `0` the participant has an open request, and nobody lost one. */
  lemma Asked(db: Db, workspace: Id, room: Id, p: Id, leg: Id)
    requires IdsBelow(db)
    ensures var db' := InsertRequest(db, workspace, room, p, leg);
      && db'.participants == db.participants && StayOpen(db.requests, db'.requests, {})
      && (p in db.participants && room in db.rooms && leg in db.legs ==> HasOpenRequest(db', room, p))
  {
    var db' := InsertRequest(db, workspace, room, p, leg);
    if p in db.participants && room in db.rooms && leg in db.legs {
      if HasOpenRequest(db, room, p) {
        assert db' == db;
      } else {
        assert db'.requests[db.nextId] == Request(workspace, room, p, Some(leg), Queued);
      }
    }
  }

  lemma ZeroBacked(db: Db, limit: nat, h: Speaker, ok: bool, pick: Id)
    requires Sound(db) && AllBacked(db, {}) && h.Queueing? && ST.HandlerOk(db, h)
    ensures AllBacked(Rest(db, limit, h, ok, pick), {})
  {
    var Queueing(workspace, room, p, leg) := h;
    var db1 := NextDb(db, h, ok);
    Asked(db, workspace, room, p, leg);
    RequestsBacked(db, db1, {});
    if p in db.participants && room in db.rooms && leg in db.legs {
      DesiredBacked(db1, workspace, p, RAISABLE, HandRaised, {});
      assert Rest(db, limit, h, ok, pick) == NextDb(db1, Raising(workspace, p), ok);
    }
  }

  lemma HashBacked(db: Db, limit: nat, h: Speaker, ok: bool, pick: Id)
    requires AllBacked(db, {}) && h.Withdrawing?
    requires h.participant in db.participants ==> db.participants[h.participant].workspace == h.workspace
    ensures AllBacked(Rest(db, limit, h, ok, pick), {})
  {
    var Withdrawing(workspace, room, p) := h;
    var db1 := NextDb(db, h, ok);
    RequestsBacked(db, db1, {p});
    LoweredBacked(db1, workspace, p, {HandRaised}, DesiredMuted);
    assert Rest(db, limit, h, ok, pick) == NextDb(db1, Lowering(workspace, p), ok);
  }

  lemma WithdrawBacked(db: Db, limit: nat, h: Speaker, ok: bool, pick: Id)
    requires AllBacked(db, {}) && h.Closing?
    requires h.request in db.requests ==> db.requests[h.request].participant == h.participant
    requires h.participant in db.participants ==> db.participants[h.participant].workspace == h.workspace
    ensures AllBacked(Rest(db, limit, h, ok, pick), {})
  {
    var Closing(workspace, _, p) := h;
    var db1 := NextDb(db, h, ok);
    RequestsBacked(db, db1, {p});
    LoweredBacked(db1, workspace, p, ANY_DESIRED, DesiredMuted);
    assert Rest(db, limit, h, ok, pick) == NextDb(db1, Muting(workspace, p), ok);
  }

  lemma ActivatingBacked(db: Db, limit: nat, h: Speaker, ok: bool, pick: Id)
    requires AllBacked(db, {}) && h.Activating?
    ensures AllBacked(Rest(db, limit, h, ok, pick), {})
  {
    var Activating(workspace, p, leg) := h;
    var db1 := NextDb(db, h, ok);
    DesiredBacked(db, workspace, p, ANY_DESIRED, DesiredActive, {});
    RequestsBacked(db1, NextDb(db1, Opening(workspace, leg), ok), {});
    assert Rest(db, limit, h, ok, pick) == NextDb(db1, Opening(workspace, leg), ok);
  }

  lemma GrantKeeps(db: Db, h: Speaker, ok: bool)
    requires h.Checking? || h.Locating? || h.Granting?
    ensures NextDb(db, h, ok).participants == db.participants && StayOpen(db.requests, NextDb(db, h, ok).requests, {})
  {
  }

  lemma GrantBacked(db: Db, limit: nat, h: Speaker, ok: bool, pick: Id)
    requires AllBacked(db, {}) && (h.Checking? || h.Locating? || h.Granting?)
    ensures AllBacked(Rest(db, limit, h, ok, pick), {})
    decreases Left(h)
  {
    var db1 := NextDb(db, h, ok);
    GrantKeeps(db, h, ok);
    RequestsBacked(db, db1, {});
    var pc := NextPc(db, limit, h, ok, pick);
    if pc.Some? {
      assert Rest(db, limit, h, ok, pick) == Rest(db1, limit, pc.value, ok, pick);
      if h.Granting? { ActivatingBacked(db1, limit, pc.value, ok, pick); } else { GrantBacked(db1, limit, pc.value, ok, pick); }
    }
  }

  lemma LegWriteAside(db: Db, workspace: Id, leg: Id, deed: Deed)
    ensures SetLegFor(db, workspace, leg, deed).participants == db.participants
    ensures SetLegFor(db, workspace, leg, deed).requests == db.requests
  {
  }

  lemma SettledBacked(db: Db, workspace: Id, p: Id, deed: Deed)
    requires AllBacked(db, {})
    ensures AllBacked(SetDesiredFor(db, workspace, p, deed), {})
  {
    var to := match deed case Mute => DesiredMuted case Unmute => DesiredActive case Drop => DesiredDropped;
    DesiredBacked(db, workspace, p, ANY_DESIRED, to, {});
  }

  lemma DeedBacked(db: Db, limit: nat, h: Speaker, ok: bool, pick: Id)
    requires AllBacked(db, {}) && h.SettingLeg?
    ensures AllBacked(Rest(db, limit, h, ok, pick), {})
  {
    var SettingLeg(workspace, p, leg, deed) := h;
    var db1 := NextDb(db, h, ok);
    LegWriteAside(db, workspace, leg, deed);
    RequestsBacked(db, db1, {});
    SettledBacked(db1, workspace, p, deed);
    assert Rest(db, limit, h, ok, pick) == NextDb(db1, Settling(workspace, p, deed), ok);
  }

  lemma ServeBacked(db: Db, limit: nat, a: Action, ok: bool, pick: Id)
    requires Sound(db) && AllBacked(db, {}) && IsRequest(a)
    ensures AllBacked(Serve(db, limit, a, ok, pick), {})
  {
    var w := Step(World(P.State(db, map[]), map[]), limit, a);
    if a.t in w.speakers {
      var h := w.speakers[a.t];
      ST.ArrivalStep(World(P.State(db, map[]), map[]), limit, a);
      match a
      case Digit(_, leg, zero) =>
        ST.ParticipantOf(db, db.legs[leg].participant, db.legs[leg].room);
        if zero { ZeroBacked(db, limit, h, ok, pick); } else { HashBacked(db, limit, h, ok, pick); }
      case Withdraw(_, _, request) =>
        ST.ParticipantOf(db, db.requests[request].participant, db.requests[request].room);
        WithdrawBacked(db, limit, h, ok, pick);
      case Grant(_, _, _) => GrantBacked(db, limit, h, ok, pick);
      case Act(_, _, _, _, _, _) => DeedBacked(db, limit, h, ok, pick);
    }
  }

  // ---- Runs ----

  lemma NextSound(db: Db, limit: nat, h: Speaker, ok: bool, pick: Id)
    requires Sound(db) && ST.HandlerOk(db, h)
    ensures Sound(NextDb(db, h, ok))
    ensures NextPc(db, limit, h, ok, pick).Some? ==> ST.HandlerOk(NextDb(db, h, ok), NextPc(db, limit, h, ok, pick).value)
  {
    ST.NextWithin(db, h, ok);
    if NextPc(db, limit, h, ok, pick).Some? {
      ST.PcOk(db, limit, h, ok, pick);
      ST.StableHandler(db, NextDb(db, h, ok), NextPc(db, limit, h, ok, pick).value);
    }
  }

  lemma ServedWithin(db: Db, limit: nat, h: Speaker, ok: bool, pick: Id)
    requires Sound(db) && ST.HandlerOk(db, h)
    ensures Within(db, Rest(db, limit, h, ok, pick), h.workspace)
    decreases Left(h)
  {
    NextSound(db, limit, h, ok, pick);
    ST.NextWithin(db, h, ok);
    var pc := NextPc(db, limit, h, ok, pick);
    if pc.Some? {
      ServedWithin(NextDb(db, h, ok), limit, pc.value, ok, pick);
      Then(db, NextDb(db, h, ok), Rest(db, limit, h, ok, pick), h.workspace);
    }
  }

  lemma ServeKeeps(db: Db, limit: nat, a: Action, ok: bool, pick: Id)
    requires Sound(db) && IsRequest(a)
    ensures Sound(Serve(db, limit, a, ok, pick)) && Stable(db, Serve(db, limit, a, ok, pick))
  {
    var w := World(P.State(db, map[]), map[]);
    Same(db, 0);
    ST.ArrivalStep(w, limit, a);
    var h := Step(w, limit, a).speakers;
    if a.t in h { ServedWithin(db, limit, h[a.t], ok, pick); }
  }

  lemma ServedBacked(s: P.State, limit: nat, a: Action, ok: bool, pick: Id)
    requires T.Good(s) && AllBacked(s.db, {}) && IsRequest(a)
    ensures var s' := Handle(s, Served(limit, a, ok, pick)); T.Good(s') && AllBacked(s'.db, {})
  {
    ServeKeeps(s.db, limit, a, ok, pick);
    ServeBacked(s.db, limit, a, ok, pick);
    T.StableThreads(s, Serve(s.db, limit, a, ok, pick));
  }

  lemma ManagedBacked(s: P.State, op: R.Op)
    requires T.Good(s) && AllBacked(s.db, {}) && R.IsRosterHandler(op)
    ensures var s' := Handle(s, Rostered(op)); T.Good(s') && AllBacked(s'.db, {})
  {
    RT.HandleWithin(s.db, op);
    T.StableThreads(s, R.Handle(s.db, op));
    ManagedHarmless(s.db, op);
    HarmlessBacks(s.db, R.Handle(s.db, op), {});
  }

  /** Each whole speaker handler, each statement of the room protocol and each roster handler keeps raised hands
      backed by an open request. */
  lemma HandleBacked(s: P.State, x: Whole)
    requires T.Good(s) && AllBacked(s.db, {})
    ensures T.Good(Handle(s, x)) && AllBacked(Handle(s, x).db, {})
  {
    match x
    case Served(limit, a, ok, pick) => if IsRequest(a) { ServedBacked(s, limit, a, ok, pick); }
    case Stepped(a) =>
      T.StepWithin(s, a);
      CoreHarmless(s, a);
      HarmlessBacks(s.db, P.Step(s, a).db, {});
    case Rostered(op) => if R.IsRosterHandler(op) { ManagedBacked(s, op); }
  }

  lemma {:induction false} ReachableBacked(run: seq<Whole>)
    ensures T.Good(After(run)) && AllBacked(After(run).db, {})
  {
    if run != [] {
      ReachableBacked(run[..|run| - 1]);
      HandleBacked(After(run[..|run| - 1]), run[|run| - 1]);
    }
  }

  predicate IsOpenRequest(db: Db, q: Id, p: Id) { q in db.requests && db.requests[q].participant == p && IsOpen(db.requests[q].status) }

  /** A participant whose hand is raised has exactly one open request. */
  lemma RaisedHandHasOneRequest(run: seq<Whole>, p: Id) returns (q: Id)
    requires p in After(run).db.participants && After(run).db.participants[p].desired == HandRaised
    ensures IsOpenRequest(After(run).db, q, p)
    ensures forall other :: IsOpenRequest(After(run).db, other, p) ==> other == q
  {
    ReachableBacked(run);
    var db := After(run).db;
    assert Backed(db, p);
    q :| q in db.requests && db.requests[q].room == db.participants[p].room && db.requests[q].participant == p && IsOpen(db.requests[q].status);
    forall other | IsOpenRequest(db, other, p) ensures other == q {
      assert p in Homes(db.participants) && db.requests[other].room == db.participants[p].room;
    }
  }
}
