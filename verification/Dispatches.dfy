/** What a dispatch does for whoever asks for it: the host's call of a start, a call of the fan-out, a live dial or
    an add-back. An accepted one leaves a called leg, a refused one a failed leg, one that is turned down nothing. */
module Dispatches {
  import opened Options
  import opened Tables
  import opened RoomProtocol
  import opened Continuations
  import Text

  /** The thread moves n times, with every answer good. */
  function Turns(t: Id, n: nat): seq<Action> { if n == 0 then [] else [Go(t)] + Turns(t, n - 1) }

  lemma Turn(s: State, t: Id, n: nat)
    requires n > 0
    ensures Follow(s, Turns(t, n)) == Follow(Step(s, Go(t)), Turns(t, n - 1))
  {
    assert Turns(t, n)[1..] == Turns(t, n - 1);
  }

  /** The participant is on the room's roster, and the room has its ACTIVE number. */
  predicate Callable(db: Db, at: Place, p: Id) {
    && at.room in db.rooms && db.rooms[at.room].workspace == at.workspace && db.rooms[at.room].tfn
    && p in db.participants && db.participants[p].workspace == at.workspace && db.participants[p].room == at.room
  }

  /** The session of the purpose, where it has one, exists. */
  predicate HasSession(db: Db, purpose: Purpose) { !purpose.LiveCall? ==> purpose.session in db.sessions }

  /** The tables once the participant is called: the leg, muted for a listener, the participant's state, and the
      attendance row of a session's call. */
  function Dialled(db: Db, at: Place, p: Id, purpose: Purpose): Db
    requires p in db.participants
  {
    var leg, row := db.nextId, db.participants[p];
    db.(legs := db.legs[leg := Leg(at.workspace, p, at.room, Dispatched, row.role == Listener)],
        participants := db.participants[p := row.(desired := if row.role == Host then DesiredActive else DesiredMuted)],
        attendance := if purpose.LiveCall? then db.attendance
                      else db.attendance[leg + 1 := Attendance(purpose.session, Some(p), Some(leg), row.role)],
        nextId := leg + (if purpose.LiveCall? then 1 else 2))
  }

  /** Who goes on: the start polls for its host, the others are done. */
  function Answered(threads: map<Id, Thread>, t: Id, at: Place, purpose: Purpose, leg: Id): map<Id, Thread> {
    if purpose.HostCall? then threads[t := Polling(purpose.session, at, leg)] else threads - {t}
  }

  /** The start goes on to fail its session, the others are done. */
  function Refused(threads: map<Id, Thread>, t: Id, at: Place, purpose: Purpose): map<Id, Thread> {
    if purpose.HostCall? then threads[t := FailingSession(purpose.session, at)] else threads - {t}
  }

  // ---- Statement by statement ----

  predicate IsAt(s: State, t: Id, at: Place, p: Id, purpose: Purpose, step: DispatchStep) {
    t in s.threads && s.threads[t] == Dispatching(at, p, purpose, step)
  }

  /** A dispatch goes on to its leg exactly for a callable participant with a valid number and a node at hand. */
  lemma LookedUp(s: State, t: Id, at: Place, p: Id, purpose: Purpose, ok: bool)
    requires IsAt(s, t, at, p, purpose, LookUp)
    ensures Step(s, Advance(t, ok, 0, 0))
         == State(s.db, if Callable(s.db, at, p) && ok
                        then s.threads[t := Dispatching(at, p, purpose, InsertingLeg(s.db.participants[p].role))]
                        else Refused(s.threads, t, at, purpose))
  {
    assert Step(s, Advance(t, ok, 0, 0)) == StepDispatch(s, t, ok);
  }

  lemma InsertsLeg(s: State, t: Id, at: Place, p: Id, purpose: Purpose, role: Role)
    requires IsAt(s, t, at, p, purpose, InsertingLeg(role)) && p in s.db.participants && at.room in s.db.rooms
    ensures Step(s, Go(t))
         == State(s.db.(legs := s.db.legs[s.db.nextId := Leg(at.workspace, p, at.room, Dispatched, role == Listener)], nextId := s.db.nextId + 1),
                  s.threads[t := Dispatching(at, p, purpose, Originating(s.db.nextId, role))])
  {
    assert Step(s, Go(t)) == StepDispatch(s, t, true);
  }

  lemma Originates(s: State, t: Id, at: Place, p: Id, purpose: Purpose, leg: Id, role: Role, ok: bool)
    requires IsAt(s, t, at, p, purpose, Originating(leg, role))
    ensures Step(s, Advance(t, ok, 0, 0))
         == State(s.db, s.threads[t := Dispatching(at, p, purpose, if ok then SettingDesired(leg, role) else MarkingFailed(leg))])
  {
    assert Step(s, Advance(t, ok, 0, 0)) == StepDispatch(s, t, ok);
  }

  lemma SetsDesired(s: State, t: Id, at: Place, p: Id, purpose: Purpose, leg: Id, role: Role)
    requires IsAt(s, t, at, p, purpose, SettingDesired(leg, role))
    requires p in s.db.participants && s.db.participants[p].workspace == at.workspace
    ensures Step(s, Go(t))
         == State(s.db.(participants := s.db.participants[p := s.db.participants[p].(desired := if role == Host then DesiredActive else DesiredMuted)]),
                  if purpose.LiveCall? then s.threads - {t} else s.threads[t := Dispatching(at, p, purpose, Recording(leg, role))])
  {
    AnyDesired(s.db.participants[p].desired);
    assert Step(s, Go(t)) == StepDispatch(s, t, true);
  }

  lemma Records(s: State, t: Id, at: Place, p: Id, purpose: Purpose, leg: Id, role: Role)
    requires IsAt(s, t, at, p, purpose, Recording(leg, role)) && !purpose.LiveCall?
    requires purpose.session in s.db.sessions && p in s.db.participants && leg in s.db.legs
    ensures Step(s, Go(t))
         == State(s.db.(attendance := s.db.attendance[s.db.nextId := Attendance(purpose.session, Some(p), Some(leg), role)], nextId := s.db.nextId + 1),
                  Answered(s.threads, t, at, purpose, leg))
  {
    assert Step(s, Go(t)) == StepDispatch(s, t, true);
  }

  lemma MarksFailed(s: State, t: Id, at: Place, p: Id, purpose: Purpose, leg: Id)
    requires IsAt(s, t, at, p, purpose, MarkingFailed(leg)) && leg in s.db.legs
    ensures Step(s, Go(t)) == State(s.db.(legs := s.db.legs[leg := s.db.legs[leg].(state := Failed)]), Refused(s.threads, t, at, purpose))
  {
    assert Step(s, Go(t)) == StepDispatch(s, t, true);
  }

  // ---- Up to the originate ----

  /** The state in which the sidecar is asked to call. */
  function Asked(s: State, t: Id, at: Place, p: Id, purpose: Purpose): State
    requires p in s.db.participants
  {
    var role := s.db.participants[p].role;
    State(s.db.(legs := s.db.legs[s.db.nextId := Leg(at.workspace, p, at.room, Dispatched, role == Listener)], nextId := s.db.nextId + 1),
          s.threads[t := Dispatching(at, p, purpose, Originating(s.db.nextId, role))])
  }

  lemma Asks(s: State, t: Id, at: Place, p: Id, purpose: Purpose)
    requires IsAt(s, t, at, p, purpose, LookUp) && Callable(s.db, at, p)
    ensures Step(Step(s, Go(t)), Go(t)) == Asked(s, t, at, p, purpose)
  {
    var role := s.db.participants[p].role;
    LookedUp(s, t, at, p, purpose, true);
    InsertsLeg(Step(s, Go(t)), t, at, p, purpose, role);
    Overwritten(s.threads, t, Dispatching(at, p, purpose, InsertingLeg(role)), Dispatching(at, p, purpose, Originating(s.db.nextId, role)));
  }

  /** From the originate on: the participant's state and the attendance row. */
  lemma {:induction false} Completes(s: State, t: Id, at: Place, p: Id, purpose: Purpose, leg: Id, role: Role)
    requires IsAt(s, t, at, p, purpose, Originating(leg, role)) && HasSession(s.db, purpose)
    requires p in s.db.participants && s.db.participants[p].workspace == at.workspace && leg in s.db.legs
    ensures var db1 := s.db.(participants := s.db.participants[p := s.db.participants[p].(desired := if role == Host then DesiredActive else DesiredMuted)]);
      Follow(s, Turns(t, if purpose.LiveCall? then 2 else 3))
      == State(if purpose.LiveCall? then db1
               else db1.(attendance := s.db.attendance[s.db.nextId := Attendance(purpose.session, Some(p), Some(leg), role)], nextId := s.db.nextId + 1),
               Answered(s.threads, t, at, purpose, leg))
  {
    var n := if purpose.LiveCall? then 2 else 3;
    Turn(s, t, n);
    Originates(s, t, at, p, purpose, leg, role, true);
    var s1 := Step(s, Go(t));
    Turn(s1, t, n - 1);
    SetsDesired(s1, t, at, p, purpose, leg, role);
    var s2 := Step(s1, Go(t));
    if purpose.LiveCall? {
      assert s1.threads - {t} == s.threads - {t};
    } else {
      Turn(s2, t, 1);
      Records(s2, t, at, p, purpose, leg, role);
      Answers(s.threads, s2.threads, t, at, purpose, leg);
    }
  }

  lemma Answers(threads: map<Id, Thread>, moved: map<Id, Thread>, t: Id, at: Place, purpose: Purpose, leg: Id)
    requires t in threads && t in moved && moved == threads[t := moved[t]]
    ensures Answered(moved, t, at, purpose, leg) == Answered(threads, t, at, purpose, leg)
    ensures Refused(moved, t, at, purpose) == Refused(threads, t, at, purpose)
  {
    assert moved - {t} == threads - {t};
    Overwritten(threads, t, moved[t], Polling(0, at, leg));
  }

  // ---- Whole dispatches ----

  /** How many statements an accepted dispatch takes. */
  function Steps(purpose: Purpose): nat { if purpose.LiveCall? then 4 else 5 }

  /** A dispatch that is accepted calls the participant, whoever asked for it: a new leg of theirs, DISPATCHED and
      muted exactly for a LISTENER; ACTIVE a host and MUTED a listener; and an attendance row of the session of
      that participant and leg, where a session calls. Nothing else changes. */
  lemma {:induction false} DispatchCalls(s: State, t: Id, at: Place, p: Id, purpose: Purpose)
    requires IsAt(s, t, at, p, purpose, LookUp) && Callable(s.db, at, p) && HasSession(s.db, purpose)
    ensures Follow(s, Turns(t, Steps(purpose))) == State(Dialled(s.db, at, p, purpose), Answered(s.threads, t, at, purpose, s.db.nextId))
  {
    var n := Steps(purpose);
    Turn(s, t, n);
    Turn(Step(s, Go(t)), t, n - 1);
    Asks(s, t, at, p, purpose);
    var s2 := Asked(s, t, at, p, purpose);
    Completes(s2, t, at, p, purpose, s.db.nextId, s.db.participants[p].role);
    Answers(s.threads, s2.threads, t, at, purpose, s.db.nextId);
  }

  /** The sidecar refuses the call: the new leg is FAILED and nothing else changes; a start goes on to fail its
      session. */
  lemma {:induction false} DispatchRefused(s: State, t: Id, at: Place, p: Id, purpose: Purpose)
    requires IsAt(s, t, at, p, purpose, LookUp) && Callable(s.db, at, p)
    ensures Follow(s, [Go(t), Go(t)] + [Advance(t, false, 0, 0), Go(t)])
         == State(s.db.(legs := s.db.legs[s.db.nextId := Leg(at.workspace, p, at.room, Failed, s.db.participants[p].role == Listener)],
                        nextId := s.db.nextId + 1),
                  Refused(s.threads, t, at, purpose))
  {
    Asks(s, t, at, p, purpose);
    var s2 := Asked(s, t, at, p, purpose);
    Originates(s2, t, at, p, purpose, s.db.nextId, s.db.participants[p].role, false);
    var s3 := Step(s2, Advance(t, false, 0, 0));
    MarksFailed(s3, t, at, p, purpose, s.db.nextId);
    Overwritten(s.threads, t, s2.threads[t], s3.threads[t]);
    Answers(s.threads, s3.threads, t, at, purpose, s.db.nextId);
    FollowTwo(s, Go(t), Go(t));
    FollowTwo(s2, Advance(t, false, 0, 0), Go(t));
    FollowOn(s, [Go(t), Go(t)], [Advance(t, false, 0, 0), Go(t)]);
  }

  // ---- dispatchDial and addParticipant ----

  /** The live dialler goes on exactly in a RUNNING room with an ACTIVE number and a place left. */
  lemma DialGuard(s: State, t: Id, at: Place, name: string, phone: string)
    requires t !in s.threads
    ensures Step(s, Dial(t, at, name, phone)) != s <==>
      && at.room in s.db.rooms && s.db.rooms[at.room].workspace == at.workspace
      && s.db.rooms[at.room].state == Running && s.db.rooms[at.room].tfn
      && |set p | p in s.db.participants && s.db.participants[p].room == at.room| < s.db.rooms[at.room].limit
  {
  }

  /** An accepted live dial adds a listener, named by the number where no name was given, and calls it; no session
      has it attend. */
  lemma {:induction false} DialCalls(s: State, t: Id, at: Place, name: string, phone: string)
    requires t !in s.threads && Step(s, Dial(t, at, name, phone)) != s && s.db.nextId !in s.db.participants
    ensures var n, shown := s.db.nextId, if Text.Blank(name) then phone else name;
      Follow(s, [Dial(t, at, name, phone)] + Turns(t, 5))
      == State(s.db.(participants := s.db.participants[n := Participant(at.workspace, at.room, Listener, shown, phone, DesiredMuted)],
                     legs := s.db.legs[n + 1 := Leg(at.workspace, n, at.room, Dispatched, true)], nextId := n + 2),
               s.threads)
  {
    var shown := if Text.Blank(name) then phone else name;
    DialTaken(s, t, at, name, phone);
    GuestCalled(Step(s, Dial(t, at, name, phone)), t, at, shown, phone);
    assert s.threads[t := InsertingGuest(at, shown, phone)] - {t} == s.threads;
    First(s, Dial(t, at, name, phone), Turns(t, 5));
  }

  lemma {:induction false} First(s: State, a: Action, rest: seq<Action>)
    ensures Follow(s, [a] + rest) == Follow(Step(s, a), rest)
  {
    FollowOne(s, a);
    FollowOn(s, [a], rest);
  }

  lemma DialTaken(s: State, t: Id, at: Place, name: string, phone: string)
    requires t !in s.threads && Step(s, Dial(t, at, name, phone)) != s
    ensures at.room in s.db.rooms && s.db.rooms[at.room].workspace == at.workspace && s.db.rooms[at.room].tfn
    ensures Step(s, Dial(t, at, name, phone)) == State(s.db, s.threads[t := InsertingGuest(at, if Text.Blank(name) then phone else name, phone)])
  {
  }

  lemma {:induction false} GuestCalled(s: State, t: Id, at: Place, name: string, phone: string)
    requires t in s.threads && s.threads[t] == InsertingGuest(at, name, phone) && s.db.nextId !in s.db.participants
    requires at.room in s.db.rooms && s.db.rooms[at.room].workspace == at.workspace && s.db.rooms[at.room].tfn
    ensures var n := s.db.nextId;
      Follow(s, Turns(t, 5))
      == State(s.db.(participants := s.db.participants[n := Participant(at.workspace, at.room, Listener, name, phone, DesiredMuted)],
                     legs := s.db.legs[n + 1 := Leg(at.workspace, n, at.room, Dispatched, true)], nextId := n + 2),
               s.threads - {t})
  {
    var n, guest := s.db.nextId, Participant(at.workspace, at.room, Listener, name, phone, DesiredMuted);
    var db := s.db.(participants := s.db.participants[n := guest], nextId := n + 1);
    var s1 := State(db, s.threads[t := Dispatching(at, n, LiveCall, LookUp)]);
    Joins(s, t, at, name, phone);
    Turn(s, t, 5);
    DispatchCalls(s1, t, at, n, LiveCall);
    assert s1.threads - {t} == s.threads - {t};
    assert db.participants[n := guest.(desired := DesiredMuted)] == db.participants;
  }

  lemma Joins(s: State, t: Id, at: Place, name: string, phone: string)
    requires t in s.threads && s.threads[t] == InsertingGuest(at, name, phone) && at.room in s.db.rooms
    ensures Step(s, Go(t))
         == State(s.db.(participants := s.db.participants[s.db.nextId := Participant(at.workspace, at.room, Listener, name, phone, DesiredMuted)],
                        nextId := s.db.nextId + 1),
                  s.threads[t := Dispatching(at, s.db.nextId, LiveCall, LookUp)])
  {
    assert Step(s, Go(t)) == StepAdvance(s, t, true, 0, 0);
  }

  /** A participant of a RUNNING room is called again; of another room it is not. */
  lemma {:induction false} AddBackCalls(s: State, t: Id, at: Place, p: Id)
    requires t !in s.threads && Callable(s.db, at, p)
    ensures s.db.rooms[at.room].state == Running ==>
      Follow(s, [AddBack(t, at.workspace, p)] + Turns(t, 5)) == State(Dialled(s.db, at, p, LiveCall), s.threads)
    ensures s.db.rooms[at.room].state != Running ==> Follow(s, [AddBack(t, at.workspace, p)] + Turns(t, 1)) == s
  {
    var s1 := State(s.db, s.threads[t := CheckingRoom(at, p)]);
    assert Step(s, AddBack(t, at.workspace, p)) == s1;
    FollowOne(s, AddBack(t, at.workspace, p));
    assert s1.threads - {t} == s.threads;
    if s.db.rooms[at.room].state == Running {
      var s2 := State(s.db, s.threads[t := Dispatching(at, p, LiveCall, LookUp)]);
      Overwritten(s.threads, t, CheckingRoom(at, p), Dispatching(at, p, LiveCall, LookUp));
      Turn(s1, t, 5);
      assert Step(s1, Go(t)) == s2;
      DispatchCalls(s2, t, at, p, LiveCall);
      assert s2.threads - {t} == s.threads;
      FollowOn(s, [AddBack(t, at.workspace, p)], Turns(t, 5));
    } else {
      Turn(s1, t, 1);
      assert Turns(t, 0) == [];
      FollowOn(s, [AddBack(t, at.workspace, p)], Turns(t, 1));
    }
  }

  // ---- The fan-out ----

  /** The listeners called one after the other, each as goroutine u. */
  function CallEach(t: Id, u: Id, order: seq<Id>): seq<Action> {
    if order == [] then []
    else CallEach(t, u, order[..|order| - 1]) + ([Advance(t, true, order[|order| - 1], u)] + Turns(u, 5))
  }

  /** The legs and attendance rows of the calls, in their order from id n on. */
  function LegsFor(at: Place, order: seq<Id>, n: Id): map<Id, Leg> {
    if order == [] then map[]
    else
      var k := |order| - 1;
      LegsFor(at, order[..k], n)[n + 2 * k := Leg(at.workspace, order[k], at.room, Dispatched, true)]
  }

  function RowsFor(x: Id, order: seq<Id>, n: Id): map<Id, Attendance> {
    if order == [] then map[]
    else
      var k := |order| - 1;
      RowsFor(x, order[..k], n)[n + 2 * k + 1 := Attendance(x, Some(order[k]), Some(n + 2 * k), Listener)]
  }

  /** One leg and one row a listener, and no others. */
  lemma {:induction false} OneEach(at: Place, x: Id, order: seq<Id>, n: Id)
    ensures forall i | 0 <= i < |order| ::
      && n + 2 * i in LegsFor(at, order, n) && LegsFor(at, order, n)[n + 2 * i] == Leg(at.workspace, order[i], at.room, Dispatched, true)
      && n + 2 * i + 1 in RowsFor(x, order, n) && RowsFor(x, order, n)[n + 2 * i + 1] == Attendance(x, Some(order[i]), Some(n + 2 * i), Listener)
    ensures forall l | l in LegsFor(at, order, n) :: n <= l < n + 2 * |order| && (l - n) % 2 == 0
    ensures forall a | a in RowsFor(x, order, n) :: n <= a < n + 2 * |order| && (a - n) % 2 == 1
  {
    if order != [] { OneEach(at, x, order[..|order| - 1], n); }
  }

  function MutedAll(participants: map<Id, Participant>, order: seq<Id>): map<Id, Participant> {
    map p | p in participants :: if p in order then participants[p].(desired := DesiredMuted) else participants[p]
  }

  /** The tables once a session has called the listeners. */
  function FannedOut(db: Db, at: Place, x: Id, order: seq<Id>): Db {
    db.(legs := db.legs + LegsFor(at, order, db.nextId), attendance := db.attendance + RowsFor(x, order, db.nextId),
        participants := MutedAll(db.participants, order), nextId := db.nextId + 2 * |order|)
  }

  lemma {:induction false} OneMoreMuted(participants: map<Id, Participant>, order: seq<Id>, p: Id)
    requires p in participants
    ensures MutedAll(participants, order + [p]) == MutedAll(participants, order)[p := participants[p].(desired := DesiredMuted)]
  {
  }

  lemma {:induction false} OneMoreLeg(legs: map<Id, Leg>, at: Place, order: seq<Id>, n: Id)
    requires order != []
    ensures var k := |order| - 1;
      (legs + LegsFor(at, order[..k], n))[n + 2 * k := Leg(at.workspace, order[k], at.room, Dispatched, true)] == legs + LegsFor(at, order, n)
  {
  }

  lemma {:induction false} OneMoreRow(rows: map<Id, Attendance>, x: Id, order: seq<Id>, n: Id)
    requires order != []
    ensures var k := |order| - 1;
      (rows + RowsFor(x, order[..k], n))[n + 2 * k + 1 := Attendance(x, Some(order[k]), Some(n + 2 * k), Listener)] == rows + RowsFor(x, order, n)
  {
  }

  lemma {:induction false} OneMoreCalled(db: Db, at: Place, x: Id, order: seq<Id>)
    requires order != [] && order[|order| - 1] in db.participants && db.participants[order[|order| - 1]].role == Listener
    ensures var k := |order| - 1; Dialled(FannedOut(db, at, x, order[..k]), at, order[k], FanOutCall(x)) == FannedOut(db, at, x, order)
  {
    var k, p := |order| - 1, order[|order| - 1];
    assert order == order[..k] + [p];
    OneMoreMuted(db.participants, order[..k], p);
    assert MutedAll(db.participants, order[..k])[p].(desired := DesiredMuted) == db.participants[p].(desired := DesiredMuted);
    OneMoreLeg(db.legs, at, order, db.nextId);
    OneMoreRow(db.attendance, x, order, db.nextId);
  }

  /** The fan-out starts the goroutine of a listener, which calls it. */
  lemma {:induction false} CallsOne(s: State, t: Id, u: Id, x: Id, at: Place, leg: Id, todo: set<Id>, p: Id)
    requires t in s.threads && s.threads[t] == FanningOut(x, at, leg, todo) && p in todo && u !in s.threads
    requires Callable(s.db, at, p) && x in s.db.sessions
    ensures Follow(s, [Advance(t, true, p, u)] + Turns(u, 5))
         == State(Dialled(s.db, at, p, FanOutCall(x)), s.threads[t := FanningOut(x, at, leg, todo - {p})])
  {
    var a, s1 := Advance(t, true, p, u), State(s.db, s.threads[t := FanningOut(x, at, leg, todo - {p})][u := Dispatching(at, p, FanOutCall(x), LookUp)]);
    assert Step(s, a) == StepActivator(s, t, true, p, u) == s1;
    FollowOne(s, a);
    FollowOn(s, [a], Turns(u, 5));
    DispatchCalls(s1, u, at, p, FanOutCall(x));
    assert s1.threads - {u} == s.threads[t := FanningOut(x, at, leg, todo - {p})];
  }

  lemma {:induction false} CallsEach(s: State, t: Id, u: Id, x: Id, at: Place, leg: Id, todo: set<Id>, order: seq<Id>)
    requires t in s.threads && s.threads[t] == FanningOut(x, at, leg, todo) && u !in s.threads && x in s.db.sessions
    requires forall p | p in order :: p in todo && Callable(s.db, at, p) && s.db.participants[p].role == Listener
    requires forall i, j | 0 <= i < j < |order| :: order[i] != order[j]
    ensures Follow(s, CallEach(t, u, order))
         == State(FannedOut(s.db, at, x, order), s.threads[t := FanningOut(x, at, leg, todo - set p | p in order)])
  {
    if order == [] {
      assert todo - (set p | p in order) == todo && s.threads[t := FanningOut(x, at, leg, todo)] == s.threads;
      assert MutedAll(s.db.participants, order) == s.db.participants;
      assert s.db.legs + LegsFor(at, order, s.db.nextId) == s.db.legs;
      assert s.db.attendance + RowsFor(x, order, s.db.nextId) == s.db.attendance;
    } else {
      var k := |order| - 1;
      CallsEach(s, t, u, x, at, leg, todo, order[..k]);
      LastCalled(s, t, u, x, at, leg, todo, order);
      FollowOn(s, CallEach(t, u, order[..k]), [Advance(t, true, order[k], u)] + Turns(u, 5));
    }
  }

  lemma {:induction false} LastCalled(s: State, t: Id, u: Id, x: Id, at: Place, leg: Id, todo: set<Id>, order: seq<Id>)
    requires t in s.threads && s.threads[t] == FanningOut(x, at, leg, todo) && u !in s.threads && x in s.db.sessions && order != []
    requires forall p | p in order :: p in todo && Callable(s.db, at, p) && s.db.participants[p].role == Listener
    requires forall i, j | 0 <= i < j < |order| :: order[i] != order[j]
    ensures var k := |order| - 1;
      Follow(State(FannedOut(s.db, at, x, order[..k]), s.threads[t := FanningOut(x, at, leg, todo - set p | p in order[..k])]),
             [Advance(t, true, order[k], u)] + Turns(u, 5))
      == State(FannedOut(s.db, at, x, order), s.threads[t := FanningOut(x, at, leg, todo - set p | p in order)])
  {
    var k := |order| - 1;
    var left := todo - set p | p in order[..k];
    var s1 := State(FannedOut(s.db, at, x, order[..k]), s.threads[t := FanningOut(x, at, leg, left)]);
    assert order[k] in order && order == order[..k] + [order[k]];
    CallsOne(s1, t, u, x, at, leg, left, order[k]);
    OneMoreCalled(s.db, at, x, order);
    assert left - {order[k]} == todo - set p | p in order;
    Overwritten(s.threads, t, s1.threads[t], FanningOut(x, at, leg, left - {order[k]}));
  }

  /** A fan-out whose calls are all accepted calls every listener on its list, in any order: one DISPATCHED and muted
      leg and one attendance row of the session each, and each MUTED. Nobody else is called, nothing else changes. */
  lemma {:induction false} FanOutCallsAll(s: State, t: Id, u: Id, x: Id, at: Place, leg: Id, todo: set<Id>, order: seq<Id>)
    requires (forall p :: p in todo <==> p in order)
    requires t in s.threads && s.threads[t] == FanningOut(x, at, leg, todo) && u !in s.threads && x in s.db.sessions
    requires forall p | p in order :: Callable(s.db, at, p) && s.db.participants[p].role == Listener
    requires forall i, j | 0 <= i < j < |order| :: order[i] != order[j]
    ensures Follow(s, CallEach(t, u, order) + [Go(t)]) == State(FannedOut(s.db, at, x, order), s.threads - {t})
  {
    CallsWhole(s, t, u, x, at, leg, todo, order);
    FansOutLast(s, CallEach(t, u, order), t, x, at, leg);
    assert s.threads[t := FanningOut(x, at, leg, {})] - {t} == s.threads - {t};
  }

  lemma {:induction false} CallsWhole(s: State, t: Id, u: Id, x: Id, at: Place, leg: Id, todo: set<Id>, order: seq<Id>)
    requires (forall p :: p in todo <==> p in order)
    requires t in s.threads && s.threads[t] == FanningOut(x, at, leg, todo) && u !in s.threads && x in s.db.sessions
    requires forall p | p in order :: Callable(s.db, at, p) && s.db.participants[p].role == Listener
    requires forall i, j | 0 <= i < j < |order| :: order[i] != order[j]
    ensures Follow(s, CallEach(t, u, order)) == State(FannedOut(s.db, at, x, order), s.threads[t := FanningOut(x, at, leg, {})])
  {
    CallsEach(s, t, u, x, at, leg, todo, order);
    assert todo - (set p | p in order) == {};
  }

  lemma {:induction false} FansOutLast(s: State, first: seq<Action>, t: Id, x: Id, at: Place, leg: Id)
    requires var s1 := Follow(s, first); t in s1.threads && s1.threads[t] == FanningOut(x, at, leg, {})
    ensures Follow(s, first + [Go(t)]) == State(Follow(s, first).db, Follow(s, first).threads - {t})
  {
    var s1 := Follow(s, first);
    assert Step(s1, Go(t)) == StepActivator(s1, t, true, 0, 0);
    FollowOne(s1, Go(t));
    FollowOn(s, first, [Go(t)]);
  }
}
