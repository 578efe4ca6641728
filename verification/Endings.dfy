/** Every handler that owns or closes a session can be run to its end on its own: with the answers that fail it,
    it closes the session and resets the room. */
module Endings {
  import opened Counting
  import opened Tables
  import opened RoomProtocol
  import opened RoomTenancy
  import opened Continuations
  import opened ControlFlow
  import opened LifecycleRefinement

  /** The thread still has a session to close, or may have to. */
  predicate MayClose(th: Thread) {
    || (th.Dispatching? && th.purpose.HostCall?) || th.FailingSession? || th.Polling? || th.GivingUp?
    || IsStopper(th) || th.ClosingSession?
  }

  /** The session write it comes to when the sidecar refuses its call and the activator's time runs out. */
  function Closer(th: Thread): Thread
    requires MayClose(th)
  {
    match th
    case Dispatching(at, _, purpose, step) =>
      if CanFail(step) then FailingSession(purpose.session, at) else GivingUp(purpose.session, at)
    case Polling(x, at, _) => GivingUp(x, at)
    case ListingLegs(x, at) => EndingSession(x, at)
    case DroppingLegs(x, at, _) => EndingSession(x, at)
    case _ => th
  }

  function BeforeClose(th: Thread): nat {
    match th
    case Dispatching(_, _, _, step) =>
      (match step
       case LookUp => 6
       case InsertingLeg(_) => 5
       case Originating(_, _) => 4
       case MarkingFailed(_) => 3
       case SettingDesired(_, _) => 3
       case Recording(_, _) => 2)
    case Polling(_, _, _) => 1
    case ListingLegs(_, _) => 1
    case DroppingLegs(_, _, todo) => |todo| + 1
    case _ => 0
  }

  /** Only thread t moved, and neither rooms nor sessions were written. */
  ghost predicate OnlyMoved(s: State, s': State, t: Id) {
    && t in s.threads && t in s'.threads && s'.threads == s.threads[t := s'.threads[t]]
    && s'.db.rooms == s.db.rooms && s'.db.sessions == s.db.sessions && s.db.nextId <= s'.db.nextId
  }

  /** Actions of one thread. */
  predicate MovesOf(t: Id, more: seq<Action>) { forall i | 0 <= i < |more| :: more[i].Advance? && more[i].t == t }

  lemma DispatchCloser(s: State, t: Id)
    requires t in s.threads && s.threads[t].Dispatching? && s.threads[t].purpose.HostCall?
    ensures var s' := StepDispatch(s, t, false);
      && OnlyMoved(s, s', t) && MayClose(s'.threads[t]) && Closer(s'.threads[t]) == Closer(s.threads[t])
      && BeforeClose(s'.threads[t]) < BeforeClose(s.threads[t])
  {
    var Dispatching(at, participant, purpose, step) := s.threads[t];
    match step
    case SettingDesired(_, role) => DispatchAside(s.db, at, participant, 0, 0, role, if role == Host then DesiredActive else DesiredMuted);
    case Recording(leg, role) => DispatchAside(s.db, at, participant, leg, purpose.session, role, DesiredActive);
    case MarkingFailed(leg) => DispatchAside(s.db, at, participant, leg, 0, Host, DesiredActive);
    case InsertingLeg(role) => DispatchAside(s.db, at, participant, 0, 0, role, DesiredActive);
    case _ =>
  }

  lemma ListingCloser(s: State, t: Id)
    requires t in s.threads && s.threads[t].ListingLegs?
    ensures var s' := Step(s, Go(t)); OnlyMoved(s, s', t) && s'.threads[t].DroppingLegs? && Closer(s'.threads[t]) == Closer(s.threads[t])
  {
    assert Step(s, Go(t)) == StepStopper(s, t, true, 0);
  }

  lemma DroppingCloser(s: State, t: Id, pick: Id)
    requires t in s.threads && s.threads[t].DroppingLegs? && (s.threads[t].todo != {} ==> pick in s.threads[t].todo)
    ensures var s' := Step(s, Advance(t, false, pick, 0));
      && OnlyMoved(s, s', t) && MayClose(s'.threads[t]) && Closer(s'.threads[t]) == Closer(s.threads[t])
      && BeforeClose(s'.threads[t]) < BeforeClose(s.threads[t])
  {
    var DroppingLegs(x, at, todo) := s.threads[t];
    Less(todo, pick);
    var next := if todo == {} then EndingSession(x, at) else DroppingLegs(x, at, todo - {pick});
    assert Step(s, Advance(t, false, pick, 0)) == Become(s, t, s.db, next);
  }

  /** One move towards the session write. */
  lemma NearsClose(s: State, t: Id) returns (a: Action)
    requires t in s.threads && MayClose(s.threads[t]) && s.threads[t] != Closer(s.threads[t]) && !s.threads[t].ListingLegs?
    ensures a.Advance? && a.t == t
    ensures var s' := Step(s, a);
      && OnlyMoved(s, s', t) && MayClose(s'.threads[t]) && Closer(s'.threads[t]) == Closer(s.threads[t])
      && BeforeClose(s'.threads[t]) < BeforeClose(s.threads[t])
  {
    var th := s.threads[t];
    var pick :| th.DroppingLegs? && th.todo != {} ==> pick in th.todo;
    a := Advance(t, false, pick, 0);
    if th.Dispatching? {
      DispatchCloser(s, t);
    } else if th.DroppingLegs? {
      DroppingCloser(s, t, pick);
    } else {
      assert Step(s, a) == StepActivator(s, t, false, pick, 0);
    }
  }

  lemma {:induction false} DrivesToClose(s: State, t: Id) returns (more: seq<Action>)
    requires t in s.threads && MayClose(s.threads[t]) && !s.threads[t].ListingLegs?
    ensures MovesOf(t, more) && OnlyMoved(s, Follow(s, more), t) && Follow(s, more).threads[t] == Closer(s.threads[t])
    decreases BeforeClose(s.threads[t])
  {
    if s.threads[t] == Closer(s.threads[t]) {
      more := [];
      assert s.threads[t := s.threads[t]] == s.threads;
    } else {
      var a := NearsClose(s, t);
      var rest := DrivesToClose(Step(s, a), t);
      more := [a] + rest;
      FollowOne(s, a);
      FollowOn(s, [a], rest);
      Overwritten(s.threads, t, Step(s, a).threads[t], Closer(s.threads[t]));
    }
  }

  /** Any such thread can come to its session write with rooms and sessions as they were. */
  lemma ToClose(s: State, t: Id) returns (more: seq<Action>)
    requires t in s.threads && MayClose(s.threads[t])
    ensures MovesOf(t, more) && OnlyMoved(s, Follow(s, more), t) && Follow(s, more).threads[t] == Closer(s.threads[t])
  {
    if s.threads[t].ListingLegs? {
      var a := Go(t);
      ListingCloser(s, t);
      var rest := DrivesToClose(Step(s, a), t);
      more := [a] + rest;
      FollowOne(s, a);
      FollowOn(s, [a], rest);
      Overwritten(s.threads, t, Step(s, a).threads[t], Closer(s.threads[t]));
    } else {
      more := DrivesToClose(s, t);
    }
  }

  /** The session write: no other session and no room is touched, and the room's READY write comes next. */
  lemma ClosesOne(s: State, t: Id)
    requires t in s.threads && MayClose(s.threads[t]) && s.threads[t] == Closer(s.threads[t])
    ensures var th, s' := s.threads[t], Step(s, Go(t));
      && t in s'.threads && s'.threads == s.threads[t := s'.threads[t]]
      && s'.threads[t].ResettingRoom? && s'.threads[t].at == th.at
      && s'.db.rooms == s.db.rooms && s'.db.sessions.Keys == s.db.sessions.Keys
      && forall x | x in s.db.sessions && x != th.session :: s'.db.sessions[x] == s.db.sessions[x]
  {
    var th, s' := s.threads[t], Step(s, Go(t));
    match th
    case EndingSession(_, _) => assert s' == StepStopper(s, t, true, 0);
    case GivingUp(_, _) => assert s' == StepActivator(s, t, true, 0, 0);
    case FailingSession(_, _) =>
    case ClosingSession(_, _, _) =>
  }

  lemma {:induction false} FollowGood(s: State, more: seq<Action>)
    requires Good(s)
    ensures Good(Follow(s, more))
    decreases |more|
  {
    if more != [] {
      StepWithin(s, more[0]);
      FollowGood(Step(s, more[0]), more[1..]);
    }
  }
}
