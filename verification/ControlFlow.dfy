/** The control flow of the protocol's threads: every thread of a state was there before, runs the next statement
    of a thread that was, was started by a fan-out, or arrived with a request. */
module ControlFlow {
  import opened Tables
  import opened RoomProtocol
  import opened RoomTenancy

  predicate FollowsDispatch(step: DispatchStep, next: DispatchStep) {
    match step
    case LookUp => next.InsertingLeg?
    case InsertingLeg(_) => next.Originating?
    case Originating(_, _) => next.SettingDesired? || next.MarkingFailed?
    case MarkingFailed(_) => false
    case SettingDesired(_, _) => next.Recording?
    case Recording(_, _) => false
  }

  /** The dispatch has not reached the sidecar's yes. */
  predicate CanFail(step: DispatchStep) { step.LookUp? || step.InsertingLeg? || step.Originating? || step.MarkingFailed? }

  /** A start's dispatch goes on, fails its session or becomes the session's activator. */
  predicate AfterDispatch(th: Thread, next: Thread)
    requires th.Dispatching?
  {
    match next
    case Dispatching(at, participant, purpose, step) =>
      at == th.at && participant == th.participant && purpose == th.purpose && FollowsDispatch(th.step, step)
    case FailingSession(x, at) => th.purpose == HostCall(x) && at == th.at && CanFail(th.step)
    case Polling(x, at, _) => th.purpose == HostCall(x) && at == th.at && th.step.Recording?
    case _ => false
  }

  /** What runs after the thread's statement, where it goes on. */
  predicate Succ(th: Thread, next: Thread) {
    match th
    case Dispatching(_, _, _, _) => AfterDispatch(th, next)
    case FailingSession(x, at) => next == ResettingRoom(x, at, ANY_ROOM_STATE)
    case Polling(x, at, leg) => next == GivingUp(x, at) || next == Promoting(x, at, leg)
    case Promoting(x, at, leg) => next == MarkingRunning(x, at, leg)
    case MarkingRunning(x, at, leg) => next == ListingListeners(x, at, leg)
    case ListingListeners(x, at, leg) => next.FanningOut? && next == FanningOut(x, at, leg, next.todo)
    case FanningOut(x, at, leg, todo) => next.FanningOut? && next == FanningOut(x, at, leg, next.todo) && next.todo <= todo
    case GivingUp(x, at) => next == ResettingRoom(x, at, ANY_ROOM_STATE)
    case ListingLegs(x, at) => next.DroppingLegs? && next == DroppingLegs(x, at, next.todo)
    case DroppingLegs(x, at, _) => next == EndingSession(x, at) || (next.DroppingLegs? && next == DroppingLegs(x, at, next.todo))
    case EndingSession(x, at) => next == ResettingRoom(x, at, ANY_ROOM_STATE)
    case FindingHostSession(_) => next.ClosingSession?
    case ClosingSession(x, at, _) => next == ResettingRoom(x, at, {Starting, Running})
    case ResettingRoom(_, _, _) => false
    case CheckingRoom(at, participant) => next == Dispatching(at, participant, LiveCall, LookUp)
    case InsertingGuest(at, _, _) => next.Dispatching? && next.purpose == LiveCall
  }

  /** A thread that begins with the action. */
  predicate Arrives(s: State, a: Action, th: Thread) {
    match a
    case Start(_, at, host) =>
      && th.Dispatching? && th.purpose.HostCall? && s.db.nextId <= th.purpose.session
      && th == Dispatching(at, host, th.purpose, LookUp)
    case Stop(_, at, x) => th == ListingLegs(x, at) && IsActiveIn(s.db, at, x)
    case Event(_, leg, _) => th == FindingHostSession(leg)
    case Dial(_, _, _, _) => th.InsertingGuest?
    case AddBack(_, _, _) => th.CheckingRoom?
    case _ => false
  }

  /** A thread that the action's fan-out starts. */
  predicate Spawns(s: State, a: Action, th: Thread) {
    && a.Advance? && a.t in s.threads && s.threads[a.t].FanningOut? && a.pick in s.threads[a.t].todo
    && th == Dispatching(s.threads[a.t].at, a.pick, FanOutCall(s.threads[a.t].session), LookUp)
  }

  /** Where thread u of the next state comes from. */
  predicate Comes(s: State, a: Action, u: Id, th: Thread) {
    || (u in s.threads && s.threads[u] == th)
    || (a.Advance? && u == a.t && u in s.threads && Succ(s.threads[u], th))
    || (u !in s.threads && (Spawns(s, a, th) || Arrives(s, a, th)))
  }

  ghost predicate Flows(s: State, a: Action, s': State) {
    forall u | u in s'.threads :: Comes(s, a, u, s'.threads[u])
  }

  lemma DispatchFlows(s: State, t: Id, ok: bool, pick: Id, child: Id)
    requires t in s.threads && s.threads[t].Dispatching?
    ensures Flows(s, Advance(t, ok, pick, child), StepDispatch(s, t, ok))
  {
    var a, s' := Advance(t, ok, pick, child), StepDispatch(s, t, ok);
    assert forall u | u in s'.threads && u != t :: u in s.threads && s'.threads[u] == s.threads[u];
    if t in s'.threads { assert AfterDispatch(s.threads[t], s'.threads[t]); }
  }

  lemma ActivatorFlows(s: State, t: Id, ok: bool, pick: Id, child: Id)
    requires t in s.threads && IsActivator(s.threads[t])
    ensures Flows(s, Advance(t, ok, pick, child), StepActivator(s, t, ok, pick, child))
  {
  }

  lemma StopperFlows(s: State, t: Id, ok: bool, pick: Id, child: Id)
    requires t in s.threads && IsStopper(s.threads[t])
    ensures Flows(s, Advance(t, ok, pick, child), StepStopper(s, t, ok, pick))
  {
  }

  lemma OtherFlows(s: State, t: Id, ok: bool, pick: Id, child: Id)
    requires t in s.threads && !IsOwn(s.threads[t])
    ensures Flows(s, Advance(t, ok, pick, child), StepAdvance(s, t, ok, pick, child))
  {
  }

  lemma StartFlows(s: State, t: Id, at: Place, host: Id)
    ensures Flows(s, Start(t, at, host), StepStart(s, t, at, host))
  {
    if t !in s.threads && StartAllowed(s.db, at) {
      assert s.db.nextId <= EnsureHost(s.db, at).nextId;
    }
  }

  lemma StepFlows(s: State, a: Action)
    ensures Flows(s, a, Step(s, a))
  {
    if a.Advance? {
      if a.t in s.threads {
        if s.threads[a.t].Dispatching? {
          DispatchFlows(s, a.t, a.ok, a.pick, a.child);
        } else if IsActivator(s.threads[a.t]) {
          ActivatorFlows(s, a.t, a.ok, a.pick, a.child);
        } else if IsStopper(s.threads[a.t]) {
          StopperFlows(s, a.t, a.ok, a.pick, a.child);
        } else {
          OtherFlows(s, a.t, a.ok, a.pick, a.child);
        }
      }
    } else if a.Start? {
      StartFlows(s, a.t, a.at, a.host);
    }
  }
}
