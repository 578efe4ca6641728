/** A session's fan-out calls each listener at most once in a whole run of the control API. */
module ListenerCalls {
  import opened Tables
  import opened RoomProtocol
  import opened RoomTenancy
  import opened ControlFlow
  import opened LifecycleRefinement
  import L = Lifecycle
  import W = SpeakerProtocol
  import ST = SpeakerTheorems
  import SY = SystemTheorems

  /** Thread c is new after the step, and calls listener p for the fan-out of session x. */
  predicate StartsCall(s: State, s': State, c: Id, x: Id, p: Id) {
    && c !in s.threads && c in s'.threads
    && s'.threads[c].Dispatching? && s'.threads[c].participant == p && s'.threads[c].purpose == FanOutCall(x)
  }

  /** Step i of the run starts it. */
  ghost predicate CallsListener(limit: nat, run: seq<W.Action>, i: nat, c: Id, x: Id, p: Id)
    requires i < |run|
  {
    StartsCall(SY.At(limit, run, i).core, SY.At(limit, run, i + 1).core, c, x, p)
  }

  predicate OwnsSession(th: Thread, x: Id) {
    ViewOf(th).Some? && L.Owns(ViewOf(th).value) && ViewOf(th).value.session == x
  }

  /** Nobody is left to call the listener for the session. */
  ghost predicate Spent(s: State, x: Id, p: Id) {
    x < s.db.nextId && forall t | t in s.threads && OwnsSession(s.threads[t], x) :: s.threads[t].FanningOut? && p !in s.threads[t].todo
  }

  lemma OwnedBefore(th: Thread, next: Thread, x: Id)
    requires Succ(th, next) && OwnsSession(next, x)
    ensures OwnsSession(th, x) && (th.FanningOut? ==> next.FanningOut? && next.todo <= th.todo)
  {
  }

  lemma OwnerComes(s: State, a: Action, u: Id, th: Thread, x: Id)
    requires Comes(s, a, u, th) && OwnsSession(th, x) && x < s.db.nextId
    ensures u in s.threads && OwnsSession(s.threads[u], x) && (s.threads[u].FanningOut? ==> th.FanningOut? && th.todo <= s.threads[u].todo)
  {
    if u in s.threads && s.threads[u] != th { OwnedBefore(s.threads[u], th, x); }
  }

  lemma SpentKept(s: State, a: Action, x: Id, p: Id)
    requires Good(s) && Spent(s, x, p)
    ensures Spent(Step(s, a), x, p)
  {
    var s' := Step(s, a);
    StepFlows(s, a);
    StepRefines(s, a);
    forall t | t in s'.threads && OwnsSession(s'.threads[t], x) ensures s'.threads[t].FanningOut? && p !in s'.threads[t].todo {
      OwnerComes(s, a, t, s'.threads[t], x);
    }
  }

  lemma WorldSpent(w: W.World, limit: nat, a: W.Action, x: Id, p: Id)
    requires ST.Good(w) && Spent(w.core, x, p)
    ensures Spent(W.Step(w, limit, a).core, x, p)
  {
    if a.Core? {
      SpentKept(w.core, a.action, x, p);
    } else {
      SY.SameThreads(w, limit, a);
      SY.StepRefines(w, limit, a);
    }
  }

  lemma {:induction false} StaysSpent(limit: nat, run: seq<W.Action>, i: nat, j: nat, x: Id, p: Id)
    requires i <= j <= |run| && Spent(SY.At(limit, run, i).core, x, p)
    ensures Spent(SY.At(limit, run, j).core, x, p)
    decreases j - i
  {
    if i < j {
      ST.ReachableGood(limit, run[..i]);
      SY.AtNext(limit, run, i);
      WorldSpent(SY.At(limit, run, i), limit, run[i], x, p);
      StaysSpent(limit, run, i + 1, j, x, p);
    }
  }

  /** The step that starts the call is its activator's, which takes the listener off its list. */
  lemma SpawnedBy(s: State, a: Action, c: Id, x: Id, p: Id)
    requires StartsCall(s, Step(s, a), c, x, p)
    ensures a.Advance? && a.t in s.threads && s.threads[a.t].FanningOut? && s.threads[a.t].session == x && p in s.threads[a.t].todo
    ensures a.t in Step(s, a).threads && Step(s, a).threads[a.t].FanningOut? && p !in Step(s, a).threads[a.t].todo
  {
    StepFlows(s, a);
    assert Comes(s, a, c, Step(s, a).threads[c]);
    assert Spawns(s, a, Step(s, a).threads[c]);
    assert Step(s, a) == StepActivator(s, a.t, a.ok, a.pick, a.child);
  }

  lemma OneOwnerThread(s: State, t: Id, u: Id, x: Id)
    requires L.OneOwner(LifeOf(s)) && t in s.threads && u in s.threads && OwnsSession(s.threads[t], x) && OwnsSession(s.threads[u], x)
    ensures t == u
  {
    assert t in LifeOf(s).threads && u in LifeOf(s).threads;
  }

  lemma SpentAfter(s: State, a: Action, c: Id, x: Id, p: Id)
    requires Good(s) && L.Basic(LifeOf(s)) && StartsCall(s, Step(s, a), c, x, p)
    ensures Spent(Step(s, a), x, p)
  {
    var s' := Step(s, a);
    SpawnedBy(s, a, c, x, p);
    assert ThreadOk(s.db, s.threads[a.t]);
    StepFlows(s, a);
    StepRefines(s, a);
    forall t | t in s'.threads && OwnsSession(s'.threads[t], x) ensures s'.threads[t].FanningOut? && p !in s'.threads[t].todo {
      OwnerComes(s, a, t, s'.threads[t], x);
      OneOwnerThread(s, t, a.t, x);
    }
  }

  /** Only a statement of the room protocol starts a call. */
  lemma CallIsCore(limit: nat, run: seq<W.Action>, i: nat, c: Id, x: Id, p: Id)
    requires i < |run| && CallsListener(limit, run, i, c, x, p)
    ensures run[i].Core? && SY.At(limit, run, i + 1).core == Step(SY.At(limit, run, i).core, run[i].action)
  {
    ST.ReachableGood(limit, run[..i]);
    SY.AtNext(limit, run, i);
    if !run[i].Core? { SY.SameThreads(SY.At(limit, run, i), limit, run[i]); }
  }

  lemma SpentOnceCalled(limit: nat, run: seq<W.Action>, i: nat, c: Id, x: Id, p: Id)
    requires i < |run| && CallsListener(limit, run, i, c, x, p)
    ensures Spent(SY.At(limit, run, i + 1).core, x, p)
  {
    ST.ReachableGood(limit, run[..i]);
    SY.ReachableLife(limit, run, i);
    CallIsCore(limit, run, i, c, x, p);
    SpentAfter(SY.At(limit, run, i).core, run[i].action, c, x, p);
  }

  lemma SpentNotCalled(limit: nat, run: seq<W.Action>, j: nat, d: Id, x: Id, p: Id)
    requires j < |run| && Spent(SY.At(limit, run, j).core, x, p)
    ensures !CallsListener(limit, run, j, d, x, p)
  {
    if CallsListener(limit, run, j, d, x, p) {
      CallIsCore(limit, run, j, d, x, p);
      SpawnedBy(SY.At(limit, run, j).core, run[j].action, d, x, p);
    }
  }

  lemma NotAgain(limit: nat, run: seq<W.Action>, i: nat, j: nat, c: Id, d: Id, x: Id, p: Id)
    requires i < j < |run| && CallsListener(limit, run, i, c, x, p)
    ensures !CallsListener(limit, run, j, d, x, p)
  {
    SpentOnceCalled(limit, run, i, c, x, p);
    StaysSpent(limit, run, i + 1, j, x, p);
    SpentNotCalled(limit, run, j, d, x, p);
  }

  /** A session's activator starts at most one call to a listener in a run. */
  lemma CalledOnce(limit: nat, run: seq<W.Action>, i: nat, j: nat, c: Id, d: Id, x: Id, p: Id)
    requires i < |run| && j < |run| && CallsListener(limit, run, i, c, x, p) && CallsListener(limit, run, j, d, x, p)
    ensures i == j && c == d
  {
    if i < j { NotAgain(limit, run, i, j, c, d, x, p); }
    if j < i { NotAgain(limit, run, j, i, d, c, x, p); }
    CallIsCore(limit, run, i, c, x, p);
    OneSpawn(SY.At(limit, run, i).core, run[i].action, c, d, x, p);
  }

  lemma OneSpawn(s: State, a: Action, c: Id, d: Id, x: Id, p: Id)
    requires StartsCall(s, Step(s, a), c, x, p) && StartsCall(s, Step(s, a), d, x, p)
    ensures c == d
  {
    SpawnedBy(s, a, c, x, p);
    assert Step(s, a) == StepActivator(s, a.t, a.ok, a.pick, a.child);
  }
}
