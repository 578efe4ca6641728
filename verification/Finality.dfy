/** How a session was closed, ENDED or FAILED, is final exactly when no handler in flight is still to write the
    other one over it. Over runs of the whole control API. */
module Finality {
  import opened Tables
  import opened RoomProtocol
  import opened RoomTenancy
  import opened Continuations
  import opened ControlFlow
  import opened Endings
  import opened LifecycleRefinement
  import L = Lifecycle
  import W = SpeakerProtocol
  import WC = SpeakerContinuations
  import ST = SpeakerTheorems
  import SY = SystemTheorems

  /** Two session writes ask for no status: the stop's ENDED, and the FAILED of a start whose host call fails. */
  predicate Overwrites(th: Thread, x: Id, status: SessionStatus) {
    match status
    case SessionFailed => IsStopper(th) && th.session == x
    case SessionEnded =>
      (th.FailingSession? && th.session == x) || (th.Dispatching? && th.purpose == HostCall(x) && CanFail(th.step))
    case _ => false
  }

  predicate Overwritable(s: State, x: Id)
    requires x in s.db.sessions
  {
    exists t :: t in s.threads && Overwrites(s.threads[t], x, s.db.sessions[x].status)
  }

  // ---- Nobody left to overwrite it ----

  /** The session is closed with this status, or deleted, and nobody is left to overwrite it. */
  ghost predicate Clear(s: State, x: Id, status: SessionStatus) {
    && x < s.db.nextId && !IsActive(status) && (x in s.db.sessions ==> s.db.sessions[x].status == status)
    && forall t | t in s.threads :: !Overwrites(s.threads[t], x, status)
  }

  lemma OverwritesBefore(th: Thread, next: Thread, x: Id, status: SessionStatus)
    requires Succ(th, next) && Overwrites(next, x, status)
    ensures Overwrites(th, x, status)
  {
  }

  lemma NobodyNew(s: State, a: Action, x: Id, status: SessionStatus)
    requires Clear(s, x, status)
    ensures forall t | t in Step(s, a).threads :: !Overwrites(Step(s, a).threads[t], x, status)
  {
    var s' := Step(s, a);
    StepFlows(s, a);
    forall t | t in s'.threads ensures !Overwrites(s'.threads[t], x, status) {
      assert Comes(s, a, t, s'.threads[t]);
      if Overwrites(s'.threads[t], x, status) && t in s.threads && a.Advance? && t == a.t && Succ(s.threads[t], s'.threads[t]) {
        OverwritesBefore(s.threads[t], s'.threads[t], x, status);
      }
    }
  }

  /** A close that takes a closed status is one that Overwrites names. */
  lemma CloseOverwrites(s: State, a: Action, x: Id, status: SessionStatus)
    requires EffectOf(s, a).Close? && !IsActive(status) && status in EffectOf(s, a).from && status != EffectOf(s, a).to
    requires a.Advance? && a.t in s.threads && ViewOf(s.threads[a.t]).Some? && ViewOf(s.threads[a.t]).value.session == x
    ensures Overwrites(s.threads[a.t], x, status)
  {
  }

  lemma CloseAdvances(s: State, a: Action)
    requires EffectOf(s, a).Close?
    ensures a.Advance? && a.t in s.threads && EffectOf(s, a).t == a.t && ViewOf(s.threads[a.t]).Some?
  {
  }

  lemma WritesNothing(s: State, a: Action, x: Id, status: SessionStatus)
    requires Good(s) && L.Basic(LifeOf(s)) && Clear(s, x, status)
    ensures x in Step(s, a).db.sessions ==> Step(s, a).db.sessions[x].status == status
  {
    var e, l := EffectOf(s, a), LifeOf(s);
    StepRefines(s, a);
    if x in LifeOf(Step(s, a)).sessions {
      L.ClosedStays(l, e, Step(s, a).db.nextId, x);
      if LifeOf(Step(s, a)).sessions[x].status != status {
        CloseAdvances(s, a);
        CloseOverwrites(s, a, x, status);
        assert false;
      }
    }
  }

  lemma StepClear(s: State, a: Action, x: Id, status: SessionStatus)
    requires Good(s) && L.Basic(LifeOf(s)) && Clear(s, x, status)
    ensures Clear(Step(s, a), x, status)
  {
    NobodyNew(s, a, x, status);
    WritesNothing(s, a, x, status);
    StepRefines(s, a);
  }

  lemma BesideClear(s: State, s': State, e: L.Effect, x: Id, status: SessionStatus)
    requires L.Basic(LifeOf(s)) && Clear(s, x, status)
    requires Refined(s, s', e) && !e.Close? && s'.threads == s.threads
    ensures Clear(s', x, status)
  {
    if x in LifeOf(s').sessions { L.ClosedStays(LifeOf(s), e, s'.db.nextId, x); }
  }

  lemma WorldClear(w: W.World, limit: nat, a: W.Action, x: Id, status: SessionStatus)
    requires ST.Good(w) && L.Basic(LifeOf(w.core)) && Clear(w.core, x, status)
    ensures Clear(W.Step(w, limit, a).core, x, status)
  {
    if a.Core? {
      StepClear(w.core, a.action, x, status);
    } else {
      SY.StepRefines(w, limit, a);
      SY.SameThreads(w, limit, a);
      BesideClear(w.core, W.Step(w, limit, a).core, SY.EffectOf(w, a), x, status);
    }
  }

  lemma {:induction false} StaysClear(limit: nat, run: seq<W.Action>, i: nat, j: nat, x: Id, status: SessionStatus)
    requires i <= j <= |run| && Clear(SY.At(limit, run, i).core, x, status)
    ensures Clear(SY.At(limit, run, j).core, x, status)
    decreases j - i
  {
    if i < j {
      ST.ReachableGood(limit, run[..i]);
      SY.ReachableLife(limit, run, i);
      SY.AtNext(limit, run, i);
      WorldClear(SY.At(limit, run, i), limit, run[i], x, status);
      StaysClear(limit, run, i + 1, j, x, status);
    }
  }

  // ---- Somebody left: the status can still change ----

  lemma CloserOf(th: Thread, x: Id, status: SessionStatus)
    requires Overwrites(th, x, status)
    ensures MayClose(th) && Closer(th) == if status == SessionEnded then FailingSession(x, th.at) else EndingSession(x, th.at)
  {
  }

  /** The write itself. */
  lemma Rewrites(s: State, t: Id, x: Id, at: Place, status: SessionStatus)
    requires t in s.threads && x in s.db.sessions && s.db.sessions[x].workspace == at.workspace
    requires s.threads[t] == if status == SessionEnded then FailingSession(x, at) else EndingSession(x, at)
    ensures x in Step(s, Go(t)).db.sessions
    ensures Step(s, Go(t)).db.sessions[x].status == if status == SessionEnded then SessionFailed else SessionEnded
  {
    AnyState(s.db.sessions[x].status, Ready);
    if status != SessionEnded { assert Step(s, Go(t)) == StepStopper(s, t, true, 0); }
  }

  lemma ChangesFrom(s: State, t: Id, x: Id) returns (more: seq<Action>)
    requires Good(s) && x in s.db.sessions && t in s.threads && Overwrites(s.threads[t], x, s.db.sessions[x].status)
    ensures var s' := Follow(s, more);
      && x in s'.db.sessions && !IsActive(s'.db.sessions[x].status) && s'.db.sessions[x].status != s.db.sessions[x].status
  {
    var th, status := s.threads[t], s.db.sessions[x].status;
    assert ThreadOk(s.db, th);
    HeldSessionWorkspace(s.db, th.at, x);
    CloserOf(th, x, status);
    var first := ToClose(s, t);
    var s1 := Follow(s, first);
    Rewrites(s1, t, x, th.at, status);
    FollowOne(s1, Go(t));
    FollowOn(s, first, [Go(t)]);
    more := first + [Go(t)];
  }

  /** With such a handler in flight some continuation turns FAILED into ENDED, or ENDED into FAILED. */
  lemma CanChange(limit: nat, run: seq<W.Action>, x: Id) returns (more: seq<W.Action>)
    requires var s := W.After(limit, run).core; x in s.db.sessions && Overwritable(s, x)
    ensures var db, db' := W.After(limit, run).core.db, W.After(limit, run + more).core.db;
      && x in db'.sessions && !IsActive(db'.sessions[x].status) && db'.sessions[x].status != db.sessions[x].status
  {
    var w := W.After(limit, run);
    var t :| t in w.core.threads && Overwrites(w.core.threads[t], x, w.core.db.sessions[x].status);
    ST.ReachableGood(limit, run);
    var moves := ChangesFrom(w.core, t, x);
    more := WC.Cored(moves);
    WC.FollowCored(w, limit, moves);
    WC.AfterMore(limit, run, more);
  }

  /** However the run of the control API goes on, the session keeps its status for as long as it exists. */
  ghost predicate Final(limit: nat, run: seq<W.Action>, x: Id)
    requires x in W.After(limit, run).core.db.sessions
  {
    forall more: seq<W.Action> | x in W.After(limit, run + more).core.db.sessions :: KeepsStatus(limit, run, more, x)
  }

  ghost predicate KeepsStatus(limit: nat, run: seq<W.Action>, more: seq<W.Action>, x: Id)
    requires x in W.After(limit, run).core.db.sessions && x in W.After(limit, run + more).core.db.sessions
  {
    W.After(limit, run + more).core.db.sessions[x].status == W.After(limit, run).core.db.sessions[x].status
  }

  lemma ClearForever(limit: nat, run: seq<W.Action>, x: Id)
    requires var s := W.After(limit, run).core; x in s.db.sessions && !IsActive(s.db.sessions[x].status) && !Overwritable(s, x)
    ensures Final(limit, run, x)
  {
    ST.ReachableGood(limit, run);
    var status := W.After(limit, run).core.db.sessions[x].status;
    forall more: seq<W.Action> | x in W.After(limit, run + more).core.db.sessions ensures KeepsStatus(limit, run, more, x) {
      assert (run + more)[..|run|] == run && (run + more)[..|run + more|] == run + more;
      StaysClear(limit, run + more, |run|, |run + more|, x, status);
    }
  }

  /** A closed session's status is final iff no stop of a FAILED session is under way, and no start of an ENDED one
      whose host call can still fail. */
  lemma ClosedIsFinal(limit: nat, run: seq<W.Action>, x: Id)
    requires var db := W.After(limit, run).core.db; x in db.sessions && !IsActive(db.sessions[x].status)
    ensures Final(limit, run, x) <==> !Overwritable(W.After(limit, run).core, x)
  {
    if Overwritable(W.After(limit, run).core, x) {
      var more := CanChange(limit, run, x);
      assert !KeepsStatus(limit, run, more, x);
    } else {
      ClearForever(limit, run, x);
    }
  }
}
