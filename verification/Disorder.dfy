/** The premise of RoomMirrorsSession is exact: a start that takes effect while another handler still has writes
    for the room can always be followed by a settled state in which the room does not mirror its session. */
module Disorder {
  import opened Counting
  import opened Tables
  import opened RoomProtocol
  import opened RoomTenancy
  import opened Continuations
  import opened Endings
  import opened LifecycleRefinement
  import opened RoomPromises
  import L = Lifecycle
  import W = SpeakerProtocol
  import WC = SpeakerContinuations
  import ST = SpeakerTheorems
  import SY = SystemTheorems

  /** The threads between a session's write and the room's. */
  function HalfDone(s: State, room: Id): set<Id> {
    set t | t in s.threads && (s.threads[t].MarkingRunning? || s.threads[t].ResettingRoom?) && s.threads[t].at.room == room
  }

  predicate IsStarting(db: Db, y: Id, room: Id) {
    y in db.sessions && db.sessions[y].room == room && db.sessions[y].status == SessionStarting
  }

  /** The room has a STARTING session and is not STARTING. */
  predicate Broken(s: State, room: Id, y: Id) {
    room in s.db.rooms && s.db.rooms[room].state != Starting && IsStarting(s.db, y, room)
  }

  lemma MarkBreaks(s: State, t: Id, room: Id)
    requires t in s.threads && s.threads[t].MarkingRunning? && RoomIn(s.db, s.threads[t].at.workspace, room) && s.threads[t].at.room == room
    ensures var th, s' := s.threads[t], Step(s, Go(t));
      && room in s'.db.rooms && s'.db.rooms[room].state != Starting && s'.db.sessions == s.db.sessions
      && s'.threads == s.threads[t := ListingListeners(th.session, th.at, th.leg)]
  {
    assert Step(s, Go(t)) == StepActivator(s, t, true, 0, 0);
  }

  lemma ResetBreaks(s: State, t: Id, room: Id)
    requires t in s.threads && s.threads[t].ResettingRoom? && RoomIn(s.db, s.threads[t].at.workspace, room) && s.threads[t].at.room == room
    requires {Starting, Running} <= s.threads[t].from
    ensures var s' := Step(s, Go(t));
      && room in s'.db.rooms && s'.db.rooms[room].state != Starting && s'.db.sessions == s.db.sessions && s'.threads == s.threads - {t}
  {
    AnyState(SessionStarting, s.db.rooms[room].state);
  }

  lemma OneDoneLess(s: State, s': State, t: Id, room: Id)
    requires t in s.threads
    requires s'.threads == s.threads - {t}
             || (s.threads[t].MarkingRunning?
                 && s'.threads == s.threads[t := ListingListeners(s.threads[t].session, s.threads[t].at, s.threads[t].leg)])
    ensures HalfDone(s', room) == HalfDone(s, room) - {t}
  {
  }

  /** Any of these room writes takes the room out of STARTING. */
  lemma Breaks(s: State, t: Id, room: Id, y: Id)
    requires Good(s) && t in HalfDone(s, room) && room in s.db.rooms && IsStarting(s.db, y, room)
    ensures var s' := Step(s, Go(t)); Good(s') && Broken(s', room, y) && HalfDone(s', room) == HalfDone(s, room) - {t}
  {
    assert ThreadOk(s.db, s.threads[t]);
    StepWithin(s, Go(t));
    if s.threads[t].MarkingRunning? { MarkBreaks(s, t, room); } else { ResetBreaks(s, t, room); }
    OneDoneLess(s, Step(s, Go(t)), t, room);
  }

  predicate OnlyAdvances(more: seq<Action>) { forall i | 0 <= i < |more| :: more[i].Advance? }

  /** All of them done, the room is settled and broken. */
  lemma {:induction false} SettlesBroken(s: State, room: Id, y: Id) returns (more: seq<Action>)
    requires Good(s) && room in s.db.rooms && IsStarting(s.db, y, room)
    requires s.db.rooms[room].state != Starting || HalfDone(s, room) != {}
    ensures OnlyAdvances(more) && Broken(Follow(s, more), room, y) && HalfDone(Follow(s, more), room) == {}
    decreases |HalfDone(s, room)|
  {
    if HalfDone(s, room) == {} {
      more := [];
    } else {
      var t :| t in HalfDone(s, room);
      Breaks(s, t, room, y);
      Less(HalfDone(s, room), t);
      var rest := SettlesBroken(Step(s, Go(t)), room, y);
      more := [Go(t)] + rest;
      FollowOne(s, Go(t));
      FollowOn(s, [Go(t)], rest);
    }
  }

  lemma BusyCloses(s: State, t: Id, room: Id)
    requires t in s.threads && BusyWith(s.threads[t], room) && t !in HalfDone(s, room)
    ensures MayClose(s.threads[t]) && Closer(s.threads[t]).at == s.threads[t].at
    ensures ViewOf(Closer(s.threads[t])).Some? && ViewOf(Closer(s.threads[t])).value.session == ViewOf(s.threads[t]).value.session
  {
  }

  /** A busy thread of another session can come to its room write. */
  lemma ToRoomWrite(s: State, t: Id, room: Id, y: Id) returns (more: seq<Action>)
    requires t in s.threads && BusyWith(s.threads[t], room) && t !in HalfDone(s, room)
    requires ViewOf(s.threads[t]).value.session != y && room in s.db.rooms && IsStarting(s.db, y, room)
    ensures OnlyAdvances(more)
    ensures var s' := Follow(s, more); room in s'.db.rooms && IsStarting(s'.db, y, room) && t in HalfDone(s', room)
  {
    BusyCloses(s, t, room);
    var first := ToClose(s, t);
    var s1 := Follow(s, first);
    assert Closer(s1.threads[t]) == s1.threads[t];
    ClosesOne(s1, t);
    FollowOne(s1, Go(t));
    FollowOn(s, first, [Go(t)]);
    more := first + [Go(t)];
  }

  /** Whatever the half-done threads, a busy one is enough. */
  lemma BusyBreaks(s: State, t: Id, room: Id, y: Id) returns (more: seq<Action>)
    requires Good(s) && t in s.threads && BusyWith(s.threads[t], room)
    requires ViewOf(s.threads[t]).value.session != y && room in s.db.rooms && IsStarting(s.db, y, room)
    ensures OnlyAdvances(more) && Broken(Follow(s, more), room, y) && HalfDone(Follow(s, more), room) == {}
  {
    if t in HalfDone(s, room) {
      more := SettlesBroken(s, room, y);
    } else {
      var first := ToRoomWrite(s, t, room, y);
      FollowGood(s, first);
      var rest := SettlesBroken(Follow(s, first), room, y);
      more := first + rest;
      FollowOn(s, first, rest);
    }
  }

  lemma StartKeepsThreads(s: State, a: Action)
    requires a.Start?
    ensures forall t | t in s.threads :: t in Step(s, a).threads && Step(s, a).threads[t] == s.threads[t]
  {
  }

  /** A start that takes effect: the new session, and the threads that were there. */
  lemma StartBegins(s: State, a: Action) returns (y: Id)
    requires Good(s) && a.Start? && Step(s, a) != s
    ensures var s' := Step(s, a); a.at.room in s'.db.rooms && IsStarting(s'.db, y, a.at.room) && s.db.nextId <= y
  {
    StepRefines(s, a);
    y := EnsureHost(s.db, a.at).nextId;
    StartsIn(LifeOf(s), LifeOf(Step(s, a)), EffectOf(s, a), Step(s, a).db.nextId, a.t, a.at.room, y);
    assert y in SessionRows(Step(s, a).db.sessions);
  }

  lemma StartsIn(l: L.Life, l': L.Life, e: L.Effect, next: Id, t: Id, room: Id, y: Id)
    requires e == L.Begin(t, room, y) && L.Allowed(l, e, next) && l' == L.Do(l, e, next)
    ensures room in l'.rooms && y in l'.sessions && l'.sessions[y] == L.Row(room, SessionStarting) && l.next <= y
  {
  }

  lemma BusyHeld(s: State, t: Id, room: Id)
    requires Good(s) && t in s.threads && BusyWith(s.threads[t], room)
    ensures ViewOf(s.threads[t]).value.session < s.db.nextId
  {
    assert ThreadOk(s.db, s.threads[t]);
  }

  lemma NotMirrored(s: State, room: Id, y: Id)
    requires Broken(s, room, y) && HalfDone(s, room) == {}
    ensures Settled(s, room) && !Mirrors(s.db, room)
  {
    forall t | t in s.threads && (s.threads[t].MarkingRunning? || s.threads[t].ResettingRoom?) ensures s.threads[t].at.room != room {
      assert t !in HalfDone(s, room);
    }
  }

  lemma BreaksFrom(s: State, a: Action) returns (more: seq<Action>)
    requires Good(s) && !Orderly(s, a)
    ensures OnlyAdvances(more)
    ensures var s' := Follow(Step(s, a), more);
      a.at.room in s'.db.rooms && Settled(s', a.at.room) && !Mirrors(s'.db, a.at.room)
  {
    var room := a.at.room;
    var t :| t in s.threads && BusyWith(s.threads[t], room);
    var y := StartBegins(s, a);
    BusyHeld(s, t, room);
    StartKeepsThreads(s, a);
    StepWithin(s, a);
    more := BusyBreaks(Step(s, a), t, room, y);
    NotMirrored(Follow(Step(s, a), more), room, y);
  }

  predicate OnlyMoves(more: seq<W.Action>) { forall i | 0 <= i < |more| :: more[i].Core? && more[i].action.Advance? }

  lemma {:induction false} CoredMoves(more: seq<Action>)
    requires OnlyAdvances(more)
    ensures OnlyMoves(WC.Cored(more))
  {
    if more != [] { CoredMoves(more[1..]); }
  }

  /** A disorderly start can be followed, by moves of handlers in flight alone, by a settled state in which the
      room does not mirror its session. */
  lemma DisorderBreaks(limit: nat, run: seq<W.Action>, a: Action) returns (more: seq<W.Action>)
    requires !Orderly(W.After(limit, run).core, a)
    ensures OnlyMoves(more)
    ensures var s' := W.After(limit, run + [W.Core(a)] + more).core;
      a.at.room in s'.db.rooms && Settled(s', a.at.room) && !Mirrors(s'.db, a.at.room)
  {
    var w := W.After(limit, run);
    ST.ReachableGood(limit, run);
    var moves := BreaksFrom(w.core, a);
    more := WC.Cored(moves);
    CoredMoves(moves);
    WC.FollowOne(w, limit, W.Core(a));
    WC.FollowCored(W.Step(w, limit, W.Core(a)), limit, moves);
    WC.AfterMore(limit, run, [W.Core(a)]);
    WC.AfterMore(limit, run + [W.Core(a)], more);
  }

  // ---- Both directions ----

  /** The action is not a start, or an orderly one. */
  ghost predicate InOrder(w: W.World, a: W.Action) { a.Core? ==> Orderly(w.core, a.action) }

  /** From the n-th action on, starts are orderly. */
  ghost predicate OrderlyFrom(limit: nat, run: seq<W.Action>, n: nat) {
    forall i | n <= i < |run| :: InOrder(SY.At(limit, run, i), run[i])
  }

  ghost predicate MirrorsWhenSettled(s: State, room: Id) {
    room in s.db.rooms && Settled(s, room) ==> Mirrors(s.db, room)
  }

  /** Whatever orderly actions come after it, the action leaves every room mirroring its session when settled. */
  ghost predicate KeepsMirrors(limit: nat, run: seq<W.Action>, a: W.Action) {
    forall more: seq<W.Action>, room | OrderlyFrom(limit, run + [a] + more, |run| + 1) ::
      MirrorsWhenSettled(W.After(limit, run + [a] + more).core, room)
  }

  lemma MovesOrderly(limit: nat, run: seq<W.Action>, a: W.Action, more: seq<W.Action>)
    requires OnlyMoves(more)
    ensures OrderlyFrom(limit, run + [a] + more, |run| + 1)
  {
    assert forall i | |run| + 1 <= i < |run + [a] + more| :: (run + [a] + more)[i] == more[i - |run| - 1];
  }

  lemma Positions(run: seq<W.Action>, a: W.Action, more: seq<W.Action>, i: nat)
    requires i <= |run|
    ensures (run + [a] + more)[..i] == run[..i] && (run + [a] + more)[i] == if i < |run| then run[i] else a
  {
  }

  lemma OrderlyThroughout(limit: nat, run: seq<W.Action>, a: W.Action, more: seq<W.Action>)
    requires SY.OrderlyRun(limit, run, |run|) && InOrder(W.After(limit, run), a) && OrderlyFrom(limit, run + [a] + more, |run| + 1)
    ensures SY.OrderlyRun(limit, run + [a] + more, |run + [a] + more|)
  {
    var whole := run + [a] + more;
    forall i | 0 <= i < |whole| && whole[i].Core? ensures Orderly(SY.At(limit, whole, i).core, whole[i].action) {
      if i < |run| {
        Positions(run, a, more, i);
        assert Orderly(SY.At(limit, run, i).core, run[i].action);
      } else if i == |run| {
        Positions(run, a, more, i);
        assert run[..i] == run;
      } else {
        assert InOrder(SY.At(limit, whole, i), whole[i]);
      }
    }
  }

  /** After an orderly run of the control API, an action keeps the rooms mirroring their sessions, whatever orderly
      actions follow, iff it is orderly itself. */
  lemma OrderIsExact(limit: nat, run: seq<W.Action>, a: W.Action)
    requires SY.OrderlyRun(limit, run, |run|)
    ensures KeepsMirrors(limit, run, a) <==> InOrder(W.After(limit, run), a)
  {
    if InOrder(W.After(limit, run), a) {
      forall more: seq<W.Action>, room | OrderlyFrom(limit, run + [a] + more, |run| + 1)
        ensures MirrorsWhenSettled(W.After(limit, run + [a] + more).core, room)
      {
        OrderlyThroughout(limit, run, a, more);
        MirrorsAfter(limit, run + [a] + more, room);
      }
    } else {
      var more := DisorderBreaks(limit, run, a.action);
      MovesOrderly(limit, run, a, more);
      assert !MirrorsWhenSettled(W.After(limit, run + [a] + more).core, a.action.at.room);
    }
  }

  lemma MirrorsAfter(limit: nat, run: seq<W.Action>, room: Id)
    requires SY.OrderlyRun(limit, run, |run|)
    ensures MirrorsWhenSettled(W.After(limit, run).core, room)
  {
    if room in W.After(limit, run).core.db.rooms && Settled(W.After(limit, run).core, room) { SY.RoomMirrorsSession(limit, run, room); }
  }
}
