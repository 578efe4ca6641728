/** The premise of RaisedHandIsSheltered is exact: a closing statement that strands a `0` can always be followed by a
    raised hand with no open request and nobody to lower it. */
module Stranding {
  import opened Counting
  import opened Tables
  import opened SpeakerProtocol
  import opened SpeakerTheorems
  import opened SpeakerContinuations
  import opened Backing
  import opened RaisedHands

  // ---- A stranded `0` can raise the hand for good ----

  /** A raised hand with no open request and nobody to lower it. */
  predicate Bare(w: World, p: Id) {
    && p in w.core.db.participants && w.core.db.participants[p].desired == HandRaised
    && !OpenFor(w.core.db, p) && !LoweringPending(w.speakers, p)
  }

  /** A `0` is still to raise the hand of a participant who has no open request. */
  predicate Stranded(w: World, p: Id) {
    RaisingPending(w.speakers, p) && p in w.core.db.participants && !OpenFor(w.core.db, p)
  }

  predicate Raisable(w: World, p: Id) { p in w.core.db.participants && w.core.db.participants[p].desired in RAISABLE }

  function LoweringOf(speakers: map<Id, Speaker>, p: Id): set<Id> { set t | t in speakers && Lowers(speakers[t], p) }

  /** A handler that ends leaves the others where they are. */
  lemma StillRaising(speakers: map<Id, Speaker>, t: Id, p: Id)
    requires RaisingPending(speakers, p) && t in speakers && !speakers[t].Raising?
    ensures RaisingPending(speakers - {t}, p)
  {
    var u :| u in speakers && speakers[u].Raising? && speakers[u].participant == p;
    assert u in speakers - {t};
  }

  lemma LoweredStranded(w: World, limit: nat, t: Id, p: Id)
    requires Good(w) && Stranded(w, p) && t in LoweringOf(w.speakers, p) && (w.speakers[t].Lowering? ==> Raisable(w, p))
    ensures var w' := Step(w, limit, Next(t, true, 0));
      Stranded(w', p) && Raisable(w', p) && LoweringOf(w'.speakers, p) == LoweringOf(w.speakers, p) - {t}
  {
    var h, w' := w.speakers[t], Step(w, limit, Next(t, true, 0));
    assert HandlerOk(w.core.db, h);
    AnyDesired(w.core.db.participants[p].desired);
    DesiredOnly(w.core.db, h.workspace, p, if h.Lowering? then {HandRaised} else ANY_DESIRED, DesiredMuted);
    SameRequests(w.core.db, w'.core.db, w.core.db.participants[p].room, p);
    assert w'.speakers == w.speakers - {t};
    StillRaising(w.speakers, t, p);
  }

  lemma RaisedBare(w: World, limit: nat, u: Id, p: Id)
    requires Good(w) && Stranded(w, p) && Raisable(w, p) && LoweringOf(w.speakers, p) == {}
    requires u in w.speakers && w.speakers[u].Raising? && w.speakers[u].participant == p
    ensures Bare(Step(w, limit, Next(u, true, 0)), p)
  {
    var h, w' := w.speakers[u], Step(w, limit, Next(u, true, 0));
    assert HandlerOk(w.core.db, h);
    DesiredOnly(w.core.db, h.workspace, p, RAISABLE, HandRaised);
    SameRequests(w.core.db, w'.core.db, w.core.db.participants[p].room, p);
    assert w'.speakers == w.speakers - {u};
    forall t | t in w'.speakers ensures !Lowers(w'.speakers[t], p) { assert t !in LoweringOf(w.speakers, p); }
  }

  /** The handlers in flight can leave the hand raised for nothing. */
  lemma {:induction false} StrandedRaises(w: World, limit: nat, p: Id) returns (more: seq<Action>)
    requires Good(w) && Stranded(w, p) && Raisable(w, p)
    ensures StrandsNone(w, limit, more) && Bare(Follow(w, limit, more), p)
    decreases |LoweringOf(w.speakers, p)|
  {
    if LoweringOf(w.speakers, p) == {} {
      var u :| u in w.speakers && w.speakers[u].Raising? && w.speakers[u].participant == p;
      RaisedBare(w, limit, u, p);
      more := [Next(u, true, 0)];
      FollowOne(w, limit, more[0]);
    } else {
      var t :| t in LoweringOf(w.speakers, p);
      var a := Next(t, true, 0);
      LoweredStranded(w, limit, t, p);
      Less(LoweringOf(w.speakers, p), t);
      StepWithin(w, limit, a);
      var rest := StrandedRaises(Step(w, limit, a), limit, p);
      more := Before(w, limit, a, rest);
    }
  }

  /** The continuation that begins with the action. */
  lemma Before(w: World, limit: nat, a: Action, rest: seq<Action>) returns (more: seq<Action>)
    requires !Strands(w, limit, a) && StrandsNone(Step(w, limit, a), limit, rest)
    ensures StrandsNone(w, limit, more) && Follow(w, limit, more) == Follow(Step(w, limit, a), limit, rest)
  {
    more := [a] + rest;
    assert more[1..] == rest;
  }

  // ---- Also where the participant cannot raise a hand yet: a withdrawal of the closed request mutes ----

  lemma ClosedAgain(db: Db, workspace: Id, q: Id, p: Id)
    requires p in db.participants && !OpenFor(db, p)
    ensures var db' := WithdrawRequest(db, workspace, q); db'.participants == db.participants && !OpenFor(db', p)
  {
    var db', room := WithdrawRequest(db, workspace, q), db.participants[p].room;
    forall r | r in db'.requests ensures !(db'.requests[r].room == room && db'.requests[r].participant == p && IsOpen(db'.requests[r].status)) {
      assert r in db.requests && !(db.requests[r].room == room && db.requests[r].participant == p && IsOpen(db.requests[r].status));
    }
  }

  lemma Pending(speakers: map<Id, Speaker>, t: Id, h: Speaker, p: Id)
    requires RaisingPending(speakers, p) && (t in speakers ==> !speakers[t].Raising?)
    ensures RaisingPending(speakers[t := h], p)
  {
    var u :| u in speakers && speakers[u].Raising? && speakers[u].participant == p;
    assert u in speakers[t := h] && speakers[t := h][u] == speakers[u];
  }

  /** The withdrawal arrives, closes nothing, and mutes. */
  lemma WithdrawalRaises(w: World, limit: nat, p: Id, q: Id) returns (more: seq<Action>)
    requires Good(w) && Stranded(w, p) && q in w.core.db.requests && w.core.db.requests[q].participant == p
    ensures StrandsNone(w, limit, more) && Bare(Follow(w, limit, more), p)
  {
    var t := Unused(w.speakers.Keys);
    var workspace := w.core.db.requests[q].workspace;
    var w1 := Step(w, limit, Withdraw(t, workspace, q));
    assert w1.speakers == w.speakers[t := Closing(workspace, q, p)];
    Pending(w.speakers, t, Closing(workspace, q, p), p);
    StepWithin(w, limit, Withdraw(t, workspace, q));
    var rest := ClosingRaises(w1, limit, p, t);
    more := Before(w, limit, Withdraw(t, workspace, q), rest);
  }

  lemma ClosingRaises(w: World, limit: nat, p: Id, t: Id) returns (more: seq<Action>)
    requires Good(w) && Stranded(w, p) && t in w.speakers && w.speakers[t].Closing? && w.speakers[t].participant == p
    ensures StrandsNone(w, limit, more) && Bare(Follow(w, limit, more), p)
  {
    var h, w1 := w.speakers[t], Step(w, limit, Next(t, true, 0));
    ClosedAgain(w.core.db, h.workspace, h.request, p);
    assert w1.speakers == w.speakers[t := Muting(h.workspace, p)];
    Pending(w.speakers, t, Muting(h.workspace, p), p);
    StepWithin(w, limit, Next(t, true, 0));
    LoweredStranded(w1, limit, t, p);
    StepWithin(w1, limit, Next(t, true, 0));
    var rest := StrandedRaises(Step(w1, limit, Next(t, true, 0)), limit, p);
    rest := Before(w1, limit, Next(t, true, 0), rest);
    more := Before(w, limit, Next(t, true, 0), rest);
  }

  // ---- Both ----

  /** The statement strands the `0`; the request it closed is still there. */
  lemma StrandsStranded(w: World, limit: nat, a: Action) returns (q: Id)
    requires Strands(w, limit, a)
    ensures var w', p := Step(w, limit, a), w.speakers[a.t].participant;
      Stranded(w', p) && q in w'.core.db.requests && w'.core.db.requests[q].participant == p
  {
    var h, w', p := w.speakers[a.t], Step(w, limit, a), w.speakers[a.t].participant;
    var next := if h.Withdrawing? then Lowering(h.workspace, p) else Muting(h.workspace, p);
    assert w'.speakers == w.speakers[a.t := next] && w'.core.db.participants == w.core.db.participants;
    Pending(w.speakers, a.t, next, p);
    q :| q in w.core.db.requests && w.core.db.requests[q].room == w.core.db.participants[p].room
      && w.core.db.requests[q].participant == p && IsOpen(w.core.db.requests[q].status);
  }

  /** After a closing statement that strands a `0` some continuation, stranding no other, leaves the hand raised with
      no request and no lowering to come. */
  lemma StrandingBreaks(limit: nat, run: seq<Action>, a: Action) returns (more: seq<Action>, p: Id)
    requires Strands(After(limit, run), limit, a)
    ensures StrandsNone(Step(After(limit, run), limit, a), limit, more) && Bare(After(limit, run + [a] + more), p)
  {
    var w := After(limit, run);
    p := w.speakers[a.t].participant;
    ReachableGood(limit, run);
    StepWithin(w, limit, a);
    var q := StrandsStranded(w, limit, a);
    more := WithdrawalRaises(Step(w, limit, a), limit, p, q);
    FollowOne(w, limit, a);
    AfterMore(limit, run, [a]);
    AfterMore(limit, run + [a], more);
  }

  /** However the run goes on after the action without stranding a `0`, a raised hand has an open request or a
      lowering to come. */
  ghost predicate KeepsSheltered(limit: nat, run: seq<Action>, a: Action) {
    forall more: seq<Action>, p: Id | StrandsNone(Step(After(limit, run), limit, a), limit, more)
      :: !Bare(After(limit, run + [a] + more), p)
  }

  /** After a run that never strands a `0`, an action keeps raised hands sheltered, whatever follows without
      stranding one, iff it does not strand one itself. */
  lemma StrandingIsExact(limit: nat, run: seq<Action>, a: Action)
    requires NeverStrands(limit, run)
    ensures KeepsSheltered(limit, run, a) <==> !Strands(After(limit, run), limit, a)
  {
    var w := After(limit, run);
    if Strands(w, limit, a) {
      var more, p := StrandingBreaks(limit, run, a);
    } else {
      ReachableGood(limit, run);
      ReachableSheltered(limit, run);
      StepWithin(w, limit, a);
      StepSheltered(w, limit, a);
      FollowOne(w, limit, a);
      AfterMore(limit, run, [a]);
      forall more: seq<Action>, p: Id | StrandsNone(Step(w, limit, a), limit, more)
        ensures !Bare(After(limit, run + [a] + more), p)
      {
        AfterMore(limit, run + [a], more);
        StaysAllSheltered(Step(w, limit, a), limit, more);
        if p in After(limit, run + [a] + more).core.db.participants { assert Sheltered(After(limit, run + [a] + more), p); }
      }
    }
  }
}
