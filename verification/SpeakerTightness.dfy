/** The bound on concurrent grants is tight: from every reachable world with one place left and no grant under way,
    k waiting requests can all be granted with never more than k grants between count and write. So the configured
    limit holds exactly for grants one at a time. */
module SpeakerTightness {
  import opened Counting
  import opened Tables
  import opened Isolation
  import opened Statements
  import opened SpeakerProtocol
  import opened SpeakerTheorems
  import opened SpeakerCap
  import opened SpeakerContinuations
  import P = RoomProtocol

  // ---- The requests that wait ----

  predicate HasLeg(db: Db, row: Request, leg: Id) {
    if row.leg.Some? then leg == row.leg.value else IsNewestLive(db, leg, row.participant)
  }

  /** A queued request of the room whose participant has a leg to unmute. */
  ghost predicate Waits(db: Db, workspace: Id, room: Id, q: Id) {
    && q in db.requests && db.requests[q].workspace == workspace && db.requests[q].room == room
    && db.requests[q].status == Queued && exists leg :: HasLeg(db, db.requests[q], leg)
  }

  ghost predicate AllWait(db: Db, workspace: Id, room: Id, waiting: seq<Id>) {
    && (forall i | 0 <= i < |waiting| :: Waits(db, workspace, room, waiting[i]))
    && (forall i, j | 0 <= i < j < |waiting| :: waiting[i] != waiting[j])
  }

  /** Every handler has a smaller number. */
  predicate Fresh(w: World, n: Id) { forall t :: t in w.speakers ==> t < n }

  function PastCount(db: Db, workspace: Id, q: Id): Speaker
    requires q in db.requests
  {
    Locating(workspace, q, db.requests[q].room, db.requests[q].participant, db.requests[q].leg)
  }

  /** At every moment of the continuation at most k grants of the room are between count and write. */
  predicate FewPending(w: World, limit: nat, actions: seq<Action>, k: nat, workspace: Id, room: Id)
    decreases |actions|
  {
    |Pending(w, workspace, room)| <= k && (actions != [] ==> FewPending(Step(w, limit, actions[0]), limit, actions[1..], k, workspace, room))
  }

  lemma FewPendingTwo(w: World, limit: nat, a: Action, b: Action, rest: seq<Action>, k: nat, workspace: Id, room: Id)
    requires |Pending(w, workspace, room)| <= k && |Pending(Step(w, limit, a), workspace, room)| <= k
    requires FewPending(Step(Step(w, limit, a), limit, b), limit, rest, k, workspace, room)
    ensures FewPending(w, limit, [a, b] + rest, k, workspace, room)
    ensures Follow(w, limit, [a, b] + rest) == Follow(Step(Step(w, limit, a), limit, b), limit, rest)
  {
    var actions := [a, b] + rest;
    assert actions[1..] == [b] + rest && ([b] + rest)[1..] == rest;
    FollowTwo(w, limit, a, b);
    FollowOn(w, limit, [a, b], rest);
  }

  lemma {:induction false} FewPendingOn(w: World, limit: nat, first: seq<Action>, rest: seq<Action>, k: nat, workspace: Id, room: Id)
    requires FewPending(w, limit, first, k, workspace, room) && FewPending(Follow(w, limit, first), limit, rest, k, workspace, room)
    ensures FewPending(w, limit, first + rest, k, workspace, room)
    decreases |first|
  {
    if first == [] {
      assert first + rest == rest;
    } else {
      assert (first + rest)[1..] == first[1..] + rest;
      FewPendingOn(Step(w, limit, first[0]), limit, first[1..], rest, k, workspace, room);
    }
  }

  lemma PendingMore(w: World, t: Id, h: Speaker, workspace: Id, room: Id)
    requires t !in w.speakers && PastCheck(h, workspace, room)
    ensures |Pending(w.(speakers := w.speakers[t := h]), workspace, room)| == |Pending(w, workspace, room)| + 1
  {
    assert Pending(w.(speakers := w.speakers[t := h]), workspace, room) == Pending(w, workspace, room) + {t};
  }

  lemma PendingLess(w: World, core: P.State, t: Id, h: Speaker, workspace: Id, room: Id)
    requires t in w.speakers && PastCheck(w.speakers[t], workspace, room) && !PastCheck(h, workspace, room)
    ensures |Pending(World(core, w.speakers[t := h]), workspace, room)| == |Pending(w, workspace, room)| - 1
  {
    assert Pending(World(core, w.speakers[t := h]), workspace, room) == Pending(w, workspace, room) - {t};
    Less(Pending(w, workspace, room), t);
  }

  // ---- All of them count ----

  /** The requests from i to j are with handlers n + i and so on, which have counted. */
  ghost predicate InHand(w: World, workspace: Id, room: Id, waiting: seq<Id>, n: Id, i: nat, j: nat) {
    forall m | i <= m < j && m < |waiting| ::
      && Waits(w.core.db, workspace, room, waiting[m])
      && n + m in w.speakers && w.speakers[n + m] == PastCount(w.core.db, workspace, waiting[m])
  }

  /** One more arrives and counts. */
  lemma CountsOne(w: World, limit: nat, workspace: Id, room: Id, q: Id, t: Id)
    requires t !in w.speakers && Waits(w.core.db, workspace, room, q) && Speaking(w, workspace, room) < limit
    ensures var w1 := Step(w, limit, Grant(t, workspace, q));
      && Step(w1, limit, Next(t, true, 0)) == w.(speakers := w.speakers[t := PastCount(w.core.db, workspace, q)])
      && Pending(w1, workspace, room) == Pending(w, workspace, room)
  {
    var row := w.core.db.requests[q];
    var w1 := Step(w, limit, Grant(t, workspace, q));
    assert w1 == w.(speakers := w.speakers[t := Checking(workspace, q, row.room, row.participant, row.leg)]);
    assert Step(w1, limit, Next(t, true, 0)) == StepNext(w1, limit, t, true, 0);
    assert w1.speakers[t := PastCount(w.core.db, workspace, q)] == w.speakers[t := PastCount(w.core.db, workspace, q)];
  }

  lemma InHandToo(w: World, workspace: Id, room: Id, waiting: seq<Id>, n: Id, j: nat)
    requires j < |waiting| && Fresh(w, n + j) && InHand(w, workspace, room, waiting, n, 0, j) && Waits(w.core.db, workspace, room, waiting[j])
    ensures InHand(w.(speakers := w.speakers[n + j := PastCount(w.core.db, workspace, waiting[j])]), workspace, room, waiting, n, 0, j + 1)
  {
  }

  lemma {:induction false} AllCount(w: World, limit: nat, workspace: Id, room: Id, waiting: seq<Id>, n: Id, j: nat)
      returns (more: seq<Action>)
    requires j <= |waiting| && Fresh(w, n + j) && AllWait(w.core.db, workspace, room, waiting)
    requires InHand(w, workspace, room, waiting, n, 0, j) && |Pending(w, workspace, room)| == j && Speaking(w, workspace, room) < limit
    ensures FewPending(w, limit, more, |waiting|, workspace, room)
    ensures var w' := Follow(w, limit, more);
      && w'.core == w.core && InHand(w', workspace, room, waiting, n, 0, |waiting|) && |Pending(w', workspace, room)| == |waiting|
    decreases |waiting| - j
  {
    if j == |waiting| {
      more := [];
    } else {
      var q, t := waiting[j], n + j;
      CountsOne(w, limit, workspace, room, q, t);
      var w' := w.(speakers := w.speakers[t := PastCount(w.core.db, workspace, q)]);
      InHandToo(w, workspace, room, waiting, n, j);
      PendingMore(w, t, PastCount(w.core.db, workspace, q), workspace, room);
      var rest := AllCount(w', limit, workspace, room, waiting, n, j + 1);
      more := [Grant(t, workspace, q), Next(t, true, 0)] + rest;
      FewPendingTwo(w, limit, Grant(t, workspace, q), Next(t, true, 0), rest, |waiting|, workspace, room);
    }
  }

  // ---- Then all of them write ----

  lemma LegFound(db: Db, workspace: Id, room: Id, q: Id) returns (leg: Id)
    requires Sound(db) && Waits(db, workspace, room, q)
    ensures HasLeg(db, db.requests[q], leg) && leg in db.legs && db.legs[leg].workspace == workspace
  {
    leg :| HasLeg(db, db.requests[q], leg);
    assert db.requests[q].participant in Homes(db.participants);
    if db.requests[q].leg.Some? { assert leg in LegHomes(db.legs); }
    assert leg in db.legs && db.legs[leg].participant == db.requests[q].participant;
    assert Tenants(db.rooms)[db.legs[leg].room] == workspace;
  }

  lemma Activates(db: Db, workspace: Id, room: Id, q: Id)
    requires Waits(db, workspace, room, q)
    ensures var db' := ActivateRequest(db, workspace, q);
      && db' == db.(requests := db.requests[q := db.requests[q].(status := RequestActive)])
      && ApprovedIn(db', workspace, room) == ApprovedIn(db, workspace, room) + {q} && q !in ApprovedIn(db, workspace, room)
  {
  }

  /** A grant that has counted finds its leg and writes. */
  lemma WritesOne(w: World, limit: nat, workspace: Id, room: Id, q: Id, t: Id, leg: Id)
    requires t in w.speakers && Waits(w.core.db, workspace, room, q) && w.speakers[t] == PastCount(w.core.db, workspace, q)
    requires HasLeg(w.core.db, w.core.db.requests[q], leg) && leg in w.core.db.legs && w.core.db.legs[leg].workspace == workspace
    ensures var row := w.core.db.requests[q];
      var w1 := Step(w, limit, Next(t, true, leg));
      && Step(w1, limit, Next(t, true, 0))
         == World(w.core.(db := ActivateRequest(w.core.db, workspace, q)), w.speakers[t := Activating(workspace, row.participant, leg)])
      && Pending(w1, workspace, room) == Pending(w, workspace, room)
  {
    var row := w.core.db.requests[q];
    var w1 := StepNext(w, limit, t, true, leg);
    assert w1.speakers == w.speakers[t := Granting(workspace, q, row.room, row.participant, leg)] && w1.core == w.core;
    assert Step(w1, limit, Next(t, true, 0)) == StepNext(w1, limit, t, true, 0);
    assert w1.speakers[t := Activating(workspace, row.participant, leg)] == w.speakers[t := Activating(workspace, row.participant, leg)];
  }

  /** A write to one request leaves the others waiting. */
  lemma StillWaits(db: Db, workspace: Id, room: Id, q: Id, other: Id)
    requires Waits(db, workspace, room, q) && Waits(db, workspace, room, other) && q != other
    ensures Waits(ActivateRequest(db, workspace, q), workspace, room, other)
    ensures ActivateRequest(db, workspace, q).requests[other] == db.requests[other]
  {
    Activates(db, workspace, room, q);
    var db' := ActivateRequest(db, workspace, q);
    var leg :| HasLeg(db, db.requests[other], leg);
    assert HasLeg(db', db'.requests[other], leg);
  }

  lemma StillInHand(w: World, workspace: Id, room: Id, waiting: seq<Id>, n: Id, i: nat, h: Speaker)
    requires i < |waiting| && AllDistinct(waiting) && InHand(w, workspace, room, waiting, n, i, |waiting|)
    ensures InHand(World(w.core.(db := ActivateRequest(w.core.db, workspace, waiting[i])), w.speakers[n + i := h]),
                   workspace, room, waiting, n, i + 1, |waiting|)
  {
    forall m | i + 1 <= m < |waiting|
      ensures Waits(ActivateRequest(w.core.db, workspace, waiting[i]), workspace, room, waiting[m])
      ensures ActivateRequest(w.core.db, workspace, waiting[i]).requests[waiting[m]] == w.core.db.requests[waiting[m]]
    {
      StillWaits(w.core.db, workspace, room, waiting[i], waiting[m]);
    }
  }

  predicate AllDistinct(waiting: seq<Id>) { forall i, j | 0 <= i < j < |waiting| :: waiting[i] != waiting[j] }

  lemma ActivatedSound(db: Db, workspace: Id, q: Id)
    requires Sound(db)
    ensures Sound(ActivateRequest(db, workspace, q))
  {
    ActivateRequestWithin(db, workspace, q);
  }

  lemma OneMoreSpeaks(db: Db, workspace: Id, room: Id, q: Id)
    requires Waits(db, workspace, room, q)
    ensures |ApprovedIn(ActivateRequest(db, workspace, q), workspace, room)| == |ApprovedIn(db, workspace, room)| + 1
  {
    Activates(db, workspace, room, q);
  }

  /** The world after a waiting request was granted on the leg by handler t. */
  function Written(w: World, workspace: Id, q: Id, t: Id, leg: Id): World
    requires q in w.core.db.requests
  {
    World(w.core.(db := ActivateRequest(w.core.db, workspace, q)),
          w.speakers[t := Activating(workspace, w.core.db.requests[q].participant, leg)])
  }

  /** After the i-th write the rest are still in hand. */
  lemma OneWritten(w: World, workspace: Id, room: Id, waiting: seq<Id>, n: Id, i: nat, leg: Id)
    requires i < |waiting| && AllDistinct(waiting) && Sound(w.core.db) && InHand(w, workspace, room, waiting, n, i, |waiting|)
    requires Waits(w.core.db, workspace, room, waiting[i])
    ensures var w' := Written(w, workspace, waiting[i], n + i, leg);
      && Sound(w'.core.db) && InHand(w', workspace, room, waiting, n, i + 1, |waiting|)
      && |Pending(w', workspace, room)| == |Pending(w, workspace, room)| - 1
      && Speaking(w', workspace, room) == Speaking(w, workspace, room) + 1
  {
    var q, t, db := waiting[i], n + i, w.core.db;
    var h := Activating(workspace, db.requests[q].participant, leg);
    var w' := Written(w, workspace, q, t, leg);
    StillInHand(w, workspace, room, waiting, n, i, h);
    PendingLess(w, w'.core, t, h, workspace, room);
    ActivatedSound(db, workspace, q);
    OneMoreSpeaks(db, workspace, room, q);
  }

  lemma WritePair(w: World, limit: nat, workspace: Id, room: Id, q: Id, t: Id, k: nat) returns (leg: Id, moves: seq<Action>)
    requires Sound(w.core.db) && Waits(w.core.db, workspace, room, q) && t in w.speakers
    requires w.speakers[t] == PastCount(w.core.db, workspace, q) && |Pending(w, workspace, room)| <= k
    ensures Follow(w, limit, moves) == Written(w, workspace, q, t, leg)
    ensures |Pending(Written(w, workspace, q, t, leg), workspace, room)| <= k ==> FewPending(w, limit, moves, k, workspace, room)
  {
    leg := LegFound(w.core.db, workspace, room, q);
    WritesOne(w, limit, workspace, room, q, t, leg);
    moves := [Next(t, true, leg), Next(t, true, 0)];
    FollowTwo(w, limit, moves[0], moves[1]);
    if |Pending(Written(w, workspace, q, t, leg), workspace, room)| <= k {
      FewPendingTwo(w, limit, moves[0], moves[1], [], k, workspace, room);
      assert moves + [] == moves;
    }
  }

  lemma WriteNext(w: World, limit: nat, workspace: Id, room: Id, waiting: seq<Id>, n: Id, i: nat) returns (w': World, moves: seq<Action>)
    requires i < |waiting| && AllDistinct(waiting) && Sound(w.core.db)
    requires InHand(w, workspace, room, waiting, n, i, |waiting|) && |Pending(w, workspace, room)| == |waiting| - i
    ensures Follow(w, limit, moves) == w' && FewPending(w, limit, moves, |waiting|, workspace, room)
    ensures Sound(w'.core.db) && InHand(w', workspace, room, waiting, n, i + 1, |waiting|)
    ensures |Pending(w', workspace, room)| == |waiting| - i - 1 && Speaking(w', workspace, room) == Speaking(w, workspace, room) + 1
  {
    assert Waits(w.core.db, workspace, room, waiting[i]);
    var leg;
    leg, moves := WritePair(w, limit, workspace, room, waiting[i], n + i, |waiting|);
    w' := Written(w, workspace, waiting[i], n + i, leg);
    OneWritten(w, workspace, room, waiting, n, i, leg);
  }

  lemma {:induction false} AllWrite(w: World, limit: nat, workspace: Id, room: Id, waiting: seq<Id>, n: Id, i: nat)
      returns (more: seq<Action>)
    requires i <= |waiting| && AllDistinct(waiting) && Sound(w.core.db)
    requires InHand(w, workspace, room, waiting, n, i, |waiting|) && |Pending(w, workspace, room)| == |waiting| - i
    ensures FewPending(w, limit, more, |waiting|, workspace, room)
    ensures Speaking(Follow(w, limit, more), workspace, room) == Speaking(w, workspace, room) + |waiting| - i
    decreases |waiting| - i
  {
    if i == |waiting| {
      more := [];
    } else {
      var w', moves := WriteNext(w, limit, workspace, room, waiting, n, i);
      var rest := AllWrite(w', limit, workspace, room, waiting, n, i + 1);
      more := moves + rest;
      FewPendingOn(w, limit, moves, rest, |waiting|, workspace, room);
      FollowOn(w, limit, moves, rest);
    }
  }

  // ---- Both phases ----

  lemma {:induction false} FreshNumber(handlers: map<Id, Speaker>) returns (n: Id)
    ensures forall t :: t in handlers ==> t < n
    decreases |handlers|
  {
    if handlers == map[] {
      n := 0;
    } else {
      var t :| t in handlers;
      var m := FreshNumber(handlers - {t});
      n := if m <= t then t + 1 else m;
      forall x | x in handlers ensures x < n {
        if x != t { assert x in handlers - {t}; }
      }
    }
  }

  lemma AllGrantedFrom(w: World, limit: nat, workspace: Id, room: Id, waiting: seq<Id>) returns (more: seq<Action>)
    requires Sound(w.core.db) && AllWait(w.core.db, workspace, room, waiting)
    requires Pending(w, workspace, room) == {} && Speaking(w, workspace, room) < limit
    ensures FewPending(w, limit, more, |waiting|, workspace, room)
    ensures Speaking(Follow(w, limit, more), workspace, room) == Speaking(w, workspace, room) + |waiting|
  {
    var n := FreshNumber(w.speakers);
    var first := AllCount(w, limit, workspace, room, waiting, n, 0);
    var w1 := Follow(w, limit, first);
    assert AllDistinct(waiting);
    var rest := AllWrite(w1, limit, workspace, room, waiting, n, 0);
    more := first + rest;
    FollowOn(w, limit, first, rest);
    FewPendingOn(w, limit, first, rest, |waiting|, workspace, room);
  }

  lemma {:induction false} AlwaysFew(limit: nat, run: seq<Action>, more: seq<Action>, k: nat, workspace: Id, room: Id)
    requires AtMostPending(limit, k, run, workspace, room) && FewPending(After(limit, run), limit, more, k, workspace, room)
    ensures AtMostPending(limit, k, run + more, workspace, room)
    decreases |more|
  {
    if more == [] {
      assert run + more == run;
    } else {
      var longer := run + [more[0]];
      assert longer[..|run|] == run;
      forall i | 0 <= i <= |longer| ensures |Pending(After(limit, longer[..i]), workspace, room)| <= k {
        if i <= |run| { assert longer[..i] == run[..i]; } else { assert longer[..i] == longer; }
      }
      assert longer + more[1..] == run + more;
      AlwaysFew(limit, longer, more[1..], k, workspace, room);
    }
  }

  /** From every reachable world with one place left and no grant of the room under way, any k waiting requests can
      be granted, with at most k grants between count and write all along: the bound limit - 1 + k is reached. */
  lemma BoundIsReached(limit: nat, run: seq<Action>, workspace: Id, room: Id, waiting: seq<Id>) returns (more: seq<Action>)
    requires var w := After(limit, run);
      && AllWait(w.core.db, workspace, room, waiting) && Pending(w, workspace, room) == {}
      && Speaking(w, workspace, room) == limit - 1
    ensures Speaking(After(limit, run + more), workspace, room) == limit - 1 + |waiting|
    ensures AtMostPending(limit, |waiting|, run, workspace, room) ==> AtMostPending(limit, |waiting|, run + more, workspace, room)
  {
    ReachableGood(limit, run);
    more := AllGrantedFrom(After(limit, run), limit, workspace, room, waiting);
    AfterMore(limit, run, more);
    if AtMostPending(limit, |waiting|, run, workspace, room) { AlwaysFew(limit, run, more, |waiting|, workspace, room); }
  }

  /** Handlers that no grant request started. */
  predicate NoGrant(h: Speaker) { !h.Checking? && !h.Locating? && !h.Granting? }

  lemma {:induction false} NobodyGrants(limit: nat, run: seq<Action>)
    requires forall i | 0 <= i < |run| :: !run[i].Grant?
    ensures forall t | t in After(limit, run).speakers :: NoGrant(After(limit, run).speakers[t])
  {
    if run != [] {
      var n := |run| - 1;
      NobodyGrants(limit, run[..n]);
      StillNobody(After(limit, run[..n]), limit, run[n]);
    }
  }

  lemma StillNobody(w: World, limit: nat, a: Action)
    requires !a.Grant? && forall t | t in w.speakers :: NoGrant(w.speakers[t])
    ensures forall t | t in Step(w, limit, a).speakers :: NoGrant(Step(w, limit, a).speakers[t])
  {
  }

  lemma NonePending(limit: nat, run: seq<Action>, workspace: Id, room: Id)
    requires forall i | 0 <= i < |run| :: !run[i].Grant?
    ensures Pending(After(limit, run), workspace, room) == {} && AtMostPending(limit, 0, run, workspace, room)
  {
    forall i | 0 <= i <= |run| ensures Pending(After(limit, run[..i]), workspace, room) == {} {
      NobodyGrants(limit, run[..i]);
    }
    assert run[..|run|] == run;
  }
}
