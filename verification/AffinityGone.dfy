/** A call that Redis no longer binds is gone from an edge, whatever comes in between, exactly when neither the
    edge's cache nor an operation in flight still has an entry of it to give. */
module AffinityGone {
  import opened Counting
  import opened Affinity
  import opened AffinityRuns

  predicate LooksUp(th: Thread, edge: Id, callID: string) {
    (th.Qualifying? || th.Fetching? || th.Keeping?) && th.edge == edge && th.req.callID == callID
  }

  /** GET yields nothing that a lookup would still take. */
  predicate Spent(redis: map<string, Stored>, key: string, now: int) {
    var raw := Get(redis, key, now);
    raw.None? || Expired(raw.value, now)
  }

  /** The operation has no entry of the call left to give to the edge: no bind of it, on any edge, is still to store
      one, no lookup of it on the edge has read one or is about to read one under its tag-qualified key. */
  predicate NoneToGive(s: State, th: Thread, edge: Id, callID: string) {
    && (th.Storing? && th.entry.callID == callID ==> Expired(th.entry, s.now))
    && (th.Keeping? && LooksUp(th, edge, callID) ==> Expired(th.entry, s.now))
    && (th.Qualifying? && LooksUp(th, edge, callID) && DialogKey(th.req) != "" ==> Spent(s.redis, DialogKey(th.req), s.now))
  }

  /** The edge has forgotten the call but for its base key: no unexpired entry is cached there or to come. */
  ghost predicate Forgotten(s: State, edge: Id, callID: string) {
    && Cached(CacheOf(s, edge), callID, s.now).None?
    && (forall t | t in s.threads :: NoneToGive(s, s.threads[t], edge, callID))
  }

  ghost predicate Gone(s: State, edge: Id, callID: string) {
    Forgotten(s, edge, callID) && Spent(s.redis, BaseKey(callID), s.now)
  }

  /** A new bind of the call anywhere, or a lookup without a To-tag on the edge. */
  predicate Revives(a: Action, edge: Id, callID: string) {
    (a.Bind? && a.req.callID == callID) || (a.Lookup? && a.edge == edge && a.req.callID == callID && a.req.toTag == "")
  }

  ghost predicate Unrevived(more: seq<Action>, reqs: set<SipRequest>, edge: Id, callID: string) {
    Carries(more, reqs) && forall j | 0 <= j < |more| :: !Revives(more[j], edge, callID)
  }

  /** The INVITE handler binds requests without a To-tag, to the address of a node, which is not empty. */
  ghost predicate Invited(log: seq<Entry>, callID: string) {
    forall l | l in log && l.callID == callID :: l.toTag == "" && l.destination != ""
  }

  /** So a request with a To-tag has no tag-qualified key in Redis. */
  lemma NoTaggedKey(s: State, reqs: set<SipRequest>, req: SipRequest)
    requires Traced(s, reqs) && Tidy(reqs) && req in reqs && Invited(s.log, req.callID) && req.callID != "" && req.toTag != ""
    ensures DialogKey(req) !in s.redis
  {
    if DialogKey(req) in s.redis { OwnQualified(s.redis[DialogKey(req)].entry, reqs, req); }
  }

  /** A lookup of the call on the edge that ends at this action ends empty. */
  predicate AnswersEmpty(s: State, a: Action, edge: Id, callID: string) {
    Answer(s, a).Some? && Answer(s, a).value.edge == edge && Answer(s, a).value.req.callID == callID ==> Answer(s, a).value.destination == ""
  }

  lemma GoneAnswers(s: State, a: Action, edge: Id, callID: string)
    requires Gone(s, edge, callID)
    ensures AnswersEmpty(s, a, edge, callID)
  {
    if a.Next? && a.t in s.threads { assert NoneToGive(s, s.threads[a.t], edge, callID); }
  }

  // ---- Nothing is left: the call stays gone ----

  /** Storing one of the call's expired entries, or an entry of another call, gives its requests nothing to read. */
  lemma PutSpends(redis: map<string, Stored>, entry: Entry, now: int, req: SipRequest, reqs: set<SipRequest>)
    requires Tidy(reqs) && req in reqs && BoundFor(entry) in reqs && (entry.callID == req.callID ==> Expired(entry, now))
    ensures Spent(redis, BaseKey(req.callID), now) ==> Spent(Put(redis, entry, now), BaseKey(req.callID), now)
    ensures DialogKey(req) != "" && Spent(redis, DialogKey(req), now) ==> Spent(Put(redis, entry, now), DialogKey(req), now)
  {
    if entry.callID != req.callID {
      PutElsewhere(redis, entry, now, req, reqs);
      if req.callID != "" { QualifiedElsewhere(redis, entry, now, req, reqs); }
    }
  }

  lemma QualifiedElsewhere(redis: map<string, Stored>, entry: Entry, now: int, req: SipRequest, reqs: set<SipRequest>)
    requires Tidy(reqs) && req in reqs && BoundFor(entry) in reqs && entry.callID != req.callID && req.callID != ""
    ensures var key := DialogKey(req);
      (key in Put(redis, entry, now) <==> key in redis) && (key in redis ==> Put(redis, entry, now)[key] == redis[key])
  {
    if DialogKey(req) == BaseKey(entry.callID) || (entry.callID != "" && DialogKey(req) == DialogKey(BoundFor(entry))) {
      OwnQualified(entry, reqs, req);
    }
  }

  lemma StoringGone(s: State, t: Id, up: bool, reqs: set<SipRequest>, edge: Id, own: SipRequest)
    requires Traced(s, reqs) && Tidy(reqs) && own in reqs && Gone(s, edge, own.callID)
    requires t in s.threads && s.threads[t].Storing?
    ensures Gone(StepNext(s, t, up), edge, own.callID)
  {
    var entry, s' := s.threads[t].entry, StepNext(s, t, up);
    assert NoneToGive(s, s.threads[t], edge, own.callID) && ThreadTraced(s.threads[t], s.log, reqs);
    PutSpends(s.redis, entry, s.now, own, reqs);
    forall u | u in s'.threads ensures NoneToGive(s', s'.threads[u], edge, own.callID) {
      var th := s.threads[u];
      assert NoneToGive(s, th, edge, own.callID) && ThreadTraced(th, s.log, reqs);
      if th.Qualifying? && LooksUp(th, edge, own.callID) { PutSpends(s.redis, entry, s.now, th.req, reqs); }
    }
  }

  /** The threads but one are as they were. */
  lemma OthersGone(s: State, s': State, t: Id, edge: Id, callID: string)
    requires Gone(s, edge, callID) && s'.redis == s.redis && s'.now == s.now
    requires Cached(CacheOf(s', edge), callID, s.now).None?
    requires s'.threads.Keys <= s.threads.Keys + {t} && (forall u | u in s'.threads && u != t :: s'.threads[u] == s.threads[u])
    requires t in s'.threads ==> NoneToGive(s', s'.threads[t], edge, callID)
    ensures Gone(s', edge, callID)
  {
    forall u | u in s'.threads ensures NoneToGive(s', s'.threads[u], edge, callID) {
      if u != t { assert NoneToGive(s, s.threads[u], edge, callID); }
    }
  }

  lemma LookupGone(s: State, t: Id, up: bool, edge: Id, callID: string)
    requires Gone(s, edge, callID) && t in s.threads
    requires s.threads[t].Qualifying? || s.threads[t].Fetching? || s.threads[t].Keeping?
    ensures Gone(StepNext(s, t, up), edge, callID)
  {
    assert NoneToGive(s, s.threads[t], edge, callID);
    OthersGone(s, StepNext(s, t, up), t, edge, callID);
  }

  lemma DeletingGone(s: State, t: Id, up: bool, edge: Id, callID: string)
    requires Gone(s, edge, callID) && t in s.threads && s.threads[t].Deleting?
    ensures Gone(StepNext(s, t, up), edge, callID)
  {
    var s' := StepNext(s, t, up);
    forall u | u in s'.threads ensures NoneToGive(s', s'.threads[u], edge, callID) {
      assert NoneToGive(s, s.threads[u], edge, callID);
    }
  }

  lemma NextGone(s: State, t: Id, up: bool, reqs: set<SipRequest>, edge: Id, own: SipRequest)
    requires Traced(s, reqs) && Tidy(reqs) && own in reqs && Gone(s, edge, own.callID) && t in s.threads
    ensures Gone(StepNext(s, t, up), edge, own.callID)
  {
    match s.threads[t]
    case Storing(_, _) => StoringGone(s, t, up, reqs, edge, own);
    case Qualifying(_, _, _) => LookupGone(s, t, up, edge, own.callID);
    case Fetching(_, _, _) => LookupGone(s, t, up, edge, own.callID);
    case Keeping(_, _, _) => LookupGone(s, t, up, edge, own.callID);
    case Deleting(_, _) => DeletingGone(s, t, up, edge, own.callID);
  }

  /** A request that arrives on some edge. */
  lemma ArrivalGone(s: State, a: Action, reqs: set<SipRequest>, edge: Id, own: SipRequest)
    requires Traced(s, reqs) && Tidy(reqs) && Invited(s.log, own.callID) && Gone(s, edge, own.callID)
    requires (RequestOf(a).Some? ==> RequestOf(a).value in reqs) && !Revives(a, edge, own.callID)
    requires (a.Bind? || a.Lookup? || a.Unbind?) && a.t !in s.threads
    ensures Gone(Step(s, a), edge, own.callID)
  {
    if a.Lookup? && a.edge == edge && a.req.callID == own.callID && a.req.callID != "" { NoTaggedKey(s, reqs, a.req); }
    OthersGone(s, Step(s, a), a.t, edge, own.callID);
  }

  lemma TimeGone(s: State, seconds: nat, edge: Id, callID: string)
    requires Gone(s, edge, callID)
    ensures Gone(s.(now := s.now + seconds), edge, callID)
  {
    forall t | t in s.threads ensures NoneToGive(s.(now := s.now + seconds), s.threads[t], edge, callID) {
      assert NoneToGive(s, s.threads[t], edge, callID);
    }
  }

  lemma StepGone(s: State, a: Action, reqs: set<SipRequest>, edge: Id, own: SipRequest)
    requires Traced(s, reqs) && Tidy(reqs) && own in reqs && Invited(s.log, own.callID) && Gone(s, edge, own.callID)
    requires (RequestOf(a).Some? ==> RequestOf(a).value in reqs) && !Revives(a, edge, own.callID)
    ensures Gone(Step(s, a), edge, own.callID) && Invited(Step(s, a).log, own.callID)
  {
    match a
    case Next(t, up) => if t in s.threads { NextGone(s, t, up, reqs, edge, own); }
    case Restart(other) =>
      forall t | t in Step(s, a).threads ensures NoneToGive(Step(s, a), Step(s, a).threads[t], edge, own.callID) {
        assert NoneToGive(s, s.threads[t], edge, own.callID);
      }
    case Tick(seconds) => TimeGone(s, seconds, edge, own.callID);
    case _ => if a.t !in s.threads { ArrivalGone(s, a, reqs, edge, own); }
  }

  lemma {:induction false} StaysGone(s: State, more: seq<Action>, reqs: set<SipRequest>, edge: Id, own: SipRequest)
    requires Traced(s, reqs) && Tidy(reqs) && own in reqs && Invited(s.log, own.callID) && Gone(s, edge, own.callID)
    requires Unrevived(more, reqs, edge, own.callID)
    ensures Gone(Follow(s, more), edge, own.callID)
    decreases |more|
  {
    if more != [] {
      var a, rest := more[0], more[1..];
      assert forall j | 0 <= j < |rest| :: rest[j] == more[j + 1];
      assert !Revives(a, edge, own.callID);
      StepTraced(s, a, reqs);
      StepGone(s, a, reqs, edge, own);
      StaysGone(Step(s, a), rest, reqs, edge, own);
    }
  }

  // ---- Something is left: some continuation answers again ----

  /** The continuation, without a new bind or a lookup without a To-tag, ends in a lookup that finds the call. */
  ghost predicate Finds(s: State, more: seq<Action>, a: Action, reqs: set<SipRequest>, edge: Id, callID: string) {
    && Unrevived(more, reqs, edge, callID) && !Revives(a, edge, callID)
    && (RequestOf(a).Some? ==> RequestOf(a).value in reqs) && !AnswersEmpty(Follow(s, more), a, edge, callID)
  }

  lemma KnownNames(log: seq<Entry>, e: Entry, callID: string)
    requires Known(log, e) && e.callID == callID && Invited(log, callID)
    ensures e.destination != ""
  {
    var l :| l in log && SameBinding(l, e);
  }

  lemma CacheFinds(s: State, reqs: set<SipRequest>, edge: Id, own: SipRequest) returns (more: seq<Action>, a: Action)
    requires Traced(s, reqs) && own in reqs && own.toTag != "" && Invited(s.log, own.callID)
    requires Cached(CacheOf(s, edge), own.callID, s.now).Some?
    ensures Finds(s, more, a, reqs, edge, own.callID)
  {
    var t := Unused(s.threads.Keys);
    KnownNames(s.log, s.caches[edge][own.callID], own.callID);
    more, a := [], Lookup(t, edge, own);
  }

  lemma Onwards(s: State, first: seq<Action>, rest: seq<Action>, a: Action, reqs: set<SipRequest>, edge: Id, callID: string)
    requires Unrevived(first, reqs, edge, callID) && Finds(Follow(s, first), rest, a, reqs, edge, callID)
    ensures Finds(s, first + rest, a, reqs, edge, callID)
  {
    FollowOn(s, first, rest);
  }

  /** A lookup that holds an unexpired entry answers with it. */
  lemma KeepingFinds(s: State, t: Id, reqs: set<SipRequest>, edge: Id, callID: string) returns (more: seq<Action>, a: Action)
    requires t in s.threads && s.threads[t].Keeping? && LooksUp(s.threads[t], edge, callID)
    requires !Expired(s.threads[t].entry, s.now) && s.threads[t].entry.destination != ""
    ensures Finds(s, more, a, reqs, edge, callID)
  {
    more, a := [], Next(t, true);
  }

  lemma QualifyingFinds(s: State, t: Id, reqs: set<SipRequest>, edge: Id, callID: string) returns (more: seq<Action>, a: Action)
    requires Traced(s, reqs) && Tidy(reqs) && Invited(s.log, callID)
    requires t in s.threads && s.threads[t].Qualifying? && LooksUp(s.threads[t], edge, callID)
    requires DialogKey(s.threads[t].req) != "" && !Spent(s.redis, DialogKey(s.threads[t].req), s.now)
    ensures Finds(s, more, a, reqs, edge, callID)
  {
    var th := s.threads[t];
    assert ThreadTraced(th, s.log, reqs);
    GetsOwn(s, reqs, th.req);
    FollowOne(s, Next(t, true));
    more, a := KeepingFinds(Step(s, Next(t, true)), t, reqs, edge, callID);
    Onwards(s, [Next(t, true)], more, a, reqs, edge, callID);
    more := [Next(t, true)] + more;
  }

  /** A request with a To-tag finds what the base key holds. */
  lemma BaseFinds(s: State, reqs: set<SipRequest>, edge: Id, own: SipRequest) returns (more: seq<Action>, a: Action)
    requires Traced(s, reqs) && Tidy(reqs) && own in reqs && own.toTag != "" && Invited(s.log, own.callID)
    requires Cached(CacheOf(s, edge), own.callID, s.now).None? && !Spent(s.redis, BaseKey(own.callID), s.now)
    ensures Finds(s, more, a, reqs, edge, own.callID)
  {
    GetsOwn(s, reqs, own);
    if own.callID != "" { NoTaggedKey(s, reqs, own); }
    var first, t := Reads(s, edge, own);
    more, a := KeepingFinds(Follow(s, first), t, reqs, edge, own.callID);
    Onwards(s, first, more, a, reqs, edge, own.callID);
    more := first + more;
  }

  lemma StoringFinds(s: State, t: Id, reqs: set<SipRequest>, edge: Id, own: SipRequest) returns (more: seq<Action>, a: Action)
    requires Traced(s, reqs) && Tidy(reqs) && own in reqs && own.toTag != "" && Invited(s.log, own.callID)
    requires Cached(CacheOf(s, edge), own.callID, s.now).None?
    requires t in s.threads && s.threads[t].Storing? && s.threads[t].entry.callID == own.callID && !Expired(s.threads[t].entry, s.now)
    ensures Finds(s, more, a, reqs, edge, own.callID)
  {
    var first := [Next(t, true)];
    FollowOne(s, first[0]);
    StepTraced(s, first[0], reqs);
    PutsBase(s.redis, s.threads[t].entry, s.now);
    more, a := BaseFinds(Step(s, first[0]), reqs, edge, own);
    Onwards(s, first, more, a, reqs, edge, own.callID);
    more := first + more;
  }

  lemma ThreadFinds(s: State, t: Id, reqs: set<SipRequest>, edge: Id, own: SipRequest) returns (more: seq<Action>, a: Action)
    requires Traced(s, reqs) && Tidy(reqs) && own in reqs && own.toTag != "" && Invited(s.log, own.callID)
    requires Cached(CacheOf(s, edge), own.callID, s.now).None?
    requires t in s.threads && !NoneToGive(s, s.threads[t], edge, own.callID)
    ensures Finds(s, more, a, reqs, edge, own.callID)
  {
    assert ThreadTraced(s.threads[t], s.log, reqs);
    match s.threads[t]
    case Storing(_, _) => more, a := StoringFinds(s, t, reqs, edge, own);
    case Qualifying(_, _, _) => more, a := QualifyingFinds(s, t, reqs, edge, own.callID);
    case Keeping(_, _, entry) =>
      KnownNames(s.log, entry, own.callID);
      more, a := KeepingFinds(s, t, reqs, edge, own.callID);
  }

  /** Where something is left of the call some continuation finds it again. */
  lemma LeftFinds(s: State, reqs: set<SipRequest>, edge: Id, own: SipRequest) returns (more: seq<Action>, a: Action)
    requires Traced(s, reqs) && Tidy(reqs) && own in reqs && own.toTag != "" && Invited(s.log, own.callID)
    requires !Gone(s, edge, own.callID)
    ensures Finds(s, more, a, reqs, edge, own.callID)
  {
    if Cached(CacheOf(s, edge), own.callID, s.now).Some? {
      more, a := CacheFinds(s, reqs, edge, own);
    } else if t :| t in s.threads && !NoneToGive(s, s.threads[t], edge, own.callID) {
      more, a := ThreadFinds(s, t, reqs, edge, own);
    } else {
      more, a := BaseFinds(s, reqs, edge, own);
    }
  }

  // ---- Both ----

  /** However the run goes on, until the call is bound anew or looked up without a To-tag on the edge, every lookup
      of it there ends empty. */
  ghost predicate NeverFound(run: seq<Action>, reqs: set<SipRequest>, edge: Id, callID: string) {
    forall more: seq<Action>, a: Action | Unrevived(more, reqs, edge, callID)
      :: AnswersEmpty(After(run + more), a, edge, callID)
  }

  /** In every reachable state a call stays gone from an edge iff nothing of it is left that the edge could find.
      `own` is a request of its dialog, a BYE say. */
  lemma GoneIsExact(run: seq<Action>, reqs: set<SipRequest>, edge: Id, own: SipRequest)
    requires Carries(run, reqs) && Tidy(reqs) && own in reqs && own.toTag != "" && Invited(After(run).log, own.callID)
    ensures NeverFound(run, reqs, edge, own.callID) <==> Gone(After(run), edge, own.callID)
  {
    var s := After(run);
    ReachableTraced(run, reqs);
    if Gone(s, edge, own.callID) {
      forall more: seq<Action>, a: Action | Unrevived(more, reqs, edge, own.callID)
        ensures AnswersEmpty(After(run + more), a, edge, own.callID)
      {
        AfterMore(run, more);
        StaysGone(s, more, reqs, edge, own);
        GoneAnswers(Follow(s, more), a, edge, own.callID);
      }
    } else {
      var more, a := LeftFinds(s, reqs, edge, own);
      AfterMore(run, more);
      assert !AnswersEmpty(After(run + more), a, edge, own.callID);
    }
  }

  // ---- After an unbind ----

  /** Action i is the DEL of an unbind of the call, by any edge, and Redis answers. */
  predicate Deletes(run: seq<Action>, i: nat, callID: string)
    requires i < |run|
  {
    && run[i].Next? && run[i].up && run[i].t in At(run, i).threads
    && At(run, i).threads[run[i].t].Deleting? && At(run, i).threads[run[i].t].callID == callID
  }

  lemma {:induction false} BoundByInvites(run: seq<Action>, callID: string)
    requires forall i | 0 <= i < |run| && run[i].Bind? && run[i].req.callID == callID :: run[i].req.toTag == "" && run[i].destination != ""
    ensures Invited(After(run).log, callID)
  {
    forall l | l in After(run).log && l.callID == callID ensures l.toTag == "" && l.destination != "" { var i := LogSeen(run, l); }
  }

  /** After the DEL of an unbind the call is gone from an edge for good iff no unexpired entry of it is cached there,
      in a lookup's hands there or about to be read under its tag-qualified key, or still to be stored by a bind. */
  lemma UnboundIsGone(run: seq<Action>, reqs: set<SipRequest>, i: nat, edge: Id, own: SipRequest)
    requires Carries(run, reqs) && Tidy(reqs) && own in reqs && own.toTag != "" && i < |run| && Deletes(run, i, own.callID)
    requires forall j | 0 <= j < i && run[j].Bind? && run[j].req.callID == own.callID :: run[j].req.toTag == "" && run[j].destination != ""
    ensures NeverFound(run[..i + 1], reqs, edge, own.callID) <==> Forgotten(At(run, i + 1), edge, own.callID)
  {
    Prefix(run, i + 1, reqs);
    assert run[i].Next? && forall j | 0 <= j <= i :: run[..i + 1][j] == run[j];
    BoundByInvites(run[..i + 1], own.callID);
    AtNext(run, i);
    GoneIsExact(run[..i + 1], reqs, edge, own);
  }

  /** On the edge nothing of the call is in flight, and no edge is about to store it. */
  predicate Quiet(s: State, edge: Id, callID: string) {
    forall t :: t in s.threads ==> !LooksUp(s.threads[t], edge, callID) && !(s.threads[t].Storing? && s.threads[t].entry.callID == callID)
  }

  /** Between the unbind's two statements nothing of the call happens on the edge. */
  lemma QuietKept(s: State, a: Action, edge: Id, callID: string)
    requires Quiet(s, edge, callID) && callID !in CacheOf(s, edge)
    requires !(a.Bind? && a.req.callID == callID) && !(a.Lookup? && a.edge == edge && a.req.callID == callID)
    ensures Quiet(Step(s, a), edge, callID) && callID !in CacheOf(Step(s, a), edge)
  {
    if a.Next? && a.t in s.threads { QuietNext(s, a.t, a.up, edge, callID); }
  }

  lemma QuietNext(s: State, t: Id, up: bool, edge: Id, callID: string)
    requires Quiet(s, edge, callID) && callID !in CacheOf(s, edge) && t in s.threads
    ensures Quiet(StepNext(s, t, up), edge, callID) && callID !in CacheOf(StepNext(s, t, up), edge)
  {
    assert !LooksUp(s.threads[t], edge, callID);
  }

  lemma {:induction false} StaysQuiet(run: seq<Action>, u: nat, i: nat, edge: Id, callID: string)
    requires u <= i <= |run| && Quiet(At(run, u), edge, callID) && callID !in CacheOf(At(run, u), edge)
    requires forall j | u <= j < i :: !(run[j].Bind? && run[j].req.callID == callID)
                                   && !(run[j].Lookup? && run[j].edge == edge && run[j].req.callID == callID)
    ensures Quiet(At(run, i), edge, callID) && callID !in CacheOf(At(run, i), edge)
    decreases i - u
  {
    if u < i {
      AtNext(run, u);
      QuietKept(At(run, u), run[u], edge, callID);
      StaysQuiet(run, u + 1, i, edge, callID);
    }
  }

  /** Actions u and i are the two statements of an unbind of the call on the edge, Redis answers, and nothing
      of the call is in flight or begins there in between. */
  ghost predicate UnbindsAlone(run: seq<Action>, u: nat, i: nat, edge: Id, callID: string)
  {
    && u < i < |run| && run[u].Unbind? && run[u].edge == edge && run[u].callID == callID && run[u].t !in At(run, u).threads
    && Quiet(At(run, u), edge, callID)
    && run[i] == Next(run[u].t, true) && run[u].t in At(run, i).threads && At(run, i).threads[run[u].t] == Deleting(edge, callID)
    && (forall j | u < j < i :: !(run[j].Bind? && run[j].req.callID == callID)
                            && !(run[j].Lookup? && run[j].edge == edge && run[j].req.callID == callID))
  }

  /** An unbind that nothing of the call accompanies leaves nothing of it to its own edge. */
  lemma UnbindForgets(run: seq<Action>, u: nat, i: nat, edge: Id, callID: string)
    requires UnbindsAlone(run, u, i, edge, callID)
    ensures Deletes(run, i, callID) && Forgotten(At(run, i + 1), edge, callID)
  {
    AtNext(run, u);
    assert callID !in CacheOf(At(run, u + 1), edge);
    StaysQuiet(run, u + 1, i, edge, callID);
    AtNext(run, i);
    QuietKept(At(run, i), run[i], edge, callID);
  }
}
