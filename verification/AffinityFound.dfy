/** A call that Redis binds to a destination is found there, by every edge and whatever comes in between, exactly
    when no trace of another bind or of an unbind contradicts it. */
module AffinityFound {
  import opened Counting
  import opened Options
  import opened Affinity
  import opened AffinityRuns

  /** A lookup that holds the entry answers with the destination at any time up to `until`. */
  predicate Fine(e: Entry, destination: string, until: int) { e.destination == destination && until <= e.expiresAt }

  /** No trace of the call contradicts it: a cached entry names the destination or is out of date, a key of Redis
      or an operation in flight holds an entry that is good until then, and nobody is about to delete its key. */
  ghost predicate Clean(s: State, callID: string, destination: string, until: int) {
    && (forall e | e in s.caches && callID in s.caches[e] ::
          s.caches[e][callID].destination == destination || s.caches[e][callID].expiresAt <= s.now)
    && KeysClean(s.redis, s.now, callID, destination, until)
    && (forall t | t in s.threads :: CleanThread(s.threads[t], callID, destination, until))
  }

  predicate KeyClean(stored: Stored, now: int, callID: string, destination: string, until: int) {
    stored.entry.callID == callID ==> Fine(stored.entry, destination, until) || stored.dropAt <= now
  }

  ghost predicate KeysClean(redis: map<string, Stored>, now: int, callID: string, destination: string, until: int) {
    forall k | k in redis :: KeyClean(redis[k], now, callID, destination, until)
  }

  predicate CleanThread(th: Thread, callID: string, destination: string, until: int) {
    match th
    case Storing(_, entry) => entry.callID == callID ==> Fine(entry, destination, until)
    case Keeping(_, _, entry) => entry.callID == callID ==> Fine(entry, destination, until)
    case Deleting(_, other) => other != callID
    case _ => true
  }

  /** The call's base key holds the destination until then. */
  predicate Based(s: State, callID: string, destination: string, until: int) {
    && BaseKey(callID) in s.redis && s.redis[BaseKey(callID)].entry.callID == callID
    && Fine(s.redis[BaseKey(callID)].entry, destination, until) && until < s.redis[BaseKey(callID)].dropAt
  }

  ghost predicate Held(s: State, callID: string, destination: string, until: int) {
    Clean(s, callID, destination, until) && Based(s, callID, destination, until)
  }

  /** A lookup of the call that ends at this action, with Redis up, ends with the destination. */
  predicate AnswersWith(s: State, a: Action, callID: string, destination: string) {
    Answer(s, a).Some? && Answer(s, a).value.req.callID == callID && (a.Next? ==> a.up) ==> Answer(s, a).value.destination == destination
  }

  lemma HeldAnswers(s: State, a: Action, reqs: set<SipRequest>, callID: string, destination: string, until: int)
    requires Traced(s, reqs) && Held(s, callID, destination, until) && s.now <= until
    ensures AnswersWith(s, a, callID, destination)
  {
    if Answer(s, a).Some? && Answer(s, a).value.req.callID == callID {
      match a
      case Lookup(t, edge, req) => assert edge in s.caches && callID in s.caches[edge];
      case Next(t, up) => assert CleanThread(s.threads[t], callID, destination, until) && ThreadTraced(s.threads[t], s.log, reqs);
    }
  }

  /** The same for a lookup run in one go, on any edge with any cache. */
  lemma HeldFinds(s: State, edge: Id, req: SipRequest, reqs: set<SipRequest>, destination: string, until: int)
    requires Traced(s, reqs) && Tidy(reqs) && Held(s, req.callID, destination, until) && s.now <= until && req in reqs
    ensures Destination(CacheOf(s, edge), s.redis, req, s.now, true) == destination
  {
    GetsOwn(s, reqs, req);
    if Cached(CacheOf(s, edge), req.callID, s.now).Some? { assert edge in s.caches && req.callID in s.caches[edge]; }
    if DialogKey(req) in s.redis { assert KeyClean(s.redis[DialogKey(req)], s.now, req.callID, destination, until); }
  }

  // ---- Nothing contradicts it: it is found ----

  /** What may come in between: binds of the call to the same destination, but no unbind of it. */
  predicate Spares(a: Action, callID: string, destination: string) {
    (a.Bind? && a.req.callID == callID ==> a.destination == destination) && !(a.Unbind? && a.callID == callID)
  }

  ghost predicate SparedBy(more: seq<Action>, reqs: set<SipRequest>, callID: string, destination: string) {
    Carries(more, reqs) && forall j | 0 <= j < |more| :: Spares(more[j], callID, destination)
  }

  lemma PutClean(redis: map<string, Stored>, entry: Entry, now: int, callID: string, destination: string, until: int)
    requires entry.callID == callID ==> Fine(entry, destination, until)
    requires KeysClean(redis, now, callID, destination, until)
    ensures KeysClean(Put(redis, entry, now), now, callID, destination, until)
  {
  }

  lemma CleanStoring(s: State, t: Id, up: bool, callID: string, destination: string, until: int)
    requires Clean(s, callID, destination, until) && t in s.threads && s.threads[t].Storing?
    ensures Clean(StepNext(s, t, up), callID, destination, until)
  {
    assert CleanThread(s.threads[t], callID, destination, until);
    PutClean(s.redis, s.threads[t].entry, s.now, callID, destination, until);
  }

  lemma CleanFetch(s: State, t: Id, up: bool, reqs: set<SipRequest>, callID: string, destination: string, until: int)
    requires Traced(s, reqs) && Tidy(reqs) && Clean(s, callID, destination, until)
    requires t in s.threads && (s.threads[t].Qualifying? || s.threads[t].Fetching?)
    ensures Clean(StepNext(s, t, up), callID, destination, until)
  {
    var th := s.threads[t];
    assert ThreadTraced(th, s.log, reqs);
    GetsOwn(s, reqs, th.req);
    var key := if th.Qualifying? then DialogKey(th.req) else BaseKey(th.req.callID);
    if key in s.redis { assert KeyClean(s.redis[key], s.now, callID, destination, until); }
  }

  lemma CleanKeeping(s: State, t: Id, up: bool, reqs: set<SipRequest>, callID: string, destination: string, until: int)
    requires Traced(s, reqs) && Clean(s, callID, destination, until)
    requires t in s.threads && (s.threads[t].Keeping? || s.threads[t].Deleting?)
    ensures Clean(StepNext(s, t, up), callID, destination, until)
  {
    assert ThreadTraced(s.threads[t], s.log, reqs) && CleanThread(s.threads[t], callID, destination, until);
  }

  lemma CleanKept(s: State, a: Action, reqs: set<SipRequest>, callID: string, destination: string, until: int)
    requires Traced(s, reqs) && Tidy(reqs) && Clean(s, callID, destination, until) && until <= s.now + TWO_HOURS
    requires Spares(a, callID, destination)
    ensures Clean(Step(s, a), callID, destination, until)
  {
    if a.Next? && a.t in s.threads { CleanNext(s, a.t, a.up, reqs, callID, destination, until); }
  }

  lemma CleanNext(s: State, t: Id, up: bool, reqs: set<SipRequest>, callID: string, destination: string, until: int)
    requires Traced(s, reqs) && Tidy(reqs) && Clean(s, callID, destination, until) && t in s.threads
    ensures Clean(StepNext(s, t, up), callID, destination, until)
  {
    match s.threads[t]
    case Storing(_, _) => CleanStoring(s, t, up, callID, destination, until);
    case Qualifying(_, _, _) => CleanFetch(s, t, up, reqs, callID, destination, until);
    case Fetching(_, _, _) => CleanFetch(s, t, up, reqs, callID, destination, until);
    case Keeping(_, _, _) => CleanKeeping(s, t, up, reqs, callID, destination, until);
    case Deleting(_, _) => CleanKeeping(s, t, up, reqs, callID, destination, until);
  }

  /** The base key of the call stays. */
  lemma BaseKept(s: State, a: Action, reqs: set<SipRequest>, own: SipRequest, destination: string, until: int)
    requires Traced(s, reqs) && Tidy(reqs) && own in reqs && Held(s, own.callID, destination, until) && until < s.now + TWO_HOURS
    ensures Based(Step(s, a), own.callID, destination, until)
  {
    if a.Next? && a.t in s.threads {
      var th := s.threads[a.t];
      assert CleanThread(th, own.callID, destination, until) && ThreadTraced(th, s.log, reqs);
      if th.Storing? {
        if th.entry.callID != own.callID { PutElsewhere(s.redis, th.entry, s.now, own, reqs); } else { PutsBase(s.redis, th.entry, s.now); }
      }
      if th.Deleting? { DeleteElsewhere(s.redis, own.callID, th.callID); }
    }
  }

  /** Until then, whatever spares the call: every answer is the destination. */
  lemma {:induction false} StaysHeld(s: State, more: seq<Action>, reqs: set<SipRequest>, own: SipRequest, destination: string, until: int)
    requires Traced(s, reqs) && Tidy(reqs) && own in reqs && Held(s, own.callID, destination, until)
    requires until < s.now + TWO_HOURS && SparedBy(more, reqs, own.callID, destination)
    ensures Traced(Follow(s, more), reqs) && Held(Follow(s, more), own.callID, destination, until)
    decreases |more|
  {
    if more != [] {
      var a, rest := more[0], more[1..];
      assert forall j | 0 <= j < |rest| :: rest[j] == more[j + 1];
      assert Spares(a, own.callID, destination);
      StepTraced(s, a, reqs);
      CleanKept(s, a, reqs, own.callID, destination, until);
      BaseKept(s, a, reqs, own, destination, until);
      StaysHeld(Step(s, a), rest, reqs, own, destination, until);
    }
  }

  // ---- Something contradicts it: some continuation answers otherwise ----

  /** The continuation ends, by then, in a lookup of the call that Redis answered and that has another outcome. */
  ghost predicate Misleads(s: State, more: seq<Action>, a: Action, reqs: set<SipRequest>, callID: string, destination: string, until: int) {
    && SparedBy(more, reqs, callID, destination) && Follow(s, more).now <= until
    && (RequestOf(a).Some? ==> RequestOf(a).value in reqs) && !AnswersWith(Follow(s, more), a, callID, destination)
  }

  /** Redis answers every command. */
  ghost predicate Steady(more: seq<Action>) { forall j | 0 <= j < |more| && more[j].Next? :: more[j].up }

  lemma CacheMisleads(s: State, edge: Id, own: SipRequest, reqs: set<SipRequest>, destination: string, until: int)
    returns (more: seq<Action>, a: Action)
    requires own in reqs && s.now <= until
    requires Cached(CacheOf(s, edge), own.callID, s.now).Some? && CacheOf(s, edge)[own.callID].destination != destination
    ensures Steady(more) && Misleads(s, more, a, reqs, own.callID, destination, until)
  {
    var t := Unused(s.threads.Keys);
    more, a := [], Lookup(t, edge, own);
  }

  /** Waiting makes an entry answer empty that runs out too soon. */
  lemma KeepingMisleads(s: State, t: Id, reqs: set<SipRequest>, callID: string, destination: string, until: int)
    returns (more: seq<Action>, a: Action)
    requires s.now <= until && destination != "" && t in s.threads && s.threads[t].Keeping?
    requires s.threads[t].req.callID == callID && !Fine(s.threads[t].entry, destination, until)
    ensures Steady(more) && Misleads(s, more, a, reqs, callID, destination, until)
  {
    a := Next(t, true);
    if s.threads[t].entry.expiresAt < until {
      more := [Tick(until - s.now)];
      FollowOne(s, more[0]);
    } else {
      more := [];
    }
  }

  lemma Onwards(s: State, first: seq<Action>, rest: seq<Action>, a: Action, reqs: set<SipRequest>, callID: string, destination: string, until: int)
    requires SparedBy(first, reqs, callID, destination) && Misleads(Follow(s, first), rest, a, reqs, callID, destination, until)
    ensures Misleads(s, first + rest, a, reqs, callID, destination, until)
  {
    FollowOn(s, first, rest);
  }

  /** An edge without a cache reads the entry that Redis holds. */
  lemma ReadingMisleads(s: State, own: SipRequest, reqs: set<SipRequest>, destination: string, until: int)
    returns (more: seq<Action>, a: Action)
    requires own in reqs && s.now <= until && destination != ""
    requires Fetched(s.redis, own, s.now, true).Some? && !Fine(Fetched(s.redis, own, s.now, true).value, destination, until)
    ensures Steady(more) && Misleads(s, more, a, reqs, own.callID, destination, until)
  {
    var edge := Unused(s.caches.Keys);
    var t: Id;
    more, t := Reads(s, edge, own);
    var rest: seq<Action>;
    rest, a := KeepingMisleads(Follow(s, more), t, reqs, own.callID, destination, until);
    Onwards(s, more, rest, a, reqs, own.callID, destination, until);
    more := more + rest;
  }

  lemma KeyMisleads(s: State, key: string, reqs: set<SipRequest>, callID: string, destination: string, until: int)
    returns (more: seq<Action>, a: Action)
    requires Traced(s, reqs) && s.now <= until && destination != "" && Based(s, callID, destination, until)
    requires key in s.redis && !KeyClean(s.redis[key], s.now, callID, destination, until)
    ensures Steady(more) && Misleads(s, more, a, reqs, callID, destination, until)
  {
    var own := BoundFor(s.redis[key].entry);
    assert key == DialogKey(own);
    more, a := ReadingMisleads(s, own, reqs, destination, until);
  }

  lemma StoringMisleads(s: State, t: Id, reqs: set<SipRequest>, callID: string, destination: string, until: int)
    returns (more: seq<Action>, a: Action)
    requires Traced(s, reqs) && s.now <= until && destination != ""
    requires t in s.threads && s.threads[t].Storing? && !CleanThread(s.threads[t], callID, destination, until)
    ensures Steady(more) && Misleads(s, more, a, reqs, callID, destination, until)
  {
    var entry := s.threads[t].entry;
    assert ThreadTraced(s.threads[t], s.log, reqs);
    FollowOne(s, Next(t, true));
    PutsBoth(s.redis, entry, s.now);
    var rest: seq<Action>;
    rest, a := ReadingMisleads(Step(s, Next(t, true)), BoundFor(entry), reqs, destination, until);
    Onwards(s, [Next(t, true)], rest, a, reqs, callID, destination, until);
    more := [Next(t, true)] + rest;
  }

  lemma PutsBoth(redis: map<string, Stored>, entry: Entry, now: int)
    ensures Fetched(Put(redis, entry, now), BoundFor(entry), now, true) == Some(entry)
  {
  }

  /** Once its base key is gone a call is found under tag-qualified keys only: by none of its requests that has no
      such key there, and by no request while Redis fails to answer the first GET. */
  lemma DeletingMisleads(s: State, t: Id, own: SipRequest, reqs: set<SipRequest>, destination: string, until: int)
    returns (more: seq<Action>, a: Action)
    requires own in reqs && s.now <= until && destination != ""
    requires t in s.threads && s.threads[t] == Deleting(s.threads[t].edge, own.callID)
    ensures Misleads(s, more, a, reqs, own.callID, destination, until)
    ensures DialogKey(own) !in s.redis ==> Steady(more)
  {
    var edge := Unused(s.caches.Keys);
    var u := Unused(s.threads.Keys);
    var s1 := Step(s, Next(t, true));
    var s2 := Step(s1, Lookup(u, edge, own));
    var up := DialogKey(own) !in s.redis;
    more, a := [Next(t, true)] + [Lookup(u, edge, own), Next(u, up)], Next(u, true);
    FollowOn(s, [Next(t, true)], [Lookup(u, edge, own), Next(u, up)]);
    FollowOne(s, Next(t, true));
    FollowTwo(s1, Lookup(u, edge, own), Next(u, up));
    assert s2.threads[u] == Qualifying(edge, own, NO_ENTRY);
    assert Step(s2, Next(u, up)).threads[u] == Fetching(edge, own, NO_ENTRY);
  }

  lemma ThreadMisleads(s: State, t: Id, own: SipRequest, reqs: set<SipRequest>, destination: string, until: int)
    returns (more: seq<Action>, a: Action)
    requires Traced(s, reqs) && own in reqs && s.now <= until && destination != ""
    requires t in s.threads && !CleanThread(s.threads[t], own.callID, destination, until)
    ensures Misleads(s, more, a, reqs, own.callID, destination, until) && (DialogKey(own) !in s.redis ==> Steady(more))
  {
    match s.threads[t]
    case Storing(_, _) => more, a := StoringMisleads(s, t, reqs, own.callID, destination, until);
    case Keeping(_, _, _) =>
      assert ThreadTraced(s.threads[t], s.log, reqs);
      more, a := KeepingMisleads(s, t, reqs, own.callID, destination, until);
    case Deleting(_, _) => more, a := DeletingMisleads(s, t, own, reqs, destination, until);
  }

  /** Where a trace contradicts the binding some continuation that spares it answers a lookup otherwise. */
  lemma TraceMisleads(s: State, own: SipRequest, reqs: set<SipRequest>, destination: string, until: int)
    returns (more: seq<Action>, a: Action)
    requires Traced(s, reqs) && own in reqs && s.now <= until && destination != "" && Based(s, own.callID, destination, until)
    requires !Clean(s, own.callID, destination, until)
    ensures Misleads(s, more, a, reqs, own.callID, destination, until) && (DialogKey(own) !in s.redis ==> Steady(more))
  {
    if !KeysClean(s.redis, s.now, own.callID, destination, until) {
      var key :| key in s.redis && !KeyClean(s.redis[key], s.now, own.callID, destination, until);
      more, a := KeyMisleads(s, key, reqs, own.callID, destination, until);
    } else if t :| t in s.threads && !CleanThread(s.threads[t], own.callID, destination, until) {
      more, a := ThreadMisleads(s, t, own, reqs, destination, until);
    } else {
      var edge :| edge in s.caches && own.callID in s.caches[edge]
               && s.caches[edge][own.callID].destination != destination && s.now < s.caches[edge][own.callID].expiresAt;
      more, a := CacheMisleads(s, edge, own, reqs, destination, until);
    }
  }

  // ---- Both ----

  /** The i-th action is the Redis transaction of a bind, and it succeeds. */
  predicate Stores(run: seq<Action>, i: nat, en: Entry)
    requires i < |run|
  {
    && run[i].Next? && run[i].up && run[i].t in At(run, i).threads
    && At(run, i).threads[run[i].t].Storing? && At(run, i).threads[run[i].t].entry == en
  }

  /** However the run goes on, until then and until the call is bound elsewhere or unbound, every lookup of it that
      Redis answers, on every edge, finds the destination. */
  ghost predicate AlwaysFound(run: seq<Action>, reqs: set<SipRequest>, callID: string, destination: string, until: int) {
    forall more: seq<Action>, a: Action | SparedBy(more, reqs, callID, destination) && After(run + more).now <= until
      :: AnswersWith(After(run + more), a, callID, destination)
  }

  lemma StoredBased(run: seq<Action>, reqs: set<SipRequest>, i: nat, en: Entry, until: int)
    requires i < |run| && Carries(run, reqs) && Tidy(reqs) && Stores(run, i, en) && until < en.expiresAt
    ensures var s := At(run, i + 1);
      Traced(s, reqs) && Based(s, en.callID, en.destination, until) && BoundFor(en) in reqs && until < s.now + TWO_HOURS
  {
    Prefix(run, i, reqs);
    ReachableTraced(run[..i], reqs);
    AtNext(run, i);
    var s := At(run, i);
    assert ThreadTraced(s.threads[run[i].t], s.log, reqs);
    PutsBase(s.redis, en, s.now);
    StepTraced(s, run[i], reqs);
  }

  /** The same where Redis answers every command. */
  ghost predicate SteadilyFound(run: seq<Action>, reqs: set<SipRequest>, callID: string, destination: string, until: int) {
    forall more: seq<Action>, a: Action | SparedBy(more, reqs, callID, destination) && Steady(more) && After(run + more).now <= until
      :: AnswersWith(After(run + more), a, callID, destination)
  }

  lemma CleanIsFound(run: seq<Action>, reqs: set<SipRequest>, own: SipRequest, destination: string, until: int)
    requires Traced(After(run), reqs) && Tidy(reqs) && own in reqs && until < After(run).now + TWO_HOURS
    requires Held(After(run), own.callID, destination, until)
    ensures AlwaysFound(run, reqs, own.callID, destination, until)
  {
    forall more: seq<Action>, a: Action | SparedBy(more, reqs, own.callID, destination) && After(run + more).now <= until
      ensures AnswersWith(After(run + more), a, own.callID, destination)
    {
      AfterMore(run, more);
      StaysHeld(After(run), more, reqs, own, destination, until);
      HeldAnswers(Follow(After(run), more), a, reqs, own.callID, destination, until);
    }
  }

  lemma UncleanIsNot(run: seq<Action>, reqs: set<SipRequest>, own: SipRequest, destination: string, until: int)
    requires Traced(After(run), reqs) && own in reqs && After(run).now <= until && destination != ""
    requires Based(After(run), own.callID, destination, until) && !Clean(After(run), own.callID, destination, until)
    ensures !AlwaysFound(run, reqs, own.callID, destination, until)
    ensures DialogKey(own) !in After(run).redis ==> !SteadilyFound(run, reqs, own.callID, destination, until)
  {
    var more, a := TraceMisleads(After(run), own, reqs, destination, until);
    AfterMore(run, more);
    assert !AnswersWith(After(run + more), a, own.callID, destination);
  }

  /** After a bind has succeeded its call is found at the bound destination for as long as the entry is good, iff no
      trace of the call contradicts it; and so it is even if Redis never fails, where a request of the call (one
      with a To-tag, for a call that INVITEs bound) has no tag-qualified key. A destination, being a node's
      address, is not empty. */
  lemma BoundIsFound(run: seq<Action>, reqs: set<SipRequest>, i: nat, en: Entry, own: SipRequest, until: int)
    requires i < |run| && Carries(run, reqs) && Tidy(reqs) && Stores(run, i, en) && en.destination != ""
    requires own in reqs && own.callID == en.callID && At(run, i + 1).now <= until < en.expiresAt
    ensures AlwaysFound(run[..i + 1], reqs, en.callID, en.destination, until)
       <==> Clean(At(run, i + 1), en.callID, en.destination, until)
    ensures DialogKey(own) !in At(run, i + 1).redis ==>
      (SteadilyFound(run[..i + 1], reqs, en.callID, en.destination, until)
       <==> Clean(At(run, i + 1), en.callID, en.destination, until))
  {
    StoredBased(run, reqs, i, en, until);
    if Clean(At(run, i + 1), en.callID, en.destination, until) {
      CleanIsFound(run[..i + 1], reqs, own, en.destination, until);
    } else {
      UncleanIsNot(run[..i + 1], reqs, own, en.destination, until);
    }
  }

  // ---- When nothing contradicts it ----

  /** A bind overwrites the traces under its own keys and in its own edge's cache: only the others matter. An INVITE
      sent again, for one, that the same edge gives to another node. */
  lemma OverwritesClean(s: State, t: Id, until: int)
    requires t in s.threads && s.threads[t].Storing? && until <= s.threads[t].entry.expiresAt
    requires var en := s.threads[t].entry;
      && (forall e | e in s.caches && en.callID in s.caches[e] ::
            s.caches[e][en.callID].destination == en.destination || s.caches[e][en.callID].expiresAt <= s.now)
      && (forall k | k in s.redis && k != BaseKey(en.callID) && (en.callID == "" || k != DialogKey(BoundFor(en))) ::
            KeyClean(s.redis[k], s.now, en.callID, en.destination, until))
      && (forall u | u in s.threads && u != t :: CleanThread(s.threads[u], en.callID, en.destination, until))
    ensures Clean(StepNext(s, t, true), s.threads[t].entry.callID, s.threads[t].entry.destination, until)
  {
  }

  /** Every bind of the call so far was to the destination and is good until then, and nobody is about to delete its
      key: an INVITE sent again, for one, that goes to the same node. */
  lemma AgreedClean(run: seq<Action>, reqs: set<SipRequest>, callID: string, destination: string, until: int)
    requires Carries(run, reqs) && Tidy(reqs)
    requires forall l | l in After(run).log && l.callID == callID :: Fine(l, destination, until)
    requires forall t | t in After(run).threads && After(run).threads[t].Deleting? :: After(run).threads[t].callID != callID
    ensures Clean(After(run), callID, destination, until)
  {
    var s := After(run);
    ReachableTraced(run, reqs);
    forall e | e in s.caches && callID in s.caches[e] ensures s.caches[e][callID].destination == destination {
      assert Known(s.log, s.caches[e][callID]);
    }
    forall t | t in s.threads ensures CleanThread(s.threads[t], callID, destination, until) {
      assert ThreadTraced(s.threads[t], s.log, reqs);
    }
  }

  lemma {:induction false} OnlyBinding(run: seq<Action>, l: Entry, m: Entry)
    requires l in After(run).log && m in After(run).log && l.callID == m.callID && BoundOnce(run, l.callID)
    ensures l == m
  {
    var i := LogSeen(run, l);
    var j := LogSeen(run, m);
  }

  /** In particular nothing contradicts the only bind of a call, once no earlier unbind of it is under way. */
  lemma OnlyBindClean(run: seq<Action>, reqs: set<SipRequest>, i: nat, en: Entry, until: int)
    requires i < |run| && Carries(run, reqs) && Tidy(reqs) && Stores(run, i, en) && until <= en.expiresAt && BoundOnce(run, en.callID)
    requires forall t | t in At(run, i).threads && At(run, i).threads[t].Deleting? :: At(run, i).threads[t].callID != en.callID
    ensures Clean(At(run, i + 1), en.callID, en.destination, until)
  {
    Prefix(run, i, reqs);
    ReachableTraced(run[..i], reqs);
    AtNext(run, i);
    Prefix(run, i + 1, reqs);
    assert ThreadTraced(At(run, i).threads[run[i].t], At(run, i).log, reqs);
    assert BoundOnce(run[..i + 1], en.callID) by { assert forall j | 0 <= j <= i :: run[..i + 1][j] == run[j]; }
    forall l | l in At(run, i + 1).log && l.callID == en.callID ensures Fine(l, en.destination, until) { OnlyBinding(run[..i + 1], l, en); }
    AgreedClean(run[..i + 1], reqs, en.callID, en.destination, until);
  }
}
