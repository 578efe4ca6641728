/** Any number of edges over one Redis: binds, lookups and unbinds that interleave cache access by cache
    access and Redis command by Redis command, restarts that empty a cache, and time that passes. */
module AffinityRuns {
  import opened Counting
  import opened Options
  import opened Affinity

  type Id = nat

  /** An operation in flight by what it does next. */
  datatype Thread =
    | Storing(edge: Id, entry: Entry)                         // bind: the Redis transaction
    | Qualifying(edge: Id, req: SipRequest, stale: Entry)     // lookup: GET of the tag-qualified key
    | Fetching(edge: Id, req: SipRequest, stale: Entry)       // lookup: GET of the base key
    | Keeping(edge: Id, req: SipRequest, entry: Entry)        // lookup: the expiry check and the cache write
    | Deleting(edge: Id, callID: string)                      // unbind: the DEL

  /** `log` is what was bound so far. */
  datatype State = State(now: int, caches: map<Id, map<string, Entry>>, redis: map<string, Stored>,
                         threads: map<Id, Thread>, log: seq<Entry>)

  datatype Action =
    | Bind(t: Id, edge: Id, req: SipRequest, destination: string, epoch: int)
    | Lookup(t: Id, edge: Id, req: SipRequest)
    | Unbind(t: Id, edge: Id, callID: string)
    | Next(t: Id, up: bool)
    | Restart(edge: Id)
    | Tick(seconds: nat)

  const INITIAL := State(0, map[], map[], map[], [])

  function CacheOf(s: State, edge: Id): map<string, Entry> { if edge in s.caches then s.caches[edge] else map[] }

  function WithCache(s: State, edge: Id, cache: map<string, Entry>): State { s.(caches := s.caches[edge := cache]) }

  function Go(s: State, t: Id, thread: Thread): State { s.(threads := s.threads[t := thread]) }

  function End(s: State, t: Id): State { s.(threads := s.threads - {t}) }

  function StepNext(s: State, t: Id, up: bool): State
    requires t in s.threads
  {
    match s.threads[t]
    case Storing(_, entry) => End(if up then s.(redis := Put(s.redis, entry, s.now)) else s, t)
    case Qualifying(edge, req, stale) =>
      var raw := if up && DialogKey(req) != "" then Get(s.redis, DialogKey(req), s.now) else None;
      if raw.Some? then Go(s, t, Keeping(edge, req, Decode(raw.value, stale))) else Go(s, t, Fetching(edge, req, stale))
    case Fetching(edge, req, stale) =>
      var raw := if up then Get(s.redis, BaseKey(req.callID), s.now) else None;
      if raw.Some? then Go(s, t, Keeping(edge, req, Decode(raw.value, stale))) else End(s, t)
    case Keeping(edge, req, entry) =>
      End(if Expired(entry, s.now) then s else WithCache(s, edge, CacheOf(s, edge)[req.callID := entry]), t)
    case Deleting(_, callID) => End(if up then s.(redis := Delete(s.redis, BaseKey(callID))) else s, t)
  }

  function Step(s: State, a: Action): State {
    match a
    case Bind(t, edge, req, destination, epoch) =>
      if t in s.threads then s
      else
        var entry := NewEntry(req, destination, epoch, s.now);
        Go(WithCache(s, edge, CacheOf(s, edge)[req.callID := entry]), t, Storing(edge, entry)).(log := s.log + [entry])
    case Lookup(t, edge, req) =>
      if t in s.threads || Cached(CacheOf(s, edge), req.callID, s.now).Some? then s
      else Go(s, t, Qualifying(edge, req, Stale(CacheOf(s, edge), req.callID)))
    case Unbind(t, edge, callID) =>
      if t in s.threads then s else Go(WithCache(s, edge, CacheOf(s, edge) - {callID}), t, Deleting(edge, callID))
    case Next(t, up) => if t in s.threads then StepNext(s, t, up) else s
    case Restart(edge) =>
      s.(caches := s.caches - {edge}, threads := map t | t in s.threads && s.threads[t].edge != edge :: s.threads[t])
    case Tick(seconds) => s.(now := s.now + seconds)
  }

  /** The lookup that the action answers, on which edge and with what. */
  datatype Answered = Answered(edge: Id, req: SipRequest, destination: string)

  function Answer(s: State, a: Action): Option<Answered> {
    match a
    case Lookup(t, edge, req) =>
      if t !in s.threads && Cached(CacheOf(s, edge), req.callID, s.now).Some?
      then Some(Answered(edge, req, CacheOf(s, edge)[req.callID].destination)) else None
    case Next(t, up) =>
      if t !in s.threads then None
      else (match s.threads[t]
            case Fetching(edge, req, _) =>
              if up && Get(s.redis, BaseKey(req.callID), s.now).Some? then None else Some(Answered(edge, req, ""))
            case Keeping(edge, req, entry) => Some(Answered(edge, req, if Expired(entry, s.now) then "" else entry.destination))
            case _ => None)
    case _ => None
  }

  function After(run: seq<Action>): State {
    if run == [] then INITIAL else Step(After(run[..|run| - 1]), run[|run| - 1])
  }

  function At(run: seq<Action>, i: nat): State
    requires i <= |run|
  {
    After(run[..i])
  }

  lemma AtNext(run: seq<Action>, i: nat)
    requires i < |run|
    ensures At(run, i + 1) == Step(At(run, i), run[i])
  {
    assert run[..i + 1][..i] == run[..i];
  }

  // ---- An operation run in one go ----

  function LookupSteps(th: Thread): nat { if th.Qualifying? then 2 else if th.Fetching? then 1 else 0 }

  /** A lookup that nothing interrupts: the state it leaves and its answer. */
  function Finished(s: State, t: Id, up: bool): (State, string)
    requires t in s.threads && (s.threads[t].Qualifying? || s.threads[t].Fetching? || s.threads[t].Keeping?)
    decreases LookupSteps(s.threads[t])
  {
    var answer, s' := Answer(s, Next(t, up)), StepNext(s, t, up);
    if answer.Some? then (s', answer.value.destination) else Finished(s', t, up)
  }

  /** It is the registry's lookup. */
  lemma LookupInOneGo(s: State, t: Id, edge: Id, req: SipRequest, up: bool)
    requires t !in s.threads && Cached(CacheOf(s, edge), req.callID, s.now).None?
    ensures var (s', destination) := Finished(Step(s, Lookup(t, edge, req)), t, up);
      && destination == Destination(CacheOf(s, edge), s.redis, req, s.now, up)
      && CacheOf(s', edge) == CacheAfter(CacheOf(s, edge), s.redis, req, s.now, up)
  {
    var s1 := Step(s, Lookup(t, edge, req));
    var s2 := StepNext(s1, t, up);
    assert Finished(s1, t, up) == Finished(s2, t, up);
    if s2.threads[t].Fetching? {
      var s3 := StepNext(s2, t, up);
      if t in s3.threads { assert Finished(s2, t, up) == Finished(s3, t, up); }
    }
  }

  /** The same for a bind and an unbind: they do what the registry's do. */
  lemma BindInOneGo(s: State, t: Id, edge: Id, req: SipRequest, destination: string, epoch: int, up: bool)
    requires t !in s.threads
    ensures var s' := Step(Step(s, Bind(t, edge, req, destination, epoch)), Next(t, up));
      && CacheOf(s', edge) == CacheOf(s, edge)[req.callID := NewEntry(req, destination, epoch, s.now)]
      && s'.redis == (if up then Put(s.redis, NewEntry(req, destination, epoch, s.now), s.now) else s.redis) && s'.threads == s.threads
  {
    var entry := NewEntry(req, destination, epoch, s.now);
    assert s.threads[t := Storing(edge, entry)] - {t} == s.threads;
  }

  lemma UnbindInOneGo(s: State, t: Id, edge: Id, callID: string, up: bool)
    requires t !in s.threads
    ensures var s' := Step(Step(s, Unbind(t, edge, callID)), Next(t, up));
      && CacheOf(s', edge) == CacheOf(s, edge) - {callID}
      && s'.redis == (if up then s.redis - {"sip-dialog:" + callID} else s.redis) && s'.threads == s.threads
  {
    assert s.threads[t := Deleting(edge, callID)] - {t} == s.threads;
  }

  /** An edge that restarts finds what Redis holds and nothing else; the other edges are as they were. */
  lemma RestartReads(s: State, edge: Id, req: SipRequest, up: bool)
    ensures var s' := Step(s, Restart(edge));
      && Destination(CacheOf(s', edge), s'.redis, req, s'.now, up) == Destination(map[], s.redis, req, s.now, up)
      && (forall t | t in s'.threads :: s'.threads[t].edge != edge)
      && (forall other | other != edge :: CacheOf(s', other) == CacheOf(s, other))
      && (forall t | t in s.threads && s.threads[t].edge != edge :: t in s'.threads && s'.threads[t] == s.threads[t])
  {
    assert CacheOf(Step(s, Restart(edge)), edge) == map[];
  }

  // ---- Which requests a run carries ----

  function RequestOf(a: Action): Option<SipRequest> {
    match a
    case Bind(_, _, req, _, _) => Some(req)
    case Lookup(_, _, req) => Some(req)
    case _ => None
  }

  /** Tags are tokens, and no Call-ID is another request's tag-qualified suffix. */
  ghost predicate Tidy(reqs: set<SipRequest>) {
    && (forall r | r in reqs :: TagsOk(r))
    && (forall r, q | r in reqs && q in reqs :: r.callID != Suffix(q))
  }

  ghost predicate Carries(run: seq<Action>, reqs: set<SipRequest>) {
    forall i | 0 <= i < |run| && RequestOf(run[i]).Some? :: RequestOf(run[i]).value in reqs
  }

  // ---- Safety ----

  predicate SameBinding(l: Entry, e: Entry) {
    l.callID == e.callID && l.destination == e.destination && l.expiresAt == e.expiresAt
  }

  /** The entry was bound: it is in the log, but for the fields decoding may have mixed up. */
  ghost predicate Known(log: seq<Entry>, e: Entry) { exists l :: l in log && SameBinding(l, e) }

  ghost predicate CachesTraced(caches: map<Id, map<string, Entry>>, log: seq<Entry>) {
    forall e, c | e in caches && c in caches[e] :: caches[e][c].callID == c && Known(log, caches[e][c])
  }

  ghost predicate RedisTraced(redis: map<string, Stored>, log: seq<Entry>) {
    forall k | k in redis :: redis[k].entry in log && redis[k].entry.expiresAt <= redis[k].dropAt && NamedBy(k, redis[k].entry)
  }

  predicate NamedBy(key: string, e: Entry) {
    key == BaseKey(e.callID) || (e.callID != "" && key == DialogKey(BoundFor(e)))
  }

  ghost predicate ThreadTraced(th: Thread, log: seq<Entry>, reqs: set<SipRequest>) {
    match th
    case Storing(_, entry) => entry in log
    case Qualifying(_, req, _) => req in reqs
    case Fetching(_, req, _) => req in reqs
    case Keeping(_, req, entry) => req in reqs && entry.callID == req.callID && Known(log, entry)
    case Deleting(_, _) => true
  }

  ghost predicate LogOk(s: State, reqs: set<SipRequest>) {
    forall l | l in s.log :: BoundFor(l) in reqs && l.expiresAt <= s.now + TWO_HOURS
  }

  ghost predicate Traced(s: State, reqs: set<SipRequest>) {
    && CachesTraced(s.caches, s.log) && RedisTraced(s.redis, s.log) && LogOk(s, reqs)
    && forall t | t in s.threads :: ThreadTraced(s.threads[t], s.log, reqs)
  }

  /** The key of a request yields an entry of its own call. */
  lemma GetsOwn(s: State, reqs: set<SipRequest>, req: SipRequest)
    requires Traced(s, reqs) && Tidy(reqs) && req in reqs
    ensures DialogKey(req) != "" && DialogKey(req) in s.redis ==> s.redis[DialogKey(req)].entry.callID == req.callID
    ensures BaseKey(req.callID) in s.redis ==> s.redis[BaseKey(req.callID)].entry.callID == req.callID
  {
    if DialogKey(req) != "" && DialogKey(req) in s.redis { OwnQualified(s.redis[DialogKey(req)].entry, reqs, req); }
    if BaseKey(req.callID) in s.redis { OwnBase(s.redis[BaseKey(req.callID)].entry, reqs, req); }
  }

  lemma OwnQualified(e: Entry, reqs: set<SipRequest>, req: SipRequest)
    requires Tidy(reqs) && req in reqs && BoundFor(e) in reqs && req.callID != "" && NamedBy(DialogKey(req), e)
    ensures BoundFor(e) == req
  {
    if DialogKey(req) == BaseKey(e.callID) {
      SamePrefix(Suffix(req), e.callID);
    } else {
      SamePrefix(Suffix(req), Suffix(BoundFor(e)));
      SuffixNames(req, BoundFor(e));
    }
  }

  lemma OwnBase(e: Entry, reqs: set<SipRequest>, req: SipRequest)
    requires Tidy(reqs) && req in reqs && BoundFor(e) in reqs && NamedBy(BaseKey(req.callID), e)
    ensures e.callID == req.callID
  {
    if BaseKey(req.callID) == BaseKey(e.callID) {
      SamePrefix(req.callID, e.callID);
    } else {
      SamePrefix(req.callID, Suffix(BoundFor(e)));
    }
  }

  lemma KnownGrows(log: seq<Entry>, more: seq<Entry>, e: Entry)
    requires Known(log, e)
    ensures Known(log + more, e)
  {
    var l :| l in log && SameBinding(l, e);
    assert l in log + more;
  }

  lemma PutTraced(redis: map<string, Stored>, log: seq<Entry>, entry: Entry, now: int)
    requires RedisTraced(redis, log) && entry in log && entry.expiresAt <= now + TWO_HOURS
    ensures RedisTraced(Put(redis, entry, now), log)
  {
  }

  lemma BindTraced(s: State, a: Action, reqs: set<SipRequest>)
    requires Traced(s, reqs) && a.Bind? && a.req in reqs && a.t !in s.threads
    ensures Traced(Step(s, a), reqs)
  {
    var entry := NewEntry(a.req, a.destination, a.epoch, s.now);
    var s' := Step(s, a);
    assert s'.log == s.log + [entry] && entry in s'.log;
    forall e, c | e in s'.caches && c in s'.caches[e] ensures s'.caches[e][c].callID == c && Known(s'.log, s'.caches[e][c]) {
      if e == a.edge && c == a.req.callID {
        assert SameBinding(entry, entry);
      } else {
        assert e in s.caches && c in s.caches[e];
        KnownGrows(s.log, [entry], s.caches[e][c]);
      }
    }
    forall t | t in s'.threads ensures ThreadTraced(s'.threads[t], s'.log, reqs) {
      if t != a.t && s.threads[t].Keeping? { KnownGrows(s.log, [entry], s.threads[t].entry); }
    }
    assert forall l | l in s'.log :: l in s.log || l == entry;
  }

  lemma FetchTraced(s: State, t: Id, up: bool, reqs: set<SipRequest>)
    requires Traced(s, reqs) && Tidy(reqs) && t in s.threads && (s.threads[t].Qualifying? || s.threads[t].Fetching?)
    ensures Traced(StepNext(s, t, up), reqs)
  {
    var th := s.threads[t];
    GetsOwn(s, reqs, th.req);
    var key := if th.Qualifying? then DialogKey(th.req) else BaseKey(th.req.callID);
    if up && key != "" && key in s.redis {
      assert SameBinding(s.redis[key].entry, Decode(s.redis[key].entry, th.stale));
    }
  }

  lemma NextTraced(s: State, t: Id, up: bool, reqs: set<SipRequest>)
    requires Traced(s, reqs) && Tidy(reqs) && t in s.threads
    ensures Traced(StepNext(s, t, up), reqs)
  {
    match s.threads[t]
    case Storing(_, entry) => PutTraced(s.redis, s.log, entry, s.now);
    case Qualifying(_, _, _) => FetchTraced(s, t, up, reqs);
    case Fetching(_, _, _) => FetchTraced(s, t, up, reqs);
    case Keeping(_, _, _) =>
    case Deleting(_, _) =>
  }

  lemma StepTraced(s: State, a: Action, reqs: set<SipRequest>)
    requires Traced(s, reqs) && Tidy(reqs) && (RequestOf(a).Some? ==> RequestOf(a).value in reqs)
    ensures Traced(Step(s, a), reqs)
  {
    match a
    case Bind(t, _, _, _, _) => if t !in s.threads { BindTraced(s, a, reqs); }
    case Next(t, up) => if t in s.threads { NextTraced(s, t, up, reqs); }
    case _ =>
  }

  lemma {:induction false} ReachableTraced(run: seq<Action>, reqs: set<SipRequest>)
    requires Carries(run, reqs) && Tidy(reqs)
    ensures Traced(After(run), reqs)
  {
    if run != [] {
      var n := |run| - 1;
      assert Carries(run[..n], reqs) by { assert forall i | 0 <= i < n :: run[..n][i] == run[i]; }
      ReachableTraced(run[..n], reqs);
      StepTraced(After(run[..n]), run[n], reqs);
    }
  }

  /** The i-th action binds the destination for the Call-ID. */
  predicate Binds(run: seq<Action>, i: nat, callID: string, destination: string)
    requires i < |run|
  {
    run[i].Bind? && run[i].req.callID == callID && run[i].destination == destination && run[i].t !in At(run, i).threads
  }

  lemma {:induction false} LogSeen(run: seq<Action>, l: Entry) returns (i: nat)
    requires l in After(run).log
    ensures i < |run| && Binds(run, i, l.callID, l.destination)
    ensures l == NewEntry(run[i].req, run[i].destination, run[i].epoch, At(run, i).now)
  {
    var n := |run| - 1;
    var before := After(run[..n]);
    if l in before.log {
      i := LogSeen(run[..n], l);
      assert run[..n][..i] == run[..i];
    } else {
      i := n;
      assert run[n].Bind?;
    }
  }

  lemma AnswerKnown(s: State, a: Action, reqs: set<SipRequest>) returns (l: Entry)
    requires Traced(s, reqs) && Answer(s, a).Some? && Answer(s, a).value.destination != ""
    ensures l in s.log && l.callID == Answer(s, a).value.req.callID && l.destination == Answer(s, a).value.destination
    ensures s.now <= l.expiresAt
  {
    match a
    case Lookup(t, edge, req) =>
      var e := CacheOf(s, edge)[req.callID];
      assert edge in s.caches && Known(s.log, e);
      l :| l in s.log && SameBinding(l, e);
    case Next(t, up) =>
      var e := s.threads[t].entry;
      l :| l in s.log && SameBinding(l, e);
  }

  /** Every non-empty destination a lookup returns was bound for that Call-ID, at most two hours before. */
  lemma AnswersWereBound(run: seq<Action>, reqs: set<SipRequest>, k: nat) returns (i: nat)
    requires Carries(run, reqs) && Tidy(reqs) && k < |run|
    requires Answer(At(run, k), run[k]).Some? && Answer(At(run, k), run[k]).value.destination != ""
    ensures i < k && At(run, k).now <= At(run, i).now + TWO_HOURS
    ensures var answer := Answer(At(run, k), run[k]).value; Binds(run, i, answer.req.callID, answer.destination)
  {
    var before := run[..k];
    assert Carries(before, reqs) by { assert forall j | 0 <= j < k :: before[j] == run[j]; }
    ReachableTraced(before, reqs);
    var l := AnswerKnown(At(run, k), run[k], reqs);
    i := LogSeen(before, l);
    assert before[..i] == run[..i];
  }

  /** The Call-ID is bound at most once (section 8.1.1.4 of RFC 3261). */
  ghost predicate BoundOnce(run: seq<Action>, callID: string) {
    forall i, j | 0 <= i < |run| && 0 <= j < |run| && run[i].Bind? && run[j].Bind?
      :: run[i].req.callID == callID && run[j].req.callID == callID ==> i == j
  }

  /** Then all edges' non-empty answers for it agree, whenever they are given. */
  lemma AnswersAgree(run: seq<Action>, reqs: set<SipRequest>, k: nat, m: nat)
    requires Carries(run, reqs) && Tidy(reqs) && k < |run| && m < |run|
    requires Answer(At(run, k), run[k]).Some? && Answer(At(run, m), run[m]).Some?
    requires var a, b := Answer(At(run, k), run[k]).value, Answer(At(run, m), run[m]).value;
      a.destination != "" && b.destination != "" && a.req.callID == b.req.callID && BoundOnce(run, a.req.callID)
    ensures Answer(At(run, k), run[k]).value.destination == Answer(At(run, m), run[m]).value.destination
  {
    var i := AnswersWereBound(run, reqs, k);
    var j := AnswersWereBound(run, reqs, m);
  }

  // ---- Whose keys a command writes ----

  /** Storing an entry leaves the base keys of the other calls alone. */
  lemma PutElsewhere(redis: map<string, Stored>, entry: Entry, now: int, own: SipRequest, reqs: set<SipRequest>)
    requires Tidy(reqs) && own in reqs && BoundFor(entry) in reqs && entry.callID != own.callID
    ensures var key := BaseKey(own.callID);
      (key in Put(redis, entry, now) <==> key in redis) && (key in redis ==> Put(redis, entry, now)[key] == redis[key])
  {
    if BaseKey(own.callID) == BaseKey(entry.callID) { SamePrefix(own.callID, entry.callID); }
    if entry.callID != "" && BaseKey(own.callID) == DialogKey(BoundFor(entry)) { SamePrefix(own.callID, Suffix(BoundFor(entry))); }
  }

  lemma DeleteElsewhere(redis: map<string, Stored>, callID: string, other: string)
    requires callID != other
    ensures var key := BaseKey(callID);
      (key in Delete(redis, BaseKey(other)) <==> key in redis) && (key in redis ==> Delete(redis, BaseKey(other))[key] == redis[key])
  {
    if BaseKey(callID) == BaseKey(other) { SamePrefix(callID, other); }
  }

  lemma PutsBase(redis: map<string, Stored>, en: Entry, now: int)
    ensures BaseKey(en.callID) in Put(redis, en, now) && Put(redis, en, now)[BaseKey(en.callID)].entry == en
  {
  }

  // ---- What a state can go on to ----

  function Follow(s: State, actions: seq<Action>): State
    decreases |actions|
  {
    if actions == [] then s else Follow(Step(s, actions[0]), actions[1..])
  }

  lemma {:induction false} FollowOn(s: State, first: seq<Action>, rest: seq<Action>)
    ensures Follow(s, first + rest) == Follow(Follow(s, first), rest)
    decreases |first|
  {
    if first == [] {
      assert first + rest == rest;
    } else {
      assert (first + rest)[1..] == first[1..] + rest;
      FollowOn(Step(s, first[0]), first[1..], rest);
    }
  }

  lemma FollowOne(s: State, a: Action)
    ensures Follow(s, [a]) == Step(s, a)
  {
    assert [a][1..] == [];
  }

  lemma FollowTwo(s: State, a: Action, b: Action)
    ensures Follow(s, [a, b]) == Step(Step(s, a), b)
  {
    assert [a] + [b] == [a, b];
    FollowOn(s, [a], [b]);
    FollowOne(s, a);
    FollowOne(Step(s, a), b);
  }

  /** A run goes on as its last state does. */
  lemma {:induction false} AfterMore(run: seq<Action>, more: seq<Action>)
    ensures After(run + more) == Follow(After(run), more)
    decreases |more|
  {
    if more == [] {
      assert run + more == run;
    } else {
      assert (run + [more[0]])[..|run|] == run;
      assert run + [more[0]] + more[1..] == run + more;
      AfterMore(run + [more[0]], more[1..]);
    }
  }

  /** A lookup that has to ask Redis and finds an entry there comes, undisturbed, to its cache write. */
  lemma Reads(s: State, edge: Id, req: SipRequest) returns (more: seq<Action>, t: Id)
    requires Cached(CacheOf(s, edge), req.callID, s.now).None? && Fetched(s.redis, req, s.now, true).Some?
    ensures t !in s.threads && Follow(s, more)
         == Go(s, t, Keeping(edge, req, Decode(Fetched(s.redis, req, s.now, true).value, Stale(CacheOf(s, edge), req.callID))))
    ensures more == [Lookup(t, edge, req), Next(t, true)] || more == [Lookup(t, edge, req), Next(t, true), Next(t, true)]
  {
    t := Unused(s.threads.Keys);
    more := [Lookup(t, edge, req), Next(t, true)];
    FollowTwo(s, Lookup(t, edge, req), Next(t, true));
    var s1 := Step(s, Lookup(t, edge, req));
    var s2 := Step(s1, Next(t, true));
    if s2.threads[t].Fetching? {
      FollowOn(s, more, [Next(t, true)]);
      FollowOne(s2, Next(t, true));
      more := more + [Next(t, true)];
      assert Step(s2, Next(t, true)).threads == s2.threads[t := Step(s2, Next(t, true)).threads[t]];
    }
  }

  lemma Prefix(run: seq<Action>, k: nat, reqs: set<SipRequest>)
    requires k <= |run| && Carries(run, reqs)
    ensures Carries(run[..k], reqs)
    ensures forall i | 0 <= i <= k :: run[..k][..i] == run[..i]
  {
    assert forall i | 0 <= i < k :: run[..k][i] == run[i];
  }
}
