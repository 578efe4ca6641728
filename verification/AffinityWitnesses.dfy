/** Runs in which the conditions of BoundIsFound and UnboundIsGone fail: a second bind of a call leaves the other
    edges' caches stale, and a lookup in flight undoes an unbind. */
module AffinityWitnesses {
  import opened Options
  import opened Affinity
  import opened AffinityRuns

  const INVITE := SipRequest("c", "a", "")
  const REINVITE := SipRequest("c", "a", "b")
  const FIRST := Entry("c", "n1", "a", "", 0, TWO_HOURS)
  const SECOND := Entry("c", "n2", "a", "", 0, TWO_HOURS)
  const KEY := BaseKey("c")

  ghost predicate Leads(run: seq<Action>, s: State) { After(run) == s }

  lemma Extend(run: seq<Action>, s: State, a: Action, s': State) returns (longer: seq<Action>)
    requires Leads(run, s) && Step(s, a) == s'
    ensures longer == run + [a] && Leads(longer, s')
  {
    longer := run + [a];
    assert longer[..|run|] == run;
  }

  lemma Keys()
    ensures DialogKey(INVITE) != KEY && DialogKey(REINVITE) != KEY && DialogKey(REINVITE) != DialogKey(INVITE)
    ensures DialogKey(INVITE) != "" && DialogKey(REINVITE) != ""
  {
    assert |DialogKey(INVITE)| == |PREFIX| + 4 && |DialogKey(REINVITE)| == |PREFIX| + 5 && |KEY| == |PREFIX| + 1;
  }

  function Redis(entry: Entry): map<string, Stored> {
    map[KEY := Stored(entry, TWO_HOURS), DialogKey(INVITE) := Stored(entry, TWO_HOURS)]
  }

  /** Edge 0 binds the INVITE to n1, and a lookup of the re-INVITE on edge 1 has read the entry. */
  function Looking(): State {
    State(0, map[0 := map["c" := FIRST]], Redis(FIRST), map[2 := Keeping(1, REINVITE, FIRST)], [FIRST])
  }

  lemma Binds() returns (run: seq<Action>)
    ensures Leads(run, State(0, map[0 := map["c" := FIRST]], Redis(FIRST), map[], [FIRST]))
  {
    var s1 := State(0, map[0 := map["c" := FIRST]], map[], map[1 := Storing(0, FIRST)], [FIRST]);
    assert Step(INITIAL, Bind(1, 0, INVITE, "n1", 0)) == s1;
    run := Extend([], INITIAL, Bind(1, 0, INVITE, "n1", 0), s1);
    Keys();
    assert Put(map[], FIRST, 0) == Redis(FIRST);
    var s2 := State(0, s1.caches, Redis(FIRST), map[], [FIRST]);
    assert StepNext(s1, 1, true) == s2;
    run := Extend(run, s1, Next(1, true), s2);
  }

  lemma Looks() returns (run: seq<Action>)
    ensures Leads(run, Looking())
  {
    run := Binds();
    Keys();
    var s := State(0, map[0 := map["c" := FIRST]], Redis(FIRST), map[], [FIRST]);
    var s1 := s.(threads := map[2 := Qualifying(1, REINVITE, NO_ENTRY)]);
    run := Extend(run, s, Lookup(2, 1, REINVITE), s1);
    var s2 := s.(threads := map[2 := Fetching(1, REINVITE, NO_ENTRY)]);
    assert StepNext(s1, 2, true) == s2;
    run := Extend(run, s1, Next(2, true), s2);
    assert StepNext(s2, 2, true) == Looking();
    run := Extend(run, s2, Next(2, true), Looking());
  }

  /** The entry the lookup has read, cached on edge 1. */
  lemma Keeps(run: seq<Action>, s: State) returns (longer: seq<Action>)
    requires Leads(run, s) && 2 in s.threads && s.threads[2] == Keeping(1, REINVITE, FIRST) && 1 !in s.caches && s.now == 0
    ensures Leads(longer, s.(caches := s.caches[1 := map["c" := FIRST]], threads := s.threads - {2}))
  {
    longer := Extend(run, s, Next(2, true), s.(caches := s.caches[1 := map["c" := FIRST]], threads := s.threads - {2}));
  }

  /** The call is bound a second time, to n2; edge 1 goes on answering n1. */
  lemma RebindLeavesStale() returns (run: seq<Action>)
    ensures Answer(After(run), Lookup(4, 1, REINVITE)) == Some(Answered(1, REINVITE, "n1"))
    ensures Get(After(run).redis, KEY, After(run).now) == Some(SECOND) && After(run).threads == map[]
  {
    run := Looks();
    run := Keeps(run, Looking());
    var caches := map[0 := map["c" := FIRST], 1 := map["c" := FIRST]];
    var s := State(0, caches, Redis(FIRST), map[], [FIRST]);
    assert Leads(run, s);
    run := Rebinds(run, s);
  }

  lemma Rebinds(run: seq<Action>, s: State) returns (longer: seq<Action>)
    requires Leads(run, s) && s == State(0, map[0 := map["c" := FIRST], 1 := map["c" := FIRST]], Redis(FIRST), map[], [FIRST])
    ensures Answer(After(longer), Lookup(4, 1, REINVITE)) == Some(Answered(1, REINVITE, "n1"))
    ensures Get(After(longer).redis, KEY, After(longer).now) == Some(SECOND) && After(longer).threads == map[]
  {
    var caches := map[0 := map["c" := SECOND], 1 := map["c" := FIRST]];
    var s1 := State(0, caches, Redis(FIRST), map[3 := Storing(0, SECOND)], [FIRST, SECOND]);
    assert CacheOf(s, 0)["c" := SECOND] == map["c" := SECOND] && s.caches[0 := map["c" := SECOND]] == caches;
    assert Step(s, Bind(3, 0, INVITE, "n2", 0)) == s1;
    longer := Extend(run, s, Bind(3, 0, INVITE, "n2", 0), s1);
    Keys();
    assert Put(Redis(FIRST), SECOND, 0) == Redis(SECOND);
    var s2 := State(0, caches, Redis(SECOND), map[], [FIRST, SECOND]);
    assert StepNext(s1, 3, true) == s2;
    longer := Extend(longer, s1, Next(3, true), s2);
  }

  /** Edge 1 unbinds the call between the lookup's read and its cache write; it goes on answering n1. */
  lemma LookupUndoesUnbind() returns (run: seq<Action>)
    ensures Answer(After(run), Lookup(4, 1, REINVITE)) == Some(Answered(1, REINVITE, "n1"))
    ensures KEY !in After(run).redis && After(run).threads == map[]
  {
    run := Looks();
    var s := Looking();
    var s1 := s.(caches := s.caches[1 := map[]], threads := s.threads[3 := Deleting(1, "c")]);
    run := Extend(run, s, Unbind(3, 1, "c"), s1);
    var s2 := s1.(redis := s.redis - {KEY}, threads := s.threads);
    assert s1.threads - {3} == s.threads;
    assert StepNext(s1, 3, true) == s2;
    run := Extend(run, s1, Next(3, true), s2);
    var s3 := s2.(caches := s2.caches[1 := map["c" := FIRST]], threads := map[]);
    assert StepNext(s2, 2, true) == s3;
    run := Extend(run, s2, Next(2, true), s3);
  }
}
