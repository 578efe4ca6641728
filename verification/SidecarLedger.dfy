/** The sidecar at lock granularity: a step is one critical section, one atomic add, or the engine's answer,
    of any handler or of the poller, in any order. The ledger says exactly by how much the counter of active
    calls is off. */
module SidecarLedger {
  import opened Counting
  import opened Options
  import opened Sidecar

  type Id = nat

  /** An operation in flight by what it does next. */
  datatype Thread =
    | Originating(o: Origination)            // the engine's answer, then the record under the lock
    | Adding                                 // originate: active + 1
    | Acting(a: Action)                      // the engine's answer, then the loop under the lock
    | Relaying(m: Media)                     // the engine's answer, then the reply under the lock
    | Polling(todo: map<string, Call>)       // the poller with the rest of its snapshot
    | Subtracting(todo: map<string, Call>)   // the poller: active - 1

  /** The last three fields are the ledger: drops of records already terminal, poller writes that revived a
      terminal record, and originations over a live record. */
  datatype State = State(calls: map<string, Call>, commands: map<string, Body>, active: int, threads: map<Id, Thread>,
                         deadDrops: nat, revivals: nat, overwrites: nat)

  datatype Event =
    | StartOriginate(t: Id, o: Origination)
    | StartAct(t: Id, a: Action)
    | StartMedia(t: Id, m: Media)
    | StartPoll(t: Id)
    | Next(t: Id, engine: Option<string>)
    | Refresh(t: Id, k: string, remote: Option<Remote>)

  const INITIAL := State(map[], map[], 0, map[], 0, 0, 0)

  function Go(s: State, t: Id, th: Thread): State { s.(threads := s.threads[t := th]) }

  function End(s: State, t: Id): State { s.(threads := s.threads - {t}) }

  function One(b: bool): nat { if b then 1 else 0 }

  function LiveAt(calls: map<string, Call>, k: string): bool { k in calls && !Terminal(calls[k].state) }

  function DeadOf(calls: map<string, Call>, participantID: string): set<string> {
    set k | k in Of(calls, participantID) && Terminal(calls[k].state)
  }

  /** The critical section of `originate`. */
  function Record(s: State, o: Origination, memberID: string): State {
    var call := NewCall(o, memberID);
    s.(calls := s.calls[o.callID := call], commands := s.commands[OriginationCommand(o) := CallBody(call)],
       overwrites := s.overwrites + One(LiveAt(s.calls, o.callID)))
  }

  /** The critical section of a participant action. */
  function Apply(s: State, a: Action, result: string): State {
    s.(calls := AllActed(s.calls, a.participantID, a.name),
       commands := s.commands[ActionCommand(a) := ResultBody(result)],
       active := s.active - TakenOff(s.calls, a.participantID, a.name),
       deadDrops := s.deadDrops + (if a.name == "drop" then |DeadOf(s.calls, a.participantID)| else 0))
  }

  /** The critical section of the poller: it writes the record of its snapshot, refreshed, over what is there. */
  function Write(s: State, call: Call): State {
    s.(calls := s.calls[call.callID := call],
       revivals := s.revivals + One(!LiveAt(s.calls, call.callID) && !Terminal(call.state)))
  }

  function StepNext(s: State, t: Id, engine: Option<string>): State
    requires t in s.threads
  {
    match s.threads[t]
    case Originating(o) => if engine.None? then End(s, t) else Go(Record(s, o, engine.value), t, Adding)
    case Adding => End(s.(active := s.active + 1), t)
    case Acting(a) => if engine.None? then End(s, t) else End(Apply(s, a, engine.value), t)
    case Relaying(m) =>
      if engine.None? then End(s, t) else End(s.(commands := s.commands[MediaCommand(m) := ResultBody(engine.value)]), t)
    case Polling(todo) => if todo == map[] then End(s, t) else s
    case Subtracting(todo) => Go(s.(active := s.active - 1), t, Polling(todo))
  }

  /** The poller asks about record k of its snapshot and writes the answer back. */
  function StepRefresh(s: State, t: Id, k: string, remote: Option<Remote>): State {
    if t !in s.threads || !s.threads[t].Polling? || k !in s.threads[t].todo then s
    else
      var todo, call := s.threads[t].todo, s.threads[t].todo[k];
      if Skipped(call, remote) then Go(s, t, Polling(todo - {k}))
      else
        var refreshed := Refreshed(call, remote.value);
        var ended := LiveAt(s.calls, call.callID) && Terminal(refreshed.state);
        Go(Write(s, refreshed), t, if ended then Subtracting(todo - {k}) else Polling(todo - {k}))
  }

  function Step(s: State, e: Event): State {
    match e
    case StartOriginate(t, o) =>
      if t in s.threads || o.callID == "" || o.destination == "" || OriginationCommand(o) in s.commands then s else Go(s, t, Originating(o))
    case StartAct(t, a) =>
      if t in s.threads || a.participantID == "" || ActionCommand(a) in s.commands then s else Go(s, t, Acting(a))
    case StartMedia(t, m) =>
      if t in s.threads || !m.well || MediaCommand(m) in s.commands then s else Go(s, t, Relaying(m))
    case StartPoll(t) =>
      if t in s.threads then s else Go(s, t, Polling(map k | k in Live(s.calls) :: s.calls[k]))
    case Next(t, engine) => if t in s.threads then StepNext(s, t, engine) else s
    case Refresh(t, k, remote) => StepRefresh(s, t, k, remote)
  }

  function After(run: seq<Event>): State {
    if run == [] then INITIAL else Step(After(run[..|run| - 1]), run[|run| - 1])
  }

  // ---- A handler that nothing interrupts is the server's ----

  function StoreOf(s: State): Store { Store(s.calls, s.commands, s.active) }

  lemma OriginateInOneGo(s: State, t: Id, o: Origination, engine: Option<string>)
    requires t !in s.threads
    ensures var s' := Step(Step(Step(s, StartOriginate(t, o)), Next(t, engine)), Next(t, engine));
      StoreOf(s') == Originate(StoreOf(s), o, engine).1 && s'.threads == s.threads
  {
    var s1 := Step(s, StartOriginate(t, o));
    if t in s1.threads {
      assert s1.threads - {t} == s.threads;
      if engine.Some? { assert s1.threads[t := Adding] - {t} == s.threads; }
    }
  }

  lemma ActInOneGo(s: State, t: Id, a: Action, engine: Option<string>)
    requires t !in s.threads
    ensures var s' := Step(Step(s, StartAct(t, a)), Next(t, engine));
      StoreOf(s') == Act(StoreOf(s), a, engine).1 && s'.threads == s.threads
  {
    assert s.threads[t := Acting(a)] - {t} == s.threads;
  }

  lemma MediaInOneGo(s: State, t: Id, m: Media, engine: Option<string>)
    requires t !in s.threads
    ensures var s' := Step(Step(s, StartMedia(t, m)), Next(t, engine));
      StoreOf(s') == Forward(StoreOf(s), m, engine).1 && s'.threads == s.threads
  {
    assert s.threads[t := Relaying(m)] - {t} == s.threads;
  }

  /** The poller's write-back of a record of its snapshot is the server's, and a live record it finds over is still to
      be counted off. */
  lemma RefreshInOneGo(s: State, t: Id, k: string, remote: Option<Remote>)
    requires t in s.threads && s.threads[t].Polling? && k in s.threads[t].todo
    ensures var s', call := Step(s, Refresh(t, k, remote)), s.threads[t].todo[k];
      && s'.active == s.active && t in s'.threads && s'.threads == s.threads[t := s'.threads[t]]
      && (if !News(call, remote) then s'.calls == s.calls && s'.threads[t] == Polling(s.threads[t].todo - {k})
          else
            && call.callID in s'.calls && Updated(call, s'.calls[call.callID], remote.value)
            && s'.calls == s.calls[call.callID := s'.calls[call.callID]]
            && s'.threads[t] == if call.callID in s.calls && !Over(s.calls[call.callID].state) && Over(remote.value.state)
                                then Subtracting(s.threads[t].todo - {k}) else Polling(s.threads[t].todo - {k}))
  {
    RefreshedMeans(s.threads[t].todo[k], remote);
  }

  // ---- The ledger ----

  function Increments(s: State): set<Id> { set t | t in s.threads && s.threads[t].Adding? }

  function Decrements(s: State): set<Id> { set t | t in s.threads && s.threads[t].Subtracting? }

  /** The counter, up to what is still to be added and taken off, and the three kinds of events it miscounts. */
  ghost predicate Balanced(s: State) {
    s.active == |Live(s.calls)| - |Increments(s)| + |Decrements(s)| - s.deadDrops - s.revivals + s.overwrites
  }

  /** Snapshots and records are kept under their own call IDs. */
  ghost predicate Tidy(s: State) {
    Keyed(s.calls) && forall t | t in s.threads :: (s.threads[t].Polling? || s.threads[t].Subtracting?) ==> Keyed(s.threads[t].todo)
  }

  /** Moving one thread changes the pending counts by what it was and what it becomes. */
  lemma Moved(s: State, t: Id, th: Thread)
    ensures |Increments(Go(s, t, th))| == |Increments(s)| - One(t in Increments(s)) + One(th.Adding?)
    ensures |Decrements(Go(s, t, th))| == |Decrements(s)| - One(t in Decrements(s)) + One(th.Subtracting?)
  {
    MovedSets(s, t, th);
    Replaced(Increments(s), t, th.Adding?);
    Replaced(Decrements(s), t, th.Subtracting?);
  }

  function Replace(ids: set<Id>, t: Id, there: bool): set<Id> { if there then ids - {t} + {t} else ids - {t} }

  lemma Replaced(ids: set<Id>, t: Id, there: bool)
    ensures |Replace(ids, t, there)| == |ids| - One(t in ids) + One(there)
  {
    Less(ids, t);
    More(ids - {t}, t);
  }

  lemma MovedSets(s: State, t: Id, th: Thread)
    ensures Increments(Go(s, t, th)) == Replace(Increments(s), t, th.Adding?)
    ensures Decrements(Go(s, t, th)) == Replace(Decrements(s), t, th.Subtracting?)
  {
  }

  lemma Ended(s: State, t: Id)
    ensures |Increments(End(s, t))| == |Increments(s)| - One(t in Increments(s))
    ensures |Decrements(End(s, t))| == |Decrements(s)| - One(t in Decrements(s))
  {
    Less(Increments(s), t);
    Less(Decrements(s), t);
    assert Increments(End(s, t)) == Increments(s) - {t} && Decrements(End(s, t)) == Decrements(s) - {t};
  }

  lemma LiveAfter(calls: map<string, Call>, k: string, call: Call)
    ensures Live(calls[k := call]) == if Terminal(call.state) then Live(calls) - {k} else Live(calls) - {k} + {k}
  {
  }

  /** Writing one record moves the live count by its liveness before and after. */
  lemma LiveWritten(calls: map<string, Call>, k: string, call: Call)
    ensures |Live(calls[k := call])| == |Live(calls)| - One(LiveAt(calls, k)) + One(!Terminal(call.state))
  {
    LiveAfter(calls, k, call);
    Less(Live(calls), k);
    More(Live(calls) - {k}, k);
  }

  /** A drop takes exactly the participant's live records out of the live ones. */
  lemma LiveDropped(calls: map<string, Call>, participantID: string)
    ensures |Live(AllActed(calls, participantID, "drop"))|
         == |Live(calls)| - (|Of(calls, participantID)| - |DeadOf(calls, participantID)|)
  {
    var of, dead := Of(calls, participantID), DeadOf(calls, participantID);
    assert Live(AllActed(calls, participantID, "drop")) == Live(calls) - (of - dead);
    assert of - dead <= Live(calls) && dead <= of;
    Removed(Live(calls), of - dead);
    Removed(of, dead);
  }

  lemma LiveKept(calls: map<string, Call>, participantID: string, action: string)
    requires action != "drop"
    ensures Live(AllActed(calls, participantID, action)) == Live(calls)
  {
  }

  // ---- Each critical section balances ----

  lemma NextBalanced(s: State, t: Id, engine: Option<string>)
    requires t in s.threads && Balanced(s)
    ensures Balanced(StepNext(s, t, engine))
  {
    Ended(s, t);
    match s.threads[t]
    case Originating(o) =>
      if engine.Some? {
        LiveWritten(s.calls, o.callID, NewCall(o, engine.value));
        Moved(s, t, Adding);
        var s1 := Record(s, o, engine.value);
        assert Increments(Go(s1, t, Adding)) == Increments(Go(s, t, Adding));
        assert Decrements(Go(s1, t, Adding)) == Decrements(Go(s, t, Adding));
      }
    case Adding =>
      assert Increments(StepNext(s, t, engine)) == Increments(End(s, t)) && Decrements(StepNext(s, t, engine)) == Decrements(End(s, t));
    case Acting(a) => if engine.Some? { ActBalanced(s, t, a, engine.value); }
    case Relaying(_) =>
      assert Increments(StepNext(s, t, engine)) == Increments(End(s, t)) && Decrements(StepNext(s, t, engine)) == Decrements(End(s, t));
    case Polling(_) =>
    case Subtracting(todo) =>
      Moved(s, t, Polling(todo));
      assert Increments(StepNext(s, t, engine)) == Increments(Go(s, t, Polling(todo)));
      assert Decrements(StepNext(s, t, engine)) == Decrements(Go(s, t, Polling(todo)));
  }

  lemma ActBalanced(s: State, t: Id, a: Action, result: string)
    requires t in s.threads && s.threads[t].Acting? && Balanced(s)
    ensures Balanced(End(Apply(s, a, result), t))
  {
    var s' := End(Apply(s, a, result), t);
    Ended(s, t);
    assert Increments(s') == Increments(End(s, t)) && Decrements(s') == Decrements(End(s, t));
    if a.name == "drop" { LiveDropped(s.calls, a.participantID); } else { LiveKept(s.calls, a.participantID, a.name); }
  }

  lemma RefreshBalanced(s: State, t: Id, k: string, remote: Option<Remote>)
    requires Balanced(s)
    ensures Balanced(StepRefresh(s, t, k, remote))
  {
    if t in s.threads && s.threads[t].Polling? && k in s.threads[t].todo {
      var todo, call := s.threads[t].todo, s.threads[t].todo[k];
      if Skipped(call, remote) {
        Moved(s, t, Polling(todo - {k}));
      } else {
        var refreshed := Refreshed(call, remote.value);
        var th := if LiveAt(s.calls, call.callID) && Terminal(refreshed.state) then Subtracting(todo - {k}) else Polling(todo - {k});
        LiveWritten(s.calls, call.callID, refreshed);
        Moved(s, t, th);
        var s' := Go(Write(s, refreshed), t, th);
        assert Increments(s') == Increments(Go(s, t, th)) && Decrements(s') == Decrements(Go(s, t, th));
      }
    }
  }

  lemma StartBalanced(s: State, t: Id, th: Thread)
    requires Balanced(s) && t !in s.threads && !th.Adding? && !th.Subtracting?
    ensures Balanced(Go(s, t, th))
  {
    Moved(s, t, th);
  }

  lemma StepBalanced(s: State, e: Event)
    requires Balanced(s)
    ensures Balanced(Step(s, e))
  {
    match e
    case StartOriginate(t, o) => if t !in s.threads { StartBalanced(s, t, Originating(o)); }
    case StartAct(t, a) => if t !in s.threads { StartBalanced(s, t, Acting(a)); }
    case StartMedia(t, m) => if t !in s.threads { StartBalanced(s, t, Relaying(m)); }
    case StartPoll(t) => if t !in s.threads { StartBalanced(s, t, Polling(map k | k in Live(s.calls) :: s.calls[k])); }
    case Next(t, engine) => if t in s.threads { NextBalanced(s, t, engine); }
    case Refresh(t, k, remote) => RefreshBalanced(s, t, k, remote);
  }

  /** In every reachable state the counter is the live count, up to pending adds and the three miscounts. */
  lemma {:induction false} Accounting(run: seq<Event>)
    ensures Balanced(After(run))
  {
    if run == [] {
      assert Live(INITIAL.calls) == {} && Increments(INITIAL) == {} && Decrements(INITIAL) == {};
    } else {
      Accounting(run[..|run| - 1]);
      StepBalanced(After(run[..|run| - 1]), run[|run| - 1]);
    }
  }

  // ---- Each call ID originated once ----

  /** No two requests of the run originate the same call. */
  ghost predicate OriginatedOnce(run: seq<Event>) {
    forall i, j | 0 <= i < j < |run| && run[i].StartOriginate? && run[j].StartOriginate? :: run[i].o.callID != run[j].o.callID
  }

  /** Every record was originated by a request of the run, and so was everything still on its way to a record;
      no two operations are on the way to one, and none is where there is a record. */
  ghost predicate Traced(s: State, ids: set<string>) {
    && Tidy(s)
    && (forall k | k in s.calls :: k in ids)
    && (forall t | t in s.threads && s.threads[t].Originating? :: s.threads[t].o.callID in ids && s.threads[t].o.callID !in s.calls)
    && (forall t, u | t in s.threads && u in s.threads && s.threads[t].Originating? && s.threads[u].Originating?
          :: s.threads[t].o.callID == s.threads[u].o.callID ==> t == u)
    && (forall t | t in s.threads && (s.threads[t].Polling? || s.threads[t].Subtracting?) :: s.threads[t].todo.Keys <= s.calls.Keys)
  }

  function Originated(run: seq<Event>): set<string> {
    set i | 0 <= i < |run| && run[i].StartOriginate? :: run[i].o.callID
  }

  lemma NextTraced(s: State, t: Id, engine: Option<string>, ids: set<string>)
    requires Traced(s, ids) && t in s.threads
    ensures Traced(StepNext(s, t, engine), ids)
    ensures StepNext(s, t, engine).overwrites == s.overwrites
  {
    match s.threads[t]
    case Originating(o) => RecordTraced(s, t, engine, ids);
    case Acting(a) => ActTraced(s, t, engine, ids);
    case _ =>
  }

  lemma RecordTraced(s: State, t: Id, engine: Option<string>, ids: set<string>)
    requires Traced(s, ids) && t in s.threads && s.threads[t].Originating?
    ensures Traced(StepNext(s, t, engine), ids)
    ensures StepNext(s, t, engine).overwrites == s.overwrites
  {
  }

  lemma ActTraced(s: State, t: Id, engine: Option<string>, ids: set<string>)
    requires Traced(s, ids) && t in s.threads && s.threads[t].Acting?
    ensures Traced(StepNext(s, t, engine), ids)
    ensures StepNext(s, t, engine).overwrites == s.overwrites
  {
  }

  lemma RefreshTraced(s: State, t: Id, k: string, remote: Option<Remote>, ids: set<string>)
    requires Traced(s, ids)
    ensures Traced(StepRefresh(s, t, k, remote), ids)
    ensures StepRefresh(s, t, k, remote).overwrites == s.overwrites
  {
  }

  lemma StartTraced(s: State, t: Id, o: Origination, ids: set<string>)
    requires Traced(s, ids) && o.callID !in ids
    ensures Traced(Step(s, StartOriginate(t, o)), ids + {o.callID})
  {
  }

  lemma PollTraced(s: State, t: Id, ids: set<string>)
    requires Traced(s, ids)
    ensures Traced(Step(s, StartPoll(t)), ids)
  {
  }

  lemma StepTraced(s: State, e: Event, ids: set<string>)
    requires Traced(s, ids) && (e.StartOriginate? ==> e.o.callID !in ids)
    ensures Traced(Step(s, e), ids + (if e.StartOriginate? then {e.o.callID} else {}))
    ensures Step(s, e).overwrites == s.overwrites
  {
    match e
    case StartOriginate(t, o) => StartTraced(s, t, o, ids);
    case StartPoll(t) => PollTraced(s, t, ids);
    case Next(t, engine) => if t in s.threads { NextTraced(s, t, engine, ids); }
    case Refresh(t, k, remote) => RefreshTraced(s, t, k, remote, ids);
    case _ =>
  }

  lemma {:induction false} NoOverwrites(run: seq<Event>)
    requires OriginatedOnce(run)
    ensures Traced(After(run), Originated(run)) && After(run).overwrites == 0
  {
    if run != [] {
      var n := |run| - 1;
      assert forall i | 0 <= i < n :: run[..n][i] == run[i];
      NoOverwrites(run[..n]);
      OneMore(run);
      StepTraced(After(run[..n]), run[n], Originated(run[..n]));
    }
  }

  lemma OneMore(run: seq<Event>)
    requires run != []
    ensures var n := |run| - 1;
      Originated(run) == Originated(run[..n]) + (if run[n].StartOriginate? then {run[n].o.callID} else {})
  {
    var n := |run| - 1;
    forall k | k in Originated(run) ensures k in Originated(run[..n]) || (run[n].StartOriginate? && k == run[n].o.callID) {
      var i :| 0 <= i < |run| && run[i].StartOriginate? && run[i].o.callID == k;
      if i < n { assert run[..n][i] == run[i]; }
    }
    forall k | k in Originated(run[..n]) ensures k in Originated(run) {
      var i :| 0 <= i < n && run[..n][i].StartOriginate? && run[..n][i].o.callID == k;
      assert run[i] == run[..n][i];
    }
  }

  /** With each call ID originated once, the counter is the live calls less the pending increments, plus the
      pending decrements, less the drops of records already terminal, less the poller's revivals. */
  lemma CallAccounting(run: seq<Event>)
    requires OriginatedOnce(run)
    ensures var s := After(run);
      s.active == |Live(s.calls)| - |Increments(s)| + |Decrements(s)| - s.deadDrops - s.revivals
  {
    Accounting(run);
    NoOverwrites(run);
  }

  /** With nothing pending it never exceeds the live count, and equals it exactly when no drop hit a terminal
      record and no poller write revived one. */
  lemma SettledAccounting(run: seq<Event>)
    requires OriginatedOnce(run) && Increments(After(run)) == {} && Decrements(After(run)) == {}
    ensures var s := After(run);
      s.active <= |Live(s.calls)| && (s.active == |Live(s.calls)| <==> s.deadDrops == 0 && s.revivals == 0)
  {
    CallAccounting(run);
  }

  // ---- A counter below zero ----

  ghost predicate Leads(run: seq<Event>, s: State) { After(run) == s }

  lemma Extend(run: seq<Event>, s: State, e: Event) returns (longer: seq<Event>)
    requires Leads(run, s)
    ensures longer == run + [e] && Leads(longer, Step(s, e))
  {
    longer := run + [e];
    assert longer[..|run|] == run;
  }

  const CALL := Origination("", "", "c", "b", "p", "d", false)

  function Dropping(command: string): Action { Action("drop", "p", command, "") }

  lemma OneDrop(run: seq<Event>, s: State, command: string) returns (longer: seq<Event>)
    requires Leads(run, s) && s.threads == map[] && command != "" && command !in s.commands
    ensures longer == run + [StartAct(0, Dropping(command)), Next(0, Some("ok"))]
    ensures Leads(longer, Apply(s, Dropping(command), "ok"))
  {
    longer := Extend(run, s, StartAct(0, Dropping(command)));
    var s1 := Go(s, 0, Acting(Dropping(command)));
    longer := Extend(longer, s1, Next(0, Some("ok")));
    assert End(Apply(s1, Dropping(command), "ok"), 0) == Apply(s, Dropping(command), "ok");
  }

  const RECORD := NewCall(CALL, "m")
  const COMMAND := OriginationCommand(CALL)
  const ORIGINATED := State(map["c" := RECORD], map[COMMAND := CallBody(RECORD)], 1, map[], 0, 0, 0)
  const ENGAGING := State(map[], map[], 0, map[0 := Originating(CALL)], 0, 0, 0)
  const RECORDED := State(map["c" := RECORD], map[COMMAND := CallBody(RECORD)], 0, map[0 := Adding], 0, 0, 0)

  lemma Engages()
    ensures Step(INITIAL, StartOriginate(0, CALL)) == ENGAGING
  {
  }

  lemma RecordsCall()
    ensures Step(ENGAGING, Next(0, Some("m"))) == RECORDED
  {
  }

  lemma CountsCall()
    ensures Step(RECORDED, Next(0, Some("m"))) == ORIGINATED
  {
    assert RECORDED.threads - {0} == map[];
  }

  lemma OneCall() returns (run: seq<Event>)
    ensures run == [StartOriginate(0, CALL), Next(0, Some("m")), Next(0, Some("m"))] && Leads(run, ORIGINATED)
  {
    Engages();
    RecordsCall();
    CountsCall();
    assert Leads([], INITIAL);
    run := Extend([], INITIAL, StartOriginate(0, CALL));
    run := Extend(run, ENGAGING, Next(0, Some("m")));
    run := Extend(run, RECORDED, Next(0, Some("m")));
  }

  lemma DroppedTwice()
    ensures var s := Apply(Apply(ORIGINATED, Dropping("x"), "ok"), Dropping("y"), "ok");
      s.active == -1 && Live(s.calls) == {} && s.threads == map[]
  {
    var s4 := Apply(ORIGINATED, Dropping("x"), "ok");
    assert Of(ORIGINATED.calls, "p") == {"c"} && Of(s4.calls, "p") == {"c"};
  }

  /** One call, dropped twice under two commands: no live call, nothing pending, and the counter at -1. */
  lemma CounterBelowZero() returns (run: seq<Event>)
    ensures OriginatedOnce(run) && After(run).threads == map[] && Live(After(run).calls) == {} && After(run).active == -1
  {
    run := OneCall();
    assert |COMMAND| > 1;
    run := OneDrop(run, ORIGINATED, "x");
    run := OneDrop(run, Apply(ORIGINATED, Dropping("x"), "ok"), "y");
    DroppedTwice();
  }
}
