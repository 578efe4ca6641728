/** Command replay of the sidecar, with whole handlers and whole poller passes as steps. */
module SidecarReplay {
  import opened Options
  import opened Sidecar

  /** A request with what the engine would answer it, or a poller pass with what it hears. */
  datatype Op =
    | Originating(o: Origination, engine: Option<string>)
    | Acting(a: Action, engine: Option<string>)
    | Forwarding(m: Media, engine: Option<string>)
    | Polling(remotes: map<string, Remote>)

  function Handle(st: Store, op: Op): (Outcome, Store) {
    match op
    case Originating(o, engine) => Originate(st, o, engine)
    case Acting(a, engine) => Act(st, a, engine)
    case Forwarding(m, engine) => Forward(st, m, engine)
    case Polling(remotes) => (Outcome(0, None, false), Poll(st, remotes))
  }

  const EMPTY := Store(map[], map[], 0)

  function After(run: seq<Op>): Store {
    if run == [] then EMPTY else Handle(After(run[..|run| - 1]), run[|run| - 1]).1
  }

  function At(run: seq<Op>, i: nat): Store
    requires i <= |run|
  {
    After(run[..i])
  }

  /** What the i-th request of the run is answered. */
  function Answer(run: seq<Op>, i: nat): Outcome
    requires i < |run|
  {
    Handle(At(run, i), run[i]).0
  }

  /** The command a well-formed request carries. */
  function CommandOf(op: Op): Option<string> {
    match op
    case Originating(o, _) => if o.callID == "" || o.destination == "" then None else Some(OriginationCommand(o))
    case Acting(a, _) => if a.participantID == "" then None else Some(ActionCommand(a))
    case Forwarding(m, _) => if !m.well then None else Some(MediaCommand(m))
    case Polling(_) => None
  }

  lemma AtNext(run: seq<Op>, i: nat)
    requires i < |run|
    ensures At(run, i + 1) == Handle(At(run, i), run[i]).1
  {
    assert run[..i + 1][..i] == run[..i];
  }

  /** A request that engages the engine is stored under its command, which nobody used before. */
  lemma EngagedIsStored(st: Store, op: Op)
    requires Handle(st, op).0.engaged
    ensures CommandOf(op).Some? && CommandOf(op).value !in st.commands
    ensures CommandOf(op).value in Handle(st, op).1.commands
    ensures Handle(st, op).0.body == Some(Handle(st, op).1.commands[CommandOf(op).value])
  {
  }

  /** Stored replies are kept for good. */
  lemma StoredIsKept(st: Store, op: Op, command: string)
    requires command in st.commands
    ensures command in Handle(st, op).1.commands && Handle(st, op).1.commands[command] == st.commands[command]
  {
  }

  lemma {:induction false} StaysStored(run: seq<Op>, i: nat, j: nat, command: string)
    requires i <= j <= |run| && command in At(run, i).commands
    ensures command in At(run, j).commands && At(run, j).commands[command] == At(run, i).commands[command]
    decreases j - i
  {
    if i < j {
      AtNext(run, i);
      StoredIsKept(At(run, i), run[i], command);
      StaysStored(run, i + 1, j, command);
    }
  }

  /** A request whose command is stored gets the stored reply, engages nobody and changes nothing. */
  lemma StoredIsReplayed(st: Store, op: Op)
    requires CommandOf(op).Some? && CommandOf(op).value in st.commands
    ensures Handle(st, op) == (Outcome(200, Some(st.commands[CommandOf(op).value]), false), st)
  {
  }

  /** Across originations, participant actions and room media actions: once a command has engaged the engine,
      every later request with that command gets the first one's reply, does not reach the engine again and
      leaves the store as it is. */
  lemma CommandReplay(run: seq<Op>, i: nat, j: nat)
    requires i < j < |run| && Answer(run, i).engaged && CommandOf(run[j]) == CommandOf(run[i])
    ensures !Answer(run, j).engaged && Answer(run, j).body == Answer(run, i).body
    ensures At(run, j + 1) == At(run, j)
  {
    EngagedIsStored(At(run, i), run[i]);
    AtNext(run, i);
    StaysStored(run, i + 1, j, CommandOf(run[i]).value);
    StoredIsReplayed(At(run, j), run[j]);
    AtNext(run, j);
  }

  /** A command engages the engine at most once. */
  lemma EngagedOnce(run: seq<Op>, i: nat, j: nat)
    requires i < |run| && j < |run| && Answer(run, i).engaged && Answer(run, j).engaged && CommandOf(run[i]) == CommandOf(run[j])
    ensures i == j
  {
    if i < j { CommandReplay(run, i, j); }
    if j < i { CommandReplay(run, j, i); }
  }

  // ---- Records and their keys ----

  /** Every record is kept under its own call ID, so the poller's pass of every run is `PollOnce`'s. */
  lemma {:induction false} StaysKeyed(run: seq<Op>)
    ensures Keyed(After(run).calls)
  {
    if run != [] {
      StaysKeyed(run[..|run| - 1]);
      HandleKeepsKeyed(After(run[..|run| - 1]), run[|run| - 1]);
    }
  }

  lemma HandleKeepsKeyed(st: Store, op: Op)
    requires Keyed(st.calls)
    ensures Keyed(Handle(st, op).1.calls)
  {
  }

  // ---- Terminal records ----

  predicate Over(st: Store, k: string) { k in st.calls && Terminal(st.calls[k].state) }

  /** Every origination that reaches the engine is of a call without a record. */
  ghost predicate FreshCalls(run: seq<Op>) {
    forall i | 0 <= i < |run| && run[i].Originating? && Answer(run, i).engaged :: run[i].o.callID !in At(run, i).calls
  }

  lemma HandleKeepsOver(st: Store, op: Op, k: string)
    requires Over(st, k) && (op.Originating? && Handle(st, op).0.engaged ==> op.o.callID != k)
    ensures Over(Handle(st, op).1, k)
  {
  }

  /** A record once terminal stays terminal. */
  lemma {:induction false} StaysOver(run: seq<Op>, i: nat, j: nat, k: string)
    requires i <= j <= |run| && Over(At(run, i), k) && FreshCalls(run)
    ensures Over(At(run, j), k)
    decreases j - i
  {
    if i < j {
      AtNext(run, i);
      if run[i].Originating? && Answer(run, i).engaged { assert run[i].o.callID !in At(run, i).calls; }
      HandleKeepsOver(At(run, i), run[i], k);
      StaysOver(run, i + 1, j, k);
    }
  }
}
