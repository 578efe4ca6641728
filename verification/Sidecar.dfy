/** The PBX sidecar's store: the call records, the replies kept for command replay, and the counter of active
    calls that the heartbeat reports. */
module Sidecar {
  import opened Options

  datatype Call = Call(callID: string, bridgeID: string, participantID: string, memberID: string, destination: string,
                       state: string, muted: bool, volume: real)

  /** A reply body: a call record, or what the engine answered. */
  datatype Body = CallBody(call: Call) | ResultBody(result: string)

  predicate Terminal(state: string) { state == "ENDED" || state == "FAILED" || state == "DROPPED" }

  function Live(calls: map<string, Call>): set<string> { set k | k in calls && !Terminal(calls[k].state) }

  // ---- originate ----

  /** The decoded request; `header` is its Idempotency-Key. */
  datatype Origination = Origination(commandID: string, header: string, callID: string, bridgeID: string,
                                     participantID: string, destination: string, muted: bool)

  function CommandFor(given: string, header: string, fallback: string): string {
    if given != "" then given else if header != "" then header else fallback
  }

  function OriginationCommand(o: Origination): string { CommandFor(o.commandID, o.header, o.callID + ":originate") }

  function NewCall(o: Origination, memberID: string): Call {
    Call(o.callID, o.bridgeID, o.participantID, memberID, o.destination, "DISPATCHED", o.muted, 0.0)
  }

  // ---- participant actions ----

  function Of(calls: map<string, Call>, participantID: string): set<string> {
    set k | k in calls && calls[k].participantID == participantID
  }

  function Acted(call: Call, action: string): Call {
    if action == "mute" then call.(muted := true)
    else if action == "unmute" then call.(muted := false)
    else if action == "drop" then call.(state := "DROPPED")
    else call
  }

  /** The loop under the lock: every record of the participant, live or not. */
  function AllActed(calls: map<string, Call>, participantID: string, action: string): map<string, Call> {
    map k | k in calls :: if calls[k].participantID == participantID then Acted(calls[k], action) else calls[k]
  }

  /** How much the loop takes off the counter. */
  function TakenOff(calls: map<string, Call>, participantID: string, action: string): nat {
    if action == "drop" then |Of(calls, participantID)| else 0
  }

  // ---- the poller ----

  /** What the engine says about a call. */
  datatype Remote = Remote(state: string, memberID: string, muted: bool, volume: real)

  /** Nothing usable, or nothing new. */
  predicate Skipped(call: Call, remote: Option<Remote>) {
    remote.None? || remote.value.state == ""
    || (call.state == remote.value.state && call.memberID == remote.value.memberID
        && call.muted == remote.value.muted && call.volume == remote.value.volume)
  }

  function Refreshed(call: Call, remote: Remote): Call {
    call.(state := remote.state, memberID := if remote.memberID != "" then remote.memberID else call.memberID,
          muted := remote.muted, volume := remote.volume)
  }

  function RemoteOf(remotes: map<string, Remote>, k: string): Option<Remote> {
    if k in remotes then Some(remotes[k]) else None
  }

  /** A whole pass of the poller over the live records, with the engine's answers. */
  function AllRefreshed(calls: map<string, Call>, remotes: map<string, Remote>): map<string, Call> {
    map k | k in calls ::
      if k in Live(calls) && !Skipped(calls[k], RemoteOf(remotes, k)) then Refreshed(calls[k], remotes[k]) else calls[k]
  }

  /** The live records that the pass finds ended. */
  function Finished(calls: map<string, Call>, remotes: map<string, Remote>): set<string> {
    set k | k in Live(calls) && !Skipped(calls[k], RemoteOf(remotes, k)) && Terminal(remotes[k].state)
  }

  // ---- The handlers, each run alone ----

  datatype Store = Store(calls: map<string, Call>, commands: map<string, Body>, active: int)

  /** What a handler answers, and whether it made the engine do something. */
  datatype Outcome = Outcome(status: int, body: Option<Body>, engaged: bool)

  /** Every record is kept under its own call ID. */
  predicate Keyed(calls: map<string, Call>) { forall k :: k in calls ==> calls[k].callID == k }

  /** `originate`; `engine` is the member ID the engine answers, None when it fails. */
  function Originate(st: Store, o: Origination, engine: Option<string>): (Outcome, Store) {
    if o.callID == "" || o.destination == "" then (Outcome(400, None, false), st)
    else if OriginationCommand(o) in st.commands then (Outcome(200, Some(st.commands[OriginationCommand(o)]), false), st)
    else if engine.None? then (Outcome(502, None, false), st)
    else
      var call := NewCall(o, engine.value);
      (Outcome(202, Some(CallBody(call)), true),
       Store(st.calls[o.callID := call], st.commands[OriginationCommand(o) := CallBody(call)], st.active + 1))
  }

  datatype Action = Action(name: string, participantID: string, commandID: string, header: string)

  function ActionCommand(a: Action): string { CommandFor(a.commandID, a.header, a.participantID + ":" + a.name) }

  function Act(st: Store, a: Action, engine: Option<string>): (Outcome, Store) {
    if a.participantID == "" then (Outcome(400, None, false), st)
    else if ActionCommand(a) in st.commands then (Outcome(200, Some(st.commands[ActionCommand(a)]), false), st)
    else if engine.None? then (Outcome(502, None, false), st)
    else
      (Outcome(200, Some(ResultBody(engine.value)), true),
       Store(AllActed(st.calls, a.participantID, a.name), st.commands[ActionCommand(a) := ResultBody(engine.value)],
             st.active - TakenOff(st.calls, a.participantID, a.name)))
  }

  /** A room media action; `well` says that the path has a room and an action. */
  datatype Media = Media(well: bool, nodeID: string, roomID: string, name: string, commandID: string, header: string)

  function MediaCommand(m: Media): string {
    CommandFor(m.commandID, m.header, m.nodeID + ":room:" + m.roomID + ":" + m.name)
  }

  function Forward(st: Store, m: Media, engine: Option<string>): (Outcome, Store) {
    if !m.well then (Outcome(400, None, false), st)
    else if MediaCommand(m) in st.commands then (Outcome(200, Some(st.commands[MediaCommand(m)]), false), st)
    else if engine.None? then (Outcome(502, None, false), st)
    else (Outcome(200, Some(ResultBody(engine.value)), true), st.(commands := st.commands[MediaCommand(m) := ResultBody(engine.value)]))
  }

  function Poll(st: Store, remotes: map<string, Remote>): Store {
    st.(calls := AllRefreshed(st.calls, remotes), active := st.active - |Finished(st.calls, remotes)|)
  }

  // ---- Loops over the records: those in `todo` are still as in `before`, the others as in `after` ----

  ghost function Mixed(before: map<string, Call>, after: map<string, Call>, todo: set<string>): map<string, Call>
    requires after.Keys == before.Keys
  {
    map k | k in before :: if k in todo then before[k] else after[k]
  }

  lemma MixOne(before: map<string, Call>, after: map<string, Call>, todo: set<string>, k: string)
    requires after.Keys == before.Keys && k in before && k in todo
    ensures Mixed(before, after, todo - {k}) == Mixed(before, after, todo)[k := after[k]]
    ensures Mixed(before, after, todo)[k] == before[k]
  {
  }

  lemma AllMixed(before: map<string, Call>, after: map<string, Call>)
    requires after.Keys == before.Keys
    ensures Mixed(before, after, {}) == after
  {
  }

  lemma PollBegins(calls: map<string, Call>, remotes: map<string, Remote>)
    ensures Mixed(calls, AllRefreshed(calls, remotes), Live(calls)) == calls
    ensures Finished(calls, remotes) - Live(calls) == {}
  {
  }

  lemma PollEnds(calls: map<string, Call>, remotes: map<string, Remote>)
    ensures Mixed(calls, AllRefreshed(calls, remotes), {}) == AllRefreshed(calls, remotes)
    ensures |Finished(calls, remotes) - {}| == |Finished(calls, remotes)|
  {
    AllMixed(calls, AllRefreshed(calls, remotes));
    assert Finished(calls, remotes) - {} == Finished(calls, remotes);
  }

  lemma Unwritten(calls: map<string, Call>, k: string)
    requires k in calls
    ensures calls[k := calls[k]] == calls
  {
  }

  lemma CountOne(few: set<string>, todo: set<string>, k: string)
    requires k in todo
    ensures |few - (todo - {k})| == |few - todo| + (if k in few then 1 else 0)
  {
    assert few - (todo - {k}) == if k in few then few - todo + {k} else few - todo;
  }

  lemma ActBounds(calls: map<string, Call>, participantID: string, action: string)
    ensures Mixed(calls, AllActed(calls, participantID, action), calls.Keys) == calls
    ensures Mixed(calls, AllActed(calls, participantID, action), {}) == AllActed(calls, participantID, action)
    ensures Of(calls, participantID) - calls.Keys == {} && Of(calls, participantID) - {} == Of(calls, participantID)
  {
    AllMixed(calls, AllActed(calls, participantID, action));
  }

  /** One round of the action's loop. */
  lemma ActStep(calls: map<string, Call>, participantID: string, action: string, todo: set<string>, k: string)
    requires k in todo && todo <= calls.Keys
    ensures var now, later := Mixed(calls, AllActed(calls, participantID, action), todo), Mixed(calls, AllActed(calls, participantID, action), todo - {k});
      k in now && now[k] == calls[k] && later == if calls[k].participantID == participantID then now[k := Acted(calls[k], action)] else now
    ensures |Of(calls, participantID) - (todo - {k})| == |Of(calls, participantID) - todo| + (if calls[k].participantID == participantID then 1 else 0)
  {
    MixOne(calls, AllActed(calls, participantID, action), todo, k);
    Unwritten(Mixed(calls, AllActed(calls, participantID, action), todo), k);
    CountOne(Of(calls, participantID), todo, k);
  }

  /** One question and write-back of the poller. */
  lemma PollStep(calls: map<string, Call>, remotes: map<string, Remote>, todo: set<string>, k: string)
    requires Keyed(calls) && k in todo && todo <= Live(calls)
    ensures var now, later := Mixed(calls, AllRefreshed(calls, remotes), todo), Mixed(calls, AllRefreshed(calls, remotes), todo - {k});
      && calls[k].callID == k && k in now && now[k] == calls[k]
      && later == if Skipped(calls[k], RemoteOf(remotes, k)) then now else now[k := Refreshed(calls[k], remotes[k])]
    ensures |Finished(calls, remotes) - (todo - {k})| == |Finished(calls, remotes) - todo|
         + (if !Skipped(calls[k], RemoteOf(remotes, k)) && Terminal(remotes[k].state) then 1 else 0)
  {
    MixOne(calls, AllRefreshed(calls, remotes), todo, k);
    Unwritten(Mixed(calls, AllRefreshed(calls, remotes), todo), k);
    CountOne(Finished(calls, remotes), todo, k);
  }

  // ---- What the handlers write, record by record ----

  /** The command's own id, or else the Idempotency-Key, or else the handler's default. */
  predicate IsCommand(command: string, given: string, header: string, fallback: string) {
    && (given != "" ==> command == given)
    && (given == "" && header != "" ==> command == header)
    && (given == "" && header == "" ==> command == fallback)
  }

  /** Every record of the participant is muted, unmuted or DROPPED as asked, in that column only, and all other records
      are as before. */
  predicate ActedOn(before: map<string, Call>, after: map<string, Call>, participantID: string, action: string) {
    && after.Keys == before.Keys
    && forall k :: k in before ==>
         if before[k].participantID != participantID then after[k] == before[k]
         else
           && (action == "mute" ==> after[k] == before[k].(muted := true))
           && (action == "unmute" ==> after[k] == before[k].(muted := false))
           && (action == "drop" ==> after[k] == before[k].(state := "DROPPED"))
           && (action !in ["mute", "unmute", "drop"] ==> after[k] == before[k])
  }

  /** The action's loop acts on exactly the participant's records, and counts off each that it drops. */
  lemma AllActedOn(calls: map<string, Call>, participantID: string, action: string)
    ensures ActedOn(calls, AllActed(calls, participantID, action), participantID, action)
    ensures TakenOff(calls, participantID, action) == if action == "drop" then |set k | k in calls && calls[k].participantID == participantID| else 0
  {
  }

  /** The engine's answer says something, and something new. */
  predicate News(call: Call, remote: Option<Remote>) {
    && remote.Some? && remote.value.state != ""
    && (remote.value.state != call.state || remote.value.memberID != call.memberID
        || remote.value.muted != call.muted || remote.value.volume != call.volume)
  }

  /** The record has the engine's state, mute and volume, and its member where it names one. */
  predicate Updated(before: Call, after: Call, remote: Remote) {
    && after.state == remote.state && after.muted == remote.muted && after.volume == remote.volume
    && after.memberID == (if remote.memberID == "" then before.memberID else remote.memberID)
    && after.callID == before.callID && after.bridgeID == before.bridgeID
    && after.participantID == before.participantID && after.destination == before.destination
  }

  /** ENDED, FAILED or DROPPED. */
  predicate Over(state: string) { state in ["ENDED", "FAILED", "DROPPED"] }

  /** The records that were not over and have news. */
  predicate HasNews(calls: map<string, Call>, remotes: map<string, Remote>, k: string) {
    k in calls && !Over(calls[k].state) && News(calls[k], RemoteOf(remotes, k))
  }

  /** Every record that was not over and has news has the engine's values, and all others are as before. */
  predicate Polled(before: map<string, Call>, after: map<string, Call>, remotes: map<string, Remote>) {
    && after.Keys == before.Keys
    && forall k :: k in before ==> if HasNews(before, remotes, k) then Updated(before[k], after[k], remotes[k]) else after[k] == before[k]
  }

  /** The records that the engine says are over, and that were not. */
  function EndedBy(calls: map<string, Call>, remotes: map<string, Remote>): set<string> {
    set k | k in calls && HasNews(calls, remotes, k) && Over(remotes[k].state)
  }

  /** What the write-back writes, and when it does. */
  lemma RefreshedMeans(call: Call, remote: Option<Remote>)
    ensures !Skipped(call, remote) <==> News(call, remote)
    ensures remote.Some? ==> Updated(call, Refreshed(call, remote.value), remote.value)
    ensures Terminal(call.state) <==> Over(call.state)
  {
  }

  /** A pass of the poller brings exactly the records with news up to date, and counts off those that are over now. */
  lemma AllUpdated(calls: map<string, Call>, remotes: map<string, Remote>)
    ensures Polled(calls, AllRefreshed(calls, remotes), remotes) && Finished(calls, remotes) == EndedBy(calls, remotes)
  {
    forall k | k in calls
      ensures k in Live(calls) && !Skipped(calls[k], RemoteOf(remotes, k)) <==> HasNews(calls, remotes, k)
      ensures HasNews(calls, remotes, k) ==> k in remotes && Updated(calls[k], Refreshed(calls[k], remotes[k]), remotes[k])
    {
      RefreshedMeans(calls[k], RemoteOf(remotes, k));
    }
    EndedIs(calls, remotes);
  }

  lemma EndedIs(calls: map<string, Call>, remotes: map<string, Remote>)
    requires forall k | k in calls :: k in Live(calls) && !Skipped(calls[k], RemoteOf(remotes, k)) <==> HasNews(calls, remotes, k)
    ensures Finished(calls, remotes) == EndedBy(calls, remotes)
  {
  }

  /** The sidecar's shared state, with its handlers. */
  class Server {
    var calls: map<string, Call>
    var commands: map<string, Body>
    var active: int

    constructor ()
      ensures Value() == Store(map[], map[], 0)
    {
      calls := map[];
      commands := map[];
      active := 0;
    }

    function Value(): Store
      reads this
    {
      Store(calls, commands, active)
    }

    method HandleOriginate(o: Origination, engine: Option<string>) returns (outcome: Outcome)
      modifies this
      ensures (outcome, Value()) == Originate(old(Value()), o, engine)
      // refused, replayed, failed, or a DISPATCHED record of the request with the engine's member, counted and kept for replay
      ensures o.callID == "" || o.destination == "" ==> outcome == Outcome(400, None, false)
      ensures o.callID != "" && o.destination != "" ==> forall command | IsCommand(command, o.commandID, o.header, o.callID + ":originate") ::
        if command in old(commands) then outcome == Outcome(200, Some(old(commands)[command]), false)
        else if engine.None? then outcome == Outcome(502, None, false)
        else
          var call := Call(o.callID, o.bridgeID, o.participantID, engine.value, o.destination, "DISPATCHED", o.muted, 0.0);
          && outcome == Outcome(202, Some(CallBody(call)), true)
          && calls == old(calls)[o.callID := call] && commands == old(commands)[command := CallBody(call)] && active == old(active) + 1
      // once it has engaged the engine the same request is answered alike and changes nothing; before, nothing has changed
      ensures outcome.engaged ==> forall again :: Originate(Value(), o, again) == (Outcome(200, outcome.body, false), Value())
      ensures !outcome.engaged ==> Value() == old(Value())
    {
      if o.callID == "" || o.destination == "" { return Outcome(400, None, false); }
      var command := CommandFor(o.commandID, o.header, o.callID + ":originate");
      if command in commands { return Outcome(200, Some(commands[command]), false); }
      if engine.None? { return Outcome(502, None, false); }
      var call := NewCall(o, engine.value);
      calls := calls[o.callID := call];
      commands := commands[command := CallBody(call)];
      active := active + 1;
      return Outcome(202, Some(CallBody(call)), true);
    }

    /** The loop of `participantAction` over the records, in any order. */
    method ActOnAll(participantID: string, action: string)
      modifies this`calls, this`active
      ensures calls == AllActed(old(calls), participantID, action)
      ensures active == old(active) - TakenOff(old(calls), participantID, action)
    {
      ghost var before := calls;
      var todo := calls.Keys;
      ActBounds(before, participantID, action);
      while todo != {}
        invariant todo <= before.Keys
        invariant calls == Mixed(before, AllActed(before, participantID, action), todo)
        invariant active == old(active) - (if action == "drop" then |Of(before, participantID) - todo| else 0)
      {
        var k :| k in todo;
        ActStep(before, participantID, action, todo, k);
        var call := calls[k];
        if call.participantID == participantID {
          calls := calls[k := Acted(call, action)];
          if action == "drop" { active := active - 1; }
        }
        todo := todo - {k};
      }
    }

    method HandleAction(a: Action, engine: Option<string>) returns (outcome: Outcome)
      modifies this
      ensures (outcome, Value()) == Act(old(Value()), a, engine)
      // refused, replayed, failed, or done on every record of the participant, each dropped one counted off
      ensures a.participantID == "" ==> outcome == Outcome(400, None, false)
      ensures a.participantID != "" ==> forall command | IsCommand(command, a.commandID, a.header, a.participantID + ":" + a.name) ::
        if command in old(commands) then outcome == Outcome(200, Some(old(commands)[command]), false)
        else if engine.None? then outcome == Outcome(502, None, false)
        else
          && outcome == Outcome(200, Some(ResultBody(engine.value)), true)
          && commands == old(commands)[command := ResultBody(engine.value)] && ActedOn(old(calls), calls, a.participantID, a.name)
          && active == old(active) - (if a.name == "drop" then |set k | k in old(calls) && old(calls)[k].participantID == a.participantID| else 0)
      ensures outcome.engaged ==> forall again :: Act(Value(), a, again) == (Outcome(200, outcome.body, false), Value())
      ensures !outcome.engaged ==> Value() == old(Value())
    {
      if a.participantID == "" { return Outcome(400, None, false); }
      var command := CommandFor(a.commandID, a.header, a.participantID + ":" + a.name);
      if command in commands { return Outcome(200, Some(commands[command]), false); }
      if engine.None? { return Outcome(502, None, false); }
      AllActedOn(calls, a.participantID, a.name);
      ActOnAll(a.participantID, a.name);
      commands := commands[command := ResultBody(engine.value)];
      return Outcome(200, Some(ResultBody(engine.value)), true);
    }

    method HandleMedia(m: Media, engine: Option<string>) returns (outcome: Outcome)
      modifies this
      ensures (outcome, Value()) == Forward(old(Value()), m, engine)
      // refused, replayed, failed, or forwarded and kept for replay; no record is touched
      ensures calls == old(calls) && active == old(active)
      ensures !m.well ==> outcome == Outcome(400, None, false)
      ensures m.well ==> forall command | IsCommand(command, m.commandID, m.header, m.nodeID + ":room:" + m.roomID + ":" + m.name) ::
        if command in old(commands) then outcome == Outcome(200, Some(old(commands)[command]), false)
        else if engine.None? then outcome == Outcome(502, None, false)
        else outcome == Outcome(200, Some(ResultBody(engine.value)), true) && commands == old(commands)[command := ResultBody(engine.value)]
      ensures outcome.engaged ==> forall again :: Forward(Value(), m, again) == (Outcome(200, outcome.body, false), Value())
      ensures !outcome.engaged ==> Value() == old(Value())
    {
      if !m.well { return Outcome(400, None, false); }
      var command := CommandFor(m.commandID, m.header, m.nodeID + ":room:" + m.roomID + ":" + m.name);
      if command in commands { return Outcome(200, Some(commands[command]), false); }
      if engine.None? { return Outcome(502, None, false); }
      commands := commands[command := ResultBody(engine.value)];
      return Outcome(200, Some(ResultBody(engine.value)), true);
    }

    /** The poller's write-back of a record it read before; a record that is gone is written anew and counts nothing. */
    method WriteBack(call: Call, remote: Option<Remote>)
      modifies this`calls, this`active
      ensures Skipped(call, remote) ==> calls == old(calls) && active == old(active)
      ensures !Skipped(call, remote) ==>
        && calls == old(calls)[call.callID := Refreshed(call, remote.value)]
        && active == old(active) - (if call.callID in Live(old(calls)) && Terminal(remote.value.state) then 1 else 0)
    {
      if Skipped(call, remote) { return; }
      var refreshed := Refreshed(call, remote.value);
      var previous := if call.callID in calls then Some(calls[call.callID]) else None;
      calls := calls[call.callID := refreshed];
      if previous.Some? && !Terminal(previous.value.state) && Terminal(refreshed.state) { active := active - 1; }
    }

    /** One tick of `pollStates`: a snapshot of the live records, then one question and write-back each. */
    method PollOnce(remotes: map<string, Remote>)
      requires Keyed(calls)
      modifies this`calls, this`active
      ensures calls == AllRefreshed(old(calls), remotes) && active == old(active) - |Finished(old(calls), remotes)|
    {
      var snapshot := calls;
      var todo := Live(snapshot);
      PollBegins(snapshot, remotes);
      while todo != {}
        invariant todo <= Live(snapshot)
        invariant calls == Mixed(snapshot, AllRefreshed(snapshot, remotes), todo)
        invariant active == old(active) - |Finished(snapshot, remotes) - todo|
      {
        var k :| k in todo;
        PollStep(snapshot, remotes, todo, k);
        WriteBack(snapshot[k], RemoteOf(remotes, k));
        todo := todo - {k};
      }
      PollEnds(snapshot, remotes);
    }
  }
}
