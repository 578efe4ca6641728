/** The whole control API over one set of tables: the speaker queue, one SQL statement a step (keypad digits, grant
    and withdraw, and the mute, unmute and drop actions), interleaved with the statements of the room protocol and
    with whole roster handlers. */
module SpeakerProtocol {
  import opened Options
  import opened Tables
  import P = RoomProtocol
  import R = Roster

  datatype Deed = Mute | Unmute | Drop

  /** An in-flight handler by the statement it runs next. */
  datatype Speaker =
    // `0`: the INSERT, then HAND_RAISED
    | Queueing(workspace: Id, room: Id, participant: Id, leg: Id)
    | Raising(workspace: Id, participant: Id)
    // `#`: withdraw every open request, then MUTED where HAND_RAISED
    | Withdrawing(workspace: Id, room: Id, participant: Id)
    | Lowering(workspace: Id, participant: Id)
    // withdraw one request, then MUTED
    | Closing(workspace: Id, request: Id, participant: Id)
    | Muting(workspace: Id, participant: Id)
    // grant: the count, the leg look-up, the status write after the sidecar's answer, then ACTIVE and the leg
    | Checking(workspace: Id, request: Id, room: Id, participant: Id, source: Option<Id>)
    | Locating(workspace: Id, request: Id, room: Id, participant: Id, source: Option<Id>)
    | Granting(workspace: Id, request: Id, room: Id, participant: Id, leg: Id)
    | Activating(workspace: Id, participant: Id, leg: Id)
    | Opening(workspace: Id, leg: Id)
    // mute, unmute, drop after the sidecar's answer: the leg, then the participant
    | SettingLeg(workspace: Id, participant: Id, leg: Id, deed: Deed)
    | Settling(workspace: Id, participant: Id, deed: Deed)

  datatype World = World(core: P.State, speakers: map<Id, Speaker>)

  datatype Action =
    | Core(action: P.Action)
    // a roster handler from its first statement to its last
    | Managed(op: R.Op)
    // a request arrives and runs its first SELECT as handler t
    | Digit(t: Id, leg: Id, zero: bool)
    | Withdraw(t: Id, workspace: Id, request: Id)
    | Grant(t: Id, workspace: Id, request: Id)
    | Act(t: Id, workspace: Id, participant: Id, leg: Id, deed: Deed, ok: bool)
    // handler t runs its next statement; ok is the sidecar's answer, pick the row a query yields
    | Next(t: Id, ok: bool, pick: Id)

  const INITIAL := World(P.INITIAL, map[])

  predicate IsLive(db: Db, leg: Id, participant: Id) {
    leg in db.legs && db.legs[leg].participant == participant && !IsTerminal(db.legs[leg].state)
  }

  /** `state NOT IN (...) ORDER BY created_at DESC LIMIT 1` of the participant's legs. */
  predicate IsNewestLive(db: Db, leg: Id, participant: Id) {
    IsLive(db, leg, participant) && forall l :: l in db.legs && IsLive(db, l, participant) ==> l <= leg
  }

  function ApprovedIn(db: Db, workspace: Id, room: Id): set<Id> {
    set q | q in db.requests && db.requests[q].workspace == workspace && db.requests[q].room == room
            && IsApproved(db.requests[q].status)
  }

  predicate OwnRequest(db: Db, workspace: Id, request: Id) {
    request in db.requests && db.requests[request].workspace == workspace
  }

  function Arrive(w: World, t: Id, handler: Speaker): World { w.(speakers := w.speakers[t := handler]) }

  function Become(w: World, t: Id, db: Db, handler: Speaker): World {
    World(w.core.(db := db), w.speakers[t := handler])
  }

  function Finish(w: World, t: Id, db: Db): World { World(w.core.(db := db), w.speakers - {t}) }

  /** `dtmf`: the live leg its query yields, looked up by a call id or a participant, whoever's it is. */
  function StepDigit(w: World, t: Id, leg: Id, zero: bool): World {
    var db := w.core.db;
    if t in w.speakers || leg !in db.legs || IsTerminal(db.legs[leg].state) then w
    else
      var row := db.legs[leg];
      Arrive(w, t, if zero then Queueing(row.workspace, row.room, row.participant, leg)
                   else Withdrawing(row.workspace, row.room, row.participant))
  }

  function StepRequest(w: World, t: Id, workspace: Id, request: Id, grant: bool): World {
    var db := w.core.db;
    if t in w.speakers || !OwnRequest(db, workspace, request) then w
    else
      var row := db.requests[request];
      Arrive(w, t, if grant then Checking(workspace, request, row.room, row.participant, row.leg)
                   else Closing(workspace, request, row.participant))
  }

  function StepAct(w: World, t: Id, workspace: Id, participant: Id, leg: Id, deed: Deed, ok: bool): World {
    var db := w.core.db;
    if t !in w.speakers && leg in db.legs && db.legs[leg].workspace == workspace && IsNewestLive(db, leg, participant) && ok
    then Arrive(w, t, SettingLeg(workspace, participant, leg, deed)) else w
  }

  function SetLegFor(db: Db, workspace: Id, leg: Id, deed: Deed): Db {
    match deed
    case Mute => SetLegMuted(db, workspace, leg, true)
    case Unmute => SetLegMuted(db, workspace, leg, false)
    case Drop => DropLeg(db, workspace, leg)
  }

  function SetDesiredFor(db: Db, workspace: Id, participant: Id, deed: Deed): Db {
    SetDesired(db, workspace, participant, ANY_DESIRED,
               match deed case Mute => DesiredMuted case Unmute => DesiredActive case Drop => DesiredDropped)
  }

  const RAISABLE := ANY_DESIRED - {DesiredDropped, DesiredFailed}

  /** The tables after the handler's next statement. `limit` is ROOM_MAX_ACTIVE_SPEAKERS. */
  function NextDb(db: Db, handler: Speaker, ok: bool): Db {
    match handler
    case Queueing(workspace, room, participant, leg) => InsertRequest(db, workspace, room, participant, leg)
    case Raising(workspace, participant) => SetDesired(db, workspace, participant, RAISABLE, HandRaised)
    case Withdrawing(workspace, room, participant) => WithdrawRequestsOf(db, workspace, room, participant)
    case Lowering(workspace, participant) => SetDesired(db, workspace, participant, {HandRaised}, DesiredMuted)
    case Closing(workspace, request, _) => WithdrawRequest(db, workspace, request)
    case Muting(workspace, participant) => SetDesired(db, workspace, participant, ANY_DESIRED, DesiredMuted)
    case Checking(_, _, _, _, _) => db
    case Locating(_, _, _, _, _) => db
    case Granting(workspace, request, _, _, _) => if ok then ActivateRequest(db, workspace, request) else db
    case Activating(workspace, participant, _) => SetDesired(db, workspace, participant, ANY_DESIRED, DesiredActive)
    case Opening(workspace, leg) => SetLegMuted(db, workspace, leg, false)
    case SettingLeg(workspace, _, leg, deed) => SetLegFor(db, workspace, leg, deed)
    case Settling(workspace, participant, deed) => SetDesiredFor(db, workspace, participant, deed)
  }

  /** Its program counter after that statement, None when it has returned. */
  function NextPc(db: Db, limit: nat, handler: Speaker, ok: bool, pick: Id): Option<Speaker> {
    match handler
    case Queueing(workspace, room, participant, leg) =>
      // a foreign-key error is answered 500 without the second write
      if participant in db.participants && room in db.rooms && leg in db.legs then Some(Raising(workspace, participant)) else None
    case Withdrawing(workspace, _, participant) => Some(Lowering(workspace, participant))
    case Closing(workspace, _, participant) => Some(Muting(workspace, participant))
    case Checking(workspace, request, room, participant, source) =>
      if |ApprovedIn(db, workspace, room)| < limit then Some(Locating(workspace, request, room, participant, source)) else None
    case Locating(workspace, request, room, participant, source) =>
      var leg := if source.Some? then source.value else pick;
      if leg in db.legs && db.legs[leg].workspace == workspace && (source.None? ==> IsNewestLive(db, leg, participant))
      then Some(Granting(workspace, request, room, participant, leg)) else None
    case Granting(workspace, _, _, participant, leg) => if ok then Some(Activating(workspace, participant, leg)) else None
    case Activating(workspace, _, leg) => Some(Opening(workspace, leg))
    case SettingLeg(workspace, participant, _, deed) => Some(Settling(workspace, participant, deed))
    case _ => None
  }

  function StepNext(w: World, limit: nat, t: Id, ok: bool, pick: Id): World {
    if t !in w.speakers then w
    else
      var db := NextDb(w.core.db, w.speakers[t], ok);
      var pc := NextPc(w.core.db, limit, w.speakers[t], ok, pick);
      if pc.Some? then Become(w, t, db, pc.value) else Finish(w, t, db)
  }

  function StepManaged(w: World, op: R.Op): World {
    if R.IsRosterHandler(op) then w.(core := P.State(R.Handle(w.core.db, op), w.core.threads)) else w
  }

  /** A request to the speaker queue. */
  predicate IsRequest(a: Action) { !a.Core? && !a.Managed? && !a.Next? }

  function Step(w: World, limit: nat, a: Action): World {
    match a
    case Core(action) => w.(core := P.Step(w.core, action))
    case Managed(op) => StepManaged(w, op)
    case Digit(t, leg, zero) => StepDigit(w, t, leg, zero)
    case Withdraw(t, workspace, request) => StepRequest(w, t, workspace, request, false)
    case Grant(t, workspace, request) => StepRequest(w, t, workspace, request, true)
    case Act(t, workspace, participant, leg, deed, ok) => StepAct(w, t, workspace, participant, leg, deed, ok)
    case Next(t, ok, pick) => StepNext(w, limit, t, ok, pick)
  }

  function After(limit: nat, run: seq<Action>): World {
    if run == [] then INITIAL else Step(After(limit, run[..|run| - 1]), limit, run[|run| - 1])
  }
}
