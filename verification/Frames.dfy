/** What statements and handlers leave alone: speaker requests appear and change in the speaker handlers only, and
    legs appear in the dispatch path only. */
module Frames {
  import opened Tables
  import P = RoomProtocol
  import R = Roster
  import T = RoomTenancy
  import Text

  /** People, requests and which legs there are stay as they were. */
  predicate Aside(db: Db, db': Db) {
    && db'.participants == db.participants && db'.requests == db.requests && db'.legs.Keys == db.legs.Keys
    && db.nextId <= db'.nextId
  }

  /** No leg or request is new, and of the requests that stay at most the leg is forgotten. */
  ghost predicate NothingNew(db: Db, db': Db) {
    RequestsLeft(db.requests, db'.requests) && db'.legs.Keys <= db.legs.Keys
  }

  ghost predicate RequestsLeft(before: map<Id, Request>, after: map<Id, Request>) {
    forall q | q in after :: q in before && after[q] == before[q].(leg := after[q].leg)
  }

  lemma Both(db: Db, db': Db, db'': Db)
    requires NothingNew(db, db') && NothingNew(db', db'')
    ensures NothingNew(db, db'')
  {
  }

  // ---- Single statements ----

  lemma SameKeys(legs: map<Id, Leg>, leg: Id, row: Leg)
    requires leg in legs
    ensures legs[leg := row].Keys == legs.Keys
  {
  }

  lemma StatusAside(db: Db, session: Id, from: set<SessionStatus>, to: SessionStatus)
    ensures Aside(db, SetSessionStatus(db, session, from, to))
  {
  }

  lemma StateAside(db: Db, at: P.Place, from: set<RoomState>, to: RoomState)
    ensures Aside(db, SetRoomState(db, at.workspace, at.room, from, to))
  {
  }

  lemma CopyAside(db: Db, at: P.Place, name: string, phone: string)
    ensures Aside(db, SetHostCopy(db, at.workspace, at.room, name, phone))
  {
  }

  lemma LegStateAside(db: Db, leg: Id, state: LegState)
    ensures Aside(db, SetLegState(db, leg, state))
  {
    if leg in db.legs { SameKeys(db.legs, leg, db.legs[leg].(state := state)); }
  }

  lemma DropAside(db: Db, workspace: Id, leg: Id)
    ensures Aside(db, DropLeg(db, workspace, leg))
  {
    LegStateAside(db, leg, Dropped);
  }

  lemma AttendanceAside(db: Db, session: Id, p: Id, leg: Id, role: Role)
    ensures Aside(db, InsertAttendance(db, session, p, leg, role))
  {
  }

  lemma BegunAside(db: Db, at: P.Place)
    ensures Aside(db, P.Begun(db, at))
  {
    P.BegunKeeps(db, at);
    assert db.nextId <= InsertSession(db, at.workspace, at.room).nextId;
  }

  /** The writes to people. */
  lemma PeopleOnly(db: Db, workspace: Id, p: Id, room: Id, role: Role, name: string, phone: string)
    ensures NothingNew(db, InsertParticipant(db, workspace, room, role, name, phone))
    ensures NothingNew(db, SetContact(db, workspace, p, name, phone))
  {
  }

  lemma DesiredOnly(db: Db, workspace: Id, p: Id, from: set<Desired>, to: Desired)
    ensures SetDesired(db, workspace, p, from, to).requests == db.requests && SetDesired(db, workspace, p, from, to).legs == db.legs
  {
  }

  lemma CascadeTakes(db: Db, rooms: set<Id>, participants: set<Id>)
    ensures NothingNew(db, Cascade(db, rooms, participants))
  {
  }

  // ---- Transactions ----

  lemma SaveHostTakes(db: Db, at: P.Place, host: Id, name: string, phone: string)
    ensures NothingNew(db, P.SaveHostTx(db, at, host, name, phone))
  {
    var db1 := SetHostCopy(db, at.workspace, at.room, name, phone);
    CopyAside(db, at, name, phone);
    PeopleOnly(db1, at.workspace, host, at.room, Host, name, phone);
    if HasHost(db, at.room) {
      DesiredOnly(SetContact(db1, at.workspace, host, name, phone), at.workspace, host, ANY_DESIRED, DesiredActive);
    }
  }

  lemma ClearHostTakes(db: Db, at: P.Place)
    ensures NothingNew(db, P.ClearHostTx(db, at))
  {
    var db1 := SetHostCopy(db, at.workspace, at.room, "", "");
    CopyAside(db, at, "", "");
    CascadeTakes(db1, {}, HostRows(db1, at.workspace, at.room));
  }

  lemma RemoveRoomTakes(db: Db, at: P.Place)
    ensures NothingNew(db, P.RemoveRoomTx(db, at))
  {
    CascadeTakes(DeleteItemsOfRoom(db, at.room), {at.room}, {});
  }

  lemma RemoveTakes(db: Db, workspace: Id, p: Id)
    ensures NothingNew(db, DeleteListener(db, workspace, p))
  {
    CascadeTakes(db, {}, {p});
  }

  // ---- The room protocol ----

  lemma StatementTakes(db: Db, a: P.Action)
    ensures NothingNew(db, P.StepDb(db, a))
  {
    match a
    case SaveHost(at, host, name, phone) => SaveHostTakes(db, at, host, Text.Trim(name), Text.Trim(phone));
    case ClearHost(at) => ClearHostTakes(db, at);
    case AddMember(at, role, name, phone) => PeopleOnly(db, at.workspace, 0, at.room, role, name, phone);
    case RemoveMember(workspace, p) => RemoveTakes(db, workspace, p);
    case RemoveRoom(at) => RemoveRoomTakes(db, at);
    case _ => StatementAside(db, a);
  }

  lemma StatementAside(db: Db, a: P.Action)
    requires !a.SaveHost? && !a.ClearHost? && !a.AddMember? && !a.RemoveMember? && !a.RemoveRoom?
    ensures Aside(db, P.StepDb(db, a))
  {
  }

  lemma StartTakes(s: P.State, t: Id, at: P.Place, host: Id)
    ensures NothingNew(s.db, P.StepStart(s, t, at, host).db)
  {
    P.StartShape(s, t, at, host);
    if RoomIn(s.db, at.workspace, at.room) {
      P.EnsureHostKeeps(s.db, at);
      P.BegunKeeps(P.EnsureHost(s.db, at), at);
    }
  }

  lemma ArrivalTakes(s: P.State, a: P.Action)
    requires !a.Advance?
    ensures NothingNew(s.db, P.Step(s, a).db)
  {
    if a.Start? {
      StartTakes(s, a.t, a.at, a.host);
    } else if a.Event? {
      LegStateAside(s.db, a.leg, a.state);
    } else if !a.Stop? && !a.Dial? && !a.AddBack? {
      StatementTakes(s.db, a);
    }
  }

  lemma ActivatorAside(s: P.State, t: Id, ok: bool, pick: Id, child: Id)
    requires t in s.threads && T.IsActivator(s.threads[t])
    ensures Aside(s.db, P.StepActivator(s, t, ok, pick, child).db)
  {
    match s.threads[t]
    case Promoting(x, _, _) => StatusAside(s.db, x, {SessionStarting}, SessionRunning);
    case MarkingRunning(_, at, _) => StateAside(s.db, at, {Starting}, Running);
    case GivingUp(x, _) => StatusAside(s.db, x, {SessionStarting}, SessionFailed);
    case FanningOut(_, _, _, _) =>
    case _ =>
  }

  lemma StopperAside(s: P.State, t: Id, ok: bool, pick: Id)
    requires t in s.threads && T.IsStopper(s.threads[t])
    ensures Aside(s.db, P.StepStopper(s, t, ok, pick).db)
  {
    match s.threads[t]
    case ListingLegs(_, _) =>
    case DroppingLegs(_, at, _) => DropAside(s.db, at.workspace, pick);
    case EndingSession(x, _) => StatusAside(s.db, x, ANY_SESSION_STATUS, SessionEnded);
  }

  /** The statements of a dispatch but for the one that creates the leg. */
  lemma DispatchTakes(s: P.State, t: Id, ok: bool)
    requires t in s.threads && s.threads[t].Dispatching? && !s.threads[t].step.InsertingLeg?
    ensures NothingNew(s.db, P.StepDispatch(s, t, ok).db)
  {
    var th, db := s.threads[t], s.db;
    match th.step
    case MarkingFailed(leg) => LegStateAside(db, leg, Failed);
    case SettingDesired(_, role) =>
      DesiredOnly(db, th.at.workspace, th.participant, ANY_DESIRED, if role == Host then DesiredActive else DesiredMuted);
    case Recording(leg, role) => if !th.purpose.LiveCall? { AttendanceAside(db, th.purpose.session, th.participant, leg, role); }
    case _ =>
  }

  lemma InsertingTakes(s: P.State, t: Id, ok: bool)
    requires t in s.threads && s.threads[t].Dispatching? && s.threads[t].step.InsertingLeg?
    ensures P.StepDispatch(s, t, ok).db.requests == s.db.requests
    ensures s.threads[t].participant !in s.db.participants || s.threads[t].at.room !in s.db.rooms ==> P.StepDispatch(s, t, ok).db == s.db
  {
  }

  lemma OthersTake(s: P.State, t: Id, ok: bool, pick: Id, child: Id)
    requires t in s.threads && !T.IsOwn(s.threads[t])
    ensures NothingNew(s.db, P.StepAdvance(s, t, ok, pick, child).db)
  {
    match s.threads[t]
    case InsertingGuest(at, name, phone) => PeopleOnly(s.db, at.workspace, 0, at.room, Listener, name, phone);
    case FailingSession(x, _) => StatusAside(s.db, x, ANY_SESSION_STATUS, SessionFailed);
    case ClosingSession(x, _, terminal) => StatusAside(s.db, x, ACTIVE_STATUS, terminal);
    case ResettingRoom(_, at, from) => StateAside(s.db, at, from, Ready);
    case FindingHostSession(leg) => assert P.StepFindHost(s, t, leg, pick).db == s.db;
    case CheckingRoom(_, _) =>
  }

  /** The action inserts a leg for a dispatch. */
  predicate AddsLeg(s: P.State, a: P.Action) {
    && a.Advance? && a.t in s.threads && s.threads[a.t].Dispatching? && s.threads[a.t].step.InsertingLeg?
    && s.threads[a.t].participant in s.db.participants && s.threads[a.t].at.room in s.db.rooms
  }

  /** No statement of the room protocol creates or changes a request, and only one creates a leg. */
  lemma CoreTakes(s: P.State, a: P.Action)
    ensures RequestsLeft(s.db.requests, P.Step(s, a).db.requests)
    ensures !AddsLeg(s, a) ==> NothingNew(s.db, P.Step(s, a).db)
  {
    if !a.Advance? {
      ArrivalTakes(s, a);
    } else if a.t in s.threads {
      var th := s.threads[a.t];
      if th.Dispatching? {
        if th.step.InsertingLeg? { InsertingTakes(s, a.t, a.ok); } else { DispatchTakes(s, a.t, a.ok); }
      } else if T.IsActivator(th) {
        ActivatorAside(s, a.t, a.ok, a.pick, a.child);
      } else if T.IsStopper(th) {
        StopperAside(s, a.t, a.ok, a.pick);
      } else {
        OthersTake(s, a.t, a.ok, a.pick, a.child);
      }
    }
  }

  // ---- Roster handlers ----

  lemma ImportRowTakes(db: Db, at: P.Place, batch: Id, contact: R.Contact)
    requires R.ImportRow(db, at, batch, contact).Some?
    ensures NothingNew(db, R.ImportRow(db, at, batch, contact).value)
  {
    var name, phone, role := Text.Trim(contact.name), Text.Trim(contact.phone), R.RoleOf(contact.role);
    var db1 := if role == Host then SetHostCopy(db, at.workspace, at.room, name, phone) else db;
    CopyAside(db, at, name, phone);
    PeopleOnly(db1, at.workspace, 0, at.room, role, name, phone);
  }

  lemma {:induction false} ImportRowsTake(db: Db, at: P.Place, batch: Id, contacts: seq<R.Contact>)
    requires R.ImportRows(db, at, batch, contacts).Some?
    ensures NothingNew(db, R.ImportRows(db, at, batch, contacts).value)
  {
    if contacts != [] {
      var n := |contacts| - 1;
      ImportRowsTake(db, at, batch, contacts[..n]);
      var tx := R.ImportRows(db, at, batch, contacts[..n]).value;
      ImportRowTakes(tx, at, batch, contacts[n]);
      Both(db, tx, R.ImportRow(tx, at, batch, contacts[n]).value);
    }
  }

  lemma ImportTakes(db: Db, at: P.Place, contacts: seq<R.Contact>)
    ensures NothingNew(db, R.Import(db, at, contacts).1)
  {
    var begun := InsertBatch(db, at.workspace, at.room);
    assert Aside(db, begun);
    if R.ImportRows(begun, at, db.nextId, contacts).Some? { ImportRowsTake(begun, at, db.nextId, contacts); }
  }

  lemma EditTakes(db: Db, workspace: Id, p: Id, name: string, phone: string)
    ensures NothingNew(db, R.Edit(db, workspace, p, name, phone).1)
  {
    PeopleOnly(db, workspace, p, 0, Listener, Text.Trim(name), Text.Trim(phone));
    var db1 := SetContact(db, workspace, p, Text.Trim(name), Text.Trim(phone));
    assert Aside(db1, SetItemContacts(db1, workspace, p, Text.Trim(name), Text.Trim(phone)));
  }

  lemma CreateTakes(db: Db, workspace: Id, limit: int)
    ensures NothingNew(db, R.CreateRoom(db, workspace, limit).1)
  {
    assert Aside(db, InsertRoom(db, workspace, limit));
  }

  lemma UpdateTakes(db: Db, at: P.Place, limit: int, tfn: bool, valid: bool)
    ensures NothingNew(db, R.UpdateRoom(db, at, limit, tfn, valid).1)
  {
    assert RoomIn(db, at.workspace, at.room) ==> Aside(db, SetRoomLimits(db, at.room, limit, tfn));
  }

  lemma AddTakes(db: Db, at: P.Place, contact: R.Contact)
    ensures NothingNew(db, R.Add(db, at, contact).1)
  {
    PeopleOnly(db, at.workspace, 0, at.room, Listener, Text.Trim(contact.name), Text.Trim(contact.phone));
  }

  /** No roster handler creates a leg, or creates or changes a request. */
  lemma ManagedTakes(db: Db, op: R.Op)
    requires R.IsRosterHandler(op)
    ensures NothingNew(db, R.Handle(db, op))
  {
    match op
    case SavingHost(at, host, name, phone) => SaveHostTakes(db, at, host, Text.Trim(name), Text.Trim(phone));
    case ClearingHost(at) => ClearHostTakes(db, at);
    case Adding(at, contact) => AddTakes(db, at, contact);
    case Importing(at, contacts) => ImportTakes(db, at, contacts);
    case Editing(workspace, p, name, phone) => EditTakes(db, workspace, p, name, phone);
    case Removing(workspace, p) => RemoveTakes(db, workspace, p);
    case Creating(workspace, limit) => CreateTakes(db, workspace, limit);
    case Updating(at, limit, tfn, valid) => UpdateTakes(db, at, limit, tfn, valid);
    case RemovingRoom(at) => RemoveRoomTakes(db, at);
  }
}
