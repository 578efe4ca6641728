/** The tables whole speaker handlers and participant actions leave, row by row: keypad digits, grant, withdrawal, and
    mute, unmute and drop. */
module SpeakerHandlers {
  import opened Options
  import opened Tables
  import opened Isolation
  import opened SpeakerProtocol
  import opened HandRaised
  import ST = SpeakerTheorems

  // ---- Statements one after the other, and what rows point at ----

  lemma RestTwo(db: Db, limit: nat, h: Speaker, ok: bool, pick: Id, next: Speaker)
    requires NextPc(db, limit, h, ok, pick) == Some(next) && NextPc(NextDb(db, h, ok), limit, next, ok, pick).None?
    ensures Rest(db, limit, h, ok, pick) == NextDb(NextDb(db, h, ok), next, ok)
  {
    assert Rest(db, limit, h, ok, pick) == Rest(NextDb(db, h, ok), limit, next, ok, pick);
  }

  lemma PersonHere(db: Db, leg: Id)
    requires Sound(db) && leg in db.legs
    ensures var row := db.legs[leg];
      && row.participant in db.participants && db.participants[row.participant].room == row.room && row.room in db.rooms
      && db.participants[row.participant].workspace == row.workspace
  {
    var row := db.legs[leg];
    assert row.participant in Homes(db.participants) && row.room in Tenants(db.rooms);
    ST.ParticipantOf(db, row.participant, row.room);
  }

  lemma PlaceHere(db: Db, leg: Id)
    requires Sound(db) && leg in db.legs
    ensures RoomIn(db, db.legs[leg].workspace, db.legs[leg].room)
  {
    assert db.legs[leg].room in Tenants(db.rooms);
  }

  lemma RequestPerson(db: Db, request: Id)
    requires Sound(db) && request in db.requests
    ensures var row := db.requests[request];
      row.participant in db.participants && db.participants[row.participant].workspace == row.workspace
  {
    var row := db.requests[request];
    assert row.participant in Homes(db.participants) && row.room in Tenants(db.rooms);
    ST.ParticipantOf(db, row.participant, row.room);
  }

  /** Neither ENDED, FAILED nor DROPPED. */
  predicate Live(state: LegState) { state !in {Ended, Failed, Dropped} }

  /** The participant's newest live leg. */
  predicate Newest(db: Db, leg: Id, p: Id) {
    && leg in db.legs && db.legs[leg].participant == p && Live(db.legs[leg].state)
    && forall l :: l in db.legs && db.legs[l].participant == p && Live(db.legs[l].state) ==> l <= leg
  }

  lemma NewestIs(db: Db, leg: Id, p: Id)
    ensures Newest(db, leg, p) <==> IsNewestLive(db, leg, p)
  {
    forall l | l in db.legs ensures IsLive(db, l, p) <==> db.legs[l].participant == p && Live(db.legs[l].state) { }
  }

  function WithDesired(participants: map<Id, Participant>, p: Id, desired: Desired): map<Id, Participant>
    requires p in participants
  {
    participants[p := participants[p].(desired := desired)]
  }

  lemma Desires(db: Db, workspace: Id, p: Id, to: Desired)
    requires p in db.participants && db.participants[p].workspace == workspace
    ensures SetDesired(db, workspace, p, ANY_DESIRED, to) == db.(participants := WithDesired(db.participants, p, to))
  {
    AnyDesired(db.participants[p].desired);
  }

  // ---- mute, unmute, drop ----

  /** The statements of an action that the sidecar accepted. */
  lemma ActRuns(db: Db, limit: nat, t: Id, workspace: Id, p: Id, leg: Id, deed: Deed, ok: bool, pick: Id)
    requires Newest(db, leg, p) && db.legs[leg].workspace == workspace
    ensures Serve(db, limit, Act(t, workspace, p, leg, deed, true), ok, pick)
         == SetDesiredFor(SetLegFor(db, workspace, leg, deed), workspace, p, deed)
  {
    NewestIs(db, leg, p);
    var h := SettingLeg(workspace, p, leg, deed);
    assert Serve(db, limit, Act(t, workspace, p, leg, deed, true), ok, pick) == Rest(db, limit, h, ok, pick);
    RestTwo(db, limit, h, ok, pick, Settling(workspace, p, deed));
  }

  lemma ActPerson(db: Db, leg: Id, p: Id)
    requires Sound(db) && leg in db.legs && db.legs[leg].participant == p
    ensures p in db.participants && db.participants[p].workspace == db.legs[leg].workspace
  {
    PersonHere(db, leg);
  }

  /** Mute: the participant's newest live leg is muted and the participant MUTED. Nothing else changes. */
  lemma MuteMutes(db: Db, limit: nat, t: Id, p: Id, leg: Id, ok: bool, pick: Id)
    requires Sound(db) && Newest(db, leg, p)
    ensures p in db.participants && Serve(db, limit, Act(t, db.legs[leg].workspace, p, leg, Mute, true), ok, pick)
         == db.(legs := db.legs[leg := db.legs[leg].(muted := true)], participants := WithDesired(db.participants, p, DesiredMuted))
  {
    var workspace := db.legs[leg].workspace;
    ActPerson(db, leg, p);
    ActRuns(db, limit, t, workspace, p, leg, Mute, ok, pick);
    var db1 := SetLegFor(db, workspace, leg, Mute);
    assert db1 == db.(legs := db.legs[leg := db.legs[leg].(muted := true)]);
    Desires(db1, workspace, p, DesiredMuted);
  }

  /** Unmute: the leg is unmuted and the participant ACTIVE. Nothing else changes. */
  lemma UnmuteUnmutes(db: Db, limit: nat, t: Id, p: Id, leg: Id, ok: bool, pick: Id)
    requires Sound(db) && Newest(db, leg, p)
    ensures p in db.participants && Serve(db, limit, Act(t, db.legs[leg].workspace, p, leg, Unmute, true), ok, pick)
         == db.(legs := db.legs[leg := db.legs[leg].(muted := false)], participants := WithDesired(db.participants, p, DesiredActive))
  {
    var workspace := db.legs[leg].workspace;
    ActPerson(db, leg, p);
    ActRuns(db, limit, t, workspace, p, leg, Unmute, ok, pick);
    var db1 := SetLegFor(db, workspace, leg, Unmute);
    assert db1 == db.(legs := db.legs[leg := db.legs[leg].(muted := false)]);
    Desires(db1, workspace, p, DesiredActive);
  }

  /** Drop: the leg is DROPPED and so is the participant. Nothing else changes. */
  lemma DropDrops(db: Db, limit: nat, t: Id, p: Id, leg: Id, ok: bool, pick: Id)
    requires Sound(db) && Newest(db, leg, p)
    ensures p in db.participants && Serve(db, limit, Act(t, db.legs[leg].workspace, p, leg, Drop, true), ok, pick)
         == db.(legs := db.legs[leg := db.legs[leg].(state := Dropped)], participants := WithDesired(db.participants, p, DesiredDropped))
  {
    var workspace := db.legs[leg].workspace;
    ActPerson(db, leg, p);
    ActRuns(db, limit, t, workspace, p, leg, Drop, ok, pick);
    var db1 := SetLegFor(db, workspace, leg, Drop);
    assert db1 == db.(legs := db.legs[leg := db.legs[leg].(state := Dropped)]);
    Desires(db1, workspace, p, DesiredDropped);
  }

  /** An action on anything but the participant's newest live leg in the workspace, or one that the sidecar refuses,
      changes nothing. */
  lemma ActRefused(db: Db, limit: nat, t: Id, workspace: Id, p: Id, leg: Id, deed: Deed, accepted: bool, ok: bool, pick: Id)
    requires !accepted || !(Newest(db, leg, p) && db.legs[leg].workspace == workspace)
    ensures Serve(db, limit, Act(t, workspace, p, leg, deed, accepted), ok, pick) == db
  {
    NewestIs(db, leg, p);
  }

  // ---- 0 and # ----

  /** QUEUED, GRANTED or ACTIVE. */
  predicate Open(status: RequestStatus) { status in {Queued, Granted, RequestActive} }

  predicate Asked(db: Db, room: Id, p: Id) {
    exists q :: q in db.requests && db.requests[q].room == room && db.requests[q].participant == p && Open(db.requests[q].status)
  }

  lemma AskedIs(db: Db, room: Id, p: Id)
    ensures Asked(db, room, p) <==> HasOpenRequest(db, room, p)
  {
    if Asked(db, room, p) {
      var q :| q in db.requests && db.requests[q].room == room && db.requests[q].participant == p && Open(db.requests[q].status);
      assert IsOpen(db.requests[q].status);
    }
    if HasOpenRequest(db, room, p) {
      var q :| q in db.requests && db.requests[q].room == room && db.requests[q].participant == p && IsOpen(db.requests[q].status);
      assert Open(db.requests[q].status);
    }
  }

  /** The two statements of `0`. */
  lemma ZeroRuns(db: Db, limit: nat, t: Id, leg: Id, ok: bool, pick: Id)
    requires leg in db.legs && Live(db.legs[leg].state) && db.legs[leg].participant in db.participants && db.legs[leg].room in db.rooms
    ensures var row := db.legs[leg];
      Serve(db, limit, Digit(t, leg, true), ok, pick)
      == SetDesired(InsertRequest(db, row.workspace, row.room, row.participant, leg), row.workspace, row.participant, RAISABLE, HandRaised)
  {
    var row := db.legs[leg];
    var h := Queueing(row.workspace, row.room, row.participant, leg);
    assert Serve(db, limit, Digit(t, leg, true), ok, pick) == Rest(db, limit, h, ok, pick);
    RestTwo(db, limit, h, ok, pick, Raising(row.workspace, row.participant));
  }

  /** `0` on a live leg raises the hand, unless the participant is DROPPED or FAILED, and queues one request of the
      participant with that leg where there is no open one. Nothing else changes. */
  lemma ZeroAsks(db: Db, limit: nat, t: Id, leg: Id, ok: bool, pick: Id)
    requires Sound(db) && leg in db.legs && Live(db.legs[leg].state)
    ensures var row := db.legs[leg];
      && row.participant in db.participants
      && var desired := db.participants[row.participant].desired;
         var people := WithDesired(db.participants, row.participant, if desired in {DesiredDropped, DesiredFailed} then desired else HandRaised);
         Serve(db, limit, Digit(t, leg, true), ok, pick)
         == if Asked(db, row.room, row.participant) then db.(participants := people)
            else db.(participants := people, nextId := db.nextId + 1,
                     requests := db.requests[db.nextId := Request(row.workspace, row.room, row.participant, Some(leg), Queued)])
  {
    var row := db.legs[leg];
    PersonHere(db, leg);
    AskedIs(db, row.room, row.participant);
    ZeroRuns(db, limit, t, leg, ok, pick);
    Raises(InsertRequest(db, row.workspace, row.room, row.participant, leg), row.workspace, row.participant);
  }

  lemma Raises(db: Db, workspace: Id, p: Id)
    requires p in db.participants && db.participants[p].workspace == workspace
    ensures var desired := db.participants[p].desired;
      SetDesired(db, workspace, p, RAISABLE, HandRaised)
      == db.(participants := WithDesired(db.participants, p, if desired in {DesiredDropped, DesiredFailed} then desired else HandRaised))
  {
    var desired := db.participants[p].desired;
    AnyDesired(desired);
    assert db.participants[p := db.participants[p].(desired := desired)] == db.participants;
  }

  /** The two statements of `#`. */
  lemma HashRuns(db: Db, limit: nat, t: Id, leg: Id, ok: bool, pick: Id)
    requires leg in db.legs && Live(db.legs[leg].state)
    ensures var row := db.legs[leg];
      Serve(db, limit, Digit(t, leg, false), ok, pick)
      == SetDesired(WithdrawRequestsOf(db, row.workspace, row.room, row.participant), row.workspace, row.participant, {HandRaised}, DesiredMuted)
  {
    var row := db.legs[leg];
    var h := Withdrawing(row.workspace, row.room, row.participant);
    assert Serve(db, limit, Digit(t, leg, false), ok, pick) == Rest(db, limit, h, ok, pick);
    RestTwo(db, limit, h, ok, pick, Lowering(row.workspace, row.participant));
  }

  /** `#` on a live leg withdraws every open request of the participant in the room and lowers a raised hand. Nothing
      else changes. */
  lemma HashWithdraws(db: Db, limit: nat, t: Id, leg: Id, ok: bool, pick: Id)
    requires Sound(db) && leg in db.legs && Live(db.legs[leg].state)
    ensures var row := db.legs[leg];
      && row.participant in db.participants
      && var desired := db.participants[row.participant].desired;
         Serve(db, limit, Digit(t, leg, false), ok, pick)
         == db.(participants := WithDesired(db.participants, row.participant, if desired == HandRaised then DesiredMuted else desired),
                requests := map q | q in db.requests ::
                  if db.requests[q].room == row.room && db.requests[q].participant == row.participant && Open(db.requests[q].status)
                  then db.requests[q].(status := Withdrawn) else db.requests[q])
  {
    var row := db.legs[leg];
    PersonHere(db, leg);
    PlaceHere(db, leg);
    HashRuns(db, limit, t, leg, ok, pick);
    Withdraws(db, row.workspace, row.room, row.participant);
    var desired := db.participants[row.participant].desired;
    assert db.participants[row.participant := db.participants[row.participant].(desired := desired)] == db.participants;
  }

  lemma Withdraws(db: Db, workspace: Id, room: Id, p: Id)
    requires Sound(db) && RoomIn(db, workspace, room)
    ensures WithdrawRequestsOf(db, workspace, room, p)
         == db.(requests := map q | q in db.requests ::
                  if db.requests[q].room == room && db.requests[q].participant == p && Open(db.requests[q].status)
                  then db.requests[q].(status := Withdrawn) else db.requests[q])
  {
    RequestsOwned(db, workspace, room);
    SameWithdrawn(db, workspace, room, p);
  }

  lemma RequestsOwned(db: Db, workspace: Id, room: Id)
    requires Sound(db) && RoomIn(db, workspace, room)
    ensures forall q | q in db.requests && db.requests[q].room == room :: db.requests[q].workspace == workspace
  {
    forall q | q in db.requests && db.requests[q].room == room ensures db.requests[q].workspace == workspace {
      assert Tenants(db.rooms)[room] == db.requests[q].workspace;
    }
  }

  lemma SameWithdrawn(db: Db, workspace: Id, room: Id, p: Id)
    requires forall q | q in db.requests && db.requests[q].room == room :: db.requests[q].workspace == workspace
    ensures WithdrawRequestsOf(db, workspace, room, p)
         == db.(requests := map q | q in db.requests ::
                  if db.requests[q].room == room && db.requests[q].participant == p && Open(db.requests[q].status)
                  then db.requests[q].(status := Withdrawn) else db.requests[q])
  {
  }

  /** A digit on a leg that is over, or on none, changes nothing. */
  lemma DigitRefused(db: Db, limit: nat, t: Id, leg: Id, zero: bool, ok: bool, pick: Id)
    requires leg !in db.legs || !Live(db.legs[leg].state)
    ensures Serve(db, limit, Digit(t, leg, zero), ok, pick) == db
  {
  }

  // ---- grant and withdraw ----

  /** The approved requests of the room. */
  function Approved(db: Db, workspace: Id, room: Id): set<Id> {
    set q | q in db.requests && db.requests[q].workspace == workspace && db.requests[q].room == room
            && db.requests[q].status in {Granted, RequestActive}
  }

  /** The leg a grant opens: the request's, or the participant's newest live one. */
  predicate Opens(db: Db, workspace: Id, row: Request, leg: Id) {
    && leg in db.legs && db.legs[leg].workspace == workspace
    && (if row.leg.Some? then leg == row.leg.value else Newest(db, leg, row.participant))
  }

  /** The request after an ACTIVE write, which the open-request index rejects where it would open a second one. */
  function Activated(db: Db, request: Id): RequestStatus
    requires request in db.requests
  {
    var row := db.requests[request];
    if Open(row.status) || !Asked(db, row.room, row.participant) then RequestActive else row.status
  }

  lemma Activates(db: Db, workspace: Id, request: Id)
    requires OwnRequest(db, workspace, request)
    ensures ActivateRequest(db, workspace, request)
         == db.(requests := db.requests[request := db.requests[request].(status := Activated(db, request))])
  {
    var row := db.requests[request];
    AskedIs(db, row.room, row.participant);
    assert db.requests[request := row.(status := row.status)] == db.requests;
  }

  lemma GrantActs(db: Db, limit: nat, h: Speaker, pick: Id)
    requires h.Granting?
    ensures Rest(db, limit, h, true, pick)
         == SetLegMuted(SetDesired(ActivateRequest(db, h.workspace, h.request), h.workspace, h.participant, ANY_DESIRED, DesiredActive),
                        h.workspace, h.leg, false)
  {
    var db1, h4 := ActivateRequest(db, h.workspace, h.request), Activating(h.workspace, h.participant, h.leg);
    assert Rest(db, limit, h, true, pick) == Rest(db1, limit, h4, true, pick);
    RestTwo(db1, limit, h4, true, pick, Opening(h.workspace, h.leg));
  }

  /** A grant below the limit that the sidecar accepts: the request is ACTIVE, the participant ACTIVE and the leg
      unmuted. Nothing else changes. */
  lemma GrantOpens(db: Db, limit: nat, t: Id, workspace: Id, request: Id, leg: Id, pick: Id)
    requires Sound(db) && OwnRequest(db, workspace, request) && Opens(db, workspace, db.requests[request], leg)
    requires db.requests[request].leg.None? ==> pick == leg
    requires |Approved(db, workspace, db.requests[request].room)| < limit
    ensures var row := db.requests[request];
      && row.participant in db.participants
      && Serve(db, limit, Grant(t, workspace, request), true, pick)
         == db.(requests := db.requests[request := row.(status := Activated(db, request))],
                participants := WithDesired(db.participants, row.participant, DesiredActive),
                legs := db.legs[leg := db.legs[leg].(muted := false)])
  {
    var row := db.requests[request];
    RequestPerson(db, request);
    GrantRuns(db, limit, t, workspace, request, leg, pick);
    GrantWrites(db, workspace, request, leg);
  }

  lemma GrantWrites(db: Db, workspace: Id, request: Id, leg: Id)
    requires OwnRequest(db, workspace, request) && leg in db.legs && db.legs[leg].workspace == workspace
    requires db.requests[request].participant in db.participants && db.participants[db.requests[request].participant].workspace == workspace
    ensures var row := db.requests[request];
      SetLegMuted(SetDesired(ActivateRequest(db, workspace, request), workspace, row.participant, ANY_DESIRED, DesiredActive), workspace, leg, false)
      == db.(requests := db.requests[request := row.(status := Activated(db, request))],
             participants := WithDesired(db.participants, row.participant, DesiredActive),
             legs := db.legs[leg := db.legs[leg].(muted := false)])
  {
    Activates(db, workspace, request);
    Desires(ActivateRequest(db, workspace, request), workspace, db.requests[request].participant, DesiredActive);
  }

  /** The statements of such a grant, one after the other. */
  lemma GrantRuns(db: Db, limit: nat, t: Id, workspace: Id, request: Id, leg: Id, pick: Id)
    requires OwnRequest(db, workspace, request) && Opens(db, workspace, db.requests[request], leg)
    requires db.requests[request].leg.None? ==> pick == leg
    requires |Approved(db, workspace, db.requests[request].room)| < limit
    ensures var p := db.requests[request].participant;
      Serve(db, limit, Grant(t, workspace, request), true, pick)
      == SetLegMuted(SetDesired(ActivateRequest(db, workspace, request), workspace, p, ANY_DESIRED, DesiredActive), workspace, leg, false)
  {
    var row := db.requests[request];
    var h := Checking(workspace, request, row.room, row.participant, row.leg);
    Locates(db, limit, h, leg, pick);
    assert Serve(db, limit, Grant(t, workspace, request), true, pick) == Rest(db, limit, h, true, pick);
    GrantActs(db, limit, Granting(workspace, request, row.room, row.participant, leg), pick);
  }

  lemma Locates(db: Db, limit: nat, h: Speaker, leg: Id, pick: Id)
    requires h.Checking? && OwnRequest(db, h.workspace, h.request) && Opens(db, h.workspace, db.requests[h.request].(participant := h.participant, leg := h.source), leg)
    requires (h.source.None? ==> pick == leg) && |Approved(db, h.workspace, h.room)| < limit
    ensures Rest(db, limit, h, true, pick) == Rest(db, limit, Granting(h.workspace, h.request, h.room, h.participant, leg), true, pick)
  {
    NewestIs(db, leg, h.participant);
    assert ApprovedIn(db, h.workspace, h.room) == Approved(db, h.workspace, h.room);
    var h2 := Locating(h.workspace, h.request, h.room, h.participant, h.source);
    assert Rest(db, limit, h, true, pick) == Rest(db, limit, h2, true, pick);
  }

  /** A grant at the limit, without such a leg, or one that the sidecar refuses, changes nothing. */
  lemma GrantStops(db: Db, limit: nat, t: Id, workspace: Id, request: Id, ok: bool, pick: Id)
    requires OwnRequest(db, workspace, request)
    requires !ok || limit <= |Approved(db, workspace, db.requests[request].room)|
          || !Opens(db, workspace, db.requests[request], if db.requests[request].leg.Some? then db.requests[request].leg.value else pick)
    ensures Serve(db, limit, Grant(t, workspace, request), ok, pick) == db
  {
    var row := db.requests[request];
    var h1 := Checking(workspace, request, row.room, row.participant, row.leg);
    var h2 := Locating(workspace, request, row.room, row.participant, row.leg);
    NewestIs(db, if row.leg.Some? then row.leg.value else pick, row.participant);
    assert ApprovedIn(db, workspace, row.room) == Approved(db, workspace, row.room);
    assert Serve(db, limit, Grant(t, workspace, request), ok, pick) == Rest(db, limit, h1, ok, pick);
    if |ApprovedIn(db, workspace, row.room)| < limit {
      assert Rest(db, limit, h1, ok, pick) == Rest(db, limit, h2, ok, pick);
      if NextPc(db, limit, h2, ok, pick).Some? { assert Rest(db, limit, h2, ok, pick) == Rest(db, limit, NextPc(db, limit, h2, ok, pick).value, ok, pick); }
    }
  }

  /** The two statements of a withdrawal. */
  lemma WithdrawRuns(db: Db, limit: nat, t: Id, workspace: Id, request: Id, ok: bool, pick: Id)
    requires OwnRequest(db, workspace, request)
    ensures Serve(db, limit, Withdraw(t, workspace, request), ok, pick)
         == SetDesired(WithdrawRequest(db, workspace, request), workspace, db.requests[request].participant, ANY_DESIRED, DesiredMuted)
  {
    var h := Closing(workspace, request, db.requests[request].participant);
    assert Serve(db, limit, Withdraw(t, workspace, request), ok, pick) == Rest(db, limit, h, ok, pick);
    RestTwo(db, limit, h, ok, pick, Muting(workspace, db.requests[request].participant));
  }

  /** A withdrawal closes the request where it is open and mutes its participant. Nothing else changes. */
  lemma WithdrawCloses(db: Db, limit: nat, t: Id, workspace: Id, request: Id, ok: bool, pick: Id)
    requires Sound(db) && OwnRequest(db, workspace, request)
    ensures var row := db.requests[request];
      && row.participant in db.participants
      && Serve(db, limit, Withdraw(t, workspace, request), ok, pick)
         == db.(requests := db.requests[request := row.(status := Withdrawn)],
                participants := WithDesired(db.participants, row.participant, DesiredMuted))
  {
    RequestPerson(db, request);
    WithdrawRuns(db, limit, t, workspace, request, ok, pick);
    Closes(db, workspace, request);
    Desires(WithdrawRequest(db, workspace, request), workspace, db.requests[request].participant, DesiredMuted);
  }

  lemma Closes(db: Db, workspace: Id, request: Id)
    requires OwnRequest(db, workspace, request)
    ensures WithdrawRequest(db, workspace, request) == db.(requests := db.requests[request := db.requests[request].(status := Withdrawn)])
  {
    var row := db.requests[request];
    assert db.requests[request := row.(status := row.status)] == db.requests;
  }

  /** A request of another workspace, or none, is neither granted nor withdrawn. */
  lemma RequestRefused(db: Db, limit: nat, t: Id, workspace: Id, request: Id, ok: bool, pick: Id)
    requires request !in db.requests || db.requests[request].workspace != workspace
    ensures Serve(db, limit, Grant(t, workspace, request), ok, pick) == db
    ensures Serve(db, limit, Withdraw(t, workspace, request), ok, pick) == db
  {
  }
}
