/** Raised hands statement by statement: a raised hand has an open request, or a lowering of it is still to come,
    unless a closing statement of the participant came between the two writes of `0`. */
module RaisedHands {
  import opened Tables
  import opened Options
  import opened SpeakerProtocol
  import opened SpeakerTheorems
  import opened SpeakerContinuations
  import opened Backing
  import H = HandRaised
  import R = Roster

  /** A handler is about to lower the participant's hand. */
  predicate Lowers(h: Speaker, p: Id) { (h.Lowering? || h.Muting?) && h.participant == p }

  predicate LoweringPending(speakers: map<Id, Speaker>, p: Id) { exists t :: t in speakers && Lowers(speakers[t], p) }

  /** A `0` of the participant is between its two writes. */
  predicate RaisingPending(speakers: map<Id, Speaker>, p: Id) {
    exists t :: t in speakers && speakers[t].Raising? && speakers[t].participant == p
  }

  predicate OpenFor(db: Db, p: Id)
    requires p in db.participants
  {
    HasOpenRequest(db, db.participants[p].room, p)
  }

  predicate Sheltered(w: World, p: Id)
    requires p in w.core.db.participants
  {
    && (w.core.db.participants[p].desired == HandRaised ==> OpenFor(w.core.db, p) || LoweringPending(w.speakers, p))
    && (RaisingPending(w.speakers, p) ==> OpenFor(w.core.db, p))
  }

  ghost predicate AllSheltered(w: World) {
    forall p | p in w.core.db.participants :: Sheltered(w, p)
  }

  /** A `#` or a withdrawal closes the participant's last open request while a `0` of theirs is still to raise the
      hand. */
  predicate Strands(w: World, limit: nat, a: Action) {
    && a.Next? && a.t in w.speakers && (w.speakers[a.t].Withdrawing? || w.speakers[a.t].Closing?)
    && var p := w.speakers[a.t].participant;
    && RaisingPending(w.speakers, p) && p in w.core.db.participants && OpenFor(w.core.db, p)
    && p in Step(w, limit, a).core.db.participants && !OpenFor(Step(w, limit, a).core.db, p)
  }

  // ---- One participant over one step ----

  /** The step neither harms the participant, nor takes a lowering away, nor adds a raising. */
  lemma StaysSheltered(w: World, w': World, p: Id)
    requires p in w.core.db.participants && p in w'.core.db.participants && Sheltered(w, p) && Unharmed(w.core.db, w'.core.db, p)
    requires LoweringPending(w.speakers, p) ==> LoweringPending(w'.speakers, p)
    requires RaisingPending(w'.speakers, p) ==> RaisingPending(w.speakers, p)
    ensures Sheltered(w', p)
  {
  }

  /** Nobody raises the hand of a participant who is only being created. */
  lemma NoneRaises(w: World, p: Id)
    requires Good(w) && w.core.db.nextId <= p
    ensures !RaisingPending(w.speakers, p)
  {
    forall t | t in w.speakers && w.speakers[t].Raising? ensures w.speakers[t].participant != p {
      assert HandlerOk(w.core.db, w.speakers[t]);
    }
  }

  /** A step that writes nothing to raised hands or requests, and changes no handler that does. */
  lemma QuietStep(w: World, w': World)
    requires Good(w) && AllSheltered(w) && Harmless(w.core.db, w'.core.db)
    requires forall p :: LoweringPending(w.speakers, p) ==> LoweringPending(w'.speakers, p)
    requires forall p :: RaisingPending(w'.speakers, p) ==> RaisingPending(w.speakers, p)
    ensures AllSheltered(w')
  {
    forall p | p in w'.core.db.participants ensures Sheltered(w', p) {
      if p in w.core.db.participants {
        assert Sheltered(w, p) && Unharmed(w.core.db, w'.core.db, p);
        StaysSheltered(w, w', p);
      } else {
        assert Newcomer(w.core.db, w'.core.db, p);
        NoneRaises(w, p);
      }
    }
  }

  // ---- The speaker handlers ----

  /** Handlers that neither raise, lower nor close. */
  predicate IsQuiet(h: Speaker) {
    h.Checking? || h.Locating? || h.Granting? || h.Activating? || h.Opening? || h.SettingLeg? || h.Settling?
  }

  lemma QuietHarmless(db: Db, h: Speaker, ok: bool)
    requires KeysBelow(db.participants, db.nextId) && IsQuiet(h)
    ensures Harmless(db, NextDb(db, h, ok))
  {
    Still(db);
    match h
    case Granting(workspace, request, _, _, _) => if ok { ActivateHarmless(db, workspace, request); }
    case Activating(workspace, p, _) => DesiredHarmless(db, workspace, p, ANY_DESIRED, DesiredActive);
    case Opening(workspace, leg) => Elsewhere(db, SetLegMuted(db, workspace, leg, false));
    case SettingLeg(workspace, _, leg, deed) =>
      H.LegWriteAside(db, workspace, leg, deed);
      LegIds(db, workspace, leg, deed);
      Elsewhere(db, SetLegFor(db, workspace, leg, deed));
    case Settling(workspace, p, deed) =>
      DesiredHarmless(db, workspace, p, ANY_DESIRED, match deed case Mute => DesiredMuted case Unmute => DesiredActive case Drop => DesiredDropped);
    case _ =>
  }

  lemma LegIds(db: Db, workspace: Id, leg: Id, deed: Deed)
    ensures SetLegFor(db, workspace, leg, deed).nextId == db.nextId
  {
  }

  /** A write of requests that closes none of the participant's. */
  lemma RequestsKept(db: Db, db': Db, p: Id)
    requires db'.participants == db.participants && p in db.participants
    requires forall q | q in db.requests && db.requests[q].participant == p && IsOpen(db.requests[q].status) ::
               q in db'.requests && db'.requests[q].room == db.requests[q].room && db'.requests[q].participant == p && IsOpen(db'.requests[q].status)
    ensures Unharmed(db, db', p)
  {
    var room := db.participants[p].room;
    if HasOpenRequest(db, room, p) {
      var q :| q in db.requests && db.requests[q].room == room && db.requests[q].participant == p && IsOpen(db.requests[q].status);
      assert q in db'.requests;
    }
  }

  lemma ActivateHarmless(db: Db, workspace: Id, request: Id)
    requires KeysBelow(db.participants, db.nextId)
    ensures Harmless(db, ActivateRequest(db, workspace, request))
  {
    var db' := ActivateRequest(db, workspace, request);
    forall p | p in db.participants ensures Unharmed(db, db', p) { RequestsKept(db, db', p); }
  }

  lemma QueueHarmless(db: Db, workspace: Id, room: Id, p: Id, leg: Id)
    requires IdsBelow(db)
    ensures Harmless(db, InsertRequest(db, workspace, room, p, leg))
  {
    var db' := InsertRequest(db, workspace, room, p, leg);
    forall x | x in db.participants ensures Unharmed(db, db', x) { RequestsKept(db, db', x); }
  }

  /** The handlers of everybody else are as they were. */
  lemma OthersPending(speakers: map<Id, Speaker>, t: Id, pc: Option<Speaker>, p: Id)
    requires t in speakers && !Lowers(speakers[t], p) && !(pc.Some? && pc.value.Raising? && pc.value.participant == p)
    ensures var after := if pc.Some? then speakers[t := pc.value] else speakers - {t};
      && (LoweringPending(speakers, p) ==> LoweringPending(after, p))
      && (RaisingPending(after, p) ==> RaisingPending(speakers, p))
  {
    var after := if pc.Some? then speakers[t := pc.value] else speakers - {t};
    if LoweringPending(speakers, p) {
      var u :| u in speakers && Lowers(speakers[u], p);
      assert u in after && after[u] == speakers[u];
    }
    if RaisingPending(after, p) {
      var u :| u in after && after[u].Raising? && after[u].participant == p;
      assert u in speakers && speakers[u] == after[u];
    }
  }

  lemma QuietNext(w: World, limit: nat, t: Id, ok: bool, pick: Id)
    requires Good(w) && AllSheltered(w) && t in w.speakers && IsQuiet(w.speakers[t])
    ensures AllSheltered(StepNext(w, limit, t, ok, pick))
  {
    var h := w.speakers[t];
    var pc := NextPc(w.core.db, limit, h, ok, pick);
    QuietHarmless(w.core.db, h, ok);
    forall p ensures (LoweringPending(w.speakers, p) ==> LoweringPending(StepNext(w, limit, t, ok, pick).speakers, p))
                  && (RaisingPending(StepNext(w, limit, t, ok, pick).speakers, p) ==> RaisingPending(w.speakers, p)) {
      OthersPending(w.speakers, t, pc, p);
    }
    QuietStep(w, StepNext(w, limit, t, ok, pick));
  }

  /** The first write of `0`. */
  lemma QueueingNext(w: World, limit: nat, t: Id, ok: bool, pick: Id)
    requires Good(w) && AllSheltered(w) && t in w.speakers && w.speakers[t].Queueing?
    ensures AllSheltered(StepNext(w, limit, t, ok, pick))
  {
    var h, w' := w.speakers[t], StepNext(w, limit, t, ok, pick);
    var pc := NextPc(w.core.db, limit, h, ok, pick);
    QueueHarmless(w.core.db, h.workspace, h.room, h.participant, h.leg);
    H.Asked(w.core.db, h.workspace, h.room, h.participant, h.leg);
    assert HandlerOk(w.core.db, h);
    forall p | p in w'.core.db.participants ensures Sheltered(w', p) {
      assert Sheltered(w, p) && Unharmed(w.core.db, w'.core.db, p);
      if p == h.participant && pc.Some? {
        assert OpenFor(w'.core.db, p);
      } else {
        OthersPending(w.speakers, t, pc, p);
        StaysSheltered(w, w', p);
      }
    }
  }

  /** The second write of `0`, and the two writes that lower a hand. */
  lemma DesiredNext(w: World, limit: nat, t: Id, ok: bool, pick: Id)
    requires Good(w) && AllSheltered(w) && t in w.speakers
    requires w.speakers[t].Raising? || w.speakers[t].Lowering? || w.speakers[t].Muting?
    ensures AllSheltered(StepNext(w, limit, t, ok, pick))
  {
    var h, w', db := w.speakers[t], StepNext(w, limit, t, ok, pick), w.core.db;
    assert HandlerOk(db, h);
    var db' := w'.core.db;
    OnePerson(db, h, ok);
    forall p | p in db'.participants ensures Sheltered(w', p) {
      assert Sheltered(w, p);
      SameRequests(db, db', db.participants[p].room, p);
      if p == h.participant {
        if h.Raising? { assert RaisingPending(w.speakers, p); }
        assert RaisingPending(w'.speakers, p) ==> RaisingPending(w.speakers, p);
      } else {
        OthersPending(w.speakers, t, None, p);
        StaysSheltered(w, w', p);
      }
    }
  }

  /** Nothing changes but the participant's desired state. */
  ghost predicate OnlyDesired(db: Db, db': Db, p: Id) {
    && db'.requests == db.requests && db'.participants.Keys == db.participants.Keys
    && forall x | x in db.participants ::
         db'.participants[x].room == db.participants[x].room && (x != p ==> db'.participants[x] == db.participants[x])
  }

  lemma DesiredOnly(db: Db, workspace: Id, p: Id, from: set<Desired>, to: Desired)
    ensures var db' := SetDesired(db, workspace, p, from, to);
      && OnlyDesired(db, db', p) && db'.nextId == db.nextId
      && (p in db.participants && db.participants[p].workspace == workspace ==>
            db'.participants[p].desired == if db.participants[p].desired in from then to else db.participants[p].desired)
  {
    if p in db.participants && db.participants[p].workspace == workspace && db.participants[p].desired in from {
      var rows := db.participants[p := db.participants[p].(desired := to)];
      assert SetDesired(db, workspace, p, from, to) == db.(participants := rows);
    } else {
      assert SetDesired(db, workspace, p, from, to) == db;
    }
  }

  lemma OnePerson(db: Db, h: Speaker, ok: bool)
    requires HandlerOk(db, h) && (h.Raising? || h.Lowering? || h.Muting?)
    ensures OnlyDesired(db, NextDb(db, h, ok), h.participant)
    ensures h.participant in db.participants && !h.Raising? ==> NextDb(db, h, ok).participants[h.participant].desired != HandRaised
  {
    if h.participant in db.participants { AnyDesired(db.participants[h.participant].desired); }
    match h
    case Raising(workspace, p) => DesiredOnly(db, workspace, p, RAISABLE, HandRaised);
    case Lowering(workspace, p) => DesiredOnly(db, workspace, p, {HandRaised}, DesiredMuted);
    case Muting(workspace, p) => DesiredOnly(db, workspace, p, ANY_DESIRED, DesiredMuted);
  }

  /** `#` and the withdrawal: their closing statement. */
  lemma ClosingElsewhere(db: Db, h: Speaker, ok: bool, p: Id)
    requires HandlerOk(db, h) && (h.Withdrawing? || h.Closing?) && p in db.participants && p != h.participant
    ensures NextDb(db, h, ok).participants == db.participants && Unharmed(db, NextDb(db, h, ok), p)
  {
    RequestsKept(db, NextDb(db, h, ok), p);
  }

  /** The one whose request is closed: a lowering comes next, and no raising is stranded. */
  lemma ClosedSheltered(w: World, limit: nat, t: Id, ok: bool, pick: Id, p: Id)
    requires t in w.speakers && (w.speakers[t].Withdrawing? || w.speakers[t].Closing?) && p == w.speakers[t].participant
    requires !Strands(w, limit, Next(t, ok, pick)) && p in w.core.db.participants && p in StepNext(w, limit, t, ok, pick).core.db.participants
    requires Sheltered(w, p)
    ensures Sheltered(StepNext(w, limit, t, ok, pick), p)
  {
    var h, w' := w.speakers[t], StepNext(w, limit, t, ok, pick);
    var next := if h.Withdrawing? then Lowering(h.workspace, p) else Muting(h.workspace, p);
    assert w'.speakers == w.speakers[t := next] && Lowers(w'.speakers[t], p);
    assert Step(w, limit, Next(t, ok, pick)) == w';
    if RaisingPending(w'.speakers, p) {
      var u :| u in w'.speakers && w'.speakers[u].Raising? && w'.speakers[u].participant == p;
      assert u in w.speakers && w.speakers[u] == w'.speakers[u];
    }
  }

  lemma ClosingNext(w: World, limit: nat, t: Id, ok: bool, pick: Id)
    requires Good(w) && AllSheltered(w) && t in w.speakers && (w.speakers[t].Withdrawing? || w.speakers[t].Closing?)
    requires !Strands(w, limit, Next(t, ok, pick))
    ensures AllSheltered(StepNext(w, limit, t, ok, pick))
  {
    var h, w' := w.speakers[t], StepNext(w, limit, t, ok, pick);
    assert HandlerOk(w.core.db, h);
    assert w'.core.db.participants == w.core.db.participants;
    forall p | p in w'.core.db.participants ensures Sheltered(w', p) {
      assert Sheltered(w, p);
      if p == h.participant {
        ClosedSheltered(w, limit, t, ok, pick, p);
      } else {
        OthersPending(w.speakers, t, NextPc(w.core.db, limit, h, ok, pick), p);
        ClosingElsewhere(w.core.db, h, ok, p);
        StaysSheltered(w, w', p);
      }
    }
  }

  lemma NextSheltered(w: World, limit: nat, t: Id, ok: bool, pick: Id)
    requires Good(w) && AllSheltered(w) && t in w.speakers && !Strands(w, limit, Next(t, ok, pick))
    ensures AllSheltered(StepNext(w, limit, t, ok, pick))
  {
    var h := w.speakers[t];
    if IsQuiet(h) {
      QuietNext(w, limit, t, ok, pick);
    } else if h.Queueing? {
      QueueingNext(w, limit, t, ok, pick);
    } else if h.Withdrawing? || h.Closing? {
      ClosingNext(w, limit, t, ok, pick);
    } else {
      DesiredNext(w, limit, t, ok, pick);
    }
  }

  lemma ArrivalSheltered(w: World, limit: nat, a: Action)
    requires Good(w) && AllSheltered(w) && IsRequest(a)
    ensures AllSheltered(Step(w, limit, a))
  {
    var w' := Step(w, limit, a);
    ArrivalStep(w, limit, a);
    Still(w.core.db);
    ArrivalKeeps(w, limit, a);
    QuietStep(w, w');
  }

  /** A request that arrives lowers and raises nothing yet. */
  lemma ArrivalKeeps(w: World, limit: nat, a: Action)
    requires IsRequest(a)
    ensures forall p :: LoweringPending(w.speakers, p) ==> LoweringPending(Step(w, limit, a).speakers, p)
    ensures forall p :: RaisingPending(Step(w, limit, a).speakers, p) ==> RaisingPending(w.speakers, p)
  {
    var after := Step(w, limit, a).speakers;
    assert after == w.speakers || (a.t !in w.speakers && a.t in after && after == w.speakers[a.t := after[a.t]] && !after[a.t].Raising?);
    forall p | LoweringPending(w.speakers, p) ensures LoweringPending(after, p) {
      var u :| u in w.speakers && Lowers(w.speakers[u], p);
      assert u in after && after[u] == w.speakers[u];
    }
  }

  lemma StepSheltered(w: World, limit: nat, a: Action)
    requires Good(w) && AllSheltered(w) && !Strands(w, limit, a)
    ensures AllSheltered(Step(w, limit, a))
  {
    match a
    case Core(action) =>
      CoreHarmless(w.core, action);
      QuietStep(w, Step(w, limit, a));
    case Managed(op) =>
      Still(w.core.db);
      if R.IsRosterHandler(op) { ManagedHarmless(w.core.db, op); }
      QuietStep(w, Step(w, limit, a));
    case Next(t, ok, pick) => if t in w.speakers { NextSheltered(w, limit, t, ok, pick); }
    case _ => ArrivalSheltered(w, limit, a);
  }

  ghost predicate NeverStrands(limit: nat, run: seq<Action>) {
    forall i | 0 <= i < |run| :: !Strands(After(limit, run[..i]), limit, run[i])
  }

  lemma {:induction false} ReachableSheltered(limit: nat, run: seq<Action>)
    requires NeverStrands(limit, run)
    ensures AllSheltered(After(limit, run))
  {
    if run != [] {
      var n := |run| - 1;
      forall i | 0 <= i < n ensures !Strands(After(limit, run[..n][..i]), limit, run[..n][i]) {
        assert run[..n][..i] == run[..i];
        assert !Strands(After(limit, run[..i]), limit, run[i]);
      }
      ReachableSheltered(limit, run[..n]);
      ReachableGood(limit, run[..n]);
      StepSheltered(After(limit, run[..n]), limit, run[n]);
    }
  }

  /** Where no closing statement strands a `0`, a raised hand has an open request, or a handler is about to lower it. */
  lemma RaisedHandIsSheltered(limit: nat, run: seq<Action>, p: Id)
    requires NeverStrands(limit, run) && p in After(limit, run).core.db.participants
    requires After(limit, run).core.db.participants[p].desired == HandRaised
    ensures OpenFor(After(limit, run).core.db, p) || LoweringPending(After(limit, run).speakers, p)
  {
    ReachableSheltered(limit, run);
    assert Sheltered(After(limit, run), p);
  }

  /** No action of the continuation strands a `0`. */
  ghost predicate StrandsNone(w: World, limit: nat, more: seq<Action>)
    decreases |more|
  {
    more == [] || (!Strands(w, limit, more[0]) && StrandsNone(Step(w, limit, more[0]), limit, more[1..]))
  }

  lemma {:induction false} StaysAllSheltered(w: World, limit: nat, more: seq<Action>)
    requires Good(w) && AllSheltered(w) && StrandsNone(w, limit, more)
    ensures AllSheltered(Follow(w, limit, more))
    decreases |more|
  {
    if more != [] {
      StepWithin(w, limit, more[0]);
      StepSheltered(w, limit, more[0]);
      StaysAllSheltered(Step(w, limit, more[0]), limit, more[1..]);
    }
  }
}
