/** The active-speaker limit. The grant handler counts and writes in two statements, so grants that run
    at the same time can pass the limit, by as many as there are between count and write, less one. */
module SpeakerCap {
  import opened Counting
  import opened Options
  import opened Tables
  import opened Frames
  import opened SpeakerProtocol
  import opened SpeakerTheorems
  import R = Roster

  // ---- Counting ----

  /** Grants of the room between the count and the status write. */
  predicate PastCheck(h: Speaker, workspace: Id, room: Id) {
    (h.Locating? || h.Granting?) && h.workspace == workspace && h.room == room
  }

  function Pending(w: World, workspace: Id, room: Id): set<Id> {
    set t | t in w.speakers && PastCheck(w.speakers[t], workspace, room)
  }

  function Speaking(w: World, workspace: Id, room: Id): nat { |ApprovedIn(w.core.db, workspace, room)| }

  lemma AtMostOneMore(few: set<Id>, many: set<Id>, x: Id)
    requires few <= many + {x}
    ensures |few| <= |many| + 1
  {
    Fewer(few, many + {x});
  }

  lemma QueueingApproves(db: Db, h: Speaker, ok: bool, workspace: Id, room: Id)
    requires h.Queueing?
    ensures ApprovedIn(NextDb(db, h, ok), workspace, room) <= ApprovedIn(db, workspace, room)
  {
  }

  lemma ClosingApproves(db: Db, h: Speaker, ok: bool, workspace: Id, room: Id)
    requires h.Withdrawing? || h.Closing?
    ensures ApprovedIn(NextDb(db, h, ok), workspace, room) <= ApprovedIn(db, workspace, room)
  {
  }

  lemma GrantingApproves(db: Db, h: Speaker, ok: bool, workspace: Id, room: Id)
    requires h.Granting? && HandlerOk(db, h)
    ensures ApprovedIn(NextDb(db, h, ok), workspace, room)
         <= ApprovedIn(db, workspace, room) + (if PastCheck(h, workspace, room) then {h.request} else {})
  {
  }

  lemma KeepsRequests(db: Db, h: Speaker, ok: bool)
    requires !h.Queueing? && !h.Withdrawing? && !h.Closing? && !h.Granting?
    ensures NextDb(db, h, ok).requests == db.requests
  {
    if h.SettingLeg? || h.Settling? {
      DeedKeepsRequests(db, h, ok);
    } else if h.Opening? {
      assert SetLegMuted(db, h.workspace, h.leg, false).requests == db.requests;
    } else if h.Raising? || h.Lowering? || h.Muting? || h.Activating? {
      DesiredKeepsRequests(db, h.workspace, h.participant);
    }
  }

  lemma DesiredKeepsRequests(db: Db, workspace: Id, participant: Id)
    ensures forall from, to :: SetDesired(db, workspace, participant, from, to).requests == db.requests
  {
  }

  lemma LegKeepsRequests(db: Db, workspace: Id, leg: Id, deed: Deed)
    ensures SetLegFor(db, workspace, leg, deed).requests == db.requests
  {
    match deed
    case Mute =>
    case Unmute =>
    case Drop => assert SetLegState(db, leg, Dropped).requests == db.requests;
  }

  lemma DeedKeepsRequests(db: Db, h: Speaker, ok: bool)
    requires h.SettingLeg? || h.Settling?
    ensures NextDb(db, h, ok).requests == db.requests
  {
    if h.SettingLeg? { LegKeepsRequests(db, h.workspace, h.leg, h.deed); } else { DesiredKeepsRequests(db, h.workspace, h.participant); }
  }

  /** Only the grant's status write approves a request, and it approves its own. */
  lemma NextApproves(db: Db, h: Speaker, ok: bool, workspace: Id, room: Id)
    requires HandlerOk(db, h)
    ensures h.Granting? && PastCheck(h, workspace, room) ==>
              ApprovedIn(NextDb(db, h, ok), workspace, room) <= ApprovedIn(db, workspace, room) + {h.request}
    ensures !(h.Granting? && PastCheck(h, workspace, room)) ==>
              ApprovedIn(NextDb(db, h, ok), workspace, room) <= ApprovedIn(db, workspace, room)
  {
    match h
    case Queueing(_, _, _, _) => QueueingApproves(db, h, ok, workspace, room);
    case Withdrawing(_, _, _) => ClosingApproves(db, h, ok, workspace, room);
    case Closing(_, _, _) => ClosingApproves(db, h, ok, workspace, room);
    case Granting(_, _, _, _, _) => GrantingApproves(db, h, ok, workspace, room);
    case _ => KeepsRequests(db, h, ok);
  }

  ghost predicate Capped(w: World, limit: nat, k: nat, workspace: Id, room: Id) {
    Speaking(w, workspace, room) + |Pending(w, workspace, room)| <= limit - 1 + k
  }

  /** A step of the room protocol or the roster. */
  lemma ElsewhereCapped(w: World, w': World, limit: nat, k: nat, workspace: Id, room: Id)
    requires Capped(w, limit, k, workspace, room)
    requires w'.speakers == w.speakers && RequestsLeft(w.core.db.requests, w'.core.db.requests)
    ensures Capped(w', limit, k, workspace, room)
  {
    Fewer(ApprovedIn(w'.core.db, workspace, room), ApprovedIn(w.core.db, workspace, room));
    assert Pending(w', workspace, room) == Pending(w, workspace, room);
  }

  lemma ArrivalCapped(w: World, limit: nat, k: nat, a: Action, workspace: Id, room: Id)
    requires Capped(w, limit, k, workspace, room) && IsRequest(a)
    ensures Capped(Step(w, limit, a), limit, k, workspace, room)
  {
    var w' := Step(w, limit, a);
    assert w'.core == w.core;
    assert Pending(w', workspace, room) == Pending(w, workspace, room);
  }

  predicate StillPending(pc: Option<Speaker>, workspace: Id, room: Id) { pc.Some? && PastCheck(pc.value, workspace, room) }

  /** The handler's own place in the count: `t` is pending afterwards iff its new program counter is. */
  lemma PendingAfter(w: World, limit: nat, t: Id, ok: bool, pick: Id, workspace: Id, room: Id)
    requires t in w.speakers
    ensures Pending(StepNext(w, limit, t, ok, pick), workspace, room)
         == if StillPending(NextPc(w.core.db, limit, w.speakers[t], ok, pick), workspace, room)
            then Pending(w, workspace, room) + {t} else Pending(w, workspace, room) - {t}
  {
  }

  lemma NextCapped(w: World, limit: nat, k: nat, t: Id, ok: bool, pick: Id, workspace: Id, room: Id)
    requires Good(w) && t in w.speakers && Capped(w, limit, k, workspace, room)
    requires |Pending(StepNext(w, limit, t, ok, pick), workspace, room)| <= k
    ensures Capped(StepNext(w, limit, t, ok, pick), limit, k, workspace, room)
  {
    var h := w.speakers[t];
    var approved, pending := ApprovedIn(w.core.db, workspace, room), Pending(w, workspace, room);
    var w' := StepNext(w, limit, t, ok, pick);
    NextApproves(w.core.db, h, ok, workspace, room);
    PendingAfter(w, limit, t, ok, pick, workspace, room);
    assert w'.core.db == NextDb(w.core.db, h, ok);
    if h.Granting? && PastCheck(h, workspace, room) {
      AtMostOneMore(ApprovedIn(w'.core.db, workspace, room), approved, h.request);
      assert t in pending && Pending(w', workspace, room) == pending - {t};
      Less(pending, t);
    } else {
      Fewer(ApprovedIn(w'.core.db, workspace, room), approved);
      if !h.Checking? {
        assert Pending(w', workspace, room) <= pending;
        Fewer(Pending(w', workspace, room), pending);
      }
    }
  }

  lemma StepCapped(w: World, limit: nat, k: nat, a: Action, workspace: Id, room: Id)
    requires Good(w) && Capped(w, limit, k, workspace, room)
    requires |Pending(Step(w, limit, a), workspace, room)| <= k
    ensures Capped(Step(w, limit, a), limit, k, workspace, room)
  {
    match a
    case Core(action) =>
      CoreTakes(w.core, action);
      ElsewhereCapped(w, Step(w, limit, a), limit, k, workspace, room);
    case Managed(op) =>
      if R.IsRosterHandler(op) { ManagedTakes(w.core.db, op); }
      ElsewhereCapped(w, Step(w, limit, a), limit, k, workspace, room);
    case Next(t, ok, pick) => if t in w.speakers { NextCapped(w, limit, k, t, ok, pick, workspace, room); }
    case _ => ArrivalCapped(w, limit, k, a, workspace, room);
  }

  /** At every moment of the run at most k grants of the room are between count and write. */
  ghost predicate AtMostPending(limit: nat, k: nat, run: seq<Action>, workspace: Id, room: Id) {
    forall i | 0 <= i <= |run| :: |Pending(After(limit, run[..i]), workspace, room)| <= k
  }

  lemma PrefixPending(limit: nat, k: nat, run: seq<Action>, n: nat, workspace: Id, room: Id)
    requires n <= |run| && AtMostPending(limit, k, run, workspace, room)
    ensures AtMostPending(limit, k, run[..n], workspace, room)
    ensures |Pending(After(limit, run), workspace, room)| <= k
  {
    forall i | 0 <= i <= n ensures |Pending(After(limit, run[..n][..i]), workspace, room)| <= k {
      assert run[..n][..i] == run[..i];
    }
    assert run[..|run|] == run;
  }

  /** The bound: with at most k grants of the room between count and write at any time, its approved
      speakers and those grants together never pass limit - 1 + k. */
  lemma {:induction false} SpeakersBounded(limit: nat, k: nat, run: seq<Action>, workspace: Id, room: Id)
    requires 1 <= limit && 1 <= k && AtMostPending(limit, k, run, workspace, room)
    ensures Capped(After(limit, run), limit, k, workspace, room)
  {
    if run == [] {
      assert ApprovedIn(INITIAL.core.db, workspace, room) == {};
      assert Pending(INITIAL, workspace, room) == {};
    } else {
      var n := |run| - 1;
      PrefixPending(limit, k, run, n, workspace, room);
      SpeakersBounded(limit, k, run[..n], workspace, room);
      ReachableGood(limit, run[..n]);
      StepCapped(After(limit, run[..n]), limit, k, run[n], workspace, room);
    }
  }

  /** Grants of a room one at a time: the configured limit holds. */
  lemma OneAtATime(limit: nat, run: seq<Action>, workspace: Id, room: Id)
    requires 1 <= limit && AtMostPending(limit, 1, run, workspace, room)
    ensures Speaking(After(limit, run), workspace, room) <= limit
  {
    SpeakersBounded(limit, 1, run, workspace, room);
  }
}
