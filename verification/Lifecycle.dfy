/** The room lifecycle on its own: room states, session statuses and, of every thread, only the room
    and session it is bound to and whether it still has a session or room write to do. The full
    protocol refines this machine (module LifecycleRefinement). */
module Lifecycle {
  import opened Tables

  datatype View =
    | Trying(session: Id, room: Id)     // owns a session it has not promoted: host dispatch, polling, giving up
    | Checking(session: Id, room: Id)   // saw the host up, about to promote the session if it is STARTING
    | Marking(session: Id, room: Id)    // promoted it, about to mark the room RUNNING
    | Listing(session: Id, room: Id)    // about to list the listeners
    | Fanning(session: Id, room: Id)    // calling the listeners
    | Closing(session: Id, room: Id)    // stop or host event, about to close the session
    | Resetting(session: Id, room: Id)  // closed the session, about to write READY

  datatype Row = Row(room: Id, status: SessionStatus)

  datatype Life = Life(rooms: map<Id, RoomState>, sessions: map<Id, Row>, threads: map<Id, View>, next: Id)

  datatype Effect =
    | Nothing
    | AddRoom
    | RemoveRoom(room: Id)
    | Begin(t: Id, room: Id, session: Id)
    | Bind(t: Id, session: Id)
    | Check(t: Id)
    | Promote(t: Id)
    | Mark(t: Id)
    | List(t: Id)
    | Leave(t: Id)
    | Close(t: Id, from: set<SessionStatus>, to: SessionStatus)
    | Reset(t: Id, states: set<RoomState>)

  predicate ActiveIn(l: Life, x: Id, room: Id) {
    x in l.sessions && l.sessions[x].room == room && IsActive(l.sessions[x].status)
  }

  predicate SomeActive(l: Life, room: Id) { exists x :: x in l.sessions && ActiveIn(l, x, room) }

  /** The guards under which an effect happens. */
  predicate Allowed(l: Life, e: Effect, next: Id) {
    l.next <= next &&
    match e
    case Nothing => true
    case AddRoom => l.next < next
    case RemoveRoom(_) => true
    case Begin(t, room, session) =>
      && t !in l.threads && room in l.rooms && l.rooms[room] == Ready && !SomeActive(l, room)
      && l.next <= session < next
    case Bind(t, session) => t !in l.threads && session in l.sessions && IsActive(l.sessions[session].status)
    case Check(t) => t in l.threads && l.threads[t].Trying?
    case Promote(t) => t in l.threads && l.threads[t].Checking?
    case Mark(t) => t in l.threads && l.threads[t].Marking?
    case List(t) => t in l.threads && l.threads[t].Listing?
    case Leave(t) => t in l.threads && l.threads[t].Fanning?
    case Close(t, from, to) =>
      && t in l.threads && !IsActive(to)
      && ((l.threads[t].Trying? && SessionStarting in from) || (l.threads[t].Closing? && ACTIVE_STATUS <= from))
    case Reset(t, states) => t in l.threads && l.threads[t].Resetting? && {Starting, Running} <= states
  }

  function Do(l: Life, e: Effect, next: Id): Life
    requires Allowed(l, e, next)
  {
    match e
    case Nothing => l.(next := next)
    case AddRoom => l.(rooms := l.rooms[l.next := Ready], next := next)
    case RemoveRoom(room) =>
      l.(rooms := l.rooms - {room},
         sessions := map x | x in l.sessions && l.sessions[x].room != room :: l.sessions[x],
         next := next)
    case Begin(t, room, session) =>
      l.(rooms := l.rooms[room := Starting], sessions := l.sessions[session := Row(room, SessionStarting)],
         threads := l.threads[t := Trying(session, room)], next := next)
    case Bind(t, session) => l.(threads := l.threads[t := Closing(session, l.sessions[session].room)], next := next)
    case Check(t) => l.(threads := l.threads[t := Checking(l.threads[t].session, l.threads[t].room)], next := next)
    case Promote(t) =>
      var x := l.threads[t].session;
      if x in l.sessions && l.sessions[x].status == SessionStarting then
        l.(sessions := l.sessions[x := l.sessions[x].(status := SessionRunning)],
           threads := l.threads[t := Marking(x, l.threads[t].room)], next := next)
      else l.(threads := l.threads - {t}, next := next)
    case Mark(t) =>
      var room := l.threads[t].room;
      l.(rooms := if room in l.rooms && l.rooms[room] == Starting then l.rooms[room := Running] else l.rooms,
         threads := l.threads[t := Listing(l.threads[t].session, room)], next := next)
    case List(t) => l.(threads := l.threads[t := Fanning(l.threads[t].session, l.threads[t].room)], next := next)
    case Leave(t) => l.(threads := l.threads - {t}, next := next)
    case Close(t, from, to) =>
      var x := l.threads[t].session;
      l.(sessions := if x in l.sessions && l.sessions[x].status in from
                     then l.sessions[x := l.sessions[x].(status := to)] else l.sessions,
         threads := l.threads[t := Resetting(x, l.threads[t].room)], next := next)
    case Reset(t, states) =>
      var room := l.threads[t].room;
      l.(rooms := if room in l.rooms && l.rooms[room] in states then l.rooms[room := Ready] else l.rooms,
         threads := l.threads - {t}, next := next)
  }

  // ---- Invariants ----

  /** Sessions and threads belong to issued ids, and a thread's session, while it exists, is of its room. */
  ghost predicate Known(l: Life) {
    && (forall r | r in l.rooms :: r < l.next)
    && (forall x | x in l.sessions :: x < l.next && l.sessions[x].room in l.rooms)
    && (forall t | t in l.threads ::
          && l.threads[t].session < l.next && l.threads[t].room < l.next
          && (l.threads[t].session in l.sessions ==> l.sessions[l.threads[t].session].room == l.threads[t].room))
  }

  /** The index `room_sessions_one_active_uq`. */
  ghost predicate OneActive(l: Life) {
    forall x, y, r | ActiveIn(l, x, r) && ActiveIn(l, y, r) :: x == y
  }

  predicate Owns(v: View) { !v.Closing? && !v.Resetting? }

  /** A session has one owner: the start handler that created it, then its activator. */
  ghost predicate OneOwner(l: Life) {
    forall t, u | t in l.threads && u in l.threads && Owns(l.threads[t]) && Owns(l.threads[u])
      :: l.threads[t].session == l.threads[u].session ==> t == u
  }

  /** Before its promotion a session is not RUNNING, after it not STARTING, and once closed it is closed. */
  ghost predicate StatusFits(l: Life) {
    forall t | t in l.threads && l.threads[t].session in l.sessions ::
      var status := l.sessions[l.threads[t].session].status;
      match l.threads[t]
      case Trying(_, _) => status != SessionRunning
      case Checking(_, _) => status != SessionRunning
      case Closing(_, _) => true
      case Resetting(_, _) => !IsActive(status)
      case _ => status != SessionStarting
  }

  ghost predicate Basic(l: Life) { Known(l) && OneActive(l) && OneOwner(l) && StatusFits(l) }

  predicate ResetPending(l: Life, room: Id) {
    exists t :: t in l.threads && l.threads[t].Resetting? && l.threads[t].room == room
  }

  /** A room that is not READY has an active session, or a thread about to write READY. */
  ghost predicate NoStuck(l: Life) {
    forall r | r in l.rooms && l.rooms[r] != Ready :: SomeActive(l, r) || ResetPending(l, r)
  }

  lemma KnownKept(l: Life, e: Effect, next: Id)
    requires Known(l) && Allowed(l, e, next)
    ensures Known(Do(l, e, next))
  {
  }

  lemma OneActiveKept(l: Life, e: Effect, next: Id)
    requires Known(l) && OneActive(l) && Allowed(l, e, next)
    ensures OneActive(Do(l, e, next))
  {
    var l' := Do(l, e, next);
    forall x, y, r | ActiveIn(l', x, r) && ActiveIn(l', y, r) ensures x == y {
      if e.Begin? {
        assert ActiveIn(l, x, r) || (x == e.session && r == e.room);
        assert ActiveIn(l, y, r) || (y == e.session && r == e.room);
      } else {
        assert ActiveIn(l, x, r) && ActiveIn(l, y, r);
      }
    }
  }

  lemma OneOwnerKept(l: Life, e: Effect, next: Id)
    requires Known(l) && OneOwner(l) && Allowed(l, e, next)
    ensures OneOwner(Do(l, e, next))
  {
  }

  lemma StatusFitsKept(l: Life, e: Effect, next: Id)
    requires Basic(l) && Allowed(l, e, next)
    ensures StatusFits(Do(l, e, next))
  {
  }

  lemma BasicKept(l: Life, e: Effect, next: Id)
    requires Basic(l) && Allowed(l, e, next)
    ensures Basic(Do(l, e, next))
  {
    KnownKept(l, e, next);
    OneActiveKept(l, e, next);
    OneOwnerKept(l, e, next);
    StatusFitsKept(l, e, next);
  }

  lemma NoStuckKept(l: Life, e: Effect, next: Id)
    requires Basic(l) && NoStuck(l) && Allowed(l, e, next)
    ensures NoStuck(Do(l, e, next))
  {
    var l' := Do(l, e, next);
    forall r | r in l'.rooms && l'.rooms[r] != Ready ensures SomeActive(l', r) || ResetPending(l', r) {
      if e.Begin? && e.room == r {
        assert ActiveIn(l', e.session, r);
      } else if SomeActive(l, r) {
        var x :| x in l.sessions && ActiveIn(l, x, r);
        if e.Close? && x == l.threads[e.t].session {
          assert l'.threads[e.t].Resetting? && l'.threads[e.t].room == r;
        } else {
          assert x in l'.sessions && ActiveIn(l', x, r);
        }
      } else {
        var t :| t in l.threads && l.threads[t].Resetting? && l.threads[t].room == r;
        assert t in l'.threads && l'.threads[t] == l.threads[t];
      }
    }
  }

  lemma OnlyMarkRuns(l: Life, e: Effect, next: Id, r: Id)
    requires Allowed(l, e, next) && r in Do(l, e, next).rooms && Do(l, e, next).rooms[r] == Running
    ensures (r in l.rooms && l.rooms[r] == Running) || (e.Mark? && l.threads[e.t].room == r)
  {
  }

  // ---- Sessions only move forward ----

  function Rank(status: SessionStatus): nat {
    if status == SessionStarting then 0 else if status == SessionRunning then 1 else 2
  }

  /** STARTING to RUNNING to ENDED or FAILED, never back; a new row is a STARTING session under a new id;
      and the only way to RUNNING is the promotion of a STARTING session. */
  ghost predicate Forward(l: Life, l': Life) {
    && l.next <= l'.next
    && (forall x | x in l.sessions && x in l'.sessions ::
          l'.sessions[x].room == l.sessions[x].room && Rank(l.sessions[x].status) <= Rank(l'.sessions[x].status))
    && (forall x | x in l'.sessions && x !in l.sessions :: l.next <= x && l'.sessions[x].status == SessionStarting)
  }

  lemma StepForward(l: Life, e: Effect, next: Id)
    requires Basic(l) && Allowed(l, e, next)
    ensures Forward(l, Do(l, e, next))
  {
  }

  /** A closed session's status changes by a close of it that asks for no status. */
  lemma ClosedStays(l: Life, e: Effect, next: Id, x: Id)
    requires Known(l) && Allowed(l, e, next) && x < l.next && (x in l.sessions ==> !IsActive(l.sessions[x].status))
    requires x in Do(l, e, next).sessions
    ensures x in l.sessions
    ensures Do(l, e, next).sessions[x].status == l.sessions[x].status
         || (e.Close? && l.threads[e.t].session == x && l.sessions[x].status in e.from && Do(l, e, next).sessions[x].status == e.to)
  {
  }

  /** The session was fanned out: no thread can still get to its fan-out. */
  ghost predicate Fanned(l: Life, x: Id) {
    x < l.next && forall t | t in l.threads && l.threads[t].session == x && Owns(l.threads[t]) :: l.threads[t].Fanning?
  }

  lemma FannedKept(l: Life, e: Effect, next: Id, x: Id)
    requires Fanned(l, x) && Allowed(l, e, next)
    ensures Fanned(Do(l, e, next), x)
  {
  }

  lemma ListFans(l: Life, t: Id, next: Id)
    requires Basic(l) && Allowed(l, List(t), next)
    ensures Fanned(Do(l, List(t), next), l.threads[t].session)
  {
  }

  // ---- When a room mirrors its session ----

  /** The thread writes to its session or room whatever became of its session. */
  predicate Writes(v: View) { !v.Checking? && !v.Listing? && !v.Fanning? }

  /** A session starts only after every thread bound to an earlier session of the room has done such writes. */
  predicate Orderly(l: Life, e: Effect) {
    e.Begin? ==> forall t :: t in l.threads && l.threads[t].room == e.room ==> !Writes(l.threads[t])
  }

  /** With an active session, the threads that still write belong to it, and the room follows it up to the
      activator's own write. */
  ghost predicate Mirrors(l: Life) {
    forall x, r | ActiveIn(l, x, r) :: Mirrored(l, x, r)
  }

  ghost predicate Mirrored(l: Life, x: Id, r: Id)
    requires x in l.sessions
  {
    && (forall t | t in l.threads && l.threads[t].room == r && Writes(l.threads[t]) :: l.threads[t].session == x)
    && r in l.rooms
    && (l.sessions[x].status == SessionStarting ==> l.rooms[r] == Starting)
    && (l.sessions[x].status == SessionRunning ==>
          l.rooms[r] == Running || (l.rooms[r] == Starting && MarkPending(l, x, r)))
  }

  predicate MarkPending(l: Life, x: Id, r: Id) { exists t :: t in l.threads && l.threads[t] == Marking(x, r) }

  lemma MirrorsKept(l: Life, e: Effect, next: Id)
    requires Basic(l) && Mirrors(l) && Allowed(l, e, next) && Orderly(l, e)
    ensures Mirrors(Do(l, e, next))
  {
    var l' := Do(l, e, next);
    forall x, r | ActiveIn(l', x, r) ensures Mirrored(l', x, r) {
      if !e.Begin? || x != e.session {
        assert ActiveIn(l, x, r);
        StaysMirrored(l, e, next, x, r);
      }
    }
  }

  lemma StaysMirrored(l: Life, e: Effect, next: Id, x: Id, r: Id)
    requires Basic(l) && Allowed(l, e, next) && Orderly(l, e)
    requires ActiveIn(l, x, r) && Mirrored(l, x, r) && ActiveIn(Do(l, e, next), x, r) && (e.Begin? ==> x != e.session)
    ensures Mirrored(Do(l, e, next), x, r)
  {
    var l' := Do(l, e, next);
    if e.Bind? && l.sessions[e.session].room == r { assert ActiveIn(l, e.session, r); }
    if e.Promote? && ActiveIn(l, l.threads[e.t].session, r) { assert l.threads[e.t].session == x; }
    if e.Promote? && l.threads[e.t].session == x {
      assert l'.threads[e.t] == Marking(x, r);
    } else if l.sessions[x].status == SessionRunning && l.rooms[r] == Starting {
      var t :| t in l.threads && l.threads[t] == Marking(x, r);
      assert (e.Mark? && e.t == t) || (t in l'.threads && l'.threads[t] == l.threads[t]);
    }
  }

  /** No room or session write of the room's own lifecycle is half done. */
  predicate Settled(l: Life, room: Id) {
    forall t :: t in l.threads && l.threads[t].room == room ==> !l.threads[t].Marking? && !l.threads[t].Resetting?
  }

  /** In a settled room the column says exactly what the session does. */
  lemma SettledMirror(l: Life, r: Id)
    requires Basic(l) && NoStuck(l) && Mirrors(l) && r in l.rooms && Settled(l, r)
    ensures l.rooms[r] == Ready <==> !SomeActive(l, r)
    ensures l.rooms[r] == Starting <==> exists x :: x in l.sessions && ActiveIn(l, x, r) && l.sessions[x].status == SessionStarting
    ensures l.rooms[r] == Running <==> exists x :: x in l.sessions && ActiveIn(l, x, r) && l.sessions[x].status == SessionRunning
  {
    if SomeActive(l, r) {
      var x :| x in l.sessions && ActiveIn(l, x, r);
    }
  }
}
