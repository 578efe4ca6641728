/** What is promised of rooms and sessions, said of one state: no room is stuck, sessions do not go back, and when a
    room mirrors its session. */
module RoomPromises {
  import opened Tables
  import opened RoomProtocol
  import opened LifecycleRefinement
  import L = Lifecycle

  // ---- No stuck room ----

  /** Some handler is about to write READY to the room. */
  predicate ReadyPending(s: State, room: Id) {
    exists t :: t in s.threads && s.threads[t].ResettingRoom? && s.threads[t].at.room == room
  }

  lemma NotStuckInLife(s: State, room: Id)
    requires L.NoStuck(LifeOf(s)) && room in s.db.rooms && s.db.rooms[room].state != Ready
    ensures HasActive(s.db, room) || ReadyPending(s, room)
  {
    NoneActive(s, room);
    var l := LifeOf(s);
    assert room in l.rooms;
    if !L.SomeActive(l, room) {
      var t :| t in l.threads && l.threads[t].Resetting? && l.threads[t].room == room;
      assert s.threads[t].ResettingRoom?;
    }
  }

  /** The session exists and is at least so far: 0 STARTING, 1 RUNNING, 2 ENDED or FAILED; or it is deleted for good. */
  ghost predicate Past(s: State, x: Id, rank: nat) {
    x < s.db.nextId && (x in s.db.sessions ==> rank <= L.Rank(s.db.sessions[x].status))
  }

  lemma ListingThread(s: State, t: Id)
    requires t in s.threads && s.threads[t].ListingListeners?
    ensures t in LifeOf(s).threads && LifeOf(s).threads[t] == L.Listing(s.threads[t].session, s.threads[t].at.room)
    ensures !L.Fanned(LifeOf(s), s.threads[t].session)
  {
    var l := LifeOf(s);
    assert L.Owns(l.threads[t]) && !l.threads[t].Fanning?;
  }

  // ---- The room mirrors its session ----

  /** The thread still writes to a session or to the state of the room, whatever became of its session. (The
      promotion does not: it returns when its session is no longer STARTING.) */
  predicate BusyWith(th: Thread, room: Id) {
    ViewOf(th).Some? && th.at.room == room && !th.Promoting? && !th.ListingListeners? && !th.FanningOut?
  }

  /** A start takes effect only when no start handler, activator, stop or host event of the room's earlier
      sessions has writes left. */
  predicate Orderly(s: State, a: Action) {
    a.Start? && Step(s, a) != s ==> forall t :: t in s.threads ==> !BusyWith(s.threads[t], a.at.room)
  }

  /** No thread is between a session's write and the room write that goes with it. */
  predicate Settled(s: State, room: Id) {
    forall t :: t in s.threads && (s.threads[t].MarkingRunning? || s.threads[t].ResettingRoom?) ==> s.threads[t].at.room != room
  }

  predicate HasSession(db: Db, room: Id, status: SessionStatus) {
    exists x :: x in db.sessions && db.sessions[x].room == room && db.sessions[x].status == status
  }

  /** The room column says exactly what the room's active session does. */
  predicate Mirrors(db: Db, room: Id)
    requires room in db.rooms
  {
    && (db.rooms[room].state == Ready <==> !HasActive(db, room))
    && (db.rooms[room].state == Starting <==> HasSession(db, room, SessionStarting))
    && (db.rooms[room].state == Running <==> HasSession(db, room, SessionRunning))
  }

  lemma OrderlyLife(s: State, a: Action)
    requires Orderly(s, a)
    ensures L.Orderly(LifeOf(s), EffectOf(s, a))
  {
    if a.Start? && Step(s, a) != s {
      forall t | t in LifeOf(s).threads && LifeOf(s).threads[t].room == a.at.room ensures !L.Writes(LifeOf(s).threads[t]) {
        assert !BusyWith(s.threads[t], a.at.room);
      }
    }
  }

  lemma SessionsOf(s: State, room: Id, status: SessionStatus)
    requires IsActive(status)
    ensures HasSession(s.db, room, status)
       <==> exists x :: x in LifeOf(s).sessions && L.ActiveIn(LifeOf(s), x, room) && LifeOf(s).sessions[x].status == status
  {
    if HasSession(s.db, room, status) {
      var x :| x in s.db.sessions && s.db.sessions[x].room == room && s.db.sessions[x].status == status;
      assert L.ActiveIn(LifeOf(s), x, room);
    }
  }

  lemma MirrorsInLife(s: State, room: Id)
    requires L.Basic(LifeOf(s)) && L.NoStuck(LifeOf(s)) && L.Mirrors(LifeOf(s))
    requires room in s.db.rooms && Settled(s, room)
    ensures Mirrors(s.db, room)
  {
    SettledInLife(s, room);
    L.SettledMirror(LifeOf(s), room);
    NoneActive(s, room);
    SessionsOf(s, room, SessionStarting);
    SessionsOf(s, room, SessionRunning);
  }

  lemma SettledInLife(s: State, room: Id)
    requires Settled(s, room)
    ensures L.Settled(LifeOf(s), room)
  {
  }
}
