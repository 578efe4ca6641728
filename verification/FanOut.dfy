/** The fan-out of `activateRoomAfterHost`: one goroutine a listener, a buffered channel of 32 as semaphore
    and a wait group. A step is one channel, wait-group or dispatch operation of one goroutine, and a
    schedule is any sequence of enabled steps. */
module FanOut {
  import opened Tables

  /** The capacity of the semaphore channel. */
  const SLOTS := 32

  /** A goroutine's next operation: it is not started, is about to send on the channel, is inside the
      dispatch, is about to receive from the channel, is about to call Done, or has ended. */
  datatype Phase = Unspawned | Acquiring | Calling | Releasing | Leaving | Gone

  /** `spawned` goroutines started; `added` when the loop has called Add but not yet started the next one;
      `slots` values in the channel; `group` the wait group's counter; `log` the dispatches begun, in order. */
  datatype State = State(phases: seq<Phase>, spawned: nat, added: bool, slots: int, group: int, log: seq<Id>, returned: bool)

  datatype Action = Add | Spawn | Acquire(i: nat) | Answer(i: nat) | Release(i: nat) | Leave(i: nat) | Return

  function Initial(ids: seq<Id>): State { State(seq(|ids|, i => Unspawned), 0, false, 0, 0, [], false) }

  predicate In(s: State, i: nat, phase: Phase) { i < |s.phases| && s.phases[i] == phase }

  /** What Go's channel and wait group let happen. A receive from an empty channel would block. */
  predicate Enabled(s: State, a: Action) {
    match a
    case Add => s.spawned < |s.phases| && !s.added
    case Spawn => s.added
    case Acquire(i) => In(s, i, Acquiring) && s.slots < SLOTS
    case Answer(i) => In(s, i, Calling)
    case Release(i) => In(s, i, Releasing) && 0 < s.slots
    case Leave(i) => In(s, i, Leaving)
    case Return => s.spawned == |s.phases| && !s.added && s.group == 0 && !s.returned
  }

  function Step(ids: seq<Id>, s: State, a: Action): State
    requires |s.phases| == |ids| && Enabled(s, a) && (a.Spawn? ==> s.spawned < |ids|)
  {
    match a
    case Add => s.(added := true, group := s.group + 1)
    case Spawn => s.(phases := s.phases[s.spawned := Acquiring], spawned := s.spawned + 1, added := false)
    case Acquire(i) => s.(phases := s.phases[i := Calling], slots := s.slots + 1, log := s.log + [ids[i]])
    case Answer(i) => s.(phases := s.phases[i := Releasing])
    case Release(i) => s.(phases := s.phases[i := Leaving], slots := s.slots - 1)
    case Leave(i) => s.(phases := s.phases[i := Gone], group := s.group - 1)
    case Return => s.(returned := true)
  }

  // ---- Counting phases ----

  const HOLDING := {Calling, Releasing}
  const COUNTED := {Acquiring, Calling, Releasing, Leaving}

  function Count(phases: seq<Phase>, kinds: set<Phase>): nat {
    if phases == [] then 0 else Count(phases[1..], kinds) + (if phases[0] in kinds then 1 else 0)
  }

  lemma {:induction false} CountUpdate(phases: seq<Phase>, i: nat, to: Phase, kinds: set<Phase>)
    requires i < |phases|
    ensures Count(phases[i := to], kinds)
         == Count(phases, kinds) - (if phases[i] in kinds then 1 else 0) + (if to in kinds then 1 else 0)
  {
    if i > 0 {
      assert phases[i := to][1..] == phases[1..][i - 1 := to];
      CountUpdate(phases[1..], i - 1, to, kinds);
    } else {
      assert phases[i := to][1..] == phases[1..];
    }
  }

  lemma {:induction false} CountNone(phases: seq<Phase>, kinds: set<Phase>)
    ensures Count(phases, kinds) == 0 <==> forall i | 0 <= i < |phases| :: phases[i] !in kinds
  {
    if phases != [] {
      CountNone(phases[1..], kinds);
      assert forall i | 0 < i < |phases| :: phases[i] == phases[1..][i - 1];
      if forall i | 0 <= i < |phases| :: phases[i] !in kinds {
        forall i | 0 <= i < |phases| - 1 ensures phases[1..][i] !in kinds { assert phases[1..][i] == phases[i + 1]; }
      }
    }
  }

  lemma {:induction false} CountLess(phases: seq<Phase>, few: set<Phase>, many: set<Phase>)
    requires few <= many
    ensures Count(phases, few) <= Count(phases, many)
  {
    if phases != [] { CountLess(phases[1..], few, many); }
  }

  /** The goroutine's dispatch has not begun. */
  predicate Idle(phase: Phase) { phase.Unspawned? || phase.Acquiring? }

  /** The listeners whose dispatch has begun, with multiplicity. */
  function Begun(ids: seq<Id>, phases: seq<Phase>): multiset<Id>
    requires |ids| == |phases|
  {
    if ids == [] then multiset{}
    else Begun(ids[1..], phases[1..]) + (if Idle(phases[0]) then multiset{} else multiset{ids[0]})
  }

  lemma {:induction false} BegunUpdate(ids: seq<Id>, phases: seq<Phase>, i: nat, to: Phase)
    requires |ids| == |phases| && i < |ids|
    requires Idle(phases[i]) || !Idle(to)
    ensures Begun(ids, phases[i := to])
         == Begun(ids, phases) + (if Idle(phases[i]) && !Idle(to) then multiset{ids[i]} else multiset{})
  {
    if i > 0 {
      assert phases[i := to][1..] == phases[1..][i - 1 := to];
      BegunUpdate(ids[1..], phases[1..], i - 1, to);
      assert ids[1..][i - 1] == ids[i] && phases[1..][i - 1] == phases[i];
    } else {
      assert phases[i := to][1..] == phases[1..];
    }
  }

  lemma {:induction false} BegunAll(ids: seq<Id>, phases: seq<Phase>)
    requires |ids| == |phases| && forall i | 0 <= i < |phases| :: phases[i] == Gone
    ensures Begun(ids, phases) == multiset(ids)
  {
    if ids != [] {
      BegunAll(ids[1..], phases[1..]);
      assert ids == [ids[0]] + ids[1..];
    }
  }

  lemma {:induction false} BegunNone(ids: seq<Id>, phases: seq<Phase>)
    requires |ids| == |phases| && forall i | 0 <= i < |phases| :: phases[i] == Unspawned
    ensures Begun(ids, phases) == multiset{}
  {
    if ids != [] { BegunNone(ids[1..], phases[1..]); }
  }

  /** Operations still to come: every goroutine has six, two of them its parent's, and the wait is one more. */
  function Weight(phase: Phase): nat {
    match phase case Unspawned => 6 case Acquiring => 4 case Calling => 3 case Releasing => 2 case Leaving => 1 case Gone => 0
  }

  function Weights(phases: seq<Phase>): nat { if phases == [] then 0 else Weights(phases[1..]) + Weight(phases[0]) }

  lemma {:induction false} WeightsUpdate(phases: seq<Phase>, i: nat, to: Phase)
    requires i < |phases|
    ensures Weights(phases[i := to]) == Weights(phases) - Weight(phases[i]) + Weight(to)
  {
    if i > 0 {
      assert phases[i := to][1..] == phases[1..][i - 1 := to];
      WeightsUpdate(phases[1..], i - 1, to);
    } else {
      assert phases[i := to][1..] == phases[1..];
    }
  }

  lemma {:induction false} WeightsInitial(phases: seq<Phase>)
    requires forall i | 0 <= i < |phases| :: phases[i] == Unspawned
    ensures Weights(phases) == 6 * |phases|
  {
    if phases != [] { WeightsInitial(phases[1..]); }
  }

  function Work(s: State): int { Weights(s.phases) - (if s.added then 1 else 0) + (if s.returned then 0 else 1) }

  // ---- The invariant ----

  ghost predicate Valid(ids: seq<Id>, s: State) {
    && |s.phases| == |ids| && s.spawned <= |ids| && (s.added ==> s.spawned < |ids|)
    && (forall i | 0 <= i < |ids| :: s.phases[i] == Unspawned <==> s.spawned <= i)
    && s.slots == Count(s.phases, HOLDING) <= SLOTS
    && s.group == Count(s.phases, COUNTED) + (if s.added then 1 else 0)
    && multiset(s.log) == Begun(ids, s.phases)
    && (s.returned ==> s.spawned == |ids| && s.group == 0 && !s.added)
  }

  lemma InitialValid(ids: seq<Id>)
    ensures Valid(ids, Initial(ids)) && Work(Initial(ids)) == 6 * |ids| + 1
  {
    var s := Initial(ids);
    CountNone(s.phases, HOLDING);
    CountNone(s.phases, COUNTED);
    BegunNone(ids, s.phases);
    WeightsInitial(s.phases);
  }

  lemma PhaseMoved(ids: seq<Id>, s: State, i: nat, to: Phase)
    requires Valid(ids, s) && i < |ids| && (Idle(s.phases[i]) || !Idle(to))
    ensures var phases := s.phases[i := to];
      && Count(phases, HOLDING) == Count(s.phases, HOLDING) - (if s.phases[i] in HOLDING then 1 else 0) + (if to in HOLDING then 1 else 0)
      && Count(phases, COUNTED) == Count(s.phases, COUNTED) - (if s.phases[i] in COUNTED then 1 else 0) + (if to in COUNTED then 1 else 0)
      && Begun(ids, phases) == Begun(ids, s.phases)
           + (if Idle(s.phases[i]) && !Idle(to) then multiset{ids[i]} else multiset{})
      && Weights(phases) == Weights(s.phases) - Weight(s.phases[i]) + Weight(to)
  {
    CountUpdate(s.phases, i, to, HOLDING);
    CountUpdate(s.phases, i, to, COUNTED);
    BegunUpdate(ids, s.phases, i, to);
    WeightsUpdate(s.phases, i, to);
  }

  lemma SpawnValid(ids: seq<Id>, s: State)
    requires Valid(ids, s) && Enabled(s, Spawn)
    ensures Valid(ids, Step(ids, s, Spawn)) && Work(Step(ids, s, Spawn)) == Work(s) - 1
  {
    PhaseMoved(ids, s, s.spawned, Acquiring);
  }

  lemma AcquireValid(ids: seq<Id>, s: State, i: nat)
    requires Valid(ids, s) && Enabled(s, Acquire(i))
    ensures Valid(ids, Step(ids, s, Acquire(i))) && Work(Step(ids, s, Acquire(i))) == Work(s) - 1
  {
    PhaseMoved(ids, s, i, Calling);
    assert multiset(s.log + [ids[i]]) == multiset(s.log) + multiset{ids[i]};
  }

  lemma AnswerValid(ids: seq<Id>, s: State, i: nat)
    requires Valid(ids, s) && Enabled(s, Answer(i))
    ensures Valid(ids, Step(ids, s, Answer(i))) && Work(Step(ids, s, Answer(i))) == Work(s) - 1
  {
    PhaseMoved(ids, s, i, Releasing);
  }

  lemma ReleaseValid(ids: seq<Id>, s: State, i: nat)
    requires Valid(ids, s) && Enabled(s, Release(i))
    ensures Valid(ids, Step(ids, s, Release(i))) && Work(Step(ids, s, Release(i))) == Work(s) - 1
  {
    PhaseMoved(ids, s, i, Leaving);
  }

  lemma LeaveValid(ids: seq<Id>, s: State, i: nat)
    requires Valid(ids, s) && Enabled(s, Leave(i))
    ensures Valid(ids, Step(ids, s, Leave(i))) && Work(Step(ids, s, Leave(i))) == Work(s) - 1
  {
    PhaseMoved(ids, s, i, Gone);
  }

  lemma ParentValid(ids: seq<Id>, s: State, a: Action)
    requires Valid(ids, s) && (a == Add || a == Return) && Enabled(s, a)
    ensures Valid(ids, Step(ids, s, a)) && Work(Step(ids, s, a)) == Work(s) - 1
  {
    assert Step(ids, s, a).phases == s.phases;
  }

  /** Every operation keeps the invariant and uses up one unit of the work. */
  lemma StepValid(ids: seq<Id>, s: State, a: Action)
    requires Valid(ids, s) && Enabled(s, a)
    ensures Valid(ids, Step(ids, s, a)) && Work(Step(ids, s, a)) == Work(s) - 1
  {
    match a
    case Spawn => SpawnValid(ids, s);
    case Acquire(i) => AcquireValid(ids, s, i);
    case Answer(i) => AnswerValid(ids, s, i);
    case Release(i) => ReleaseValid(ids, s, i);
    case Leave(i) => LeaveValid(ids, s, i);
    case _ => ParentValid(ids, s, a);
  }

  /** Until the wait has returned, something can run: no deadlock. A goroutine that holds a slot can always
      go on, in particular its receive never blocks. */
  lemma Progress(ids: seq<Id>, s: State) returns (a: Action)
    requires Valid(ids, s) && !s.returned
    ensures Enabled(s, a)
  {
    CountNone(s.phases, HOLDING);
    CountNone(s.phases, COUNTED);
    if s.added {
      a := Spawn;
    } else if s.spawned < |ids| {
      a := Add;
    } else if i :| 0 <= i < |ids| && s.phases[i] == Calling {
      a := Answer(i);
    } else if i :| 0 <= i < |ids| && s.phases[i] == Releasing {
      assert s.slots != 0;
      a := Release(i);
    } else if i :| 0 <= i < |ids| && s.phases[i] == Leaving {
      a := Leave(i);
    } else if i :| 0 <= i < |ids| && s.phases[i] == Acquiring {
      assert s.slots == 0;
      a := Acquire(i);
    } else {
      a := Return;
    }
  }

  // ---- Schedules ----

  /** The schedule runs from the start to `s`: every operation was enabled when it ran. */
  ghost predicate Reaches(ids: seq<Id>, schedule: seq<Action>, s: State) {
    if schedule == [] then s == Initial(ids)
    else
      exists before :: Reaches(ids, schedule[..|schedule| - 1], before) && |before.phases| == |ids|
        && Enabled(before, schedule[|schedule| - 1])
        && (schedule[|schedule| - 1].Spawn? ==> before.spawned < |ids|)
        && s == Step(ids, before, schedule[|schedule| - 1])
  }

  lemma {:induction false} Reachable(ids: seq<Id>, schedule: seq<Action>, s: State)
    requires Reaches(ids, schedule, s)
    ensures Valid(ids, s) && Work(s) == 6 * |ids| + 1 - |schedule|
  {
    if schedule == [] {
      InitialValid(ids);
    } else {
      var last := schedule[|schedule| - 1];
      var before :| Reaches(ids, schedule[..|schedule| - 1], before) && |before.phases| == |ids| && Enabled(before, last)
        && (last.Spawn? ==> before.spawned < |ids|) && s == Step(ids, before, last);
      Reachable(ids, schedule[..|schedule| - 1], before);
      StepValid(ids, before, last);
    }
  }

  function InFlight(s: State): nat { Count(s.phases, {Calling}) }

  /** In every state of every schedule at most 32 dispatches are in flight, a goroutine that waits for its slot gets it
      exactly while fewer than 32 are inside, no listener has been dispatched
      more often than the list names it, and while the wait has not returned something can run. */
  lemma BoundedFanOut(ids: seq<Id>, schedule: seq<Action>, s: State)
    requires Reaches(ids, schedule, s)
    ensures InFlight(s) <= 32
    ensures forall i | 0 <= i < |s.phases| && s.phases[i] == Acquiring :: Enabled(s, Acquire(i)) <==> Count(s.phases, {Calling, Releasing}) < 32
    ensures multiset(s.log) <= multiset(ids)
    ensures !s.returned ==> exists a :: Enabled(s, a)
    ensures |schedule| <= 6 * |ids| + 1
  {
    Reachable(ids, schedule, s);
    CountLess(s.phases, {Calling}, HOLDING);
    BegunWithin(ids, s.phases);
    if !s.returned { var a := Progress(ids, s); }
    WorkLeft(ids, s);
  }

  lemma {:induction false} BegunWithin(ids: seq<Id>, phases: seq<Phase>)
    requires |ids| == |phases|
    ensures Begun(ids, phases) <= multiset(ids)
  {
    if ids != [] {
      BegunWithin(ids[1..], phases[1..]);
      assert ids == [ids[0]] + ids[1..];
    }
  }

  lemma {:induction false} SomeWeight(phases: seq<Phase>, i: nat)
    requires i < |phases|
    ensures Weight(phases[i]) <= Weights(phases)
  {
    if i > 0 { SomeWeight(phases[1..], i - 1); }
  }

  lemma WorkLeft(ids: seq<Id>, s: State)
    requires Valid(ids, s)
    ensures 0 <= Work(s)
  {
    if s.added { SomeWeight(s.phases, s.spawned); }
  }

  /** The wait returns only when nothing is in flight and every listener was dispatched exactly once, and a
      schedule that has no further operation has returned, after exactly six operations a listener and the wait. */
  lemma CompleteFanOut(ids: seq<Id>, schedule: seq<Action>, s: State)
    requires Reaches(ids, schedule, s)
    ensures s.returned <==> forall a :: !Enabled(s, a)
    ensures s.returned <==> |schedule| == 6 * |ids| + 1
    ensures s.returned ==> InFlight(s) == 0 && multiset(s.log) == multiset(ids)
  {
    Reachable(ids, schedule, s);
    if s.returned {
      AllGone(ids, s);
    } else {
      var a := Progress(ids, s);
      StepValid(ids, s, a);
      WorkLeft(ids, Step(ids, s, a));
    }
  }

  lemma AllGone(ids: seq<Id>, s: State)
    requires Valid(ids, s) && s.returned
    ensures forall i | 0 <= i < |ids| :: s.phases[i] == Gone
    ensures InFlight(s) == 0 && multiset(s.log) == multiset(ids) && Work(s) == 0
    ensures forall a :: !Enabled(s, a)
  {
    CountNone(s.phases, COUNTED);
    CountNone(s.phases, {Calling});
    BegunAll(ids, s.phases);
    NoWeight(s.phases);
  }

  lemma {:induction false} NoWeight(phases: seq<Phase>)
    requires forall i | 0 <= i < |phases| :: phases[i] == Gone
    ensures Weights(phases) == 0
  {
    if phases != [] { NoWeight(phases[1..]); }
  }
}
