/** What a run can go on to: actions followed from a given state. */
module Continuations {
  import opened Tables
  import opened RoomProtocol

  function Follow(s: State, actions: seq<Action>): State
    decreases |actions|
  {
    if actions == [] then s else Follow(Step(s, actions[0]), actions[1..])
  }

  lemma {:induction false} FollowOn(s: State, first: seq<Action>, rest: seq<Action>)
    ensures Follow(s, first + rest) == Follow(Follow(s, first), rest)
    decreases |first|
  {
    if first == [] {
      assert first + rest == rest;
    } else {
      assert (first + rest)[1..] == first[1..] + rest;
      FollowOn(Step(s, first[0]), first[1..], rest);
    }
  }

  lemma Chain(s: State, first: seq<Action>, s1: State, next: seq<Action>, s2: State)
    requires Follow(s, first) == s1 && Follow(s1, next) == s2
    ensures Follow(s, first + next) == s2
  {
    FollowOn(s, first, next);
  }

  lemma FollowOne(s: State, a: Action)
    ensures Follow(s, [a]) == Step(s, a)
  {
    assert [a][1..] == [];
  }

  lemma FollowTwo(s: State, a: Action, b: Action)
    ensures Follow(s, [a, b]) == Step(Step(s, a), b)
  {
    assert [a] + [b] == [a, b];
    FollowOn(s, [a], [b]);
    FollowOne(s, a);
    FollowOne(Step(s, a), b);
  }

  lemma FollowThree(s: State, a: Action, b: Action, c: Action)
    ensures Follow(s, [a, b, c]) == Step(Step(Step(s, a), b), c)
  {
    assert [a, b] + [c] == [a, b, c];
    FollowOn(s, [a, b], [c]);
    FollowTwo(s, a, b);
    FollowOne(Step(Step(s, a), b), c);
  }

  lemma Overwritten(threads: map<Id, Thread>, t: Id, before: Thread, after: Thread)
    ensures threads[t := before][t := after] == threads[t := after]
  {
  }

  function Go(t: Id): Action { Advance(t, true, 0, 0) }
}
