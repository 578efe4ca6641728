/** What a run of the control API can go on to. */
module SpeakerContinuations {
  import opened SpeakerProtocol
  import P = RoomProtocol
  import PC = Continuations

  function Follow(w: World, limit: nat, actions: seq<Action>): World
    decreases |actions|
  {
    if actions == [] then w else Follow(Step(w, limit, actions[0]), limit, actions[1..])
  }

  lemma {:induction false} FollowOn(w: World, limit: nat, first: seq<Action>, rest: seq<Action>)
    ensures Follow(w, limit, first + rest) == Follow(Follow(w, limit, first), limit, rest)
    decreases |first|
  {
    if first == [] {
      assert first + rest == rest;
    } else {
      assert (first + rest)[1..] == first[1..] + rest;
      FollowOn(Step(w, limit, first[0]), limit, first[1..], rest);
    }
  }

  lemma FollowOne(w: World, limit: nat, a: Action)
    ensures Follow(w, limit, [a]) == Step(w, limit, a)
  {
    assert [a][1..] == [];
  }

  lemma FollowTwo(w: World, limit: nat, a: Action, b: Action)
    ensures Follow(w, limit, [a, b]) == Step(Step(w, limit, a), limit, b)
  {
    assert [a] + [b] == [a, b];
    FollowOn(w, limit, [a], [b]);
    FollowOne(w, limit, a);
    FollowOne(Step(w, limit, a), limit, b);
  }

  /** A run goes on as its last state does. */
  lemma {:induction false} AfterMore(limit: nat, run: seq<Action>, more: seq<Action>)
    ensures After(limit, run + more) == Follow(After(limit, run), limit, more)
    decreases |more|
  {
    if more == [] {
      assert run + more == run;
    } else {
      assert (run + [more[0]])[..|run|] == run;
      assert run + [more[0]] + more[1..] == run + more;
      AfterMore(limit, run + [more[0]], more[1..]);
    }
  }

  function Cored(actions: seq<P.Action>): seq<Action> {
    if actions == [] then [] else [Core(actions[0])] + Cored(actions[1..])
  }

  /** The room protocol goes on by itself. */
  lemma {:induction false} FollowCored(w: World, limit: nat, actions: seq<P.Action>)
    ensures Follow(w, limit, Cored(actions)) == World(PC.Follow(w.core, actions), w.speakers)
    decreases |actions|
  {
    if actions != [] {
      assert Cored(actions)[0] == Core(actions[0]) && Cored(actions)[1..] == Cored(actions[1..]);
      FollowCored(Step(w, limit, Core(actions[0])), limit, actions[1..]);
    }
  }
}
