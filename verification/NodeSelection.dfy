/** Node selection of the SIP edge: a filter over the listing's own backing array, the least load with a
    tolerance, and a round-robin cursor. Load scores are reals. */
module NodeSelection {
  import opened Options

  datatype Node = Node(id: string, drainState: string, capacity: int, activeCalls: int, loadScore: real)

  const EPSILON := 0.000001

  predicate Eligible(n: Node) { n.drainState != "DRAINING" && n.drainState != "DRAINED" && n.activeCalls < n.capacity }

  /** Neither draining nor drained, with a call less than it can hold. */
  predicate TakesCalls(n: Node) { n.drainState !in ["DRAINING", "DRAINED"] && n.activeCalls < n.capacity }

  lemma EligibleMeans()
    ensures forall n :: Eligible(n) <==> TakesCalls(n)
  {
  }

  function Filter(nodes: seq<Node>): seq<Node> {
    if nodes == [] then []
    else Filter(nodes[..|nodes| - 1]) + (if Eligible(nodes[|nodes| - 1]) then [nodes[|nodes| - 1]] else [])
  }

  function Least(nodes: seq<Node>): real
    requires nodes != []
  {
    var last := nodes[|nodes| - 1].loadScore;
    if |nodes| == 1 then last
    else
      var before := Least(nodes[..|nodes| - 1]);
      if last < before then last else before
  }

  function UpTo(nodes: seq<Node>, bound: real): seq<Node> {
    if nodes == [] then []
    else UpTo(nodes[..|nodes| - 1], bound) + (if nodes[|nodes| - 1].loadScore <= bound then [nodes[|nodes| - 1]] else [])
  }

  /** The tied candidates of a listing. */
  function Candidates(nodes: seq<Node>): seq<Node> {
    if Filter(nodes) == [] then [] else UpTo(Filter(nodes), Least(Filter(nodes)) + EPSILON)
  }

  // ---- What the parts mean ----

  lemma {:induction false} FilterMeans(nodes: seq<Node>)
    ensures forall n :: n in Filter(nodes) <==> n in nodes && Eligible(n)
    ensures |Filter(nodes)| <= |nodes|
  {
    if nodes != [] {
      FilterMeans(nodes[..|nodes| - 1]);
      assert nodes == nodes[..|nodes| - 1] + [nodes[|nodes| - 1]];
    }
  }

  lemma {:induction false} LeastMeans(nodes: seq<Node>)
    requires nodes != []
    ensures forall n | n in nodes :: Least(nodes) <= n.loadScore
    ensures exists n :: n in nodes && n.loadScore == Least(nodes)
  {
    var front, last := nodes[..|nodes| - 1], nodes[|nodes| - 1];
    assert nodes == front + [last];
    if front == [] {
      assert Least(nodes) == last.loadScore && forall n :: n in nodes <==> n == last;
    } else {
      LeastMeans(front);
      LeastOf(nodes, front, last);
    }
  }

  lemma LeastOf(nodes: seq<Node>, front: seq<Node>, last: Node)
    requires front != [] && nodes == front + [last]
    requires Least(nodes) == if last.loadScore < Least(front) then last.loadScore else Least(front)
    requires (forall n | n in front :: Least(front) <= n.loadScore) && exists n :: n in front && n.loadScore == Least(front)
    ensures (forall n | n in nodes :: Least(nodes) <= n.loadScore) && exists n :: n in nodes && n.loadScore == Least(nodes)
  {
    var n :| n in front && n.loadScore == Least(front);
    assert n in nodes && last in nodes;
  }

  lemma {:induction false} UpToMeans(nodes: seq<Node>, bound: real)
    ensures forall n :: n in UpTo(nodes, bound) <==> n in nodes && n.loadScore <= bound
  {
    if nodes != [] {
      UpToMeans(nodes[..|nodes| - 1], bound);
      assert nodes == nodes[..|nodes| - 1] + [nodes[|nodes| - 1]];
    }
  }

  /** The candidates are the eligible nodes within epsilon of the least load, and there are some exactly when
      some node is eligible. */
  lemma CandidatesMean(nodes: seq<Node>)
    ensures forall n :: n in Candidates(nodes) <==>
      n in nodes && Eligible(n) && forall m | m in nodes && Eligible(m) :: n.loadScore <= m.loadScore + EPSILON
    ensures Candidates(nodes) == [] <==> forall n | n in nodes :: !Eligible(n)
  {
    var eligible := Filter(nodes);
    FilterMeans(nodes);
    if eligible == [] {
      forall n | n in nodes ensures !Eligible(n) { assert n !in eligible; }
    } else {
      LeastMeans(eligible);
      UpToMeans(eligible, Least(eligible) + EPSILON);
      var least :| least in eligible && least.loadScore == Least(eligible);
      assert least in Candidates(nodes);
    }
  }

  /** `selectNode` up to the pick: listing, in-place filter and minimum, with the cursor it shares. */
  class Selector {
    var cursor: nat

    constructor ()
      ensures cursor == 0
    {
      cursor := 0;
    }

    /** Compacts the eligible nodes to the front of the array they are read from. */
    method FilterInPlace(nodes: array<Node>) returns (kept: nat)
      modifies nodes
      ensures kept <= nodes.Length && nodes[..kept] == Filter(old(nodes[..]))
    {
      kept := 0;
      for i := 0 to nodes.Length
        invariant kept <= i
        invariant nodes[..kept] == Filter(old(nodes[..i]))
        invariant forall k | i <= k < nodes.Length :: nodes[k] == old(nodes[k])
      {
        ghost var seen := old(nodes[..i + 1]);
        assert seen[..i] == old(nodes[..i]) && seen[i] == old(nodes[i]);
        var candidate := nodes[i];
        assert candidate == seen[i];
        assert Filter(seen) == Filter(seen[..i]) + (if Eligible(candidate) then [candidate] else []);
        if Eligible(candidate) {
          ghost var before := nodes[..kept];
          nodes[kept] := candidate;
          kept := kept + 1;
          assert nodes[..kept] == before + [candidate];
        }
      }
      assert old(nodes[..nodes.Length]) == old(nodes[..]);
    }

    method LeastLoad(nodes: array<Node>, count: nat) returns (least: real)
      requires 0 < count <= nodes.Length
      ensures least == Least(nodes[..count])
    {
      least := nodes[0].loadScore;
      for i := 1 to count
        invariant least == Least(nodes[..i])
      {
        assert nodes[..i + 1][..i] == nodes[..i];
        if nodes[i].loadScore < least { least := nodes[i].loadScore; }
      }
    }

    method Tied(nodes: array<Node>, count: nat, bound: real) returns (tied: seq<Node>)
      requires count <= nodes.Length
      ensures tied == UpTo(nodes[..count], bound)
    {
      tied := [];
      for i := 0 to count
        invariant tied == UpTo(nodes[..i], bound)
      {
        assert nodes[..i + 1][..i] == nodes[..i];
        if nodes[i].loadScore <= bound { tied := tied + [nodes[i]]; }
      }
    }

    /** None for the listing is a listing that failed. */
    method SelectNode(listed: Option<array<Node>>) returns (selected: Option<Node>)
      modifies this, if listed.Some? then {listed.value} else {}
      ensures selected.None? <==> listed.None? || forall n | n in old(listed.value[..]) :: !Eligible(n)
      // the same, spelled out: none exactly when every listed node is draining, drained or full, and otherwise a listed
      // node that is none of these and whose load is within a millionth of every other such node's
      ensures listed.Some? ==>
        (selected.None? <==> forall n | n in old(listed.value[..]) :: n.drainState in ["DRAINING", "DRAINED"] || n.capacity <= n.activeCalls)
      ensures selected.Some? ==> TakesCalls(selected.value) && listed.Some? && selected.value in old(listed.value[..])
      ensures selected.Some? ==> forall m | m in old(listed.value[..]) && TakesCalls(m) :: selected.value.loadScore <= m.loadScore + 0.000001
      ensures listed.Some? ==> (selected.None? <==> Candidates(old(listed.value[..])) == [])
      ensures selected.None? ==> cursor == old(cursor)
      ensures selected.Some? ==> cursor == old(cursor) + 1 && selected.value == Pick(old(listed.value[..]), old(cursor))
    {
      EligibleMeans();
      if listed.None? { return None; }
      var nodes := listed.value;
      ghost var listing := nodes[..];
      CandidatesMean(listing);
      if nodes.Length == 0 { return None; }
      var kept := FilterInPlace(nodes);
      if kept == 0 { return None; }
      var least := LeastLoad(nodes, kept);
      var candidates := Tied(nodes, kept, least + EPSILON);
      assert candidates == Candidates(listing);
      SomeCandidate(listing);
      PickMeans(listing, cursor);
      selected := Some(candidates[cursor % |candidates|]);
      cursor := cursor + 1;
    }
  }

  lemma SomeCandidate(nodes: seq<Node>)
    requires Filter(nodes) != []
    ensures Candidates(nodes) != []
  {
    FilterMeans(nodes);
    CandidatesMean(nodes);
    assert Filter(nodes)[0] in Filter(nodes);
  }

  // ---- Round robin ----

  function Pick(nodes: seq<Node>, cursor: nat): Node
    requires Candidates(nodes) != []
  {
    Candidates(nodes)[cursor % |Candidates(nodes)|]
  }

  /** A selection is an eligible node whose load is within epsilon of the least one's. */
  lemma PickMeans(nodes: seq<Node>, cursor: nat)
    requires Candidates(nodes) != []
    ensures var n := Pick(nodes, cursor);
      n in nodes && Eligible(n) && forall m | m in nodes && Eligible(m) :: n.loadScore <= m.loadScore + EPSILON
  {
    CandidatesMean(nodes);
    assert Pick(nodes, cursor) in Candidates(nodes);
  }

  /** `count` consecutive selections from an unchanged listing. */
  function Picks(nodes: seq<Node>, cursor: nat, count: nat): seq<Node>
    requires Candidates(nodes) != []
  {
    if count == 0 then [] else Picks(nodes, cursor, count - 1) + [Pick(nodes, cursor + count - 1)]
  }

  /** How often the cursor hits position j modulo n in `count` steps from `cursor`. */
  function Hits(cursor: nat, count: nat, n: nat, j: nat): nat
    requires n > 0
  {
    if count == 0 then 0 else Hits(cursor, count - 1, n, j) + (if (cursor + count - 1) % n == j then 1 else 0)
  }

  lemma Multiples(d: int, n: int)
    requires 0 < n
    ensures (d >= 1 ==> d * n >= n) && (d <= -1 ==> d * n <= -n)
  {
    if d >= 1 {
      assert (d - 1) * n >= 0;
    } else if d <= -1 {
      assert (-d - 1) * n >= 0;
    }
  }

  lemma RemainderIs(x: nat, n: nat, q: nat, r: nat)
    requires r < n && x == q * n + r
    ensures x % n == r
  {
    var d := x / n - q;
    assert d * n == r - x % n;
    Multiples(d, n);
  }

  lemma {:induction false} HitsFromZero(count: nat, n: nat, j: nat)
    requires j < n && count <= n
    ensures Hits(0, count, n, j) == if j < count then 1 else 0
  {
    if count > 0 {
      HitsFromZero(count - 1, n, j);
      RemainderIs(count - 1, n, 0, count - 1);
    }
  }

  lemma {:induction false} HitsFront(cursor: nat, count: nat, n: nat, j: nat)
    requires n > 0 && count > 0
    ensures Hits(cursor, count, n, j) == (if cursor % n == j then 1 else 0) + Hits(cursor + 1, count - 1, n, j)
  {
    if count > 1 {
      HitsFront(cursor, count - 1, n, j);
      assert cursor + count - 1 == cursor + 1 + (count - 1) - 1;
    }
  }

  lemma NextTurn(a: nat, n: nat)
    requires n > 0
    ensures (a + n) % n == a % n
  {
    assert a + n == (a / n + 1) * n + a % n;
    RemainderIs(a + n, n, a / n + 1, a % n);
  }

  /** n consecutive steps hit every position once. */
  lemma {:induction false} OneTurn(cursor: nat, n: nat, j: nat)
    requires j < n
    ensures Hits(cursor, n, n, j) == 1
  {
    if cursor == 0 {
      HitsFromZero(n, n, j);
    } else {
      OneTurn(cursor - 1, n, j);
      HitsFront(cursor - 1, n, n, j);
      NextTurn(cursor - 1, n);
      assert cursor + n - 1 == cursor - 1 + n;
    }
  }

  lemma {:induction false} HitsSplit(cursor: nat, a: nat, b: nat, n: nat, j: nat)
    requires n > 0
    ensures Hits(cursor, a + b, n, j) == Hits(cursor, a, n, j) + Hits(cursor + a, b, n, j)
  {
    if b > 0 {
      HitsSplit(cursor, a, b - 1, n, j);
      assert cursor + (a + b) - 1 == cursor + a + b - 1;
    }
  }

  lemma {:induction false} ManyTurns(cursor: nat, k: nat, n: nat, j: nat)
    requires j < n
    ensures Hits(cursor, k * n, n, j) == k
  {
    if k > 0 {
      ManyTurns(cursor, k - 1, n, j);
      OneTurn(cursor + (k - 1) * n, n, j);
      HitsSplit(cursor, (k - 1) * n, n, n, j);
      assert (k - 1) * n + n == k * n;
    }
  }

  lemma {:induction false} PicksAreHits(nodes: seq<Node>, cursor: nat, count: nat, j: nat)
    requires j < |Candidates(nodes)|
    requires forall i | 0 <= i < |Candidates(nodes)| && i != j :: Candidates(nodes)[i] != Candidates(nodes)[j]
    ensures multiset(Picks(nodes, cursor, count))[Candidates(nodes)[j]] == Hits(cursor, count, |Candidates(nodes)|, j)
  {
    if count > 0 {
      PicksAreHits(nodes, cursor, count - 1, j);
      var n := |Candidates(nodes)|;
      var pick := Pick(nodes, cursor + count - 1);
      assert pick == Candidates(nodes)[(cursor + count - 1) % n];
      assert Picks(nodes, cursor, count) == Picks(nodes, cursor, count - 1) + [pick];
    }
  }

  /** With an unchanged listing, any k * n consecutive selections from n tied candidates yield each k times. */
  lemma RoundRobin(nodes: seq<Node>, cursor: nat, k: nat, count: nat, x: Node)
    requires x in Candidates(nodes) && count == k * |Candidates(nodes)|
    requires forall i, j | 0 <= i < j < |Candidates(nodes)| :: Candidates(nodes)[i] != Candidates(nodes)[j]
    ensures multiset(Picks(nodes, cursor, count))[x] == k
  {
    var j :| 0 <= j < |Candidates(nodes)| && Candidates(nodes)[j] == x;
    PicksAreHits(nodes, cursor, count, j);
    ManyTurns(cursor, k, |Candidates(nodes)|, j);
  }
}
