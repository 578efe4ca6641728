/** Sizes of finite sets. */
module Counting {

  lemma {:induction false} Fewer<T>(few: set<T>, many: set<T>)
    requires few <= many
    ensures |few| <= |many|
  {
    if few != {} {
      var x :| x in few;
      Fewer(few - {x}, many - {x});
    }
  }

  lemma Less<T>(items: set<T>, x: T)
    ensures |items - {x}| == |items| - (if x in items then 1 else 0)
  {
    if x !in items { assert items - {x} == items; }
  }

  lemma More<T>(items: set<T>, x: T)
    ensures |items + {x}| == |items| + (if x in items then 0 else 1)
  {
    if x in items { assert items + {x} == items; }
  }

  lemma Removed<T>(many: set<T>, few: set<T>)
    requires few <= many
    ensures |many - few| == |many| - |few|
  {
    assert many == (many - few) + few;
  }

  /** A number that is no element. */
  lemma {:induction false} Unused(ids: set<nat>) returns (next: nat)
    ensures forall x | x in ids :: x < next
    decreases |ids|
  {
    if ids == {} {
      next := 0;
    } else {
      var x :| x in ids;
      next := Unused(ids - {x});
      if next <= x { next := x + 1; }
      assert ids == (ids - {x}) + {x};
    }
  }
}
