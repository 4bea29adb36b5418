/** Majorities of a cluster meet. */
module Quorums {

  function Ids(size: nat): (ids: set<nat>)
    ensures forall i: nat :: i in ids <==> i < size
  {
    if size == 0 then {} else Ids(size - 1) + {size - 1}
  }

  lemma {:induction false} IdsCount(size: nat)
    ensures |Ids(size)| == size
  {
    if size != 0 {
      IdsCount(size - 1);
    }
  }

  lemma {:induction false} SubsetCount<T>(a: set<T>, b: set<T>)
    requires a <= b
    ensures |a| <= |b|
  {
    if a != {} {
      var x :| x in a;
      SubsetCount(a - {x}, b - {x});
    }
  }

  /** Two sets that each hold more than half of the cluster share a node. */
  lemma QuorumsMeet(a: set<nat>, b: set<nat>, size: nat) returns (x: nat)
    requires a <= Ids(size) && b <= Ids(size)
    requires 2 * |a| > size && 2 * |b| > size
    ensures x in a && x in b
  {
    IdsCount(size);
    SubsetCount(a + b, Ids(size));
    assert |a + b| == |a| + |b| - |a * b|;
    x :| x in a * b;
  }
}
