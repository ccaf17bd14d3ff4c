// Sizes of finite sets of numbers.

module FiniteSets {

  /** The numbers below n. */
  function Below(n: nat): (b: set<nat>)
    ensures |b| == n
    ensures forall i: nat :: i in b <==> i < n
  {
    if n == 0 then {} else Below(n - 1) + {n - 1}
  }

  lemma {:induction false} SubsetSize(a: set<nat>, b: set<nat>)
    requires a <= b
    ensures |a| <= |b|
  {
    if a != {} {
      var x :| x in a;
      SubsetSize(a - {x}, b - {x});
    }
  }

  /** The elements of a sequence. */
  function Members(q: seq<nat>): set<nat> { set x | x in q }

  lemma {:induction false} SizeOfDistinct(q: seq<nat>)
    requires forall i, j :: 0 <= i < j < |q| ==> q[i] != q[j]
    ensures |Members(q)| == |q|
  {
    if q != [] {
      var r := q[..|q| - 1];
      SizeOfDistinct(r);
      assert q == r + [q[|q| - 1]];
      assert Members(q) == Members(r) + {q[|q| - 1]};
    }
  }

  /** Distinct numbers below n: there are at most n of them. */
  lemma DistinctFit(q: seq<nat>, n: nat)
    requires forall i, j :: 0 <= i < j < |q| ==> q[i] != q[j]
    requires forall i :: 0 <= i < |q| ==> q[i] < n
    ensures |q| <= n
  {
    SizeOfDistinct(q);
    SubsetSize(Members(q), Below(n));
  }
}
