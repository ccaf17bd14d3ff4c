// Sums over the threads of a protocol.

module Sums {

  function Sum<T>(q: seq<T>, f: T -> nat): nat {
    if q == [] then 0 else f(q[0]) + Sum(q[1..], f)
  }

  lemma {:induction false} SumUpdate<T>(q: seq<T>, f: T -> nat, i: nat, x: T)
    requires i < |q|
    ensures Sum(q[i := x], f) == Sum(q, f) - f(q[i]) + f(x)
  {
    if i == 0 {
      assert q[0 := x][1..] == q[1..];
    } else {
      assert q[i := x][1..] == q[1..][i - 1 := x];
      SumUpdate(q[1..], f, i - 1, x);
    }
  }

  lemma {:induction false} SumAtLeast<T>(q: seq<T>, f: T -> nat, i: nat)
    requires i < |q|
    ensures f(q[i]) <= Sum(q, f)
  {
    if i > 0 {
      SumAtLeast(q[1..], f, i - 1);
    }
  }

  lemma {:induction false} SumZero<T>(q: seq<T>, f: T -> nat)
    requires forall i :: 0 <= i < |q| ==> f(q[i]) == 0
    ensures Sum(q, f) == 0
  {
    if q != [] {
      SumZero(q[1..], f);
    }
  }
}
