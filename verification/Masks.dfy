// Powers of two, and the bitwise "and" that stands for a remainder.

module Masks {
  import opened ModArith

  ghost predicate Pow2(n: nat) { n == 1 || (n > 1 && n % 2 == 0 && Pow2(n / 2)) }

  /** Bitwise and. */
  function And(a: nat, b: nat): nat {
    if a == 0 || b == 0 then 0 else 2 * And(a / 2, b / 2) + (a % 2) * (b % 2)
  }

  lemma HalfMod(x: nat, c: nat)
    requires c > 0
    ensures x % (2 * c) == 2 * ((x / 2) % c) + x % 2
    ensures x / (2 * c) == x / 2 / c
  {
    var y := x / 2;
    assert y == c * (y / c) + y % c;
    assert 2 * c * (y / c) == 2 * (c * (y / c));
    DivModUnique(x, 2 * c, y / c, 2 * (y % c) + x % 2);
  }

  /** index & (size - 1) is index % size for every power of two. */
  lemma {:induction false} MaskIsMod(x: nat, c: nat)
    requires Pow2(c)
    ensures And(x, c - 1) == x % c
    decreases c
  {
    if c == 1 {
    } else if x == 0 {
      ModSmall(0, c);
    } else {
      MaskIsMod(x / 2, c / 2);
      HalfMod(x, c / 2);
      assert (c - 1) / 2 == c / 2 - 1 && (c - 1) % 2 == 1;
    }
  }

  /** index & ~(size - 1), in words below the power of two m, rounds down to a multiple of size. */
  lemma {:induction false} ClearLowBits(x: nat, c: nat, m: nat)
    requires Pow2(c) && Pow2(m) && c <= m && x < m
    ensures And(x, m - c) == x - x % c
    decreases c, m
  {
    if c == m {
      ModSmall(x, m);
    } else if c == 1 {
      MaskIsMod(x, m);
      ModSmall(x, m);
    } else if x == 0 {
      ModSmall(0, c);
    } else {
      ClearLowBits(x / 2, c / 2, m / 2);
      HalfMod(x, c / 2);
      assert (m - c) / 2 == m / 2 - c / 2 && (m - c) % 2 == 0;
    }
  }

  /** n & (n - 1) == 0, as in the static assertions on sizes, says exactly that n is a power of two. */
  lemma {:induction false} PowerTest(n: nat)
    requires n > 0
    ensures And(n, n - 1) == 0 <==> Pow2(n)
    decreases n
  {
    if n > 1 {
      if n % 2 == 0 {
        PowerTest(n / 2);
        assert (n - 1) / 2 == n / 2 - 1;
      } else {
        AndSelf(n / 2);
        assert (n - 1) / 2 == n / 2;
      }
    }
  }

  lemma {:induction false} AndSelf(n: nat)
    ensures And(n, n) == n
    decreases n
  {
    if n > 0 { AndSelf(n / 2); }
  }

  /** A smaller power of two divides a larger one. */
  lemma {:induction false} Divides(a: nat, b: nat)
    requires Pow2(a) && Pow2(b) && a <= b
    ensures b % a == 0 && b / a > 0 && b == a * (b / a)
    decreases a
  {
    if a > 1 {
      Divides(a / 2, b / 2);
      var q := (b / 2) / (a / 2);
      assert b == a * q;
      DivModUnique(b, a, q, 0);
    } else {
      DivModUnique(b, 1, b, 0);
    }
  }

  lemma Doubled(c: nat)
    requires Pow2(c)
    ensures Pow2(2 * c)
  {
  }

  lemma {:induction false} Product(a: nat, b: nat)
    requires Pow2(a) && Pow2(b)
    ensures Pow2(a * b)
    decreases a
  {
    if a > 1 {
      Product(a / 2, b);
      assert a * b == 2 * (a / 2 * b);
      Doubled(a / 2 * b);
    }
  }
}
