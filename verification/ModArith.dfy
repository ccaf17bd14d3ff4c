// Facts about Euclidean division and remainder by a variable divisor.

module ModArith {

  lemma MulNonNegative(x: int, y: int)
    requires x >= 0 && y >= 0
    ensures x * y >= 0
  {
  }

  lemma MulStep(a: int, b: int, c: int)
    requires c > 0 && a < b
    ensures c * a + c <= c * b
  {
    var d := b - a - 1;
    MulNonNegative(c, d);
    assert b == a + 1 + d;
    assert c * (a + 1 + d) == c * a + c + c * d;
  }

  /** Quotient and remainder are unique. */
  lemma DivModUnique(x: int, c: int, q: int, r: int)
    requires c > 0 && 0 <= r < c && x == c * q + r
    ensures x / c == q && x % c == r
  {
    var q', r' := x / c, x % c;
    assert x == c * q' + r';
    if q < q' {
      MulStep(q, q', c);
    } else if q' < q {
      MulStep(q', q, c);
    }
  }

  lemma ModSmall(x: int, c: int)
    requires 0 <= x < c
    ensures x % c == x && x / c == 0
  {
    DivModUnique(x, c, 0, x);
  }

  lemma ModAdd(x: int, y: int, c: int)
    requires c > 0
    ensures (x % c + y) % c == (x + y) % c
  {
    var z := x % c + y;
    assert x == c * (x / c) + x % c;
    assert z == c * (z / c) + z % c;
    assert c * (x / c) + c * (z / c) == c * (x / c + z / c);
    DivModUnique(x + y, c, x / c + z / c, z % c);
  }

  lemma ModAddMultiple(x: int, k: int, c: int)
    requires c > 0
    ensures (x + c * k) % c == x % c
    ensures (x + c * k) / c == x / c + k
  {
    assert x == c * (x / c) + x % c;
    assert c * (x / c) + c * k == c * (x / c + k);
    DivModUnique(x + c * k, c, x / c + k, x % c);
  }

  /** Numbers less than c apart have different remainders. */
  lemma ModDistinct(a: int, b: int, c: int)
    requires c > 0 && a < b < a + c
    ensures a % c != b % c
  {
    if a % c == b % c {
      assert a == c * (a / c) + a % c;
      assert b == c * (b / c) + b % c;
      if a / c < b / c {
        MulStep(a / c, b / c, c);
      } else if b / c < a / c {
        MulStep(b / c, a / c, c);
      }
    }
  }

  /** The remainder by a divisor of the range does not notice the wrap. */
  lemma ModOfMod(x: int, word: nat, size: nat)
    requires size > 0 && word > 0 && word % size == 0
    ensures (x % word) % size == x % size
  {
    var r := word / size;
    assert word == size * r;
    assert x == word * (x / word) + x % word;
    assert word * (x / word) == size * (r * (x / word));
    ModAddMultiple(x % word, r * (x / word), size);
  }
}
