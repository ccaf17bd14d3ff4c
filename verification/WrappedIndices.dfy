// The counters of the queue are words: unsigned integers modulo a power of two that wrap round.
// The other modules use unbounded counters; here is what the word operations make of them.

module WrappedIndices {
  import opened ModArith
  import opened Masks

  /** The word that holds counter x, when words are below 2 * half (half is 2^63 for 64 bits). */
  function Word(x: int, half: nat): (r: nat)
    requires half > 0
    ensures r < 2 * half
  {
    x % (2 * half)
  }

  /** circular_less_than. */
  predicate CircularLess(a: int, b: int, half: nat)
    requires half > 0
  {
    Word(a - b, half) > half
  }

  lemma WordOfWords(a: int, b: int, half: nat)
    requires half > 0
    ensures Word(Word(a, half) - Word(b, half), half) == Word(a - b, half)
    ensures Word(Word(a, half) + Word(b, half), half) == Word(a + b, half)
    ensures Word(Word(a, half) - b, half) == Word(a - b, half)
    ensures Word(Word(a, half) + b, half) == Word(a + b, half)
  {
    var m := 2 * half;
    ModAdd(a, -b, m);
    ModAdd(a, -(b % m), m);
    ModAdd(a, b, m);
    ModAdd(a, Word(b, half), m);
    ModAdd(b, a, m);
    assert b == m * (b / m) + b % m;
    ModAddMultiple(a - b % m, -(b / m), m);
    assert a - b == a - b % m + m * -(b / m);
  }

  /** The comparison of wrapped counters is the comparison of the counters exactly when the first
      is less than half the range below the second and at most half the range above it. */
  lemma CircularLessExact(a: int, b: int, half: nat)
    requires half > 0 && -2 * half < a - b < 2 * half
    ensures (CircularLess(Word(a, half), Word(b, half), half) <==> a < b) <==> a - b <= half && b - a < half
  {
    WordOfWords(a, b, half);
    if a >= b {
      ModSmall(a - b, 2 * half);
    } else {
      DivModUnique(a - b, 2 * half, -1, a - b + 2 * half);
    }
  }

  /** Half the range apart the comparison is false both ways. */
  lemma HalfApart(half: nat)
    requires half > 0
    ensures 0 < half && !CircularLess(Word(0, half), Word(half, half), half)
  {
    CircularLessExact(0, half, half);
  }

  /** Both room tests of enqueue on words, for a block that starts at `base`: not enough leeway for
      the tail to stay less than half the range ahead of the head, or above the size limit, which
      is at most the largest word (unlimited) and at least a block. Together they are the limit test
      on the counters, with the smaller of the limit and half - 1 for the limit. */
  lemma RoomTestIsLimit(head: nat, base: nat, bs: nat, limit: nat, half: nat)
    requires 0 < bs <= limit < 2 * half && head <= base && base + bs - head < 2 * half
    ensures !CircularLess(Word(head, half), Word(base + bs, half), half) || limit - bs < Word(Word(base, half) - Word(head, half), half)
      <==> (if limit < half then limit else half - 1) - bs < base - head
  {
    WordOfWords(base, head, half);
    ModSmall(base - head, 2 * half);
    CircularLessExact(head, base + bs, half);
  }

  /** The slot that the lookup computes: (front + (base - frontBase) / BLOCK_SIZE) & (size - 1), all
      in words. The division is unsigned, because BLOCK_SIZE is. */
  function LookupSlot(front: nat, base: nat, frontBase: nat, bs: nat, size: nat, half: nat): nat
    requires half > 0 && bs > 0 && size > 0
  {
    SlotAt(front, Offset(base, frontBase, bs, half), size, half)
  }

  /** The offset in blocks, an unsigned quotient. */
  function Offset(base: nat, frontBase: nat, bs: nat, half: nat): nat
    requires half > 0 && bs > 0
  {
    Word(base - frontBase, half) / bs
  }

  function SlotAt(front: nat, offset: nat, size: nat, half: nat): nat
    requires half > 0 && size > 0
  {
    And(Word(front + offset, half), size - 1)
  }

  /** A block k before the front is 2 * half / bs - k places after it. */
  lemma UnsignedOffset(n: int, m: int, bs: nat, half: nat)
    requires bs > 0 && half > 0 && (2 * half) % bs == 0 && 0 < m - n && bs * (m - n) < 2 * half
    ensures Offset(Word(bs * n, half), Word(bs * m, half), bs, half) == 2 * half / bs - (m - n)
  {
    var q, k := 2 * half / bs, m - n;
    assert 2 * half == bs * q;
    WordOfWords(bs * n, bs * m, half);
    assert bs * n - bs * m == -(bs * k) by { assert bs * (n - m) == bs * n - bs * m; }
    MulNonNegative(bs, k);
    if bs * k == 0 { MulStep(0, k, bs); }
    DivModUnique(-(bs * k), 2 * half, -1, 2 * half - bs * k);
    assert 2 * half - bs * k == bs * (q - k);
    DivModUnique(bs * (q - k), bs, q - k, 0);
  }

  /** Masking a word gives the remainder of the counter. */
  lemma MaskOfWord(x: nat, size: nat, half: nat)
    requires Pow2(size) && Pow2(half) && size <= half
    ensures And(Word(x, half), size - 1) == x % size
  {
    MaskIsMod(Word(x, half), size);
    Doubled(half);
    Divides(size, 2 * half);
    ModOfMod(x, 2 * half, size);
  }

  /** For every power-of-two ring that fits the word range the lookup lands on the slot of the
      block, k places before the front, even though the counters have wrapped round. */
  lemma LookupSlotExact(front: nat, n: int, m: int, bs: nat, size: nat, half: nat)
    requires Pow2(bs) && Pow2(size) && Pow2(half) && bs <= half && front < size <= half
    requires 0 < m - n < size && bs * (m - n) < 2 * half
    ensures LookupSlot(front, Word(bs * n, half), Word(bs * m, half), bs, size, half) == (front - (m - n)) % size <==> bs * size <= 2 * half
  {
    var q := WordBlocks(bs, half);
    hide Pow2, LookupSlot, Word;
    SlotExactWith(front, n, m, bs, size, half, q);
  }

  lemma SlotExactWith(front: nat, n: int, m: int, bs: nat, size: nat, half: nat, q: nat)
    requires bs > 0 && half > 0 && Pow2(size) && Pow2(half) && size <= half && Pow2(q)
    requires bs * q == 2 * half && q == 2 * half / bs && (2 * half) % bs == 0
    requires 0 < m - n && bs * (m - n) < 2 * half
    ensures size > 0
    ensures LookupSlot(front, Word(bs * n, half), Word(bs * m, half), bs, size, half) == (front - (m - n)) % size <==> bs * size <= 2 * half
  {
    assert size > 0;
    hide Pow2, LookupSlot, Word, Offset, And;
    var k := m - n;
    KBelow(bs, k, q);
    SlotBefore(front, n, m, bs, size, half, q);
    SlotShift(front, k, q, bs, size, 2 * half);
  }

  /** How many blocks the word range holds. */
  lemma WordBlocks(bs: nat, half: nat) returns (q: nat)
    requires Pow2(bs) && Pow2(half) && bs <= half
    ensures bs > 0 && half > 0 && Pow2(q) && bs * q == 2 * half && q == 2 * half / bs && (2 * half) % bs == 0
  {
    Doubled(half);
    Divides(bs, 2 * half);
    Quotient(bs, 2 * half);
    q := 2 * half / bs;
  }

  lemma SlotBefore(front: nat, n: int, m: int, bs: nat, size: nat, half: nat, q: nat)
    requires bs > 0 && Pow2(size) && Pow2(half) && size <= half && (2 * half) % bs == 0 && q == 2 * half / bs
    requires 0 < m - n <= q && bs * (m - n) < 2 * half
    ensures size > 0 && half > 0
    ensures LookupSlot(front, Word(bs * n, half), Word(bs * m, half), bs, size, half) == (front - (m - n) + q) % size
  {
    assert size > 0 && half > 0;
    hide Pow2, And, Word, Offset;
    UnsignedOffset(n, m, bs, half);
    MaskOfWord(front + (q - (m - n)), size, half);
  }

  /** The extra q places come to nothing exactly when the ring fits the word range. */
  lemma SlotShift(front: nat, k: nat, q: nat, bs: nat, size: nat, word: nat)
    requires Pow2(q) && Pow2(size) && bs > 0 && bs * q == word
    ensures size > 0 && ((front - k + q) % size == (front - k) % size <==> bs * size <= word)
  {
    assert q > 0 && size > 0;
    if bs * size <= bs * q {
      SizeFits(bs, size, q);
      Divides(size, q);
      hide Pow2;
      ModAddMultiple(front - k, q / size, size);
    } else {
      SizeExceeds(bs, size, q);
      hide Pow2;
      ModDistinct(front - k, front - k + q, size);
    }
  }

  lemma {:induction false} Quotient(a: nat, b: nat)
    requires Pow2(a) && Pow2(b) && a <= b
    ensures a > 0 && Pow2(b / a)
    decreases a
  {
    if a > 1 {
      Quotient(a / 2, b / 2);
      HalfMod(b, a / 2);
    } else {
      DivModUnique(b, 1, b, 0);
    }
  }

  lemma KBelow(bs: nat, k: nat, q: nat)
    requires bs > 0 && bs * k < bs * q
    ensures k < q
  {
    if k >= q && k > q { MulStep(q, k, bs); }
  }

  lemma SizeFits(bs: nat, size: nat, q: nat)
    requires bs > 0 && bs * size <= bs * q
    ensures size <= q
  {
    if q < size { MulStep(q, size, bs); }
  }

  lemma SizeExceeds(bs: nat, size: nat, q: nat)
    requires bs > 0 && bs * size > bs * q
    ensures size > q
  {
    if q > size { MulStep(size, q, bs); }
  }

  /** At or after the front the offset is the plain quotient. */
  lemma LookupSlotAhead(front: nat, n: int, m: int, bs: nat, size: nat, half: nat)
    requires Pow2(bs) && Pow2(size) && Pow2(half) && bs <= half && front < size <= half
    requires 0 <= n - m && bs * (n - m) < 2 * half
    ensures LookupSlot(front, Word(bs * n, half), Word(bs * m, half), bs, size, half) == (front + (n - m)) % size
  {
    assert bs > 0 && size > 0 && half > 0;
    hide Pow2, And, Word, Offset;
    PlainOffset(n, m, bs, half);
    MaskOfWord(front + (n - m), size, half);
  }

  /** A block at or after the front is n - m places after it. */
  lemma PlainOffset(n: int, m: int, bs: nat, half: nat)
    requires bs > 0 && half > 0 && 0 <= n - m && bs * (n - m) < 2 * half
    ensures Offset(Word(bs * n, half), Word(bs * m, half), bs, half) == n - m
  {
    var k := n - m;
    WordOfWords(bs * n, bs * m, half);
    assert bs * n - bs * m == bs * k;
    MulNonNegative(bs, k);
    ModSmall(bs * k, 2 * half);
    DivModUnique(bs * k, bs, k, 0);
  }
}
