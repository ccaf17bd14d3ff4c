// The loops that copy a block index into one of twice the size, for both kinds of producer.
// The protocols treat a copy as one step of the producer, since nobody else sees the new
// array before it is published; here the loops are proved to compute what that step uses.

module IndexGrowth {
  import opened ModArith
  import opened Masks
  import BlockIndex
  import ExplicitProducer

  /** The masked difference of two words is the remainder of the true difference. */
  lemma MaskedDifference(d: int, c: nat, word: nat)
    requires Pow2(c) && Pow2(word) && c <= word
    ensures And(d % word, c - 1) == d % c
  {
    MaskIsMod(d % word, c);
    Divides(c, word);
    ModOfMod(d, word, c);
  }

  /** One masked step around a ring of c slots: where it leads, and that it comes back to the
      start after c steps and no sooner. */
  lemma RingStep(start: int, k: nat, c: nat, pos: nat)
    requires Pow2(c) && k < c && pos == (start + k) % c
    ensures And(pos + 1, c - 1) == (start + k + 1) % c
    ensures (start + k + 1) % c == start % c <==> k + 1 == c
  {
    MaskIsMod(pos + 1, c);
    ModAdd(start + k, 1, c);
    ModAddMultiple(start, 1, c);
    if k + 1 < c { ModDistinct(start, start + k + 1, c); }
  }

  /** new_block_index of the implicit producer, for an index that has a predecessor: a ring of
      pointers is unrolled from just after its tail, then the new entries follow. The first loop
      ends after exactly one lap, as the source asserts. */
  method UnrollRing(prev: array<BlockIndex.EntryId>, tail: nat, base: BlockIndex.EntryId)
    returns (index: array<BlockIndex.EntryId>)
    requires Pow2(prev.Length) && tail < prev.Length
    ensures fresh(index)
    ensures index[..] == BlockIndex.GrownIndex(BlockIndex.Header(prev.Length, tail, prev[..], 0, 0, 0), base)
  {
    var c := prev.Length;
    index := new nat[2 * c];
    CopyLap(prev, tail, index);
    var i := 0;
    while i != c
      invariant 0 <= i <= c
      invariant forall n :: 0 <= n < c ==> index[n] == prev[(tail + 1 + n) % c]
      invariant forall n :: c <= n < c + i ==> index[n] == base + (n - c)
    {
      index[c + i] := base + i;
      i := i + 1;
    }
  }

  method CopyLap(prev: array<BlockIndex.EntryId>, tail: nat, index: array<BlockIndex.EntryId>)
    requires Pow2(prev.Length) && tail < prev.Length && index.Length == 2 * prev.Length && index != prev
    modifies index
    ensures forall n :: 0 <= n < prev.Length ==> index[n] == prev[(tail + 1 + n) % prev.Length]
  {
    var c := prev.Length;
    ModSmall(tail, c);
    var pos, i := tail, 0;
    while true
      invariant 0 <= i < c && pos == (tail + i) % c
      invariant forall n :: 0 <= n < i ==> index[n] == prev[(tail + 1 + n) % c]
      decreases c - i
    {
      RingStep(tail, i, c, pos);
      assert tail + i + 1 == tail + 1 + i;
      pos := And(pos + 1, c - 1);
      index[i] := prev[pos];
      i := i + 1;
      if pos == tail { break; }
    }
  }

  /** new_block_index of the explicit producer: the entries of the used window, oldest first. The
      subtraction wraps in words; the loop ends after exactly as many entries as are in use. */
  method CopyWindow(prev: array<ExplicitProducer.Entry>, front: nat, used: nat, word: nat, ghost junk: ExplicitProducer.Entry)
    returns (entries: array<ExplicitProducer.Entry>, j: nat)
    requires Pow2(prev.Length) && Pow2(word) && prev.Length <= word
    requires front < prev.Length && used <= prev.Length
    ensures fresh(entries) && entries.Length == 2 * prev.Length && j == used
    ensures entries[..used] == ExplicitProducer.GrownEntries(prev[..], front - used, used, 2 * prev.Length, junk)[..used]
  {
    var c := prev.Length;
    entries := new ExplicitProducer.Entry[2 * c];
    j := 0;
    if used != 0 {
      var start := front - used;
      MaskedDifference(start, c, word);
      ModSmall(front, c);
      var i := And(start % word, c - 1);
      while true
        invariant 0 <= j < used && i == (start + j) % c
        invariant forall k :: 0 <= k < j ==> entries[k] == prev[(start + k) % c]
        decreases used - j
      {
        entries[j] := prev[i];
        j := j + 1;
        MaskIsMod(i + 1, c);
        ModAdd(start + j - 1, 1, c);
        i := And(i + 1, c - 1);
        if j < used { ModDistinct(start + j, front, c); }
        if i == front { break; }
      }
    }
  }
}
