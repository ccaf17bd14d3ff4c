// The producer's steps that clear flags, grow the index and link new blocks keep the invariant.

module ExplicitBlocks {
  import opened Wrappers
  import opened ModArith
  import opened ExplicitProducer
  import opened ExplicitInvariant
  import opened ExplicitEnqueue
  import T = Tickets
  import I = ImplicitProducer
  import V = ImplicitInvariant

  // ----- a flag changes -----

  /** The same blocks but for the flags of one. */
  predicate SameButFlags(blocks: seq<Block>, blocks': seq<Block>, b: BlockId) {
    && |blocks| == |blocks'| && b < |blocks|
    && (forall c :: 0 <= c < |blocks| && c != b ==> blocks'[c] == blocks[c])
    && blocks'[b].slots == blocks[b].slots && blocks'[b].next == blocks[b].next && |blocks'[b].flags| == |blocks[b].flags|
  }

  lemma FlagRing(blocks: seq<Block>, blocks': seq<Block>, b: BlockId, pool: set<BlockId>, ring: seq<BlockId>, tailBlock: Option<BlockId>)
    requires SameButFlags(blocks, blocks', b) && RingOk(blocks, pool, ring, tailBlock)
    ensures RingOk(blocks', pool, ring, tailBlock)
  {
    forall j | 0 <= j < |ring| ensures Linked(blocks', ring, j) && ring[j] !in pool { assert Linked(blocks, ring, j); }
  }

  lemma FlagSlots(blocks: seq<Block>, blocks': seq<Block>, b: BlockId, ring: seq<BlockId>, last: int, stage: seq<I.Stage>, bs: nat, extra: nat)
    requires SameButFlags(blocks, blocks', b) && SlotsOk(blocks, ring, last, stage, bs, extra)
    ensures SlotsOk(blocks', ring, last, stage, bs, extra)
  {
    forall c | 0 <= c < |blocks'| ensures |blocks'[c].slots| == bs == |blocks'[c].flags| && (c !in ring ==> Vacant(blocks'[c])) {
      if c !in ring { assert Vacant(blocks[c]); }
    }
    forall j | 0 <= j < |ring| ensures ring[j] < |blocks'| && SlotsAt(blocks'[ring[j]], Low(ring, last) + j, stage, bs, extra) {
      var n := Low(ring, last) + j;
      assert SlotsAt(blocks[ring[j]], n, stage, bs, extra);
      forall k | 0 <= k < |blocks'[ring[j]].slots| ensures SlotAt(blocks'[ring[j]], n, k, stage, bs, extra) {
        assert SlotAt(blocks[ring[j]], n, k, stage, bs, extra);
      }
    }
  }

  lemma FlagElements(blocks: seq<Block>, blocks': seq<Block>, b: BlockId, ring: seq<BlockId>, last: int, g: Log, threads: seq<T.Pc>, bs: nat)
    requires SameButFlags(blocks, blocks', b) && ElementsOk(blocks, ring, last, g, threads, bs)
    ensures ElementsOk(blocks', ring, last, g, threads, bs)
  {
    hide I.Blk, I.Off, HeldIndex;
    forall j | 0 <= j < |g.stage| ensures ElementOk(blocks', ring, last, g, threads, bs, j) {
      assert ElementOk(blocks, ring, last, g, threads, bs, j);
    }
  }

  /** A step that changes one flag and the producer's position. */
  lemma FlagStep(s: State, b: BlockId, i: nat, on: bool, q: Prod)
    requires Inv(s) && b < |s.blocks| && i < |s.blocks[b].flags| && Extra(q) == Extra(s.prod)
    requires FlagsOk(SetFlag(s, b, i, on).blocks, s.ring, s.last, s.log.stage, s.bs, q)
    requires CurrentOk(s.headers, s.size, s.front, s.used, s.ring, s.last, q)
    requires ProdOk(SetFlag(s, b, i, on).blocks, s.pool, s.headers, s.size, s.used, s.ring, s.last, s.bs, s.tk.tail, q)
    ensures Inv(SetFlag(s, b, i, on).(prod := q))
  {
    var blocks := SetFlag(s, b, i, on).blocks;
    assert SameButFlags(s.blocks, blocks, b);
    hide T.Inv, Singles, RingOk, FlagsOk, SlotsOk, HeadersOk, CurrentOk, ProdOk, ElementsOk, ConsOk, SameButFlags;
    FlagRing(s.blocks, blocks, b, s.pool, s.ring, s.tailBlock);
    FlagSlots(s.blocks, blocks, b, s.ring, s.last, s.log.stage, s.bs, Extra(q));
    FlagElements(s.blocks, blocks, b, s.ring, s.last, s.log, s.tk.threads, s.bs);
  }

  // ----- clearing the flags of a block that is reused, or new -----

  /** A cleared block is right for a number none of whose indices is published. */
  lemma ClearedIsRight(b: Block, n: int, stage: seq<I.Stage>, bs: nat)
    requires Cleared(b, bs, bs) && |stage| <= bs * n
    ensures FlagsAt(b, n, stage, bs)
  {
  }

  lemma TailStartsBlock(bs: nat, tail: nat)
    requires bs > 0 && I.Off(bs, tail) == 0
    ensures tail == bs * I.Blk(bs, tail) && I.Blk(bs, tail) == I.Blk(bs, tail - 1) + 1
  {
    V.BlkOff(bs, tail);
    V.BlkNext(bs, tail - 1);
  }

  lemma ResetFacts(s: State, v: Elem, i: nat)
    requires Inv(s) && s.prod == PReset(v, i)
    ensures s.ring != [] && s.tailBlock == Some(s.ring[|s.ring| - 1]) && s.tailBlock.value < |s.blocks|
    ensures i < s.bs && Cleared(s.blocks[s.tailBlock.value], i, s.bs) && |s.log.stage| == s.tk.tail == s.bs * s.last
  {
    var k := |s.ring| - 1;
    assert Linked(s.blocks, s.ring, k);
    assert BlockFlagsOk(s.blocks[s.ring[k]], Low(s.ring, s.last) + k, s.log.stage, s.bs, s.prod, k == |s.ring| - 1);
    TailStartsBlock(s.bs, s.tk.tail);
    hide I.Blk, I.Off, T.Inv, Singles, FlagsOk, SlotsOk, HeadersOk, CurrentOk, ElementsOk, ConsOk;
  }

  lemma ResetFlags(blocks: seq<Block>, blocks': seq<Block>, ring: seq<BlockId>, last: int, stage: seq<I.Stage>, bs: nat, p: Prod, q: Prod)
    requires FlagsOk(blocks, ring, last, stage, bs, p) && p.PReset? && ring != [] && p.i < bs && |stage| <= bs * last
    requires forall i, j :: 0 <= i < j < |ring| ==> ring[i] != ring[j]
    requires SameButFlags(blocks, blocks', ring[|ring| - 1]) && Cleared(blocks'[ring[|ring| - 1]], p.i + 1, bs)
    requires q == if p.i + 1 < bs then PReset(p.v, p.i + 1) else PBase(p.v)
    ensures FlagsOk(blocks', ring, last, stage, bs, q)
  {
    var newest := ring[|ring| - 1];
    if p.i + 1 == bs { ClearedIsRight(blocks'[newest], last, stage, bs); }
    hide FlagsAt, Cleared;
    forall j | 0 <= j < |ring| ensures ring[j] < |blocks'| && BlockFlagsOk(blocks'[ring[j]], Low(ring, last) + j, stage, bs, q, j == |ring| - 1) {
      assert BlockFlagsOk(blocks[ring[j]], Low(ring, last) + j, stage, bs, p, j == |ring| - 1);
    }
  }

  lemma ResetMoves(s: State, v: Elem, i: nat, q: Prod)
    requires Inv(s) && s.prod == PReset(v, i) && q == if i + 1 < s.bs then PReset(v, i + 1) else PBase(v)
    ensures CurrentOk(s.headers, s.size, s.front, s.used, s.ring, s.last, q)
    ensures forall blocks :: ProdOk(blocks, s.pool, s.headers, s.size, s.used, s.ring, s.last, s.bs, s.tk.tail, q)
  {
    hide T.Inv, Singles, RingOk, FlagsOk, SlotsOk, HeadersOk, ElementsOk, ConsOk, I.Blk, I.Off;
  }

  lemma ResetKeepsInv(s: State, v: Elem, i: nat)
    requires Inv(s) && s.prod == PReset(v, i)
    ensures s.tailBlock.Some?
    ensures Inv(SetFlag(s, s.tailBlock.value, i, false).(prod := if i + 1 < s.bs then PReset(v, i + 1) else PBase(v)))
  {
    var q := if i + 1 < s.bs then PReset(v, i + 1) else PBase(v);
    ResetFacts(s, v, i);
    ResetMoves(s, v, i, q);
    assert FlagsOk(s.blocks, s.ring, s.last, s.log.stage, s.bs, s.prod) && forall x, y :: 0 <= x < y < |s.ring| ==> s.ring[x] != s.ring[y];
    hide Inv, FlagsOk;
    var b := s.tailBlock.value;
    ResetFlags(s.blocks, SetFlag(s, b, i, false).blocks, s.ring, s.last, s.log.stage, s.bs, s.prod, q);
    FlagStep(s, b, i, false, q);
  }

  /** Clearing a flag of a block outside the list does not matter to the list. */
  lemma OutsideFlags(s: State, b: BlockId, i: nat, q: Prod)
    requires FlagsOk(s.blocks, s.ring, s.last, s.log.stage, s.bs, s.prod) && !s.prod.PReset? && !q.PReset? && b !in s.ring
    ensures FlagsOk(SetFlag(s, b, i, false).blocks, s.ring, s.last, s.log.stage, s.bs, q)
  {
    var blocks := SetFlag(s, b, i, false).blocks;
    hide FlagsAt, Cleared;
    forall j | 0 <= j < |s.ring|
      ensures s.ring[j] < |blocks| && BlockFlagsOk(blocks[s.ring[j]], Low(s.ring, s.last) + j, s.log.stage, s.bs, q, j == |s.ring| - 1)
    {
      assert BlockFlagsOk(s.blocks[s.ring[j]], Low(s.ring, s.last) + j, s.log.stage, s.bs, s.prod, j == |s.ring| - 1);
    }
  }

  lemma ClearMoves(s: State, v: Elem, b: BlockId, i: nat, q: Prod)
    requires Inv(s) && s.prod == PClear(v, b, i) && q == if i + 1 < s.bs then PClear(v, b, i + 1) else PLink(v, b)
    ensures b < |s.blocks| && i < |s.blocks[b].flags| && b !in s.ring
    ensures CurrentOk(s.headers, s.size, s.front, s.used, s.ring, s.last, q)
    ensures ProdOk(SetFlag(s, b, i, false).blocks, s.pool, s.headers, s.size, s.used, s.ring, s.last, s.bs, s.tk.tail, q)
  {
    hide T.Inv, Singles, RingOk, FlagsOk, SlotsOk, HeadersOk, ElementsOk, ConsOk, I.Blk, I.Off;
  }

  lemma ClearKeepsInv(s: State, v: Elem, b: BlockId, i: nat)
    requires Inv(s) && s.prod == PClear(v, b, i)
    ensures Inv(SetFlag(s, b, i, false).(prod := if i + 1 < s.bs then PClear(v, b, i + 1) else PLink(v, b)))
  {
    var q := if i + 1 < s.bs then PClear(v, b, i + 1) else PLink(v, b);
    ClearMoves(s, v, b, i, q);
    assert FlagsOk(s.blocks, s.ring, s.last, s.log.stage, s.bs, s.prod);
    hide Inv, FlagsOk;
    OutsideFlags(s, b, i, q);
    FlagStep(s, b, i, false, q);
  }

  // ----- a bigger index -----

  /** The entry of number n moves to place n - Low of the new header. */
  /** The k-th slot of the window that ends before x. */
  lemma WindowSlot(size: nat, x: int, used: nat, k: int)
    requires size > 0
    ensures (x % size - used + k) % size == (x + (k - used)) % size
  {
    ModAdd(x, k - used, size);
    assert x % size - used + k == x % size + (k - used);
  }

  lemma GrownEntryOk(hd: Header, ring: seq<BlockId>, last: int, front: nat, junk: Entry, n: int)
    requires HeaderOk(hd, ring, last) && hd.high == last && 0 < |ring| <= hd.size && front == (last + 1 + hd.off) % hd.size
    requires Low(ring, last) <= n <= last
    ensures var used := |ring|;
      var e := GrownEntries(hd.entries, front - used, used, 2 * hd.size, junk);
      && (n + (used - 1 - last)) % (2 * hd.size) == n - Low(ring, last)
      && e[n - Low(ring, last)] == Entry(n, ring[n - Low(ring, last)])
  {
    var used, k := |ring|, n - Low(ring, last);
    assert n + (used - 1 - last) == k;
    ModSmall(k, 2 * hd.size);
    assert EntryOk(hd, ring, last, n);
    hide HeaderOk;
    WindowSlot(hd.size, last + 1 + hd.off, used, k);
    assert last + 1 + hd.off + (k - used) == n + hd.off;
  }

  lemma GrowHeaders(headers: seq<Header>, hd: Header, ring: seq<BlockId>, last: int)
    requires HeadersOk(headers, ring, last) && HeaderOk(hd, ring, last)
    ensures HeadersOk(headers + [hd], ring, last)
  {
    hide HeaderOk;
  }

  lemma GrownHeaderOk(s: State, v: Elem, junk: Entry)
    requires Inv(s) && Shaped(s) && s.prod == PGrow(v)
    ensures s.used == 0 || s.headers != []
    ensures HeaderOk(GrowStep(s, v, junk).headers[|GrowStep(s, v, junk).headers| - 1], s.ring, s.last)
  {
    hide T.Inv, Singles, RingOk, FlagsOk, SlotsOk, ElementsOk, ConsOk, ProdOk, I.Blk, I.Off;
    var hd := GrowStep(s, v, junk).headers[|GrowStep(s, v, junk).headers| - 1];
    if s.ring != [] {
      var old0 := s.headers[|s.headers| - 1];
      assert HeaderOk(old0, s.ring, s.last);
      hide HeaderOk, HeadersOk;
      GrownFront(s.used, s.size, s.last);
      forall n | Low(s.ring, s.last) <= n <= hd.high ensures EntryOk(hd, s.ring, s.last, n) {
        GrownEntryOk(old0, s.ring, s.last, s.front, junk, n);
      }
      GrownIsOk(hd, s.ring, s.last);
    }
  }

  lemma GrownFront(used: nat, size: nat, last: int)
    requires 0 < used <= size
    ensures (last + (used - 1 - last)) % (2 * size) == used - 1
    ensures (last + 1 + (used - 1 - last)) % (2 * size) == used
  {
    ModSmall(used - 1, 2 * size);
    ModSmall(used, 2 * size);
  }

  lemma GrownIsOk(hd: Header, ring: seq<BlockId>, last: int)
    requires hd.size > 0 && |hd.entries| == hd.size && -1 <= hd.top == hd.high == last
    requires hd.front == (hd.top + hd.off) % hd.size
    requires forall n :: Low(ring, last) <= n <= hd.high ==> EntryOk(hd, ring, last, n)
    ensures HeaderOk(hd, ring, last)
  {
  }

  lemma GrownCurrent(s: State, v: Elem, junk: Entry)
    requires Inv(s) && Shaped(s) && s.prod == PGrow(v)
    ensures var u := GrowStep(s, v, junk);
      && CurrentOk(u.headers, u.size, u.front, u.used, u.ring, u.last, u.prod)
      && ProdOk(u.blocks, u.pool, u.headers, u.size, u.used, u.ring, u.last, u.bs, u.tk.tail, u.prod)
      && u == s.(headers := u.headers, size := u.size, front := u.front, prod := PAlloc(v))
      && |u.headers| == |s.headers| + 1 && u.headers[..|s.headers|] == s.headers
  {
    hide T.Inv, Singles, RingOk, FlagsOk, SlotsOk, HeadersOk, ElementsOk, ConsOk, I.Blk, I.Off, GrownEntries;
    if s.used > 0 { GrownFront(s.used, s.size, s.last); } else { ModSmall(0, 2 * s.size); }
  }

  /** Consumers keep their headers when another one is added. */
  lemma GrowCons(headers: seq<Header>, hd: Header, ring: seq<BlockId>, last: int, g: Log, bs: nat, threads: seq<T.Pc>, cons: seq<Con>)
    requires ConsOk(headers, ring, last, g, bs, threads, cons)
    ensures ConsOk(headers + [hd], ring, last, g, bs, threads, cons)
  {
    hide I.Blk, FoundBlock;
    var more := headers + [hd];
    forall t | 0 <= t < |cons| ensures ConOk(more, ring, last, g, bs, t, threads[t], cons[t]) {
      assert ConOk(headers, ring, last, g, bs, t, threads[t], cons[t]);
    }
  }

  lemma GrowKeepsInv(s: State, v: Elem, junk: Entry)
    requires Inv(s) && Shaped(s) && s.prod == PGrow(v)
    ensures Inv(GrowStep(s, v, junk))
  {
    var u := GrowStep(s, v, junk);
    GrownHeaderOk(s, v, junk);
    GrownCurrent(s, v, junk);
    hide T.Inv, Singles, RingOk, FlagsOk, SlotsOk, HeadersOk, CurrentOk, ProdOk, ElementsOk, ConsOk, HeaderOk, GrowStep, Shaped;
    var hd := u.headers[|u.headers| - 1];
    assert u.headers == s.headers + [hd];
    FlagsMove(s.blocks, s.ring, s.last, s.log.stage, s.bs, s.prod, u.prod);
    GrowHeaders(s.headers, hd, s.ring, s.last);
    GrowCons(s.headers, hd, s.ring, s.last, s.log, s.bs, s.tk.threads, s.cons);
  }
}
