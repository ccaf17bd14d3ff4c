// A consumer's lookup of its block, the move of its element and the mark keep the invariant.

module ExplicitTake {
  import opened Wrappers
  import opened ModArith
  import opened ExplicitProducer
  import opened ExplicitInvariant
  import opened ExplicitEnqueue
  import opened ExplicitBlocks
  import opened ExplicitWrite
  import opened ExplicitDequeue
  import T = Tickets
  import I = ImplicitProducer
  import V = ImplicitInvariant

  /** What is known of the index a consumer holds. */
  lemma HeldFacts(s: State, t: Tid)
    requires Inv(s) && t < |s.cons| && s.tk.threads[t].Holding?
    ensures s.bs >= 2
    ensures var i := s.tk.threads[t].first;
      && t < |s.tk.threads| && i < |s.log.owner| && |s.log.owner| <= |s.log.stage| == |s.log.enq| == s.tk.tail && s.log.owner[i] == t
      && ConPcOk(s.headers, s.ring, s.last, s.log, s.bs, i, s.cons[t])
      && (!s.log.stage[i].Marked? ==> Low(s.ring, s.last) <= I.Blk(s.bs, i))
      && (s.log.stage[i].Fresh? ==> Stored(s.blocks, s.ring, s.last, s.bs, i, s.log.enq[i]))
  {
    var i := s.tk.threads[t].first;
    assert ConOk(s.headers, s.ring, s.last, s.log, s.bs, t, s.tk.threads[t], s.cons[t]);
    assert ElementOk(s.blocks, s.ring, s.last, s.log, s.tk.threads, s.bs, i) by {
      hide T.Inv, Singles, RingOk, FlagsOk, SlotsOk, HeadersOk, CurrentOk, ProdOk, ConsOk, ElementOk, ConPcOk, I.Blk;
    }
    hide T.Inv, Singles, RingOk, FlagsOk, SlotsOk, HeadersOk, CurrentOk, ProdOk, ConsOk, ConPcOk, Stored, I.Blk;
  }

  lemma ConMove(s: State, t: Tid, c: Con)
    requires Inv(s) && t < |s.cons| && s.tk.threads[t].Holding?
    requires ConPcOk(s.headers, s.ring, s.last, s.log, s.bs, s.tk.threads[t].first, c)
    ensures Inv(SetCon(s, t, c))
  {
    var cons := s.cons[t := c];
    assert ConsOk(s.headers, s.ring, s.last, s.log, s.bs, s.tk.threads, cons) by {
      hide T.Inv, Singles, RingOk, FlagsOk, SlotsOk, HeadersOk, CurrentOk, ProdOk, ElementsOk, ConPcOk;
      forall u | 0 <= u < |cons| ensures ConOk(s.headers, s.ring, s.last, s.log, s.bs, u, s.tk.threads[u], cons[u]) {
        assert ConOk(s.headers, s.ring, s.last, s.log, s.bs, u, s.tk.threads[u], s.cons[u]);
      }
    }
    hide T.Inv, Singles, RingOk, FlagsOk, SlotsOk, HeadersOk, CurrentOk, ProdOk, ElementsOk, ConsOk;
  }

  // ----- the lookup -----

  /** The current front is at or past every published index. */
  lemma FrontReaches(s: State, i: nat)
    requires Inv(s) && i < s.tk.tail
    ensures s.headers != [] && I.Blk(s.bs, i) <= Current(s).top
  {
    hide T.Inv, Singles, RingOk, FlagsOk, SlotsOk, HeadersOk, ElementsOk, ConsOk, I.Blk, I.Off, NewBlock, Cleared;
    V.BlkMonotone(s.bs, i, s.tk.tail - 1);
    V.BlkNonNegative(s.bs, i);
    V.BlkNext(s.bs, s.tk.tail - 1);
  }

  lemma IndexKeepsInv(s: State, t: Tid, i: nat)
    requires Inv(s) && t < |s.cons| && s.tk.threads[t].Holding? && s.cons[t] == CIndex(i)
    ensures s.headers != [] && Inv(SetCon(s, t, CFront(i, |s.headers| - 1)))
  {
    hide Inv, Stored, I.Blk;
    HeldFacts(s, t);
    FrontReaches(s, s.tk.threads[t].first);
    ConMove(s, t, CFront(i, |s.headers| - 1));
  }

  lemma HeaderFacts(s: State, h: nat)
    requires Inv(s) && h < |s.headers|
    ensures HeaderOk(s.headers[h], s.ring, s.last)
  {
    hide T.Inv, Singles, RingOk, FlagsOk, SlotsOk, CurrentOk, ProdOk, ElementsOk, ConsOk, HeaderOk;
  }

  lemma FrontIs(hd: Header, ring: seq<BlockId>, last: int)
    requires HeaderOk(hd, ring, last) && hd.top >= 0
    ensures hd.size > 0 && hd.top <= hd.high && hd.front == (hd.top + hd.off) % hd.size
  {
  }

  lemma EntryIs(hd: Header, ring: seq<BlockId>, last: int, n: int)
    requires HeaderOk(hd, ring, last) && Low(ring, last) <= n <= hd.high
    ensures hd.size > 0 && |hd.entries| == hd.size && n <= last
    ensures hd.entries[(n + hd.off) % hd.size] == Entry(n, ring[n - Low(ring, last)])
  {
    assert EntryOk(hd, ring, last, n);
  }

  lemma FrontKeepsInv(s: State, t: Tid, i: nat, h: nat)
    requires Inv(s) && t < |s.cons| && s.tk.threads[t].Holding? && s.cons[t] == CFront(i, h)
    ensures h < |s.headers| && Inv(SetCon(s, t, CBase(i, h, s.headers[h].front, s.headers[h].top)))
  {
    hide Inv, Stored, I.Blk, HeaderOk;
    HeldFacts(s, t);
    HeaderFacts(s, h);
    V.BlkNonNegative(s.bs, i);
    FrontIs(s.headers[h], s.ring, s.last);
    ConMove(s, t, CBase(i, h, s.headers[h].front, s.headers[h].top));
  }

  /** The front entry that a consumer reads has the base that front denoted when it was read. */
  lemma BaseKeepsInv(s: State, t: Tid, i: nat, h: nat, f: int, num: int)
    requires Inv(s) && t < |s.cons| && s.tk.threads[t].Holding? && s.cons[t] == CBase(i, h, f, num)
    ensures h < |s.headers| && 0 <= f < |s.headers[h].entries| && s.headers[h].entries[f].base == num
    ensures Inv(SetCon(s, t, CBlock(i, h, f, num)))
  {
    hide Inv, Stored, I.Blk, HeaderOk;
    HeldFacts(s, t);
    HeaderFacts(s, h);
    EntryIs(s.headers[h], s.ring, s.last, num);
    ConMove(s, t, CBlock(i, h, f, num));
  }

  /** The lookup lands on the block of the index, however outdated the header and its front are. */
  lemma BlockKeepsInv(s: State, t: Tid, i: nat, h: nat, f: int, base: int)
    requires Inv(s) && t < |s.cons| && s.tk.threads[t].Holding? && s.cons[t] == CBlock(i, h, f, base)
    ensures h < |s.headers| && s.headers[h].size > 0 && |s.headers[h].entries| == s.headers[h].size
    ensures Inv(SetCon(s, t, CMove(i, s.headers[h].entries[(f + (I.Blk(s.bs, i) - base)) % s.headers[h].size].block)))
  {
    hide Inv, Stored, I.Blk, HeaderOk;
    HeldFacts(s, t);
    HeaderFacts(s, h);
    var hd, n := s.headers[h], I.Blk(s.bs, i);
    EntryIs(hd, s.ring, s.last, n);
    ModAdd(base + hd.off, n - base, hd.size);
    assert base + hd.off + (n - base) == n + hd.off;
    ConMove(s, t, CMove(i, hd.entries[(f + (n - base)) % hd.size].block));
  }

  // ----- moving the element out -----

  lemma TakeFacts(s: State, t: Tid, i: nat, b: BlockId)
    requires Inv(s) && Shaped(s) && t < |s.cons| && s.tk.threads[t].Holding? && s.cons[t] == CMove(i, b)
    ensures i == s.tk.threads[t].first && i < |s.log.stage| == |s.log.enq| == s.tk.tail && s.log.stage[i].Fresh? && FoundBlock(s.ring, s.last, I.Blk(s.bs, i), b)
    ensures b < |s.blocks| && I.Off(s.bs, i) < |s.blocks[b].slots| == s.bs && s.blocks[b].slots[I.Off(s.bs, i)] == Some(s.log.enq[i])
    ensures i < |s.log.owner| <= |s.log.stage| && s.log.owner[i] == t
  {
    HeldFacts(s, t);
    hide Inv, I.Blk, I.Off;
  }

  lemma TakeSlots(blocks: seq<Block>, blocks': seq<Block>, b: BlockId, ring: seq<BlockId>, last: int, stage: seq<I.Stage>, bs: nat, extra: nat, i: nat)
    requires bs > 0 && SlotChanged(blocks, blocks', b, I.Off(bs, i), None) && SlotsOk(blocks, ring, last, stage, bs, extra)
    requires i < |stage| && FoundBlock(ring, last, I.Blk(bs, i), b)
    ensures SlotsOk(blocks', ring, last, stage[i := I.Taken], bs, extra)
  {
    var st := stage[i := I.Taken];
    forall j | 0 <= j < |ring| ensures ring[j] < |blocks'| && SlotsAt(blocks'[ring[j]], Low(ring, last) + j, st, bs, extra) {
      var n := Low(ring, last) + j;
      assert SlotsAt(blocks[ring[j]], n, stage, bs, extra);
      forall x | 0 <= x < |blocks'[ring[j]].slots| ensures SlotAt(blocks'[ring[j]], n, x, st, bs, extra) {
        assert SlotAt(blocks[ring[j]], n, x, stage, bs, extra);
        if bs * n + x == i { V.BlkOf(bs, n, x); }
      }
    }
    forall c | 0 <= c < |blocks'| ensures |blocks'[c].slots| == bs == |blocks'[c].flags| && (c !in ring ==> Vacant(blocks'[c])) {
      if c !in ring { assert Vacant(blocks[c]); }
    }
  }

  lemma TakeElements(blocks: seq<Block>, blocks': seq<Block>, b: BlockId, ring: seq<BlockId>, last: int, g: Log, g': Log, threads: seq<T.Pc>, bs: nat, i: nat)
    requires bs > 0 && SlotChanged(blocks, blocks', b, I.Off(bs, i), None) && ElementsOk(blocks, ring, last, g, threads, bs)
    requires i < |g.stage| && g.stage[i].Fresh? && FoundBlock(ring, last, I.Blk(bs, i), b) && i < |g.owner|
    requires g' == g.(stage := g.stage[i := I.Taken], out := g.out[i := g.enq[i]])
    requires forall x, y :: 0 <= x < y < |ring| ==> ring[x] != ring[y]
    ensures ElementsOk(blocks', ring, last, g', threads, bs)
  {
    hide I.Blk, I.Off, HeldIndex;
    assert ElementOk(blocks, ring, last, g, threads, bs, i);
    forall j | 0 <= j < |g'.stage| ensures ElementOk(blocks', ring, last, g', threads, bs, j) {
      assert ElementOk(blocks, ring, last, g, threads, bs, j);
      if j != i && I.Blk(bs, j) == I.Blk(bs, i) && I.Off(bs, j) == I.Off(bs, i) { V.BlkOffUnique(bs, j, i); }
    }
  }

  /** The other consumers hold other indices. */
  lemma OthersKeep(headers: seq<Header>, ring: seq<BlockId>, last: int, g: Log, g': Log, bs: nat, threads: seq<T.Pc>, threads': seq<T.Pc>, cons: seq<Con>, cons': seq<Con>, t: Tid, i: nat)
    requires ConsOk(headers, ring, last, g, bs, threads, cons) && t < |cons| && threads[t].Holding? && threads[t].first == i
    requires |threads'| == |threads| == |cons'| && threads' == threads[t := threads'[t]] && cons' == cons[t := cons'[t]]
    requires |g'.stage| == |g.stage| && g'.owner == g.owner && forall j :: 0 <= j < |g.stage| && j != i ==> g'.stage[j] == g.stage[j]
    requires ConOk(headers, ring, last, g', bs, t, threads'[t], cons'[t])
    ensures ConsOk(headers, ring, last, g', bs, threads', cons')
  {
    assert ConOk(headers, ring, last, g, bs, t, threads[t], cons[t]);
    hide I.Blk, FoundBlock, AtFront;
    forall u | 0 <= u < |cons'| ensures ConOk(headers, ring, last, g', bs, u, threads'[u], cons'[u]) {
      assert ConOk(headers, ring, last, g, bs, u, threads[u], cons[u]);
    }
  }

  lemma TakeProd(s: State, blocks: seq<Block>, b: BlockId, i: nat)
    requires ProdOk(s.blocks, s.pool, s.headers, s.size, s.used, s.ring, s.last, s.bs, s.tk.tail, s.prod) && s.bs >= 2 && i < s.tk.tail
    requires SlotChanged(s.blocks, blocks, b, I.Off(s.bs, i), None) && FoundBlock(s.ring, s.last, I.Blk(s.bs, i), b)
    requires forall x, y :: 0 <= x < y < |s.ring| ==> s.ring[x] != s.ring[y]
    ensures ProdOk(blocks, s.pool, s.headers, s.size, s.used, s.ring, s.last, s.bs, s.tk.tail, s.prod)
  {
    hide I.Blk, I.Off;
    if I.Blk(s.bs, i) == I.Blk(s.bs, s.tk.tail) && I.Off(s.bs, i) == I.Off(s.bs, s.tk.tail) { V.BlkOffUnique(s.bs, i, s.tk.tail); }
  }

  lemma MoveKeepsInv(s: State, t: Tid, i: nat, b: BlockId)
    requires Inv(s) && Shaped(s) && t < |s.cons| && s.tk.threads[t].Holding? && s.cons[t] == CMove(i, b)
    ensures Inv(MoveStep(s, t, i, b)) && MoveStep(s, t, i, b).log.out == s.log.out[i := s.log.enq[i]]
  {
    assert forall x, y :: 0 <= x < y < |s.ring| ==> s.ring[x] != s.ring[y];
    hide T.Inv, Singles, RingOk, FlagsOk, SlotsOk, HeadersOk, CurrentOk, ProdOk, ElementsOk, ConsOk, I.Blk, I.Off, FoundBlock, Shaped, SlotChanged, SameMarks;
    TakeFacts(s, t, i, b);
    MoveEffect(s, t, i, b);
    var k := I.Off(s.bs, i);
    var u := MoveStep(s, t, i, b);
    hide MoveStep;
    SlotRing(s.blocks, u.blocks, b, k, None, s.pool, s.ring, s.tailBlock);
    SlotFlags(s.blocks, u.blocks, b, k, None, s.ring, s.last, s.log.stage, u.log.stage, s.bs, s.prod, s.prod);
    TakeSlots(s.blocks, u.blocks, b, s.ring, s.last, s.log.stage, s.bs, Extra(s.prod), i);
    TakeElements(s.blocks, u.blocks, b, s.ring, s.last, s.log, u.log, s.tk.threads, s.bs, i);
    TakeProd(s, u.blocks, b, i);
    MovedCon(s, t, i, b, u.log);
    hide ConOk;
    OthersKeep(s.headers, s.ring, s.last, s.log, u.log, s.bs, s.tk.threads, s.tk.threads, s.cons, u.cons, t, i);
  }

  lemma MovedCon(s: State, t: Tid, i: nat, b: BlockId, g: Log)
    requires t < |s.tk.threads| && s.tk.threads[t].Holding? && s.tk.threads[t].first == i && i < |s.log.owner| && s.log.owner[i] == t && i < |s.log.stage|
    requires FoundBlock(s.ring, s.last, I.Blk(s.bs, i), b) && g.owner == s.log.owner && g.stage == s.log.stage[i := I.Taken]
    ensures ConOk(s.headers, s.ring, s.last, g, s.bs, t, s.tk.threads[t], CMark(i, b))
  {
    hide I.Blk, FoundBlock;
  }

  lemma MoveEffect(s: State, t: Tid, i: nat, b: BlockId)
    requires Shaped(s) && t < |s.cons| && i < |s.log.stage| == |s.log.enq| && s.log.stage[i].Fresh?
    requires b < |s.blocks| && I.Off(s.bs, i) < |s.blocks[b].slots| && s.blocks[b].slots[I.Off(s.bs, i)] == Some(s.log.enq[i])
    ensures var u := MoveStep(s, t, i, b);
      && SlotChanged(s.blocks, u.blocks, b, I.Off(s.bs, i), None) && SameMarks(s.log.stage, u.log.stage)
      && u == s.(blocks := u.blocks, cons := s.cons[t := CMark(i, b)],
                 log := s.log.(stage := s.log.stage[i := I.Taken], out := s.log.out[i := s.log.enq[i]]))
  {
    hide I.Off;
  }

  // ----- marking it empty -----

  /** A block whose flags are being cleared is past every published index. */
  lemma ResetIsAbove(s: State, i: nat)
    requires Inv(s) && i < s.tk.tail && s.prod.PReset?
    ensures I.Blk(s.bs, i) < s.last
  {
    assert s.bs >= 2 && I.Off(s.bs, s.tk.tail) == 0 && s.last == I.Blk(s.bs, s.tk.tail) by {
      hide T.Inv, Singles, RingOk, FlagsOk, SlotsOk, HeadersOk, CurrentOk, ElementsOk, ConsOk, I.Blk, I.Off;
    }
    hide Inv;
    TailStartsBlock(s.bs, s.tk.tail);
    V.BlkMonotone(s.bs, i, s.tk.tail - 1);
  }

  /** The flag of an index is the one that says whether it is marked. */
  lemma FlagSays(b: Block, stage: seq<I.Stage>, bs: nat, i: nat)
    requires bs > 0 && FlagsAt(b, I.Blk(bs, i), stage, bs)
    ensures 0 <= FlagOf(bs, i) < |b.flags| && (b.flags[FlagOf(bs, i)] <==> V.IsMarked(stage, i))
  {
    V.BlkOff(bs, i);
    assert bs * I.Blk(bs, i) + (bs - 1 - FlagOf(bs, i)) == i;
    assert b.flags[FlagOf(bs, i)] <==> V.IsMarked(stage, bs * I.Blk(bs, i) + (bs - 1 - FlagOf(bs, i)));
  }

  lemma BlockFlag(blocks: seq<Block>, ring: seq<BlockId>, last: int, stage: seq<I.Stage>, bs: nat, p: Prod, i: nat, b: BlockId)
    requires bs > 0 && FlagsOk(blocks, ring, last, stage, bs, p) && FoundBlock(ring, last, I.Blk(bs, i), b) && (p.PReset? ==> I.Blk(bs, i) < last)
    ensures b < |blocks| && 0 <= FlagOf(bs, i) < |blocks[b].flags| && (blocks[b].flags[FlagOf(bs, i)] <==> V.IsMarked(stage, i))
  {
    var j := I.Blk(bs, i) - Low(ring, last);
    hide FlagsAt, I.Blk, FlagOf;
    assert BlockFlagsOk(blocks[b], Low(ring, last) + j, stage, bs, p, j == |ring| - 1);
    FlagSays(blocks[b], stage, bs, i);
  }

  lemma MarkFlag(s: State, i: nat, b: BlockId)
    requires Inv(s) && i < |s.log.stage| && !s.log.stage[i].Marked? && FoundBlock(s.ring, s.last, I.Blk(s.bs, i), b)
    ensures b < |s.blocks| && 0 <= FlagOf(s.bs, i) < |s.blocks[b].flags| && !s.blocks[b].flags[FlagOf(s.bs, i)]
    ensures s.prod.PReset? ==> I.Blk(s.bs, i) < s.last
  {
    hide T.Inv, Singles, RingOk, FlagsOk, SlotsOk, HeadersOk, CurrentOk, ProdOk, ElementsOk, ConsOk, I.Blk, FlagOf;
    if s.prod.PReset? { ResetIsAbove(s, i); }
    BlockFlag(s.blocks, s.ring, s.last, s.log.stage, s.bs, s.prod, i, b);
  }

  lemma MarkFlags(blocks: seq<Block>, blocks': seq<Block>, b: BlockId, ring: seq<BlockId>, last: int, stage: seq<I.Stage>, bs: nat, p: Prod, i: nat)
    requires bs > 0 && FlagsOk(blocks, ring, last, stage, bs, p) && i < |stage| && !stage[i].Marked? && FoundBlock(ring, last, I.Blk(bs, i), b)
    requires b < |blocks| && 0 <= FlagOf(bs, i) < |blocks[b].flags|
    requires blocks' == blocks[b := blocks[b].(flags := blocks[b].flags[FlagOf(bs, i) := true])]
    requires forall x, y :: 0 <= x < y < |ring| ==> ring[x] != ring[y]
    requires p.PReset? ==> I.Blk(bs, i) < last
    ensures FlagsOk(blocks', ring, last, stage[i := I.Marked], bs, p)
  {
    var st := stage[i := I.Marked];
    var x := I.Blk(bs, i) - Low(ring, last);
    forall j | 0 <= j < |ring| ensures ring[j] < |blocks'| && BlockFlagsOk(blocks'[ring[j]], Low(ring, last) + j, st, bs, p, j == |ring| - 1) {
      assert BlockFlagsOk(blocks[ring[j]], Low(ring, last) + j, stage, bs, p, j == |ring| - 1);
      if !(p.PReset? && j == |ring| - 1) {
        if j == x { assert ring[j] == b; } else { assert ring[j] != b; }
        MarkBlock(blocks[ring[j]], blocks'[ring[j]], Low(ring, last) + j, stage, bs, i);
      }
    }
  }

  lemma MarkBlock(b: Block, b': Block, n: int, stage: seq<I.Stage>, bs: nat, i: nat)
    requires bs > 0 && FlagsAt(b, n, stage, bs) && i < |stage| && 0 <= FlagOf(bs, i) < bs
    requires b' == if n == I.Blk(bs, i) then b.(flags := b.flags[FlagOf(bs, i) := true]) else b
    ensures FlagsAt(b', n, stage[i := I.Marked], bs)
  {
    var st := stage[i := I.Marked];
    V.BlkOff(bs, i);
    hide I.Blk, I.Off;
    forall r | 0 <= r < bs ensures b'.flags[r] <==> V.IsMarked(st, bs * n + (bs - 1 - r)) {
      var j := bs * n + (bs - 1 - r);
      assert b.flags[r] <==> V.IsMarked(stage, j);
      V.BlkOf(bs, n, bs - 1 - r);
      if j == i { assert n == I.Blk(bs, i) && r == FlagOf(bs, i); }
      if n == I.Blk(bs, i) && r == FlagOf(bs, i) { assert j == i; }
    }
  }

  lemma MarkSlots(blocks: seq<Block>, ring: seq<BlockId>, last: int, stage: seq<I.Stage>, bs: nat, extra: nat, i: nat)
    requires SlotsOk(blocks, ring, last, stage, bs, extra) && i < |stage| && !stage[i].Fresh?
    ensures SlotsOk(blocks, ring, last, stage[i := I.Marked], bs, extra)
  {
    var st := stage[i := I.Marked];
    forall j | 0 <= j < |ring| ensures SlotsAt(blocks[ring[j]], Low(ring, last) + j, st, bs, extra) {
      var n := Low(ring, last) + j;
      assert SlotsAt(blocks[ring[j]], n, stage, bs, extra);
      forall x | 0 <= x < |blocks[ring[j]].slots| ensures SlotAt(blocks[ring[j]], n, x, st, bs, extra) {
        assert SlotAt(blocks[ring[j]], n, x, stage, bs, extra);
      }
    }
  }

  lemma MarkElements(blocks: seq<Block>, ring: seq<BlockId>, last: int, g: Log, threads: seq<T.Pc>, threads': seq<T.Pc>, bs: nat, t: Tid, i: nat)
    requires ElementsOk(blocks, ring, last, g, threads, bs) && i < |g.stage| && g.stage[i].Taken?
    requires t < |threads| == |threads'| && threads' == threads[t := T.Idle] && threads[t].Holding? && threads[t].first == i
    ensures ElementsOk(blocks, ring, last, g.(stage := g.stage[i := I.Marked]), threads', bs)
  {
    hide Stored, I.Blk;
    var g' := g.(stage := g.stage[i := I.Marked]);
    forall j | 0 <= j < |g'.stage| ensures ElementOk(blocks, ring, last, g', threads', bs, j) {
      assert ElementOk(blocks, ring, last, g, threads, bs, j);
    }
  }

  lemma MarkProd(s: State, blocks: seq<Block>, b: BlockId, r: nat)
    requires ProdOk(s.blocks, s.pool, s.headers, s.size, s.used, s.ring, s.last, s.bs, s.tk.tail, s.prod)
    requires b < |s.blocks| && r < |s.blocks[b].flags| && blocks == s.blocks[b := s.blocks[b].(flags := s.blocks[b].flags[r := true])]
    requires b in s.ring
    ensures ProdOk(blocks, s.pool, s.headers, s.size, s.used, s.ring, s.last, s.bs, s.tk.tail, s.prod)
  {
    hide I.Blk, I.Off;
  }

  lemma MarkEffect(s: State, t: Tid, i: nat, b: BlockId)
    requires Shaped(s) && t < |s.cons| && i < |s.log.stage| && b < |s.blocks|
    requires 0 <= FlagOf(s.bs, i) < |s.blocks[b].flags| && !s.blocks[b].flags[FlagOf(s.bs, i)]
    ensures MarkStep(s, t, i, b) == s.(blocks := s.blocks[b := s.blocks[b].(flags := s.blocks[b].flags[FlagOf(s.bs, i) := true])],
      log := s.log.(stage := s.log.stage[i := I.Marked]), tk := T.At(s.tk, t, T.Idle), cons := s.cons[t := CIdle])
  {
    hide FlagOf;
  }

  lemma MarkTicket(tk: T.State, t: Tid)
    requires T.Inv(tk) && Singles(tk.threads) && t < |tk.threads| && tk.threads[t].Holding?
    ensures T.Inv(T.At(tk, t, T.Idle)) && Singles(T.At(tk, t, T.Idle).threads)
  {
    SinglesKept(tk, T.Finish(t));
    hide T.Inv, T.Step, Singles;
    assert T.Next(tk, T.Finish(t)) == T.At(tk, t, T.Idle);
  }

  lemma MarkKeepsInv(s: State, t: Tid, i: nat, b: BlockId)
    requires Inv(s) && Shaped(s) && t < |s.cons| && s.tk.threads[t].Holding? && s.cons[t] == CMark(i, b)
    ensures Inv(MarkStep(s, t, i, b))
  {
    assert forall x, y :: 0 <= x < y < |s.ring| ==> s.ring[x] != s.ring[y];
    hide T.Inv, Singles, RingOk, FlagsOk, SlotsOk, HeadersOk, CurrentOk, ProdOk, ElementsOk, ConsOk, I.Blk, I.Off, Shaped, MarkStep, FlagOf, Stored;
    HeldFacts(s, t);
    MarkFlag(s, i, b);
    MarkEffect(s, t, i, b);
    MarkTicket(s.tk, t);
    var u := MarkStep(s, t, i, b);
    assert SameButFlags(s.blocks, u.blocks, b);
    assert b in s.ring;
    hide SameButFlags, FoundBlock;
    FlagRing(s.blocks, u.blocks, b, s.pool, s.ring, s.tailBlock);
    MarkFlags(s.blocks, u.blocks, b, s.ring, s.last, s.log.stage, s.bs, s.prod, i);
    FlagSlots(s.blocks, u.blocks, b, s.ring, s.last, s.log.stage, s.bs, Extra(s.prod));
    MarkSlots(u.blocks, s.ring, s.last, s.log.stage, s.bs, Extra(s.prod), i);
    FlagElements(s.blocks, u.blocks, b, s.ring, s.last, s.log, s.tk.threads, s.bs);
    MarkElements(u.blocks, s.ring, s.last, s.log, s.tk.threads, u.tk.threads, s.bs, t, i);
    MarkProd(s, u.blocks, b, FlagOf(s.bs, i));
    OthersKeep(s.headers, s.ring, s.last, s.log, u.log, s.bs, s.tk.threads, u.tk.threads, s.cons, u.cons, t, i);
  }
}
