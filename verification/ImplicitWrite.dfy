// The producer's steps that construct elements and publish them.

module ImplicitWrite {
  import opened Wrappers
  import opened ModArith
  import opened ImplicitProducer
  import opened ImplicitInvariant
  import opened ImplicitEnqueue
  import opened ImplicitBlocks
  import T = Tickets
  import X = BlockIndex

  // ----- constructing an element -----

  /** The block number of the k-th new element: an acquired one, or the partly filled tail block. */
  lemma TargetNumber(bs: nat, tail: nat, count: nat, k: nat)
    requires bs > 0 && k < count
    ensures var j := Blk(bs, tail + k) - Blk(bs, tail - 1);
      && 0 <= j <= Need(bs, tail, count)
      && (j == 0 ==> Off(bs, tail) != 0 && Blk(bs, tail + k) == Blk(bs, tail))
      && Blk(bs, tail + k) == First(bs, tail) + j - 1
  {
    BlkMonotone(bs, tail - 1, tail);
    BlkMonotone(bs, tail, tail + k);
    BlkMonotone(bs, tail + k, tail + count - 1);
    BlkNext(bs, tail - 1);
  }

  /** The element goes to a live block in use, to the block its index belongs to. */
  lemma TargetIsLive(s: State, vals: seq<Elem>, chain: seq<BlockId>, k: nat)
    requires Sizes(s) && X.HeadersOk(s.ix) && k < |vals| && Acquired(s.ix, s.mem, s.bs, s.tk.tail, vals, chain)
    requires TailBlockOk(s.ix.live, s.mem.place, s.bs, s.tk.tail, s.tailBlock)
    ensures var n := Blk(s.bs, s.tk.tail + k);
      var b := Target(s, chain, k);
      b.Some? && LiveAs(s.ix.live, n, b.value) && b.value < |s.mem.place| && s.mem.place[b.value] == InUse(n)
  {
    TargetNumber(s.bs, s.tk.tail, |vals|, k);
    hide X.HeadersOk, Blk, Off, StaleNull, LiveBelow;
    var j := Blk(s.bs, s.tk.tail + k) - Blk(s.bs, s.tk.tail - 1);
    if j > 0 {
      assert LiveAs(s.ix.live, First(s.bs, s.tk.tail) + (j - 1), chain[j - 1]);
    }
  }

  /** The slot it goes to is empty. */
  lemma TargetIsEmpty(s: State, n: int, k: nat, b: BlockId)
    requires Sizes(s) && SlotsOk(s.mem, s.log.stage, s.prod, s.bs) && Written(s.prod) == k
    requires b < |s.mem.blocks| && s.mem.place[b] == InUse(n) && n == Blk(s.bs, s.tk.tail + k)
    ensures Off(s.bs, s.tk.tail + k) < |s.mem.blocks[b].slots| && s.mem.blocks[b].slots[Off(s.bs, s.tk.tail + k)] == None
  {
    BlkOff(s.bs, s.tk.tail + k);
    hide Blk, Off, Written;
    assert SlotOk(s.mem, s.log.stage, s.prod, s.bs, b, Off(s.bs, s.tk.tail + k));
  }

  /** Storing into a slot leaves what is stored for every other index. */
  lemma StoredElsewhere(m: Mem, live: map<int, X.Spot>, bs: nat, i: int, j: int, b: BlockId, x: Option<Elem>, v: Elem)
    requires bs > 0 && i != j && Stored(m, live, bs, j, v) && |m.place| == |m.blocks|
    requires LiveAs(live, Blk(bs, i), b) && b < |m.blocks|
    requires forall n :: n in live ==> LiveBlockOk(m, live, n)
    ensures Stored(SetSlot(m, b, Off(bs, i), x), live, bs, j, v)
  {
    assert LiveBlockOk(m, live, Blk(bs, i)) && LiveBlockOk(m, live, Blk(bs, j));
    if Blk(bs, i) == Blk(bs, j) && Off(bs, i) == Off(bs, j) {
      BlkOffUnique(bs, i, j);
    }
    hide Blk, Off;
  }

  /** Changing one slot leaves places and counters as they are. */
  lemma SlotPlaces(s: State, b: BlockId, k: nat, x: Option<Elem>)
    requires PlacesOk(s.mem, s.ix.live, s.cons, s.prod, s.bs)
    ensures PlacesOk(SetSlot(s.mem, b, k, x), s.ix.live, s.cons, s.prod, s.bs)
  {
    var m' := SetSlot(s.mem, b, k, x);
    hide HeldHere;
    forall c | 0 <= c < |m'.place| ensures PlaceOk(m', s.ix.live, s.cons, s.prod, s.bs, c) {
      assert PlaceOk(s.mem, s.ix.live, s.cons, s.prod, s.bs, c);
    }
    forall n | n in s.ix.live ensures LiveBlockOk(m', s.ix.live, n) {
      assert LiveBlockOk(s.mem, s.ix.live, n);
    }
  }

  lemma SlotCounters(s: State, st: seq<Stage>, b: BlockId, k: nat, x: Option<Elem>)
    requires CountersOk(s.mem, s.ix.live, st, s.bs)
    ensures CountersOk(SetSlot(s.mem, b, k, x), s.ix.live, st, s.bs)
  {
    var m' := SetSlot(s.mem, b, k, x);
    hide MarkedIn;
    forall n | n in s.ix.live ensures CounterOk(m', s.ix.live, st, s.bs, n) {
      assert CounterOk(s.mem, s.ix.live, st, s.bs, n);
    }
  }

  lemma WriteElements(s: State, i: nat, b: BlockId, x: Option<Elem>)
    requires Sizes(s) && PlacesOk(s.mem, s.ix.live, s.cons, s.prod, s.bs)
    requires ElementsOk(s.mem, s.ix.live, s.log, s.tk.threads, s.cons, s.bs)
    requires i >= |s.log.stage| && LiveAs(s.ix.live, Blk(s.bs, i), b) && b < |s.mem.blocks|
    ensures ElementsOk(SetSlot(s.mem, b, Off(s.bs, i), x), s.ix.live, s.log, s.tk.threads, s.cons, s.bs)
  {
    hide HeldIndex, Blk, Off, PlaceOk, LiveBlockOk, Stored;
    forall j | 0 <= j < |s.log.stage|
      ensures ElementOk(SetSlot(s.mem, b, Off(s.bs, i), x), s.ix.live, s.log, s.tk.threads, s.cons, s.bs, j)
    {
      assert ElementOk(s.mem, s.ix.live, s.log, s.tk.threads, s.cons, s.bs, j);
      if s.log.stage[j].Fresh? {
        StoredElsewhere(s.mem, s.ix.live, s.bs, i, j, b, x, s.log.enq[j]);
      }
    }
  }

  lemma WriteSlots(s: State, k: nat, b: BlockId, v: Elem, p: Prod)
    requires Sizes(s) && SlotsOk(s.mem, s.log.stage, s.prod, s.bs) && Written(s.prod) == k && Written(p) == k + 1
    requires b < |s.mem.blocks| && s.mem.place[b] == InUse(Blk(s.bs, s.tk.tail + k))
    ensures SlotsOk(SetSlot(s.mem, b, Off(s.bs, s.tk.tail + k), Some(v)), s.log.stage, p, s.bs)
  {
    BlkOff(s.bs, s.tk.tail + k);
    hide Blk, Off, Written;
    var m' := SetSlot(s.mem, b, Off(s.bs, s.tk.tail + k), Some(v));
    forall c | 0 <= c < |m'.blocks| ensures |m'.blocks[c].slots| == s.bs {
      assert |s.mem.blocks[c].slots| == s.bs;
    }
    forall c, i | 0 <= c < |m'.blocks| && 0 <= i < |m'.blocks[c].slots| ensures SlotOk(m', s.log.stage, p, s.bs, c, i) {
      assert SlotOk(s.mem, s.log.stage, s.prod, s.bs, c, i);
    }
  }

  lemma WriteWritten(s: State, vals: seq<Elem>, k: nat, b: BlockId)
    requires Sizes(s) && PlacesOk(s.mem, s.ix.live, s.cons, s.prod, s.bs) && k < |vals|
    requires AllWritten(s.mem, s.ix.live, s.bs, s.tk.tail, vals, k)
    requires LiveAs(s.ix.live, Blk(s.bs, s.tk.tail + k), b) && b < |s.mem.blocks| && Off(s.bs, s.tk.tail + k) < |s.mem.blocks[b].slots|
    ensures AllWritten(SetSlot(s.mem, b, Off(s.bs, s.tk.tail + k), Some(vals[k])), s.ix.live, s.bs, s.tk.tail, vals, k + 1)
  {
    hide Blk, Off, PlaceOk, LiveBlockOk;
    var m' := SetSlot(s.mem, b, Off(s.bs, s.tk.tail + k), Some(vals[k]));
    forall x | 0 <= x < k + 1 ensures Stored(m', s.ix.live, s.bs, s.tk.tail + x, vals[x]) {
      if x < k {
        assert Stored(s.mem, s.ix.live, s.bs, s.tk.tail + x, vals[x]);
        StoredElsewhere(s.mem, s.ix.live, s.bs, s.tk.tail + k, s.tk.tail + x, b, Some(vals[k]), vals[x]);
      }
    }
  }

  /** The element goes to an empty slot of a live block. */
  lemma WriteTarget(s: State, vals: seq<Elem>, chain: seq<BlockId>, k: nat)
    requires Inv(s) && Shaped(s) && s.prod == PWrite(vals, chain, k)
    ensures Sizes(s) && k < |vals|
    ensures var n, o, b := Blk(s.bs, s.tk.tail + k), Off(s.bs, s.tk.tail + k), Target(s, chain, k);
      && b.Some? && b.value < |s.mem.blocks| && s.mem.place[b.value] == InUse(n) && LiveAs(s.ix.live, n, b.value)
      && o < |s.mem.blocks[b.value].slots| && s.mem.blocks[b.value].slots[o] == None
  {
    hide PlacesOk, SlotsOk, CountersOk, ElementsOk, ConsOk, TailBlockOk, T.Inv, X.Inv, X.HeaderOk, Blk, Off, Acquired, AllWritten;
    TargetIsLive(s, vals, chain, k);
    TargetIsEmpty(s, Blk(s.bs, s.tk.tail + k), k, Target(s, chain, k).value);
  }

  predicate MemoryOk(m: Mem, s: State, p: Prod) {
    && PlacesOk(m, s.ix.live, s.cons, p, s.bs)
    && CountersOk(m, s.ix.live, s.log.stage, s.bs)
    && ElementsOk(m, s.ix.live, s.log, s.tk.threads, s.cons, s.bs)
    && SlotsOk(m, s.log.stage, p, s.bs)
  }

  lemma WriteMemory(s: State, k: nat, b: BlockId, v: Elem, p: Prod)
    requires Sizes(s) && MemoryOk(s.mem, s, s.prod) && s.prod.PWrite? && (p.PWrite? || p.PPublish?)
    requires Written(s.prod) == k && Written(p) == k + 1 && b < |s.mem.blocks| == |s.mem.place|
    requires LiveAs(s.ix.live, Blk(s.bs, s.tk.tail + k), b) && s.mem.place[b] == InUse(Blk(s.bs, s.tk.tail + k))
    ensures MemoryOk(SetSlot(s.mem, b, Off(s.bs, s.tk.tail + k), Some(v)), s, p)
  {
    var o := Off(s.bs, s.tk.tail + k);
    hide PlacesOk, SlotsOk, CountersOk, ElementsOk, Blk, Off, LiveAs, SetSlot;
    SlotPlaces(s, b, o, Some(v));
    PlacesAfterProd(s.(mem := SetSlot(s.mem, b, o, Some(v))), p);
    SlotCounters(s, s.log.stage, b, o, Some(v));
    WriteElements(s, s.tk.tail + k, b, Some(v));
    WriteSlots(s, k, b, v, p);
  }

  /** What writing comes to, when the slot is there and empty. */
  lemma WriteIs(s: State, vals: seq<Elem>, chain: seq<BlockId>, k: nat, b: BlockId)
    requires Shaped(s) && k < |vals| && Target(s, chain, k) == Some(b) && b < |s.mem.blocks|
    requires Off(s.bs, s.tk.tail + k) < |s.mem.blocks[b].slots| && s.mem.blocks[b].slots[Off(s.bs, s.tk.tail + k)] == None
    ensures WriteStep(s, vals, chain, k) ==
      s.(mem := SetSlot(s.mem, b, Off(s.bs, s.tk.tail + k), Some(vals[k])), prod := AfterWrite(vals, chain, k))
  {
    hide Shaped, Off, Target;
  }

  function AfterWrite(vals: seq<Elem>, chain: seq<BlockId>, k: nat): Prod {
    if k + 1 < |vals| then PWrite(vals, chain, k + 1) else PPublish(vals, chain)
  }

  lemma WriteProd(s: State, vals: seq<Elem>, chain: seq<BlockId>, k: nat, b: BlockId)
    requires Sizes(s) && X.HeadersOk(s.ix) && PlacesOk(s.mem, s.ix.live, s.cons, s.prod, s.bs) && k < |vals|
    requires ProdOk(s.ix, s.mem, s.bs, s.tk.tail, s.prod) && s.prod == PWrite(vals, chain, k)
    requires LiveAs(s.ix.live, Blk(s.bs, s.tk.tail + k), b) && b < |s.mem.blocks| && Off(s.bs, s.tk.tail + k) < |s.mem.blocks[b].slots|
    ensures ProdOk(s.ix, SetSlot(s.mem, b, Off(s.bs, s.tk.tail + k), Some(vals[k])), s.bs, s.tk.tail, AfterWrite(vals, chain, k))
  {
    hide PlacesOk, X.HeadersOk, Blk, Off, Acquired, AllWritten, LiveAs;
    WriteWritten(s, vals, k, b);
    SameAcquired(s.ix, s.mem, SetSlot(s.mem, b, Off(s.bs, s.tk.tail + k), Some(vals[k])), s.bs, s.tk.tail, vals, chain);
  }

  lemma WriteKeepsInv(s: State, vals: seq<Elem>, chain: seq<BlockId>, k: nat)
    requires Inv(s) && Shaped(s) && s.prod == PWrite(vals, chain, k)
    ensures Inv(WriteStep(s, vals, chain, k))
  {
    hide Shaped, WriteStep, PlacesOk, SlotsOk, CountersOk, ElementsOk, ConsOk, ProdOk, TailBlockOk, T.Inv, X.Inv, X.HeadersOk, Blk, Off, Target, LiveAs;
    WriteTarget(s, vals, chain, k);
    ShapedHeaders(s);
    var b := Target(s, chain, k).value;
    WriteIs(s, vals, chain, k, b);
    WriteMemory(s, k, b, vals[k], AfterWrite(vals, chain, k));
    WriteProd(s, vals, chain, k, b);
  }

  lemma ShapedHeaders(s: State)
    requires Shaped(s)
    ensures X.HeadersOk(s.ix) && |s.mem.place| == |s.mem.blocks|
  {
  }

  lemma SameAcquired(x: X.Index, m: Mem, m': Mem, bs: nat, tail: nat, vals: seq<Elem>, chain: seq<BlockId>)
    requires X.HeadersOk(x) && m'.place == m.place && Acquired(x, m, bs, tail, vals, chain)
    ensures Acquired(x, m', bs, tail, vals, chain)
  {
    hide X.HeadersOk, Blk, StaleNull, LiveBelow;
  }

  // ----- publishing -----

  lemma PublishNumbers(bs: nat, tail: nat, count: nat)
    requires bs > 0
    ensures First(bs, tail + count) == First(bs, tail) + Need(bs, tail, count)
    ensures Off(bs, tail + count) != 0 ==> Blk(bs, tail + count) == First(bs, tail + count) - 1
    ensures Need(bs, tail, count) == 0 && Off(bs, tail + count) != 0 ==> Off(bs, tail) != 0 && Blk(bs, tail + count) == Blk(bs, tail)
  {
    BlkNext(bs, tail + count - 1);
    BlkNext(bs, tail - 1);
    if count > 0 {
      BlkMonotone(bs, tail - 1, tail);
      BlkMonotone(bs, tail, tail + count - 1);
    }
  }

  lemma PublishElements(s: State, vals: seq<Elem>)
    requires Sizes(s) && ElementsOk(s.mem, s.ix.live, s.log, s.tk.threads, s.cons, s.bs)
    requires AllWritten(s.mem, s.ix.live, s.bs, s.tk.tail, vals, |vals|)
    ensures ElementsOk(s.mem, s.ix.live, PublishStep(s, vals, []).log, s.tk.threads, s.cons, s.bs)
  {
    hide HeldIndex, Blk, Off;
    var g := PublishStep(s, vals, []).log;
    forall j | 0 <= j < |g.stage| ensures ElementOk(s.mem, s.ix.live, g, s.tk.threads, s.cons, s.bs, j) {
      if j < |s.log.stage| {
        assert ElementOk(s.mem, s.ix.live, s.log, s.tk.threads, s.cons, s.bs, j);
      } else {
        assert Stored(s.mem, s.ix.live, s.bs, s.tk.tail + (j - s.tk.tail), vals[j - s.tk.tail]);
      }
    }
  }

  lemma PublishCounters(s: State, count: nat)
    requires CountersOk(s.mem, s.ix.live, s.log.stage, s.bs)
    ensures CountersOk(s.mem, s.ix.live, s.log.stage + seq(count, _ => Fresh), s.bs)
  {
    var st' := s.log.stage + seq(count, _ => Fresh);
    forall n | n in s.ix.live ensures CounterOk(s.mem, s.ix.live, st', s.bs, n) {
      assert CounterOk(s.mem, s.ix.live, s.log.stage, s.bs, n);
      MarkedSame(s.log.stage, st', s.bs * n, s.bs);
    }
  }

  lemma PublishSlots(s: State, count: nat)
    requires SlotsOk(s.mem, s.log.stage, s.prod, s.bs) && Written(s.prod) == count
    ensures SlotsOk(s.mem, s.log.stage + seq(count, _ => Fresh), PIdle, s.bs)
  {
    var st' := s.log.stage + seq(count, _ => Fresh);
    assert Written(PIdle) == 0;
    hide Written;
    forall b, k | 0 <= b < |s.mem.blocks| && 0 <= k < |s.mem.blocks[b].slots| ensures SlotOk(s.mem, st', PIdle, s.bs, b, k) {
      assert SlotOk(s.mem, s.log.stage, s.prod, s.bs, b, k);
    }
  }

  lemma PublishCons(s: State, vals: seq<Elem>)
    requires ConsOk(s.ix.headers, s.ix.live, s.mem.place, s.log, s.bs, s.tk.threads, s.cons) && |s.log.owner| <= |s.log.stage|
    ensures ConsOk(s.ix.headers, s.ix.live, s.mem.place, PublishStep(s, vals, []).log, s.bs, s.tk.threads, s.cons)
  {
    hide ConPcOk, End, Seg;
    forall t | 0 <= t < |s.cons|
      ensures ConOk(s.ix.headers, s.ix.live, s.mem.place, PublishStep(s, vals, []).log, s.bs, t, s.tk.threads[t], s.cons[t])
    {
      assert ConOk(s.ix.headers, s.ix.live, s.mem.place, s.log, s.bs, t, s.tk.threads[t], s.cons[t]);
    }
  }

  lemma PublishTailBlock(s: State, vals: seq<Elem>, chain: seq<BlockId>)
    requires Sizes(s) && X.HeadersOk(s.ix) && Acquired(s.ix, s.mem, s.bs, s.tk.tail, vals, chain)
    requires TailBlockOk(s.ix.live, s.mem.place, s.bs, s.tk.tail, s.tailBlock)
    ensures TailBlockOk(s.ix.live, s.mem.place, s.bs, s.tk.tail + |vals|, PublishStep(s, vals, chain).tailBlock)
    ensures ProdOk(s.ix, s.mem, s.bs, s.tk.tail + |vals|, PIdle)
  {
    PublishNumbers(s.bs, s.tk.tail, |vals|);
    hide X.HeadersOk, Blk, Off, StaleNull;
    if chain != [] {
      assert LiveAs(s.ix.live, First(s.bs, s.tk.tail) + (|chain| - 1), chain[|chain| - 1]);
    }
  }

  lemma PublishKeepsInv(s: State, vals: seq<Elem>, chain: seq<BlockId>)
    requires Inv(s) && s.prod == PPublish(vals, chain)
    ensures Inv(PublishStep(s, vals, chain))
  {
    hide PlacesOk, SlotsOk, CountersOk, ElementsOk, ConsOk, TailBlockOk, T.Inv, X.Inv, X.HeaderOk, Blk, Off, AllWritten;
    T.PublishKeepsInv(s.tk, |vals|);
    PublishNumbers(s.bs, s.tk.tail, |vals|);
    X.FirstMovesUp(s.ix, First(s.bs, s.tk.tail), First(s.bs, s.tk.tail + |vals|));
    PlacesAfterProd(s, PIdle);
    PublishCounters(s, |vals|);
    PublishElements(s, vals);
    PublishSlots(s, |vals|);
    HeadFits(s);
    PublishCons(s, vals);
    PublishTailBlock(s, vals, chain);
  }

  lemma HeadFits(s: State)
    requires Sizes(s) && T.Inv(s.tk)
    ensures |s.log.owner| <= |s.log.stage|
  {
    T.HeadNeverPassesTail(s.tk);
  }
}
