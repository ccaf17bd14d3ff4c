// Constructing, publishing, claiming, looking up, moving and marking elements keep the invariant.

module ExplicitDequeue {
  import opened Wrappers
  import opened ModArith
  import opened ExplicitProducer
  import opened ExplicitInvariant
  import opened ExplicitEnqueue
  import opened ExplicitBlocks
  import opened ExplicitWrite
  import T = Tickets
  import I = ImplicitProducer
  import V = ImplicitInvariant

  // ----- a slot changes -----

  /** The same blocks but for slot k of block b, which becomes x. */
  predicate SlotChanged(blocks: seq<Block>, blocks': seq<Block>, b: BlockId, k: nat, x: Option<Elem>) {
    && |blocks| == |blocks'| && b < |blocks| && k < |blocks[b].slots|
    && blocks' == blocks[b := blocks[b].(slots := blocks[b].slots[k := x])]
  }

  /** Marks do not change. */
  ghost predicate SameMarks(stage: seq<I.Stage>, stage': seq<I.Stage>) {
    forall j :: V.IsMarked(stage, j) <==> V.IsMarked(stage', j)
  }

  lemma SlotRing(blocks: seq<Block>, blocks': seq<Block>, b: BlockId, k: nat, x: Option<Elem>, pool: set<BlockId>, ring: seq<BlockId>, tailBlock: Option<BlockId>)
    requires SlotChanged(blocks, blocks', b, k, x) && RingOk(blocks, pool, ring, tailBlock)
    ensures RingOk(blocks', pool, ring, tailBlock)
  {
    forall j | 0 <= j < |ring| ensures Linked(blocks', ring, j) && ring[j] !in pool { assert Linked(blocks, ring, j); }
  }

  lemma SlotFlags(blocks: seq<Block>, blocks': seq<Block>, b: BlockId, k: nat, x: Option<Elem>, ring: seq<BlockId>, last: int,
                  stage: seq<I.Stage>, stage': seq<I.Stage>, bs: nat, p: Prod, q: Prod)
    requires SlotChanged(blocks, blocks', b, k, x) && FlagsOk(blocks, ring, last, stage, bs, p) && SameMarks(stage, stage')
    requires p == q || (!p.PReset? && !q.PReset?)
    ensures FlagsOk(blocks', ring, last, stage', bs, q)
  {
    forall j | 0 <= j < |ring| ensures ring[j] < |blocks'| && BlockFlagsOk(blocks'[ring[j]], Low(ring, last) + j, stage', bs, q, j == |ring| - 1) {
      assert BlockFlagsOk(blocks[ring[j]], Low(ring, last) + j, stage, bs, p, j == |ring| - 1);
    }
  }

  // ----- constructing an element -----

  lemma WriteFacts(s: State, v: Elem)
    requires Inv(s) && s.prod == PWrite(v)
    ensures s.ring != [] && s.tailBlock == Some(s.ring[|s.ring| - 1]) && s.last == I.Blk(s.bs, s.tk.tail) && |s.log.stage| == s.tk.tail
    ensures s.tailBlock.value < |s.blocks| && I.Off(s.bs, s.tk.tail) < |s.blocks[s.tailBlock.value].slots| == s.bs
    ensures s.blocks[s.tailBlock.value].slots[I.Off(s.bs, s.tk.tail)] == None
  {
    hide I.Blk, I.Off, T.Inv, Singles, FlagsOk, HeadersOk, CurrentOk, ElementsOk, ConsOk;
    var k := |s.ring| - 1;
    V.BlkOff(s.bs, s.tk.tail);
    assert Linked(s.blocks, s.ring, k);
    assert SlotsAt(s.blocks[s.ring[k]], Low(s.ring, s.last) + k, s.log.stage, s.bs, 0);
    assert SlotAt(s.blocks[s.ring[k]], s.last, I.Off(s.bs, s.tk.tail), s.log.stage, s.bs, 0);
  }

  lemma WriteSlots(blocks: seq<Block>, blocks': seq<Block>, k: nat, v: Elem, ring: seq<BlockId>, last: int, stage: seq<I.Stage>, bs: nat)
    requires ring != [] && SlotChanged(blocks, blocks', ring[|ring| - 1], k, Some(v)) && SlotsOk(blocks, ring, last, stage, bs, 0)
    requires bs * last + k == |stage| && forall i, j :: 0 <= i < j < |ring| ==> ring[i] != ring[j]
    ensures SlotsOk(blocks', ring, last, stage, bs, 1)
  {
    forall j | 0 <= j < |ring| ensures ring[j] < |blocks'| && SlotsAt(blocks'[ring[j]], Low(ring, last) + j, stage, bs, 1) {
      var n := Low(ring, last) + j;
      assert SlotsAt(blocks[ring[j]], n, stage, bs, 0);
      forall x | 0 <= x < |blocks'[ring[j]].slots| ensures SlotAt(blocks'[ring[j]], n, x, stage, bs, 1) {
        assert SlotAt(blocks[ring[j]], n, x, stage, bs, 0);
      }
    }
    forall c | 0 <= c < |blocks'| ensures |blocks'[c].slots| == bs == |blocks'[c].flags| && (c !in ring ==> Vacant(blocks'[c])) {
      if c !in ring { assert Vacant(blocks[c]); }
    }
  }

  lemma WriteElements(blocks: seq<Block>, blocks': seq<Block>, v: Elem, ring: seq<BlockId>, last: int, g: Log, threads: seq<T.Pc>, bs: nat, tail: nat)
    requires ring != [] && bs > 0 && SlotChanged(blocks, blocks', ring[|ring| - 1], I.Off(bs, tail), Some(v))
    requires ElementsOk(blocks, ring, last, g, threads, bs) && |g.stage| == tail && last == I.Blk(bs, tail)
    requires forall i, j :: 0 <= i < j < |ring| ==> ring[i] != ring[j]
    ensures ElementsOk(blocks', ring, last, g, threads, bs)
  {
    hide I.Blk, I.Off, HeldIndex;
    forall j | 0 <= j < |g.stage| ensures ElementOk(blocks', ring, last, g, threads, bs, j) {
      assert ElementOk(blocks, ring, last, g, threads, bs, j);
      if I.Blk(bs, j) == last && I.Off(bs, j) == I.Off(bs, tail) { V.BlkOffUnique(bs, j, tail); }
    }
  }

  lemma WriteMoves(s: State, v: Elem, blocks: seq<Block>)
    requires s.prod == PWrite(v) && s.ring != []
    requires CurrentOk(s.headers, s.size, s.front, s.used, s.ring, s.last, s.prod)
    requires ProdOk(s.blocks, s.pool, s.headers, s.size, s.used, s.ring, s.last, s.bs, s.tk.tail, s.prod)
    requires SlotChanged(s.blocks, blocks, s.ring[|s.ring| - 1], I.Off(s.bs, s.tk.tail), Some(v))
    ensures CurrentOk(s.headers, s.size, s.front, s.used, s.ring, s.last, PPublish(v))
    ensures ProdOk(blocks, s.pool, s.headers, s.size, s.used, s.ring, s.last, s.bs, s.tk.tail, PPublish(v))
  {
    hide I.Blk, I.Off;
  }

  lemma WriteKeepsInv(s: State, v: Elem)
    requires Inv(s) && s.prod == PWrite(v) && s.tailBlock.Some?
    ensures Inv(SetSlot(s, s.tailBlock.value, I.Off(s.bs, s.tk.tail), Some(v)).(prod := PPublish(v)))
  {
    WriteFacts(s, v);
    V.BlkOff(s.bs, s.tk.tail);
    assert forall i, j :: 0 <= i < j < |s.ring| ==> s.ring[i] != s.ring[j];
    hide T.Inv, Singles, RingOk, FlagsOk, SlotsOk, HeadersOk, CurrentOk, ProdOk, ElementsOk, ConsOk, I.Blk, I.Off;
    var b, k := s.tailBlock.value, I.Off(s.bs, s.tk.tail);
    var blocks := SetSlot(s, b, k, Some(v)).blocks;
    assert SlotChanged(s.blocks, blocks, b, k, Some(v));
    hide SlotChanged;
    SlotRing(s.blocks, blocks, b, k, Some(v), s.pool, s.ring, s.tailBlock);
    SlotFlags(s.blocks, blocks, b, k, Some(v), s.ring, s.last, s.log.stage, s.log.stage, s.bs, s.prod, PPublish(v));
    WriteSlots(s.blocks, blocks, k, v, s.ring, s.last, s.log.stage, s.bs);
    WriteElements(s.blocks, blocks, v, s.ring, s.last, s.log, s.tk.threads, s.bs, s.tk.tail);
    WriteMoves(s, v, blocks);
  }

  // ----- publishing it -----

  lemma PublishLists(s: State, v: Elem, stage: seq<I.Stage>)
    requires FlagsOk(s.blocks, s.ring, s.last, s.log.stage, s.bs, PPublish(v)) && SlotsOk(s.blocks, s.ring, s.last, s.log.stage, s.bs, 1)
    requires stage == s.log.stage + [I.Fresh]
    ensures FlagsOk(s.blocks, s.ring, s.last, stage, s.bs, PIdle) && SlotsOk(s.blocks, s.ring, s.last, stage, s.bs, 0)
  {
    assert SameMarks(s.log.stage, stage);
    forall j | 0 <= j < |s.ring| ensures BlockFlagsOk(s.blocks[s.ring[j]], Low(s.ring, s.last) + j, stage, s.bs, PIdle, j == |s.ring| - 1) {
      assert BlockFlagsOk(s.blocks[s.ring[j]], Low(s.ring, s.last) + j, s.log.stage, s.bs, PPublish(v), j == |s.ring| - 1);
    }
    forall j | 0 <= j < |s.ring| ensures SlotsAt(s.blocks[s.ring[j]], Low(s.ring, s.last) + j, stage, s.bs, 0) {
      var n := Low(s.ring, s.last) + j;
      assert SlotsAt(s.blocks[s.ring[j]], n, s.log.stage, s.bs, 1);
      forall x | 0 <= x < |s.blocks[s.ring[j]].slots| ensures SlotAt(s.blocks[s.ring[j]], n, x, stage, s.bs, 0) {
        assert SlotAt(s.blocks[s.ring[j]], n, x, s.log.stage, s.bs, 1);
      }
    }
  }

  lemma PublishElements(s: State, v: Elem, g: Log)
    requires ElementsOk(s.blocks, s.ring, s.last, s.log, s.tk.threads, s.bs) && |s.log.stage| == s.tk.tail
    requires g == s.log.(enq := s.log.enq + [v], stage := s.log.stage + [I.Fresh])
    requires Stored(s.blocks, s.ring, s.last, s.bs, s.tk.tail, v)
    ensures ElementsOk(s.blocks, s.ring, s.last, g, s.tk.threads, s.bs)
  {
    hide Stored, I.Blk, HeldIndex;
    assert Low(s.ring, s.last) <= I.Blk(s.bs, s.tk.tail) by { TailStored(s, v); }
    forall j | 0 <= j < |g.stage| ensures ElementOk(s.blocks, s.ring, s.last, g, s.tk.threads, s.bs, j) {
      if j < s.tk.tail { assert ElementOk(s.blocks, s.ring, s.last, s.log, s.tk.threads, s.bs, j); }
    }
  }

  lemma TailStored(s: State, v: Elem)
    requires Stored(s.blocks, s.ring, s.last, s.bs, s.tk.tail, v)
    ensures Low(s.ring, s.last) <= I.Blk(s.bs, s.tk.tail)
  {
  }

  lemma PublishCons(s: State, v: Elem, g: Log)
    requires ConsOk(s.headers, s.ring, s.last, s.log, s.bs, s.tk.threads, s.cons)
    requires g == s.log.(enq := s.log.enq + [v], stage := s.log.stage + [I.Fresh])
    ensures ConsOk(s.headers, s.ring, s.last, g, s.bs, s.tk.threads, s.cons)
  {
    hide I.Blk, FoundBlock, AtFront;
    forall t | 0 <= t < |s.cons| ensures ConOk(s.headers, s.ring, s.last, g, s.bs, t, s.tk.threads[t], s.cons[t]) {
      assert ConOk(s.headers, s.ring, s.last, s.log, s.bs, t, s.tk.threads[t], s.cons[t]);
    }
  }

  lemma PublishMoves(s: State, v: Elem)
    requires s.prod == PPublish(v) && s.bs >= 2
    requires CurrentOk(s.headers, s.size, s.front, s.used, s.ring, s.last, s.prod)
    requires ProdOk(s.blocks, s.pool, s.headers, s.size, s.used, s.ring, s.last, s.bs, s.tk.tail, s.prod)
    ensures CurrentOk(s.headers, s.size, s.front, s.used, s.ring, s.last, PIdle)
    ensures ProdOk(s.blocks, s.pool, s.headers, s.size, s.used, s.ring, s.last, s.bs, s.tk.tail + 1, PIdle)
    ensures Stored(s.blocks, s.ring, s.last, s.bs, s.tk.tail, v)
  {
    assert s.tk.tail + 1 - 1 == s.tk.tail;
    hide I.Blk, I.Off;
  }

  lemma OneMore(tk: T.State)
    requires T.Inv(tk)
    ensures T.Inv(tk.(tail := tk.tail + 1))
  {
    hide T.Inv, T.Step;
    T.PublishKeepsInv(tk, 1);
    assert T.Next(tk, T.Publish(1)) == tk.(tail := tk.tail + 1);
  }

  lemma PublishKeepsInv(s: State, v: Elem)
    requires Inv(s) && s.prod == PPublish(v)
    ensures Inv(s.(tk := s.tk.(tail := s.tk.tail + 1), prod := PIdle, log := s.log.(enq := s.log.enq + [v], stage := s.log.stage + [I.Fresh])))
  {
    hide T.Inv, Singles, RingOk, FlagsOk, SlotsOk, HeadersOk, CurrentOk, ProdOk, ElementsOk, ConsOk, Stored;
    OneMore(s.tk);
    var g := s.log.(enq := s.log.enq + [v], stage := s.log.stage + [I.Fresh]);
    PublishMoves(s, v);
    PublishLists(s, v, g.stage);
    PublishElements(s, v, g);
    PublishCons(s, v, g);
  }

  // ----- the ticket protocol -----

  lemma SinglesKept(tk: T.State, a: T.Action)
    requires T.Inv(tk) && Singles(tk.threads) && T.Enabled(tk, a) && !a.Publish? && (a.Begin? ==> a.max == 1)
    ensures T.Inv(T.Next(tk, a)) && Singles(T.Next(tk, a).threads)
    ensures var k := T.Next(tk, a);
      && k.tail == tk.tail && |k.threads| == |tk.threads| && k.threads == tk.threads[a.t := k.threads[a.t]]
      && (if a.Go? && k.threads[a.t].Holding? then k.threads[a.t] == T.Holding(tk.head, 1) && k.head == tk.head + 1 else k.head == tk.head)
      && (k.threads[a.t].Holding? ==> a.Go?)
  {
    T.NextKeepsInv(tk, a);
    assert T.PcOk(tk, a.t) by { hide T.PcOk; }
    assert Single(tk.threads[a.t]);
    hide T.Inv;
    SingleStep(tk, a);
    hide T.Next, T.PcOk, Single;
  }

  lemma SingleStep(tk: T.State, a: T.Action)
    requires T.Enabled(tk, a) && !a.Publish? && (a.Begin? ==> a.max == 1) && Single(tk.threads[a.t])
    ensures var k := T.Next(tk, a);
      && Single(k.threads[a.t])
      && k.tail == tk.tail && |k.threads| == |tk.threads| && k.threads == tk.threads[a.t := k.threads[a.t]]
      && (if a.Go? && k.threads[a.t].Holding? then k.threads[a.t] == T.Holding(tk.head, 1) && k.head == tk.head + 1 else k.head == tk.head)
      && (k.threads[a.t].Holding? ==> a.Go?)
  {
  }

  /** A thread that holds nothing, before and after. */
  lemma FreeThread(s: State, k: T.State, t: Tid)
    requires Inv(s) && t < |s.cons| && !s.tk.threads[t].Holding? && T.Inv(k) && Singles(k.threads) && k.tail == s.tk.tail && k.head == s.tk.head
    requires |k.threads| == |s.tk.threads| && k.threads == s.tk.threads[t := k.threads[t]] && !k.threads[t].Holding?
    ensures Inv(s.(tk := k))
  {
    FreeElements(s.blocks, s.ring, s.last, s.log, s.tk.threads, k.threads, s.bs, t);
    FreeCons(s, k, t);
    hide T.Inv, Singles, RingOk, FlagsOk, SlotsOk, HeadersOk, CurrentOk, ProdOk, ElementsOk, ConsOk;
  }

  lemma FreeElements(blocks: seq<Block>, ring: seq<BlockId>, last: int, g: Log, threads: seq<T.Pc>, threads': seq<T.Pc>, bs: nat, t: Tid)
    requires ElementsOk(blocks, ring, last, g, threads, bs) && t < |threads| == |threads'| && threads' == threads[t := threads'[t]]
    requires !threads[t].Holding?
    ensures ElementsOk(blocks, ring, last, g, threads', bs)
  {
    hide Stored, I.Blk;
    forall j | 0 <= j < |g.stage| ensures ElementOk(blocks, ring, last, g, threads', bs, j) {
      assert ElementOk(blocks, ring, last, g, threads, bs, j);
    }
  }

  lemma FreeCons(s: State, k: T.State, t: Tid)
    requires ConsOk(s.headers, s.ring, s.last, s.log, s.bs, s.tk.threads, s.cons) && t < |s.cons|
    requires |k.threads| == |s.tk.threads| && k.threads == s.tk.threads[t := k.threads[t]] && !k.threads[t].Holding? && !s.tk.threads[t].Holding?
    ensures ConsOk(s.headers, s.ring, s.last, s.log, s.bs, k.threads, s.cons)
  {
    hide ConPcOk;
    forall u | 0 <= u < |s.cons| ensures ConOk(s.headers, s.ring, s.last, s.log, s.bs, u, k.threads[u], s.cons[u]) {
      assert ConOk(s.headers, s.ring, s.last, s.log, s.bs, u, s.tk.threads[u], s.cons[u]);
    }
  }

  lemma BeginKeepsInv(s: State, t: Tid)
    requires Inv(s) && Shaped(s) && T.Enabled(s.tk, T.Begin(t, 1))
    ensures Inv(s.(tk := T.Next(s.tk, T.Begin(t, 1))))
  {
    SinglesKept(s.tk, T.Begin(t, 1));
    hide Inv, T.Inv, T.Next;
    FreeThread(s, T.Next(s.tk, T.Begin(t, 1)), t);
  }

  lemma ClaimElements(blocks: seq<Block>, ring: seq<BlockId>, last: int, g: Log, g': Log, threads: seq<T.Pc>, threads': seq<T.Pc>, bs: nat, t: Tid)
    requires ElementsOk(blocks, ring, last, g, threads, bs) && t < |threads| == |threads'| && threads' == threads[t := threads'[t]]
    requires !threads[t].Holding? && threads'[t] == T.Holding(|g.owner|, 1) && |g.owner| < |g.stage| && g' == g.(owner := g.owner + [t])
    ensures ElementsOk(blocks, ring, last, g', threads', bs) && g.stage[|g.owner|].Fresh?
  {
    hide Stored, I.Blk;
    assert ElementOk(blocks, ring, last, g, threads, bs, |g.owner|);
    forall j | 0 <= j < |g.stage| ensures ElementOk(blocks, ring, last, g', threads', bs, j) {
      assert ElementOk(blocks, ring, last, g, threads, bs, j);
    }
  }

  lemma ClaimCons(headers: seq<Header>, ring: seq<BlockId>, last: int, g: Log, g': Log, bs: nat, threads: seq<T.Pc>, threads': seq<T.Pc>, cons: seq<Con>, t: Tid)
    requires ConsOk(headers, ring, last, g, bs, threads, cons) && t < |threads| == |threads'| && threads' == threads[t := threads'[t]]
    requires threads'[t] == T.Holding(|g.owner|, 1) && |g.owner| < |g.stage| && g.stage[|g.owner|].Fresh? && g' == g.(owner := g.owner + [t])
    ensures ConsOk(headers, ring, last, g', bs, threads', cons[t := CIndex(|g.owner|)])
  {
    hide I.Blk, FoundBlock, AtFront;
    var cons' := cons[t := CIndex(|g.owner|)];
    forall u | 0 <= u < |cons'| ensures ConOk(headers, ring, last, g', bs, u, threads'[u], cons'[u]) {
      assert ConOk(headers, ring, last, g, bs, u, threads[u], cons[u]);
    }
  }

  lemma TicketKeepsInv(s: State, t: Tid)
    requires Inv(s) && Shaped(s) && Enabled(s, Consume(t)) && !s.tk.threads[t].Holding?
    ensures Inv(TicketStep(s, t))
  {
    SinglesKept(s.tk, T.Go(t));
    var k := T.Next(s.tk, T.Go(t));
    hide T.Inv, Singles, RingOk, FlagsOk, SlotsOk, HeadersOk, CurrentOk, ProdOk, ElementsOk, ConsOk, T.Next;
    if !k.threads[t].Holding? {
      FreeThread(s, k, t);
    } else {
      T.HeadNeverPassesTail(k);
      var g := s.log.(owner := s.log.owner + [t]);
      assert seq(1, _ => t) == [t];
      ClaimElements(s.blocks, s.ring, s.last, s.log, g, s.tk.threads, k.threads, s.bs, t);
      ClaimCons(s.headers, s.ring, s.last, s.log, g, s.bs, s.tk.threads, k.threads, s.cons, t);
    }
  }
}
