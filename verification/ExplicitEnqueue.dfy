// Each step of the explicit producer keeps the invariant.

module ExplicitEnqueue {
  import opened Wrappers
  import opened ModArith
  import opened ExplicitProducer
  import opened ExplicitInvariant
  import T = Tickets
  import I = ImplicitProducer
  import V = ImplicitInvariant

  // ----- steps that change nothing but the producer's position -----

  lemma FlagsMove(blocks: seq<Block>, ring: seq<BlockId>, last: int, stage: seq<I.Stage>, bs: nat, p: Prod, q: Prod)
    requires FlagsOk(blocks, ring, last, stage, bs, p) && !p.PReset? && !q.PReset?
    ensures FlagsOk(blocks, ring, last, stage, bs, q)
  {
    hide FlagsAt, Cleared;
  }

  lemma ProdMove(s: State, q: Prod)
    requires Inv(s) && !s.prod.PReset? && !q.PReset? && Extra(q) == Extra(s.prod)
    requires CurrentOk(s.headers, s.size, s.front, s.used, s.ring, s.last, q)
    requires ProdOk(s.blocks, s.pool, s.headers, s.size, s.used, s.ring, s.last, s.bs, s.tk.tail, q)
    ensures Inv(s.(prod := q))
  {
    FlagsMove(s.blocks, s.ring, s.last, s.log.stage, s.bs, s.prod, q);
    hide T.Inv, Singles, RingOk, FlagsOk, SlotsOk, HeadersOk, CurrentOk, ProdOk, ElementsOk, ConsOk;
  }

  /** With nothing in the list the tail is still at 0. */
  lemma RingEmpty(s: State)
    requires Inv(s) && s.ring == [] && s.last == I.Blk(s.bs, s.tk.tail - 1)
    ensures s.tk.tail == 0
  {
    V.BlkOff(s.bs, s.tk.tail - 1);
    hide T.Inv, Singles, RingOk, FlagsOk, SlotsOk, HeadersOk, CurrentOk, ProdOk, ElementsOk, ConsOk;
  }

  lemma OffZero(bs: nat)
    requires bs > 0
    ensures I.Off(bs, 0) == 0
  {
    ModSmall(0, bs);
  }

  lemma EnqueueMoves(s: State, q: Prod)
    requires s.prod.PIdle? && s.bs >= 2 && (s.ring == [] ==> I.Off(s.bs, s.tk.tail) == 0)
    requires s.ring != [] ==> s.ring[0] < |s.blocks| && |s.blocks[s.ring[0]].flags| == s.bs
    requires CurrentOk(s.headers, s.size, s.front, s.used, s.ring, s.last, s.prod)
    requires ProdOk(s.blocks, s.pool, s.headers, s.size, s.used, s.ring, s.last, s.bs, s.tk.tail, s.prod)
    requires if I.Off(s.bs, s.tk.tail) != 0 then q.PWrite? else if s.ring != [] then q.PCheck? && q.i == 0 else q.PRoom?
    ensures CurrentOk(s.headers, s.size, s.front, s.used, s.ring, s.last, q)
    ensures ProdOk(s.blocks, s.pool, s.headers, s.size, s.used, s.ring, s.last, s.bs, s.tk.tail, q)
  {
    V.BlkNext(s.bs, s.tk.tail - 1);
    hide I.Blk, I.Off;
  }

  lemma EnqueueFacts(s: State)
    requires Inv(s) && s.prod.PIdle?
    ensures s.bs >= 2 && (s.ring == [] ==> I.Off(s.bs, s.tk.tail) == 0) && (s.tailBlock.Some? <==> s.ring != [])
    ensures s.ring != [] ==> s.ring[0] < |s.blocks| && |s.blocks[s.ring[0]].flags| == s.bs
  {
    if s.ring == [] {
      RingEmpty(s);
      OffZero(s.bs);
    } else {
      assert Linked(s.blocks, s.ring, 0);
    }
    hide T.Inv, Singles, FlagsOk, HeadersOk, CurrentOk, ElementsOk, ConsOk, I.Blk, I.Off, SlotsAt, Vacant, Linked;
  }

  lemma EnqueueKeepsInv(s: State, v: Elem)
    requires Inv(s) && Shaped(s) && s.prod.PIdle?
    ensures Inv(Next(s, Enqueue(v)))
  {
    EnqueueFacts(s);
    hide T.Inv, Singles, RingOk, FlagsOk, SlotsOk, HeadersOk, CurrentOk, ProdOk, ElementsOk, ConsOk, I.Blk, I.Off, Shaped;
    var q := Next(s, Enqueue(v)).prod;
    EnqueueMoves(s, q);
    hide Inv;
    ProdMove(s, q);
  }

  lemma RoomOk(s: State, v: Elem)
    requires s.prod == PRoom(v) && s.bs >= 2
    requires CurrentOk(s.headers, s.size, s.front, s.used, s.ring, s.last, s.prod)
    requires ProdOk(s.blocks, s.pool, s.headers, s.size, s.used, s.ring, s.last, s.bs, s.tk.tail, s.prod)
    ensures var q := RoomStep(s, v).prod;
      && !q.PReset? && Extra(q) == 0
      && CurrentOk(s.headers, s.size, s.front, s.used, s.ring, s.last, q)
      && ProdOk(s.blocks, s.pool, s.headers, s.size, s.used, s.ring, s.last, s.bs, s.tk.tail, q)
  {
    hide I.Blk, I.Off;
  }

  lemma RoomKeepsInv(s: State, v: Elem)
    requires Inv(s) && s.prod == PRoom(v)
    ensures Inv(RoomStep(s, v))
  {
    T.HeadNeverPassesTail(s.tk);
    RoomOk(s, v);
    hide Inv, CurrentOk, ProdOk;
    ProdMove(s, RoomStep(s, v).prod);
  }

  lemma StopKeepsInv(s: State, v: Elem)
    requires Inv(s) && (s.prod == PGrow(v) || s.prod == PAlloc(v))
    ensures Inv(s.(prod := PIdle))
  {
    hide T.Inv, Singles, RingOk, FlagsOk, SlotsOk, HeadersOk, ElementsOk, ConsOk, I.Blk, I.Off;
    ProdMove(s, PIdle);
  }

  // ----- reusing the block ahead -----

  /** The tail block's next pointer leads to the oldest block. */
  lemma AheadIsOldest(s: State, v: Elem, i: nat)
    requires Inv(s) && s.prod == PCheck(v, i)
    ensures s.ring != [] && s.tailBlock == Some(s.ring[|s.ring| - 1]) && s.ring[|s.ring| - 1] < |s.blocks| && s.ring[0] < |s.blocks|
    ensures s.blocks[s.ring[|s.ring| - 1]].next == s.ring[0]
    ensures i < s.bs && |s.blocks[s.ring[0]].flags| == s.bs && forall x :: 0 <= x < i ==> s.blocks[s.ring[0]].flags[x]
  {
    assert Linked(s.blocks, s.ring, |s.ring| - 1) && Linked(s.blocks, s.ring, 0);
    hide T.Inv, Singles, FlagsOk, SlotsOk, HeadersOk, CurrentOk, ElementsOk, ConsOk, Linked, I.Blk, I.Off;
  }

  lemma CheckMoves(s: State, v: Elem, i: nat)
    requires Inv(s) && s.prod == PCheck(v, i) && s.ring[0] < |s.blocks| && i < |s.blocks[s.ring[0]].flags|
    ensures !s.blocks[s.ring[0]].flags[i] ==> Inv(s.(prod := PRoom(v)))
    ensures s.blocks[s.ring[0]].flags[i] && i + 1 < s.bs ==> Inv(s.(prod := PCheck(v, i + 1)))
  {
    CheckCurrent(s, v, i);
    CheckProd(s, v, i);
    hide Inv, ProdOk, CurrentOk;
    if !s.blocks[s.ring[0]].flags[i] {
      ProdMove(s, PRoom(v));
    } else if i + 1 < s.bs {
      ProdMove(s, PCheck(v, i + 1));
    }
  }

  lemma CheckProd(s: State, v: Elem, i: nat)
    requires Inv(s) && s.prod == PCheck(v, i) && s.ring[0] < |s.blocks| && i < |s.blocks[s.ring[0]].flags|
    ensures ProdOk(s.blocks, s.pool, s.headers, s.size, s.used, s.ring, s.last, s.bs, s.tk.tail, PRoom(v))
    ensures s.blocks[s.ring[0]].flags[i] && i + 1 < s.bs ==>
      ProdOk(s.blocks, s.pool, s.headers, s.size, s.used, s.ring, s.last, s.bs, s.tk.tail, PCheck(v, i + 1))
  {
    hide T.Inv, Singles, RingOk, FlagsOk, SlotsOk, HeadersOk, CurrentOk, ElementsOk, ConsOk, I.Blk, I.Off;
  }

  lemma CheckKeepsInv(s: State, v: Elem, i: nat)
    requires Inv(s) && s.prod == PCheck(v, i)
    ensures Inv(CheckStep(s, v, i))
  {
    AheadIsOldest(s, v, i);
    hide Inv;
    if s.blocks[s.ring[0]].flags[i] && i + 1 == s.bs {
      AllFlagsSet(s, v, i);
      ReuseKeepsInv(s, v);
    } else {
      CheckMoves(s, v, i);
    }
  }

  lemma CheckCurrent(s: State, v: Elem, i: nat)
    requires Inv(s) && s.prod == PCheck(v, i)
    ensures CurrentOk(s.headers, s.size, s.front, s.used, s.ring, s.last, PRoom(v))
    ensures CurrentOk(s.headers, s.size, s.front, s.used, s.ring, s.last, PCheck(v, i + 1))
  {
    hide T.Inv, Singles, RingOk, FlagsOk, SlotsOk, HeadersOk, ElementsOk, ConsOk, I.Blk, I.Off;
  }

  /** The state after the block ahead has been found empty. */
  function Reused(s: State, v: Elem): State
    requires s.ring != []
  {
    s.(tailBlock := Some(s.ring[0]), prod := PReset(v, 0), ring := s.ring[1..] + [s.ring[0]], last := s.last + 1)
  }

  /** Every index of block number n has been dequeued completely. */
  predicate AllMarked(stage: seq<I.Stage>, bs: nat, n: int) { forall j :: bs * n <= j < bs * n + bs ==> V.IsMarked(stage, j) }

  lemma AllFlagsSet(s: State, v: Elem, i: nat)
    requires Inv(s) && s.prod == PCheck(v, i) && i + 1 == s.bs
    requires s.ring[0] < |s.blocks| && i < |s.blocks[s.ring[0]].flags| && s.blocks[s.ring[0]].flags[i]
    ensures AllMarked(s.log.stage, s.bs, Low(s.ring, s.last))
  {
    AheadIsOldest(s, v, i);
    hide T.Inv, Singles, RingOk, FlagsOk, SlotsOk, HeadersOk, CurrentOk, ProdOk, ElementsOk, ConsOk;
    OldestMarked(s.blocks, s.ring, s.last, s.log.stage, s.bs, s.prod);
  }

  /** A block of the list with all flags set has been dequeued completely. */
  lemma OldestMarked(blocks: seq<Block>, ring: seq<BlockId>, last: int, stage: seq<I.Stage>, bs: nat, p: Prod)
    requires FlagsOk(blocks, ring, last, stage, bs, p) && !p.PReset? && ring != [] && ring[0] < |blocks|
    requires |blocks[ring[0]].flags| == bs && forall x :: 0 <= x < bs ==> blocks[ring[0]].flags[x]
    ensures AllMarked(stage, bs, Low(ring, last))
  {
    var n, b := Low(ring, last), blocks[ring[0]];
    assert BlockFlagsOk(b, n + 0, stage, bs, p, 0 == |ring| - 1);
    forall j | bs * n <= j < bs * n + bs ensures V.IsMarked(stage, j) {
      var r := bs * n + bs - 1 - j;
      assert b.flags[r];
      assert bs * n + (bs - 1 - r) == j;
    }
  }

  lemma ReuseRing(blocks: seq<Block>, pool: set<BlockId>, ring: seq<BlockId>, tailBlock: Option<BlockId>)
    requires RingOk(blocks, pool, ring, tailBlock) && ring != []
    ensures RingOk(blocks, pool, ring[1..] + [ring[0]], Some(ring[0]))
  {
    var r := ring[1..] + [ring[0]];
    forall j | 0 <= j < |r| ensures Linked(blocks, r, j) && r[j] !in pool {
      LinkedRotated(blocks, ring, j);
    }
    Rotated(ring);
    hide Linked;
  }

  lemma LinkedRotated(blocks: seq<Block>, ring: seq<BlockId>, j: nat)
    requires j < |ring| && Linked(blocks, ring, if j + 1 < |ring| then j + 1 else 0)
    ensures Linked(blocks, ring[1..] + [ring[0]], j)
  {
  }

  lemma Rotated(ring: seq<BlockId>)
    requires ring != [] && forall i, j :: 0 <= i < j < |ring| ==> ring[i] != ring[j]
    ensures var r := ring[1..] + [ring[0]];
      && (forall i, j :: 0 <= i < j < |r| ==> r[i] != r[j]) && r[|r| - 1] == ring[0]
      && (forall j :: 0 <= j < |r| ==> r[j] == ring[if j + 1 < |ring| then j + 1 else 0])
  {
  }

  lemma ReuseFlags(blocks: seq<Block>, ring: seq<BlockId>, last: int, stage: seq<I.Stage>, bs: nat, p: Prod, v: Elem)
    requires FlagsOk(blocks, ring, last, stage, bs, p) && !p.PReset? && ring != []
    ensures FlagsOk(blocks, ring[1..] + [ring[0]], last + 1, stage, bs, PReset(v, 0))
  {
    var r := ring[1..] + [ring[0]];
    assert |blocks[ring[0]].flags| == bs by { assert BlockFlagsOk(blocks[ring[0]], Low(ring, last) + 0, stage, bs, p, 0 == |ring| - 1); }
    forall j | 0 <= j < |r|
      ensures r[j] < |blocks| && BlockFlagsOk(blocks[r[j]], Low(r, last + 1) + j, stage, bs, PReset(v, 0), j == |r| - 1)
    {
      if j + 1 < |r| {
        assert BlockFlagsOk(blocks[ring[j + 1]], Low(ring, last) + (j + 1), stage, bs, p, j + 1 == |ring| - 1);
        assert r[j] == ring[j + 1];
      }
    }
  }

  lemma ReuseSlots(blocks: seq<Block>, ring: seq<BlockId>, last: int, stage: seq<I.Stage>, bs: nat)
    requires SlotsOk(blocks, ring, last, stage, bs, 0) && ring != [] && AllMarked(stage, bs, Low(ring, last))
    ensures SlotsOk(blocks, ring[1..] + [ring[0]], last + 1, stage, bs, 0)
  {
    var r := ring[1..] + [ring[0]];
    assert SlotsAt(blocks[ring[0]], Low(ring, last) + 0, stage, bs, 0);
    var b := blocks[ring[0]];
    forall k | 0 <= k < |b.slots| ensures b.slots[k] == None {
      assert SlotAt(b, Low(ring, last), k, stage, bs, 0);
      assert V.IsMarked(stage, bs * Low(ring, last) + k);
    }
    forall j | 0 <= j < |r| ensures r[j] < |blocks| && SlotsAt(blocks[r[j]], Low(r, last + 1) + j, stage, bs, 0) {
      if j + 1 < |r| {
        assert SlotsAt(blocks[ring[j + 1]], Low(ring, last) + (j + 1), stage, bs, 0);
        assert r[j] == ring[j + 1];
      }
    }
    forall c: BlockId | c in ring ensures c in r {
      var j :| 0 <= j < |ring| && ring[j] == c;
      if j > 0 { assert r[j - 1] == c; } else { assert r[|r| - 1] == c; }
    }
  }

  lemma ReuseHeaders(headers: seq<Header>, ring: seq<BlockId>, last: int)
    requires HeadersOk(headers, ring, last) && ring != []
    ensures HeadersOk(headers, ring[1..] + [ring[0]], last + 1)
  {
    var r, next := ring[1..] + [ring[0]], last + 1;
    forall h | 0 <= h < |headers| ensures HeaderOk(headers[h], r, next) {
      assert HeaderOk(headers[h], ring, last);
      forall n | Low(r, next) <= n <= headers[h].high ensures EntryOk(headers[h], r, next, n) {
        assert EntryOk(headers[h], ring, last, n);
        assert r[n - Low(r, next)] == ring[n - Low(ring, last)];
      }
    }
  }

  lemma ReuseElements(blocks: seq<Block>, ring: seq<BlockId>, last: int, g: Log, threads: seq<T.Pc>, bs: nat)
    requires ElementsOk(blocks, ring, last, g, threads, bs) && ring != [] && bs > 0 && AllMarked(g.stage, bs, Low(ring, last))
    ensures ElementsOk(blocks, ring[1..] + [ring[0]], last + 1, g, threads, bs)
  {
    hide AllMarked, I.Blk, I.Off;
    var r, next := ring[1..] + [ring[0]], last + 1;
    forall j | 0 <= j < |g.stage| ensures ElementOk(blocks, r, next, g, threads, bs, j) {
      assert ElementOk(blocks, ring, last, g, threads, bs, j);
      if !g.stage[j].Marked? { NotRetired(g.stage, bs, Low(ring, last), j); }
      if g.stage[j].Fresh? {
        assert r[I.Blk(bs, j) - Low(r, next)] == ring[I.Blk(bs, j) - Low(ring, last)];
      }
    }
  }

  lemma NotRetired(stage: seq<I.Stage>, bs: nat, n: int, j: nat)
    requires bs > 0 && AllMarked(stage, bs, n) && j < |stage| && !stage[j].Marked?
    ensures I.Blk(bs, j) != n
  {
    V.BlkRange(bs, j, n);
    assert I.Blk(bs, j) == n ==> V.IsMarked(stage, j);
  }

  lemma ReuseCons(headers: seq<Header>, ring: seq<BlockId>, last: int, g: Log, bs: nat, threads: seq<T.Pc>, cons: seq<Con>)
    requires ConsOk(headers, ring, last, g, bs, threads, cons) && ring != [] && bs > 0 && AllMarked(g.stage, bs, Low(ring, last))
    ensures ConsOk(headers, ring[1..] + [ring[0]], last + 1, g, bs, threads, cons)
  {
    var r := ring[1..] + [ring[0]];
    hide AllMarked, AtFront;
    forall t | 0 <= t < |cons| ensures ConOk(headers, r, last + 1, g, bs, t, threads[t], cons[t]) {
      assert ConOk(headers, ring, last, g, bs, t, threads[t], cons[t]);
      if threads[t].Holding? {
        var i := threads[t].first;
        if cons[t].CMove? || cons[t].CMark? {
          NotRetired(g.stage, bs, Low(ring, last), i);
          assert r[I.Blk(bs, i) - Low(r, last + 1)] == ring[I.Blk(bs, i) - Low(ring, last)];
        }
      }
    }
  }

  lemma ReuseCurrent(headers: seq<Header>, size: nat, front: nat, used: nat, ring: seq<BlockId>, last: int, p: Prod, v: Elem)
    requires CurrentOk(headers, size, front, used, ring, last, p) && ring != [] && p.PCheck?
    ensures CurrentOk(headers, size, front, used, ring[1..] + [ring[0]], last + 1, PReset(v, 0))
  {
  }

  lemma ReuseProd(s: State, v: Elem)
    requires s.prod.PCheck? && s.bs >= 2
    requires ProdOk(s.blocks, s.pool, s.headers, s.size, s.used, s.ring, s.last, s.bs, s.tk.tail, s.prod)
    ensures ProdOk(s.blocks, s.pool, s.headers, s.size, s.used, s.ring[1..] + [s.ring[0]], s.last + 1, s.bs, s.tk.tail, PReset(v, 0))
  {
    V.BlkNext(s.bs, s.tk.tail - 1);
    hide I.Blk, I.Off;
  }

  lemma ReuseKeepsInv(s: State, v: Elem)
    requires Inv(s) && s.prod.PCheck? && s.ring != [] && AllMarked(s.log.stage, s.bs, Low(s.ring, s.last))
    ensures Inv(Reused(s, v))
  {
    hide T.Inv, Singles, RingOk, FlagsOk, SlotsOk, HeadersOk, CurrentOk, ProdOk, ElementsOk, ConsOk, AllMarked, I.Blk, I.Off;
    ReuseProd(s, v);
    ReuseRing(s.blocks, s.pool, s.ring, s.tailBlock);
    ReuseFlags(s.blocks, s.ring, s.last, s.log.stage, s.bs, s.prod, v);
    ReuseSlots(s.blocks, s.ring, s.last, s.log.stage, s.bs);
    ReuseHeaders(s.headers, s.ring, s.last);
    ReuseElements(s.blocks, s.ring, s.last, s.log, s.tk.threads, s.bs);
    ReuseCons(s.headers, s.ring, s.last, s.log, s.bs, s.tk.threads, s.cons);
    ReuseCurrent(s.headers, s.size, s.front, s.used, s.ring, s.last, s.prod, v);
  }
}
