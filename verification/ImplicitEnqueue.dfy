// The producer's steps keep the invariant.

module ImplicitEnqueue {
  import opened Wrappers
  import opened ModArith
  import opened ImplicitProducer
  import opened ImplicitInvariant
  import T = Tickets
  import X = BlockIndex

  /** A step that moves only the producer's program counter. */
  lemma ProdMove(s: State, p: Prod)
    requires Inv(s)
    requires forall b :: HeldHere(s.prod, b) ==> HeldHere(p, b)
    requires Written(s.prod) <= Written(p)
    requires ProdOk(s.ix, s.mem, s.bs, s.tk.tail, p)
    ensures Inv(s.(prod := p))
  {
    PlacesAfterProd(s, p);
    SlotsAfterProd(s, p);
    hide PlacesOk, SlotsOk, CountersOk, ElementsOk, ConsOk, ProdOk, TailBlockOk, T.Inv, X.Inv;
  }

  lemma PlacesAfterProd(s: State, p: Prod)
    requires PlacesOk(s.mem, s.ix.live, s.cons, s.prod, s.bs)
    requires forall b :: HeldHere(s.prod, b) ==> HeldHere(p, b)
    ensures PlacesOk(s.mem, s.ix.live, s.cons, p, s.bs)
  {
    hide HeldHere;
    forall b | 0 <= b < |s.mem.place| ensures PlaceOk(s.mem, s.ix.live, s.cons, p, s.bs, b) {
      assert PlaceOk(s.mem, s.ix.live, s.cons, s.prod, s.bs, b);
    }
  }

  lemma SlotsAfterProd(s: State, p: Prod)
    requires SlotsOk(s.mem, s.log.stage, s.prod, s.bs)
    requires Written(s.prod) <= Written(p)
    ensures SlotsOk(s.mem, s.log.stage, p, s.bs)
  {
    hide Written;
    forall b, k | 0 <= b < |s.mem.blocks| && 0 <= k < |s.mem.blocks[b].slots| ensures SlotOk(s.mem, s.log.stage, p, s.bs, b, k) {
      assert SlotOk(s.mem, s.log.stage, s.prod, s.bs, b, k);
    }
  }

  lemma EnqueueKeepsInv(s: State, vals: seq<Elem>)
    requires Inv(s) && s.prod.PIdle? && Shaped(s)
    ensures Inv(Next(s, Enqueue(vals)))
  {
    var p := Next(s, Enqueue(vals)).prod;
    BlkMonotone(s.bs, s.tk.tail - 1, s.tk.tail + |vals| - 1);
    assert ProdOk(s.ix, s.mem, s.bs, s.tk.tail, p) by {
      hide PlacesOk, SlotsOk, CountersOk, ElementsOk, ConsOk, TailBlockOk, T.Inv, X.Inv, X.HeadersOk, Blk;
    }
    ProdMove(s, p);
  }

  /** A failed operation with nothing acquired is over; otherwise it rolls back. */
  lemma FailKeepsInv(s: State, vals: seq<Elem>, chain: seq<BlockId>)
    requires Inv(s) && Filling(s.ix, s.mem, s.bs, s.tk.tail, vals, chain)
    requires s.prod.PRoom? || s.prod.PProbe? || s.prod.PGrow?
    ensures Inv(s.(prod := Failing(vals, chain)))
  {
    FailingOk(s.ix, s.mem, s.bs, s.tk.tail, vals, chain);
    ProdMove(s, Failing(vals, chain));
  }

  lemma FailingOk(x: X.Index, m: Mem, bs: nat, tail: nat, vals: seq<Elem>, chain: seq<BlockId>)
    requires X.HeadersOk(x) && Filling(x, m, bs, tail, vals, chain)
    ensures ProdOk(x, m, bs, tail, Failing(vals, chain))
  {
    hide X.HeadersOk, Blk;
    if chain != [] {
      forall i, j | 0 <= i < j < |chain| ensures chain[i] != chain[j] {
        assert m.place[chain[i]] == InUse(First(bs, tail) + i);
      }
      StaleFromFirst(x, m, bs, tail, chain);
    }
  }

  /** The entries of the chain are live, so nothing but stale ones lies from the first number on. */
  lemma StaleFromFirst(x: X.Index, m: Mem, bs: nat, tail: nat, chain: seq<BlockId>)
    requires X.HeadersOk(x) && Chained(x, m, bs, tail, chain)
    requires StaleNull(x, First(bs, tail) + |chain|)
    ensures StaleNull(x, First(bs, tail))
  {
    hide X.HeadersOk, Blk;
    var f := First(bs, tail);
    forall n | f <= n < f + |chain| ensures n in x.live {
      assert LiveAs(x.live, f + (n - f), chain[n - f]);
    }
  }

  lemma RoomKeepsInv(s: State, vals: seq<Elem>, chain: seq<BlockId>)
    requires Inv(s) && s.prod == PRoom(vals, chain)
    ensures Inv(RoomStep(s, vals, chain))
  {
    HeadBelowBase(s, |chain|);
    var p := RoomStep(s, vals, chain).prod;
    assert RoomStep(s, vals, chain) == s.(prod := p) by {
      hide PlacesOk, SlotsOk, CountersOk, ElementsOk, ConsOk, TailBlockOk, T.Inv, X.Inv, ProdOk;
    }
    if p == Failing(vals, chain) {
      FailKeepsInv(s, vals, chain);
    } else {
      ProdMove(s, p);
    }
  }

  /** The assertion before the room test: the head has not passed the next block's base. */
  lemma HeadBelowBase(s: State, c: nat)
    requires Sizes(s) && T.Inv(s.tk)
    ensures s.tk.head <= (First(s.bs, s.tk.tail) + c) * s.bs
  {
    hide T.Inv, First;
    T.HeadNeverPassesTail(s.tk);
    TailBelowBase(s.bs, s.tk.tail, First(s.bs, s.tk.tail) + c);
  }

  lemma TailBelowBase(bs: nat, tail: nat, n: int)
    requires bs > 0 && First(bs, tail) <= n
    ensures tail <= n * bs
  {
    FirstBase(bs, tail, n);
  }

  /** The entry after the index tail is the entry of the next number. */
  lemma NextEntry(x: X.Index)
    requires X.HeadersOk(x)
    ensures var hd := X.Current(x);
      hd.index[(hd.tail + 1) % hd.capacity] == X.EntryOf(hd, hd.last + 1)
  {
    var hd := X.Current(x);
    ModAdd(hd.last + hd.off, 1, hd.capacity);
  }

  /** The first unpublished block is live, or nothing has been acquired. */
  lemma FirstIsLive(x: X.Index, m: Mem, bs: nat, tail: nat, chain: seq<BlockId>)
    requires X.HeadersOk(x) && Chained(x, m, bs, tail, chain)
    ensures chain != [] ==> First(bs, tail) in x.live
  {
    if chain != [] {
      assert LiveAs(x.live, First(bs, tail) + 0, chain[0]);
    }
  }

  /** What the probe finds: the next entry has room, or the ring is full of live and current entries. */
  lemma ProbeOk(x: X.Index, m: Mem, bs: nat, tail: nat, vals: seq<Elem>, chain: seq<BlockId>)
    requires X.Inv(x, First(bs, tail)) && Filling(x, m, bs, tail, vals, chain)
    ensures var hd := X.Current(x);
      var pos := (hd.tail + 1) % hd.capacity;
      var e := hd.index[pos];
      ProdOk(x, m, bs, tail, if X.Available(x, e) then PKey(vals, chain, e, pos) else PGrow(vals, chain))
  {
    NextEntry(x);
    var hd := X.Current(x);
    var n := hd.last + 1;
    var e := X.EntryOf(hd, n);
    if X.Available(x, e) {
      if n == hd.high + 1 {
        forall k | k in x.live ensures n - k < hd.capacity {
          X.AvailableIsOutside(x, First(bs, tail), k);
        }
      }
    } else {
      assert n <= hd.high ==> n !in x.live;
    }
  }

  lemma ProbeKeepsInv(s: State, vals: seq<Elem>, chain: seq<BlockId>)
    requires Inv(s) && s.prod == PProbe(vals, chain) && Shaped(s)
    ensures Inv(ProbeStep(s, vals, chain))
  {
    ProbeOk(s.ix, s.mem, s.bs, s.tk.tail, vals, chain);
    ProdMove(s, ProbeStep(s, vals, chain).prod);
  }

  /** A step that changes only the index, without changing which blocks are live. */
  lemma IndexMove(s: State, x: X.Index, p: Prod)
    requires Inv(s) && X.Inv(x, First(s.bs, s.tk.tail)) && x.live == s.ix.live
    requires HeadersGrow(s.ix.headers, x.headers, First(s.bs, s.tk.tail))
    requires HeldSame(s.prod, p)
    requires Written(s.prod) == 0
    requires ProdOk(x, s.mem, s.bs, s.tk.tail, p)
    ensures Inv(s.(ix := x, prod := p))
  {
    PlacesAfterProd(s, p);
    SlotsAfterProd(s, p);
    ConsAfterHeaders(s, x.headers);
    hide PlacesOk, SlotsOk, CountersOk, ElementsOk, ConsOk, ProdOk, TailBlockOk, T.Inv, X.Inv, HeadersGrow;
  }

  ghost predicate HeldSame(p: Prod, q: Prod) { forall b :: HeldHere(p, b) ==> HeldHere(q, b) }

  /** Headers only ever gain numbers; a tail that moves back stays on or after the published blocks. */
  predicate HeadersGrow(hs: seq<X.Header>, hs': seq<X.Header>, f: int) {
    && |hs| <= |hs'|
    && forall h :: 0 <= h < |hs| ==>
         hs'[h].capacity == hs[h].capacity && hs'[h].off == hs[h].off && hs[h].high <= hs'[h].high &&
         (hs[h].last <= hs'[h].last || f - 1 <= hs'[h].last)
  }

  lemma ConsAfterHeaders(s: State, hs: seq<X.Header>)
    requires Inv(s) && HeadersGrow(s.ix.headers, hs, First(s.bs, s.tk.tail))
    ensures ConsOk(hs, s.ix.live, s.mem.place, s.log, s.bs, s.tk.threads, s.cons)
  {
    T.HeadNeverPassesTail(s.tk);
    hide PlacesOk, SlotsOk, CountersOk, ElementsOk, ProdOk, TailBlockOk, T.Inv, X.Inv;
    forall t | 0 <= t < |s.cons|
      ensures ConOk(hs, s.ix.live, s.mem.place, s.log, s.bs, t, s.tk.threads[t], s.cons[t])
    {
      assert ConOk(s.ix.headers, s.ix.live, s.mem.place, s.log, s.bs, t, s.tk.threads[t], s.cons[t]);
      ConAfterHeaders(s, hs, t);
    }
  }

  lemma ConAfterHeaders(s: State, hs: seq<X.Header>, t: Tid)
    requires Sizes(s) && HeadersGrow(s.ix.headers, hs, First(s.bs, s.tk.tail)) && t < |s.cons| == |s.tk.threads|
    requires s.tk.head <= s.tk.tail
    requires ConOk(s.ix.headers, s.ix.live, s.mem.place, s.log, s.bs, t, s.tk.threads[t], s.cons[t])
    ensures ConOk(hs, s.ix.live, s.mem.place, s.log, s.bs, t, s.tk.threads[t], s.cons[t])
  {
    if s.tk.threads[t].Holding? {
      BlkMonotone(s.bs, End(s.tk.threads[t]) - 1, s.tk.tail - 1);
    }
    hide Blk;
  }

  lemma GrowOk(x: X.Index, m: Mem, bs: nat, tail: nat, vals: seq<Elem>, chain: seq<BlockId>, junk: seq<Option<BlockId>>)
    requires X.Inv(x, First(bs, tail)) && ProdOk(x, m, bs, tail, PGrow(vals, chain))
    ensures var y := X.Grow(x, junk);
      && X.Inv(y, First(bs, tail))
      && HeadersGrow(x.headers, y.headers, First(bs, tail))
      && var hd := X.Current(y);
         var pos := (hd.tail + 1) % hd.capacity;
         var e := hd.index[pos];
      && e < |y.entries| && y.entries[e].key == None
      && ProdOk(y, m, bs, tail, PKey(vals, chain, e, pos))
  {
    X.GrownHasRoom(x, First(bs, tail), junk);
    NextEntry(X.Grow(x, junk));
  }

  lemma GrowStepKeepsInv(s: State, vals: seq<Elem>, chain: seq<BlockId>, ch: Choice)
    requires Inv(s) && s.prod == PGrow(vals, chain) && Shaped(s)
    ensures Inv(GrowStep(s, vals, chain, ch))
  {
    if !ch.grow {
      FailKeepsInv(s, vals, chain);
    } else {
      GrowOk(s.ix, s.mem, s.bs, s.tk.tail, vals, chain, ch.junk);
      var s' := GrowStep(s, vals, chain, ch);
      IndexMove(s, X.Grow(s.ix, ch.junk), s'.prod);
      assert s' == s.(ix := X.Grow(s.ix, ch.junk), prod := s'.prod) by {
        hide PlacesOk, SlotsOk, CountersOk, ElementsOk, ConsOk, TailBlockOk, T.Inv, X.Inv, ProdOk;
      }
    }
  }

  lemma KeyOk(x: X.Index, m: Mem, bs: nat, tail: nat, vals: seq<Elem>, chain: seq<BlockId>, e: nat, pos: nat)
    requires X.Inv(x, First(bs, tail)) && ProdOk(x, m, bs, tail, PKey(vals, chain, e, pos))
    ensures e < |x.entries|
    ensures var y := X.StoreKey(x, e, First(bs, tail) + |chain|);
      && X.Inv(y, First(bs, tail)) && y.live == x.live
      && HeadersGrow(x.headers, y.headers, First(bs, tail))
      && ProdOk(y, m, bs, tail, PTail(vals, chain, e, pos))
  {
    var n := First(bs, tail) + |chain|;
    FirstIsLive(x, m, bs, tail, chain);
    X.StoreKeyKeepsInv(x, First(bs, tail), e, n);
    StaleAfterKey(x, e, n);
    KeyedAfterKey(x, m, bs, tail, vals, chain, e, pos);
  }

  lemma KeyedAfterKey(x: X.Index, m: Mem, bs: nat, tail: nat, vals: seq<Elem>, chain: seq<BlockId>, e: nat, pos: nat)
    requires X.HeadersOk(x) && ProdOk(x, m, bs, tail, PKey(vals, chain, e, pos)) && e < |x.entries|
    requires X.HeadersOk(X.StoreKey(x, e, First(bs, tail) + |chain|))
    requires StaleNull(X.StoreKey(x, e, First(bs, tail) + |chain|), First(bs, tail) + |chain| + 1)
    ensures HeadersGrow(x.headers, X.StoreKey(x, e, First(bs, tail) + |chain|).headers, First(bs, tail))
    ensures ProdOk(X.StoreKey(x, e, First(bs, tail) + |chain|), m, bs, tail, PTail(vals, chain, e, pos))
  {
    hide Blk, StaleNull;
    var n := First(bs, tail) + |chain|;
    var y := X.StoreKey(x, e, n);
    assert X.EntryOf(X.Current(y), n) == X.EntryOf(X.Current(x), n);
  }

  lemma StaleAfterKey(x: X.Index, e: nat, n: int)
    requires X.HeadersOk(x) && StaleNull(x, n) && e < |x.entries| && n <= X.Current(x).high + 1
    requires X.HeadersOk(X.StoreKey(x, e, n))
    ensures StaleNull(X.StoreKey(x, e, n), n + 1)
  {
    var y := X.StoreKey(x, e, n);
    forall m | n < m <= X.Current(y).high && m !in y.live ensures y.entries[X.EntryOf(X.Current(y), m)].value == None {
      assert X.EntryOf(X.Current(y), m) == X.EntryOf(X.Current(x), m);
    }
  }

  lemma KeyKeepsInv(s: State, vals: seq<Elem>, chain: seq<BlockId>, e: nat, pos: nat)
    requires Inv(s) && Shaped(s) && s.prod == PKey(vals, chain, e, pos) && e < |s.ix.entries|
    ensures Inv(s.(ix := X.StoreKey(s.ix, e, First(s.bs, s.tk.tail) + |chain|), prod := PTail(vals, chain, e, pos)))
  {
    hide PlacesOk, SlotsOk, CountersOk, ElementsOk, ConsOk, ProdOk, TailBlockOk, T.Inv, X.Inv, X.StoreKey, HeadersGrow;
    KeyOk(s.ix, s.mem, s.bs, s.tk.tail, vals, chain, e, pos);
    IndexMove(s, X.StoreKey(s.ix, e, First(s.bs, s.tk.tail) + |chain|), PTail(vals, chain, e, pos));
  }

  /** Moving the index tail leaves the entries of all numbers and the live blocks as they are. */
  lemma TailMoved(x: X.Index, y: X.Index, m: Mem, bs: nat, tail: nat, chain: seq<BlockId>, from: int)
    requires X.HeadersOk(x) && X.HeadersOk(y)
    requires y == X.WithCurrent(x, X.Current(x).(tail := X.Current(y).tail, last := X.Current(y).last))
    requires X.Current(x).last <= X.Current(y).last || First(bs, tail) - 1 <= X.Current(y).last
    ensures StaleNull(x, from) ==> StaleNull(y, from)
    ensures forall n :: X.EntryOf(X.Current(y), n) == X.EntryOf(X.Current(x), n)
    ensures HeadersGrow(x.headers, y.headers, First(bs, tail))
  {
    hide Blk;
  }

  lemma TailStoreKeepsInv(s: State, vals: seq<Elem>, chain: seq<BlockId>, e: nat, pos: nat)
    requires Inv(s) && s.prod == PTail(vals, chain, e, pos) && Shaped(s)
    ensures Inv(s.(ix := X.StoreTail(s.ix, pos), prod := PAlloc(vals, chain, e)))
  {
    var y := X.StoreTail(s.ix, pos);
    X.StoreTailKeepsInv(s.ix, First(s.bs, s.tk.tail), pos);
    TailMoved(s.ix, y, s.mem, s.bs, s.tk.tail, chain, First(s.bs, s.tk.tail) + |chain| + 1);
    IndexMove(s, y, PAlloc(vals, chain, e));
  }

  lemma UnwindKeepsInv(s: State, vals: seq<Elem>, chain: seq<BlockId>, e: nat)
    requires Inv(s) && s.prod == PUnwind(vals, chain, e) && Shaped(s)
    ensures Inv(s.(ix := X.Rewind(s.ix), prod := PUnset(vals, chain, e)))
  {
    var y := X.Rewind(s.ix);
    X.RewindKeepsInv(s.ix, First(s.bs, s.tk.tail));
    TailMoved(s.ix, y, s.mem, s.bs, s.tk.tail, chain, First(s.bs, s.tk.tail) + |chain| + 1);
    IndexMove(s, y, PUnset(vals, chain, e));
  }

  lemma UnsetOk(x: X.Index, m: Mem, bs: nat, tail: nat, vals: seq<Elem>, chain: seq<BlockId>, e: nat)
    requires X.Inv(x, First(bs, tail)) && ProdOk(x, m, bs, tail, PUnset(vals, chain, e))
    ensures e < |x.entries|
    ensures var y := X.ClearValue(x, e, First(bs, tail) + |chain|);
      && X.Inv(y, First(bs, tail)) && y.live == x.live && y.headers == x.headers
      && Filling(y, m, bs, tail, vals, chain)
  {
    var n := First(bs, tail) + |chain|;
    assert x.entries[e].key == Some(n);
    X.ClearValueKeepsInv(x, First(bs, tail), e, n);
    assert n !in x.live;
    assert X.ClearValue(x, e, n).live == x.live;
  }

  lemma UnsetKeepsInv(s: State, vals: seq<Elem>, chain: seq<BlockId>, e: nat)
    requires Inv(s) && s.prod == PUnset(vals, chain, e) && e < |s.ix.entries|
    ensures Inv(s.(ix := X.ClearValue(s.ix, e, First(s.bs, s.tk.tail) + |chain|), prod := Failing(vals, chain)))
  {
    UnsetOk(s.ix, s.mem, s.bs, s.tk.tail, vals, chain, e);
    var y := X.ClearValue(s.ix, e, First(s.bs, s.tk.tail) + |chain|);
    FailingOk(y, s.mem, s.bs, s.tk.tail, vals, chain);
    IndexMove(s, y, Failing(vals, chain));
  }

  lemma BackKeepsInv(s: State, vals: seq<Elem>, chain: seq<BlockId>, j: nat)
    requires Inv(s) && s.prod == PBack(vals, chain, j) && Shaped(s)
    ensures Inv(s.(ix := X.Rewind(s.ix), prod := if j + 1 < |chain| then PUndo(vals, chain, j + 1) else PFree(vals, chain, 0)))
  {
    var y := X.Rewind(s.ix);
    X.RewindKeepsInv(s.ix, First(s.bs, s.tk.tail));
    TailMoved(s.ix, y, s.mem, s.bs, s.tk.tail, chain, First(s.bs, s.tk.tail));
    IndexMove(s, y, if j + 1 < |chain| then PUndo(vals, chain, j + 1) else PFree(vals, chain, 0));
  }

  // ----- steps on a block that is not in use -----

  /** Only block b changes, and it is idle before and after; b may be a new block. */
  predicate IdleChange(m: Mem, m': Mem, bs: nat, b: BlockId) {
    && |m.place| == |m.blocks| && |m'.place| == |m'.blocks|
    && b < |m'.place| && (|m'.place| == |m.place| || (|m'.place| == |m.place| + 1 && b == |m.place|))
    && (forall c :: 0 <= c < |m.place| && c != b ==>
          m'.place[c] == m.place[c] && m'.blocks[c] == m.blocks[c] && (c in m'.pool <==> c in m.pool))
    && (b < |m.place| ==> m.place[b].Free? || m.place[b].Held?)
    && (m'.place[b].Free? || m'.place[b].Held?) && (b in m'.pool <==> m'.place[b].Free?)
    && (forall c :: c in m'.pool ==> c < |m'.place|)
    && |m'.blocks[b].slots| == bs && (forall k :: 0 <= k < bs ==> m'.blocks[b].slots[k] == None)
  }

  lemma IdlePlaces(s: State, m': Mem, b: BlockId, p: Prod)
    requires PlacesOk(s.mem, s.ix.live, s.cons, s.prod, s.bs) && IdleChange(s.mem, m', s.bs, b)
    requires forall c :: c != b && HeldHere(s.prod, c) ==> HeldHere(p, c)
    requires m'.place[b].Held? ==> HeldHere(p, b)
    ensures PlacesOk(m', s.ix.live, s.cons, p, s.bs)
  {
    hide HeldHere;
    forall c | 0 <= c < |m'.place| ensures PlaceOk(m', s.ix.live, s.cons, p, s.bs, c) {
      if c != b { assert PlaceOk(s.mem, s.ix.live, s.cons, s.prod, s.bs, c); }
    }
    forall n | n in s.ix.live ensures LiveBlockOk(m', s.ix.live, n) {
      assert LiveBlockOk(s.mem, s.ix.live, n);
    }
  }

  lemma IdleCounters(s: State, m': Mem, b: BlockId)
    requires PlacesOk(s.mem, s.ix.live, s.cons, s.prod, s.bs) && IdleChange(s.mem, m', s.bs, b)
    requires CountersOk(s.mem, s.ix.live, s.log.stage, s.bs)
    ensures CountersOk(m', s.ix.live, s.log.stage, s.bs)
  {
    hide HeldHere, MarkedIn, PlaceOk;
    forall n | n in s.ix.live ensures CounterOk(m', s.ix.live, s.log.stage, s.bs, n) {
      assert LiveBlockOk(s.mem, s.ix.live, n);
      assert CounterOk(s.mem, s.ix.live, s.log.stage, s.bs, n);
    }
  }

  lemma IdleElements(s: State, m': Mem, b: BlockId)
    requires PlacesOk(s.mem, s.ix.live, s.cons, s.prod, s.bs) && IdleChange(s.mem, m', s.bs, b)
    requires ElementsOk(s.mem, s.ix.live, s.log, s.tk.threads, s.cons, s.bs)
    ensures ElementsOk(m', s.ix.live, s.log, s.tk.threads, s.cons, s.bs)
  {
    hide HeldHere, PlaceOk, HeldIndex, Blk, Off;
    forall j | 0 <= j < |s.log.stage| ensures ElementOk(m', s.ix.live, s.log, s.tk.threads, s.cons, s.bs, j) {
      assert ElementOk(s.mem, s.ix.live, s.log, s.tk.threads, s.cons, s.bs, j);
      if Blk(s.bs, j) in s.ix.live { assert LiveBlockOk(s.mem, s.ix.live, Blk(s.bs, j)); }
    }
  }

  lemma IdleSlots(s: State, m': Mem, b: BlockId, p: Prod)
    requires SlotsOk(s.mem, s.log.stage, s.prod, s.bs) && IdleChange(s.mem, m', s.bs, b)
    requires Written(s.prod) <= Written(p)
    ensures SlotsOk(m', s.log.stage, p, s.bs)
  {
    hide Written;
    forall c | 0 <= c < |m'.blocks| ensures |m'.blocks[c].slots| == s.bs {
      if c != b { assert m'.blocks[c] == s.mem.blocks[c]; }
    }
    forall c, k | 0 <= c < |m'.blocks| && 0 <= k < |m'.blocks[c].slots| ensures SlotOk(m', s.log.stage, p, s.bs, c, k) {
      if c != b { assert SlotOk(s.mem, s.log.stage, s.prod, s.bs, c, k); }
    }
  }

  /** Any change of places that moves no block of a consumer's and no live block. */
  lemma IdleCons(s: State, m': Mem, b: BlockId)
    requires ConsOk(s.ix.headers, s.ix.live, s.mem.place, s.log, s.bs, s.tk.threads, s.cons) && IdleChange(s.mem, m', s.bs, b)
    ensures ConsOk(s.ix.headers, s.ix.live, m'.place, s.log, s.bs, s.tk.threads, s.cons)
  {
    hide RangeOk, Walk, LiveAs, Blk, End;
    forall t | 0 <= t < |s.cons|
      ensures ConOk(s.ix.headers, s.ix.live, m'.place, s.log, s.bs, t, s.tk.threads[t], s.cons[t])
    {
      assert ConOk(s.ix.headers, s.ix.live, s.mem.place, s.log, s.bs, t, s.tk.threads[t], s.cons[t]);
    }
  }

  lemma IdleMove(s: State, m': Mem, b: BlockId, p: Prod)
    requires Inv(s) && IdleChange(s.mem, m', s.bs, b)
    requires forall c :: c != b && HeldHere(s.prod, c) ==> HeldHere(p, c)
    requires m'.place[b].Held? ==> HeldHere(p, b)
    requires Written(s.prod) <= Written(p)
    requires ProdOk(s.ix, m', s.bs, s.tk.tail, p)
    ensures Inv(s.(mem := m', prod := p))
  {
    IdlePlaces(s, m', b, p);
    IdleCounters(s, m', b);
    IdleElements(s, m', b);
    IdleSlots(s, m', b, p);
    IdleCons(s, m', b);
    assert TailBlockOk(s.ix.live, m'.place, s.bs, s.tk.tail, s.tailBlock) by {
      hide PlacesOk, SlotsOk, CountersOk, ElementsOk, ConsOk, ProdOk, T.Inv, X.Inv, Blk, Off;
    }
    hide PlacesOk, SlotsOk, CountersOk, ElementsOk, ConsOk, ProdOk, TailBlockOk, T.Inv, X.Inv, IdleChange;
  }

  /** The chain and the tail block are not idle, so they stay what they are. */
  lemma IdleChained(s: State, m': Mem, b: BlockId, chain: seq<BlockId>)
    requires X.HeadersOk(s.ix) && IdleChange(s.mem, m', s.bs, b) && Chained(s.ix, s.mem, s.bs, s.tk.tail, chain)
    ensures Chained(s.ix, m', s.bs, s.tk.tail, chain)
  {
    hide X.HeadersOk, Blk;
  }

  lemma AllocKeepsInv(s: State, vals: seq<Elem>, chain: seq<BlockId>, e: nat, b: BlockId)
    requires Inv(s) && s.prod == PAlloc(vals, chain, e) && CanRequisition(s.mem, b)
    ensures Inv(s.(mem := Requisition(s.mem, s.bs, b), prod := PReset(vals, chain, e, b)))
  {
    var m' := Requisition(s.mem, s.bs, b);
    RequisitionIdle(s, b);
    IdleChained(s, m', b, chain);
    assert ProdOk(s.ix, m', s.bs, s.tk.tail, PReset(vals, chain, e, b)) by {
      hide PlacesOk, SlotsOk, CountersOk, ElementsOk, ConsOk, T.Inv, X.Inv, Chained, StaleNull, TailBlockOk;
    }
    IdleMove(s, m', b, PReset(vals, chain, e, b));
  }

  lemma RequisitionIdle(s: State, b: BlockId)
    requires PlacesOk(s.mem, s.ix.live, s.cons, s.prod, s.bs) && SlotsOk(s.mem, s.log.stage, s.prod, s.bs)
    requires CanRequisition(s.mem, b)
    ensures IdleChange(s.mem, Requisition(s.mem, s.bs, b), s.bs, b)
    ensures Requisition(s.mem, s.bs, b).place[b].Held?
  {
    hide HeldHere, LiveBlockOk;
    if b < |s.mem.place| {
      assert PlaceOk(s.mem, s.ix.live, s.cons, s.prod, s.bs, b);
      IdleBlockEmpty(s, b);
    }
  }

  /** A block that is not in use holds no element. */
  lemma IdleBlockEmpty(s: State, b: BlockId)
    requires SlotsOk(s.mem, s.log.stage, s.prod, s.bs) && b < |s.mem.blocks| && !s.mem.place[b].InUse?
    ensures |s.mem.blocks[b].slots| == s.bs && forall k :: 0 <= k < s.bs ==> s.mem.blocks[b].slots[k] == None
  {
    forall k | 0 <= k < s.bs ensures s.mem.blocks[b].slots[k] == None {
      assert SlotOk(s.mem, s.log.stage, s.prod, s.bs, b, k);
    }
  }

  lemma ResetKeepsInv(s: State, vals: seq<Elem>, chain: seq<BlockId>, e: nat, b: BlockId)
    requires Inv(s) && s.prod == PReset(vals, chain, e, b) && b < |s.mem.blocks|
    ensures Inv(s.(mem := s.mem.(blocks := s.mem.blocks[b := s.mem.blocks[b].(counter := 0)]), prod := PValue(vals, chain, e, b)))
  {
    var m' := s.mem.(blocks := s.mem.blocks[b := s.mem.blocks[b].(counter := 0)]);
    assert IdleChange(s.mem, m', s.bs, b) by {
      assert PlaceOk(s.mem, s.ix.live, s.cons, s.prod, s.bs, b);
      IdleBlockEmpty(s, b);
      hide SlotsOk, CountersOk, ElementsOk, ConsOk, T.Inv, X.Inv, TailBlockOk, HeldHere, LiveBlockOk;
    }
    IdleChained(s, m', b, chain);
    assert ProdOk(s.ix, m', s.bs, s.tk.tail, PValue(vals, chain, e, b)) by {
      hide PlacesOk, SlotsOk, CountersOk, ElementsOk, ConsOk, T.Inv, X.Inv, Chained, StaleNull, TailBlockOk, IdleChange;
    }
    IdleMove(s, m', b, PValue(vals, chain, e, b));
  }

  lemma FreeKeepsInv(s: State, vals: seq<Elem>, chain: seq<BlockId>, j: nat)
    requires Inv(s) && s.prod == PFree(vals, chain, j)
    ensures j < |chain|
    ensures Inv(s.(mem := SetPlace(s.mem, chain[j], Free).(pool := s.mem.pool + {chain[j]}),
                   prod := if j + 1 < |chain| then PFree(vals, chain, j + 1) else PIdle))
  {
    var b := chain[j];
    var m' := SetPlace(s.mem, b, Free).(pool := s.mem.pool + {b});
    var p := if j + 1 < |chain| then PFree(vals, chain, j + 1) else PIdle;
    assert IdleChange(s.mem, m', s.bs, b) by {
      assert PlaceOk(s.mem, s.ix.live, s.cons, s.prod, s.bs, b);
      IdleBlockEmpty(s, b);
      hide SlotsOk, CountersOk, ElementsOk, ConsOk, T.Inv, X.Inv, TailBlockOk, HeldHere, LiveBlockOk;
    }
    assert ProdOk(s.ix, m', s.bs, s.tk.tail, p) by {
      hide PlacesOk, SlotsOk, CountersOk, ElementsOk, ConsOk, T.Inv, X.Inv, StaleNull, LiveBelow, TailBlockOk, IdleChange;
    }
    forall c | c != b && HeldHere(s.prod, c) ensures HeldHere(p, c) {
      assert c in chain[j..];
      assert chain[j..] == [b] + chain[j + 1..];
    }
    IdleMove(s, m', b, p);
  }
}
