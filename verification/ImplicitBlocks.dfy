// The producer's steps that put blocks into use, take them back, fill and publish them.

module ImplicitBlocks {
  import opened Wrappers
  import opened ModArith
  import opened ImplicitProducer
  import opened ImplicitInvariant
  import opened ImplicitEnqueue
  import T = Tickets
  import X = BlockIndex

  // ----- storing the block into its entry -----

  lemma ValuePlaces(s: State, e: nat, n: int, b: BlockId, p: Prod)
    requires PlacesOk(s.mem, s.ix.live, s.cons, s.prod, s.bs) && e < |s.ix.entries| && b < |s.mem.place|
    requires s.mem.place[b].Held? && n !in s.ix.live
    requires forall c :: HeldHere(s.prod, c) ==> c == b
    ensures PlacesOk(SetPlace(s.mem, b, InUse(n)), X.StoreValue(s.ix, e, n, b).live, s.cons, p, s.bs)
  {
    hide HeldHere;
    var m' := SetPlace(s.mem, b, InUse(n));
    var live' := X.StoreValue(s.ix, e, n, b).live;
    forall c | 0 <= c < |m'.place| ensures PlaceOk(m', live', s.cons, p, s.bs, c) {
      assert PlaceOk(s.mem, s.ix.live, s.cons, s.prod, s.bs, c);
    }
    forall k | k in live' ensures LiveBlockOk(m', live', k) {
      if k != n { assert LiveBlockOk(s.mem, s.ix.live, k); }
    }
  }

  lemma ValueCounters(s: State, e: nat, n: int, b: BlockId)
    requires Sizes(s) && PlacesOk(s.mem, s.ix.live, s.cons, s.prod, s.bs) && e < |s.ix.entries| && b < |s.mem.place|
    requires CountersOk(s.mem, s.ix.live, s.log.stage, s.bs)
    requires s.mem.place[b].Held? && n !in s.ix.live && First(s.bs, s.tk.tail) <= n && s.mem.blocks[b].counter == 0
    ensures CountersOk(SetPlace(s.mem, b, InUse(n)), X.StoreValue(s.ix, e, n, b).live, s.log.stage, s.bs)
  {
    var m' := SetPlace(s.mem, b, InUse(n));
    var live' := X.StoreValue(s.ix, e, n, b).live;
    FirstBase(s.bs, s.tk.tail, n);
    MarkedNone(s.log.stage, s.bs * n, s.bs);
    hide MarkedIn, PlaceOk, First;
    forall k | k in live' ensures CounterOk(m', live', s.log.stage, s.bs, k) {
      if k != n {
        assert LiveBlockOk(s.mem, s.ix.live, k);
        assert CounterOk(s.mem, s.ix.live, s.log.stage, s.bs, k);
      }
    }
  }

  lemma ValueElements(s: State, e: nat, n: int, b: BlockId)
    requires ElementsOk(s.mem, s.ix.live, s.log, s.tk.threads, s.cons, s.bs) && e < |s.ix.entries| && b < |s.mem.place|
    requires n !in s.ix.live
    ensures ElementsOk(SetPlace(s.mem, b, InUse(n)), X.StoreValue(s.ix, e, n, b).live, s.log, s.tk.threads, s.cons, s.bs)
  {
    hide HeldIndex, Blk, Off;
    forall j | 0 <= j < |s.log.stage|
      ensures ElementOk(SetPlace(s.mem, b, InUse(n)), X.StoreValue(s.ix, e, n, b).live, s.log, s.tk.threads, s.cons, s.bs, j)
    {
      assert ElementOk(s.mem, s.ix.live, s.log, s.tk.threads, s.cons, s.bs, j);
    }
  }

  lemma ValueSlots(s: State, n: int, b: BlockId, p: Prod)
    requires SlotsOk(s.mem, s.log.stage, s.prod, s.bs) && b < |s.mem.place| && s.mem.place[b].Held?
    requires Written(s.prod) <= Written(p)
    ensures SlotsOk(SetPlace(s.mem, b, InUse(n)), s.log.stage, p, s.bs)
  {
    hide Written;
    var m' := SetPlace(s.mem, b, InUse(n));
    forall c, k | 0 <= c < |m'.blocks| && 0 <= k < |m'.blocks[c].slots| ensures SlotOk(m', s.log.stage, p, s.bs, c, k) {
      assert SlotOk(s.mem, s.log.stage, s.prod, s.bs, c, k);
    }
  }

  /** Consumers keep their blocks when a number comes to life or an idle block changes place. */
  lemma ValueCons(s: State, live': map<int, X.Spot>, place': seq<Place>, b: BlockId)
    requires ConsOk(s.ix.headers, s.ix.live, s.mem.place, s.log, s.bs, s.tk.threads, s.cons)
    requires forall n :: n in s.ix.live ==> n in live' && live'[n] == s.ix.live[n]
    requires |place'| == |s.mem.place| && b < |place'| && place' == s.mem.place[b := place'[b]]
    requires !s.mem.place[b].Full? && !s.mem.place[b].Released?
    ensures ConsOk(s.ix.headers, live', place', s.log, s.bs, s.tk.threads, s.cons)
  {
    hide RangeOk, Walk, Blk, End;
    forall t | 0 <= t < |s.cons|
      ensures ConOk(s.ix.headers, live', place', s.log, s.bs, t, s.tk.threads[t], s.cons[t])
    {
      assert ConOk(s.ix.headers, s.ix.live, s.mem.place, s.log, s.bs, t, s.tk.threads[t], s.cons[t]);
    }
  }

  lemma ValueStale(x: X.Index, f: int, n: int, e: nat, b: BlockId)
    requires X.Inv(x, f) && f <= n <= X.Current(x).high && e == X.EntryOf(X.Current(x), n) && StaleNull(x, n + 1)
    ensures X.HeadersOk(X.StoreValue(x, e, n, b)) && StaleNull(X.StoreValue(x, e, n, b), n + 1)
  {
    assert x.entries[e].key == Some(n);
  }

  lemma ValueProd(s: State, vals: seq<Elem>, chain: seq<BlockId>, e: nat, b: BlockId)
    requires X.Inv(s.ix, First(s.bs, s.tk.tail)) && s.prod == PValue(vals, chain, e, b)
    requires ProdOk(s.ix, s.mem, s.bs, s.tk.tail, s.prod)
    ensures e < |s.ix.entries|
    ensures X.HeadersOk(ValueStep(s, vals, chain, e, b).ix)
    ensures ProdOk(ValueStep(s, vals, chain, e, b).ix, ValueStep(s, vals, chain, e, b).mem, s.bs, s.tk.tail,
                   ValueStep(s, vals, chain, e, b).prod)
  {
    var f := First(s.bs, s.tk.tail);
    var n := f + |chain|;
    ValueStale(s.ix, f, n, e, b);
    ValueChained(s, vals, chain, e, b);
    hide X.Inv, X.HeaderOk, StaleNull, Blk, Chained, ChainLive, LiveBelow;
    var s' := ValueStep(s, vals, chain, e, b);
    assert s'.ix == X.StoreValue(s.ix, e, n, b) && X.HeadersOk(s'.ix);
  }

  lemma ValueChained(s: State, vals: seq<Elem>, chain: seq<BlockId>, e: nat, b: BlockId)
    requires X.HeadersOk(s.ix) && s.prod == PValue(vals, chain, e, b) && e < |s.ix.entries|
    requires ProdOk(s.ix, s.mem, s.bs, s.tk.tail, s.prod)
    ensures var s' := ValueStep(s, vals, chain, e, b); X.HeadersOk(s'.ix) && Chained(s'.ix, s'.mem, s.bs, s.tk.tail, chain + [b])
  {
    hide StaleNull, Blk;
  }

  lemma ValueKeepsInv(s: State, vals: seq<Elem>, chain: seq<BlockId>, e: nat, b: BlockId)
    requires Inv(s) && s.prod == PValue(vals, chain, e, b)
    ensures Inv(ValueStep(s, vals, chain, e, b))
  {
    var n := First(s.bs, s.tk.tail) + |chain|;
    var s' := ValueStep(s, vals, chain, e, b);
    ValueProd(s, vals, chain, e, b);
    assert n !in s.ix.live && b < |s.mem.place| && s.mem.place[b].Held? && s.mem.blocks[b].counter == 0 && First(s.bs, s.tk.tail) <= n
        && e == X.EntryOf(X.Current(s.ix), n) && n <= X.Current(s.ix).high by {
      hide PlacesOk, SlotsOk, CountersOk, ElementsOk, ConsOk, T.Inv, X.Inv, StaleNull, TailBlockOk, ChainLive;
    }
    hide First;
    ValuePlaces(s, e, n, b, s'.prod);
    ValueCounters(s, e, n, b);
    ValueElements(s, e, n, b);
    ValueSlots(s, n, b, s'.prod);
    ValueCons(s, s'.ix.live, s'.mem.place, b);
    X.StoreValueKeepsInv(s.ix, First(s.bs, s.tk.tail), e, n, b);
    assert TailBlockOk(s'.ix.live, s'.mem.place, s.bs, s.tk.tail, s.tailBlock) by {
      hide PlacesOk, SlotsOk, CountersOk, ElementsOk, ConsOk, ProdOk, T.Inv, X.Inv, Blk, Off;
    }
    hide PlacesOk, SlotsOk, CountersOk, ElementsOk, ConsOk, ProdOk, TailBlockOk, T.Inv, X.Inv;
  }

  // ----- rolling back -----

  /** The rollback's lookup lands on the entry of the j-th acquired block, which still holds it. */
  lemma UndoFinds(x: X.Index, m: Mem, bs: nat, tail: nat, vals: seq<Elem>, chain: seq<BlockId>, j: nat)
    requires X.Inv(x, First(bs, tail)) && ProdOk(x, m, bs, tail, PUndo(vals, chain, j))
    ensures var hd := X.Current(x);
      var n := First(bs, tail) + j;
      && x.entries[hd.index[hd.tail]].key == Some(hd.last)
      && hd.index[X.Locate(hd, hd.tail, hd.last, n)] == X.EntryOf(hd, n)
      && X.EntryOf(hd, n) < |x.entries|
      && n in x.live && x.live[n] == X.Spot(X.EntryOf(hd, n), chain[j])
      && x.entries[X.EntryOf(hd, n)] == X.Entry(Some(n), Some(chain[j]))
      && chain[j] < |m.place| && m.place[chain[j]] == InUse(n)
  {
    var hd := X.Current(x);
    var n := First(bs, tail) + j;
    assert LiveAs(x.live, n, chain[j]);
    assert X.LiveAt(x, n);
    assert X.EntryOf(hd, hd.last) == hd.index[hd.tail];
    ModAdd(hd.last + hd.off, n - hd.last, hd.capacity);
  }

  lemma UndoPlaces(s: State, live': map<int, X.Spot>, n: int, b: BlockId, p: Prod)
    requires PlacesOk(s.mem, s.ix.live, s.cons, s.prod, s.bs) && b < |s.mem.place|
    requires s.mem.place[b] == InUse(n) && live' == s.ix.live - {n}
    requires (forall c :: HeldHere(s.prod, c) ==> HeldHere(p, c)) && HeldHere(p, b)
    ensures PlacesOk(SetPlace(s.mem, b, Held), live', s.cons, p, s.bs)
  {
    hide HeldHere;
    var m' := SetPlace(s.mem, b, Held);
    assert PlaceOk(s.mem, s.ix.live, s.cons, s.prod, s.bs, b);
    forall c | 0 <= c < |m'.place| ensures PlaceOk(m', live', s.cons, p, s.bs, c) {
      assert PlaceOk(s.mem, s.ix.live, s.cons, s.prod, s.bs, c);
    }
    forall k | k in live' ensures LiveBlockOk(m', live', k) {
      assert LiveBlockOk(s.mem, s.ix.live, k);
    }
  }

  lemma UndoCounters(s: State, live': map<int, X.Spot>, n: int, b: BlockId)
    requires PlacesOk(s.mem, s.ix.live, s.cons, s.prod, s.bs) && b < |s.mem.place|
    requires CountersOk(s.mem, s.ix.live, s.log.stage, s.bs)
    requires s.mem.place[b] == InUse(n) && live' == s.ix.live - {n}
    ensures CountersOk(SetPlace(s.mem, b, Held), live', s.log.stage, s.bs)
  {
    hide MarkedIn, PlaceOk;
    forall k | k in live' ensures CounterOk(SetPlace(s.mem, b, Held), live', s.log.stage, s.bs, k) {
      assert LiveBlockOk(s.mem, s.ix.live, k);
      assert CounterOk(s.mem, s.ix.live, s.log.stage, s.bs, k);
    }
  }

  lemma UndoElements(s: State, live': map<int, X.Spot>, n: int, b: BlockId)
    requires Sizes(s) && ElementsOk(s.mem, s.ix.live, s.log, s.tk.threads, s.cons, s.bs)
    requires First(s.bs, s.tk.tail) <= n && live' == s.ix.live - {n}
    ensures ElementsOk(SetPlace(s.mem, b, Held), live', s.log, s.tk.threads, s.cons, s.bs)
  {
    FirstBase(s.bs, s.tk.tail, n);
    hide HeldIndex, Blk, Off, First;
    forall j | 0 <= j < |s.log.stage|
      ensures ElementOk(SetPlace(s.mem, b, Held), live', s.log, s.tk.threads, s.cons, s.bs, j)
    {
      assert ElementOk(s.mem, s.ix.live, s.log, s.tk.threads, s.cons, s.bs, j);
    }
  }

  /** A block that is taken back has had no element constructed in it. */
  lemma UndoSlots(s: State, n: int, b: BlockId, p: Prod)
    requires Sizes(s) && SlotsOk(s.mem, s.log.stage, s.prod, s.bs) && b < |s.mem.place|
    requires s.mem.place[b] == InUse(n) && First(s.bs, s.tk.tail) <= n && Written(s.prod) == 0 == Written(p)
    ensures SlotsOk(SetPlace(s.mem, b, Held), s.log.stage, p, s.bs)
  {
    FirstBase(s.bs, s.tk.tail, n);
    hide Written, First;
    var m' := SetPlace(s.mem, b, Held);
    forall c, k | 0 <= c < |m'.blocks| && 0 <= k < |m'.blocks[c].slots| ensures SlotOk(m', s.log.stage, p, s.bs, c, k) {
      assert SlotOk(s.mem, s.log.stage, s.prod, s.bs, c, k);
    }
  }

  /** No consumer works on an unpublished block. */
  lemma UndoCons(s: State, live': map<int, X.Spot>, n: int, b: BlockId)
    requires Sizes(s) && ConsOk(s.ix.headers, s.ix.live, s.mem.place, s.log, s.bs, s.tk.threads, s.cons)
    requires First(s.bs, s.tk.tail) <= n && live' == s.ix.live - {n} && b < |s.mem.place| && s.mem.place[b].InUse?
    ensures ConsOk(s.ix.headers, live', SetPlace(s.mem, b, Held).place, s.log, s.bs, s.tk.threads, s.cons)
  {
    FirstBase(s.bs, s.tk.tail, n);
    hide Blk, First;
    forall t | 0 <= t < |s.cons|
      ensures ConOk(s.ix.headers, live', SetPlace(s.mem, b, Held).place, s.log, s.bs, t, s.tk.threads[t], s.cons[t])
    {
      assert ConOk(s.ix.headers, s.ix.live, s.mem.place, s.log, s.bs, t, s.tk.threads[t], s.cons[t]);
    }
  }

  lemma UndoStale(x: X.Index, f: int, e: nat, n: int)
    requires X.HeadersOk(x) && StaleNull(x, f) && e == X.EntryOf(X.Current(x), n) && e < |x.entries|
    ensures X.HeadersOk(X.ClearValue(x, e, n)) && StaleNull(X.ClearValue(x, e, n), f)
  {
  }

  lemma UndoProd(x: X.Index, m: Mem, bs: nat, tail: nat, vals: seq<Elem>, chain: seq<BlockId>, j: nat, e: nat)
    requires X.HeadersOk(x) && ProdOk(x, m, bs, tail, PUndo(vals, chain, j))
    requires e == X.EntryOf(X.Current(x), First(bs, tail) + j) && e < |x.entries| && chain[j] < |m.place|
    ensures X.HeadersOk(X.ClearValue(x, e, First(bs, tail) + j))
    ensures ProdOk(X.ClearValue(x, e, First(bs, tail) + j), SetPlace(m, chain[j], Held), bs, tail, PBack(vals, chain, j))
  {
    UndoStale(x, First(bs, tail), e, First(bs, tail) + j);
    hide X.HeaderOk, StaleNull, Blk;
  }

  lemma UndoKeepsInv(s: State, vals: seq<Elem>, chain: seq<BlockId>, j: nat)
    requires Inv(s) && Shaped(s) && s.prod == PUndo(vals, chain, j)
    ensures Inv(UndoStep(s, vals, chain, j))
  {
    hide PlacesOk, SlotsOk, CountersOk, ElementsOk, ConsOk, T.Inv, X.Inv, TailBlockOk;
    var n := First(s.bs, s.tk.tail) + j;
    UndoFinds(s.ix, s.mem, s.bs, s.tk.tail, vals, chain, j);
    var e := X.EntryOf(X.Current(s.ix), n);
    UndoProd(s.ix, s.mem, s.bs, s.tk.tail, vals, chain, j, e);
    UndoMove(s, vals, chain, j, e);
  }

  lemma UndoMove(s: State, vals: seq<Elem>, chain: seq<BlockId>, j: nat, e: nat)
    requires Inv(s) && s.prod == PUndo(vals, chain, j) && j < |chain| && chain[j] < |s.mem.place| && e < |s.ix.entries|
    requires s.ix.entries[e].key == Some(First(s.bs, s.tk.tail) + j)
    requires s.mem.place[chain[j]] == InUse(First(s.bs, s.tk.tail) + j)
    requires X.HeadersOk(X.ClearValue(s.ix, e, First(s.bs, s.tk.tail) + j))
    requires ProdOk(X.ClearValue(s.ix, e, First(s.bs, s.tk.tail) + j), SetPlace(s.mem, chain[j], Held), s.bs, s.tk.tail, PBack(vals, chain, j))
    ensures Inv(s.(ix := X.ClearValue(s.ix, e, First(s.bs, s.tk.tail) + j), mem := SetPlace(s.mem, chain[j], Held),
                   prod := PBack(vals, chain, j)))
  {
    var n, b := First(s.bs, s.tk.tail) + j, chain[j];
    var y := X.ClearValue(s.ix, e, n);
    var p := PBack(vals, chain, j);
    assert chain[..j + 1] == chain[..j] + [b];
    hide First, PlacesOk, SlotsOk, CountersOk, ElementsOk, ConsOk, ProdOk, T.Inv, X.Inv, X.HeadersOk, Blk, Off;
    UndoPlaces(s, y.live, n, b, p);
    UndoCounters(s, y.live, n, b);
    UndoElements(s, y.live, n, b);
    UndoSlots(s, n, b, p);
    UndoCons(s, y.live, n, b);
    X.ClearValueKeepsInv(s.ix, First(s.bs, s.tk.tail), e, n);
    UndoTail(s, y.live, n, b);
    hide TailBlockOk;
  }

  /** The tail block is a published one, so undoing a later one does not concern it. */
  lemma UndoTail(s: State, live': map<int, X.Spot>, n: int, b: BlockId)
    requires Sizes(s) && TailBlockOk(s.ix.live, s.mem.place, s.bs, s.tk.tail, s.tailBlock)
    requires First(s.bs, s.tk.tail) <= n && live' == s.ix.live - {n} && b < |s.mem.place| && s.mem.place[b] == InUse(n)
    ensures TailBlockOk(live', SetPlace(s.mem, b, Held).place, s.bs, s.tk.tail, s.tailBlock)
  {
    TailBlockBelow(s.bs, s.tk.tail);
    hide Blk, Off, First;
  }

  /** A partly filled tail block is the last published one. */
  lemma TailBlockBelow(bs: nat, tail: nat)
    requires bs > 0
    ensures Off(bs, tail) != 0 ==> Blk(bs, tail) == First(bs, tail) - 1
  {
    BlkNext(bs, tail - 1);
  }
}
