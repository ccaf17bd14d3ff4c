// The consumers' steps that move elements out, mark them empty and give blocks back.

module ImplicitTake {
  import opened Wrappers
  import opened ModArith
  import opened ImplicitProducer
  import opened ImplicitInvariant
  import opened ImplicitWrite
  import opened ImplicitDequeue
  import T = Tickets
  import X = BlockIndex

  // ----- moving an element out -----

  lemma TakeElements(s: State, t: Tid, i: nat, b: BlockId, c: Con)
    requires Sizes(s) && PlacesOk(s.mem, s.ix.live, s.cons, s.prod, s.bs)
    requires ElementsOk(s.mem, s.ix.live, s.log, s.tk.threads, s.cons, s.bs)
    requires t < |s.cons| == |s.tk.threads| && i < |s.log.owner| && s.log.owner[i] == t && s.log.stage[i].Fresh?
    requires LiveAs(s.ix.live, Blk(s.bs, i), b) && b < |s.mem.blocks|
    requires Seg(c) == Seg(s.cons[t])
    ensures ElementsOk(SetSlot(s.mem, b, Off(s.bs, i), None), s.ix.live,
                       s.log.(stage := s.log.stage[i := Taken], out := s.log.out[i := s.log.enq[i]]),
                       s.tk.threads, s.cons[t := c], s.bs)
  {
    hide Blk, Off, PlaceOk, LiveBlockOk, Stored, Seg, End;
    var m' := SetSlot(s.mem, b, Off(s.bs, i), None);
    var g := s.log.(stage := s.log.stage[i := Taken], out := s.log.out[i := s.log.enq[i]]);
    var cons := s.cons[t := c];
    forall j | 0 <= j < |g.stage| ensures ElementOk(m', s.ix.live, g, s.tk.threads, cons, s.bs, j) {
      assert ElementOk(s.mem, s.ix.live, s.log, s.tk.threads, s.cons, s.bs, j);
      if j != i && s.log.stage[j].Fresh? {
        StoredElsewhere(s.mem, s.ix.live, s.bs, i, j, b, None, s.log.enq[j]);
      }
    }
  }

  lemma TakeCounters(s: State, i: nat, b: BlockId)
    requires CountersOk(s.mem, s.ix.live, s.log.stage, s.bs) && i < |s.log.stage| && s.log.stage[i].Fresh?
    ensures CountersOk(SetSlot(s.mem, b, Off(s.bs, i), None), s.ix.live, s.log.stage[i := Taken], s.bs)
  {
    var st' := s.log.stage[i := Taken];
    forall n | n in s.ix.live ensures CounterOk(s.mem, s.ix.live, st', s.bs, n) {
      assert CounterOk(s.mem, s.ix.live, s.log.stage, s.bs, n);
      MarkedSame(s.log.stage, st', s.bs * n, s.bs);
    }
    SlotCounters(s, st', b, Off(s.bs, i), None);
  }

  lemma TakeSlots(s: State, i: nat, b: BlockId)
    requires Sizes(s) && SlotsOk(s.mem, s.log.stage, s.prod, s.bs) && PlacesOk(s.mem, s.ix.live, s.cons, s.prod, s.bs)
    requires i < |s.log.stage| && LiveAs(s.ix.live, Blk(s.bs, i), b) && b < |s.mem.blocks|
    ensures SlotsOk(SetSlot(s.mem, b, Off(s.bs, i), None), s.log.stage[i := Taken], s.prod, s.bs)
  {
    hide Written, HeldHere, LiveBlockOk;
    var m' := SetSlot(s.mem, b, Off(s.bs, i), None);
    var st' := s.log.stage[i := Taken];
    forall c | 0 <= c < |m'.blocks| ensures |m'.blocks[c].slots| == s.bs {
      assert |s.mem.blocks[c].slots| == s.bs;
    }
    forall c, k | 0 <= c < |m'.blocks| && 0 <= k < |m'.blocks[c].slots| ensures SlotOk(m', st', s.prod, s.bs, c, k) {
      assert SlotOk(s.mem, s.log.stage, s.prod, s.bs, c, k);
      assert PlaceOk(s.mem, s.ix.live, s.cons, s.prod, s.bs, c);
      if s.mem.place[c].InUse? {
        BlkOf(s.bs, s.mem.place[c].n, k);
      }
    }
  }

  /** Stage changes inside one consumer's range are no concern of the others'. */
  lemma OtherCons(s: State, g: Log, t: Tid, from: nat, to: nat)
    requires ConsOk(s.ix.headers, s.ix.live, s.mem.place, s.log, s.bs, s.tk.threads, s.cons)
    requires g.owner == s.log.owner && |g.stage| == |s.log.stage| && from <= to <= |g.owner|
    requires forall j :: 0 <= j < |g.stage| && !(from <= j < to) ==> g.stage[j] == s.log.stage[j]
    requires forall j :: from <= j < to ==> g.owner[j] == t
    ensures forall u :: 0 <= u < |s.cons| && u != t ==> ConOk(s.ix.headers, s.ix.live, s.mem.place, g, s.bs, u, s.tk.threads[u], s.cons[u])
  {
    hide ConPcOk, End, Seg;
    forall u | 0 <= u < |s.cons| && u != t
      ensures ConOk(s.ix.headers, s.ix.live, s.mem.place, g, s.bs, u, s.tk.threads[u], s.cons[u])
    {
      assert ConOk(s.ix.headers, s.ix.live, s.mem.place, s.log, s.bs, u, s.tk.threads[u], s.cons[u]);
      if s.tk.threads[u].Holding? {
        forall j | s.tk.threads[u].first <= j < End(s.tk.threads[u]) ensures g.stage[j] == s.log.stage[j] {
          assert s.log.owner[j] == u;
        }
      }
    }
  }

  lemma TakeOwn(s: State, t: Tid, i: nat, seg: nat, h: nat, idx: nat, b: BlockId)
    requires Sizes(s) && t < |s.cons| == |s.tk.threads| && s.tk.threads[t].Holding? && s.cons[t] == CTake(i, seg, h, idx, b)
    requires ConOk(s.ix.headers, s.ix.live, s.mem.place, s.log, s.bs, t, s.tk.threads[t], s.cons[t])
    ensures var c := if i + 1 == End(s.tk.threads[t]) || Off(s.bs, i + 1) == 0 then CMark(i + 1, seg, h, idx, b)
                     else CTake(i + 1, seg, h, idx, b);
      ConOk(s.ix.headers, s.ix.live, s.mem.place, s.log.(stage := s.log.stage[i := Taken]), s.bs, t, s.tk.threads[t], c)
  {
    BlkNext(s.bs, i);
    hide Blk, Off, LiveAs, Walk;
  }

  lemma TakeProd(x: X.Index, m: Mem, bs: nat, tail: nat, prod: Prod, i: nat, b: BlockId)
    requires bs > 0 && X.HeadersOk(x) && ProdOk(x, m, bs, tail, prod) && |m.place| == |m.blocks|
    requires i < tail && LiveAs(x.live, Blk(bs, i), b) && b < |m.blocks|
    requires forall n :: n in x.live ==> LiveBlockOk(m, x.live, n)
    ensures ProdOk(x, SetSlot(m, b, Off(bs, i), None), bs, tail, prod)
  {
    var m' := SetSlot(m, b, Off(bs, i), None);
    assert m'.place == m.place;
    hide X.HeadersOk, Blk, Off, StaleNull, LiveBelow, LiveBlockOk, Stored, Chained, ChainLive;
    SameChained(x, m, m', bs, tail, prod);
    if prod.PWrite? || prod.PPublish? {
      var k := if prod.PWrite? then prod.k else |prod.vals|;
      forall y | 0 <= y < k ensures Stored(m', x.live, bs, tail + y, prod.vals[y]) {
        assert Stored(m, x.live, bs, tail + y, prod.vals[y]);
        StoredElsewhere(m, x.live, bs, i, tail + y, b, None, prod.vals[y]);
      }
    }
  }

  lemma SameChained(x: X.Index, m: Mem, m': Mem, bs: nat, tail: nat, prod: Prod)
    requires X.HeadersOk(x) && m'.place == m.place
    ensures !prod.PIdle? ==> Chained(x, m', bs, tail, prod.chain) == Chained(x, m, bs, tail, prod.chain)
  {
  }

  lemma TakeKeepsInv(s: State, t: Tid, i: nat, seg: nat, h: nat, idx: nat, b: BlockId)
    requires Inv(s) && Shaped(s) && t < |s.cons| && s.tk.threads[t].Holding? && s.cons[t] == CTake(i, seg, h, idx, b)
    ensures Inv(TakeStep(s, t, i, seg, h, idx, b))
    ensures TakeStep(s, t, i, seg, h, idx, b).log.out == s.log.out[i := s.log.enq[i]]
  {
    hide SlotsOk, CountersOk, ElementsOk, ProdOk, TailBlockOk, T.Inv, X.Inv, X.HeaderOk, Blk, Off, PlaceOk, SetSlot;
    assert ConOk(s.ix.headers, s.ix.live, s.mem.place, s.log, s.bs, t, s.tk.threads[t], s.cons[t]);
    hide ConOk;
    NextIsLive(s, t);
    TakeHere(s, t, i, seg, h, idx, b);
    var c := if i + 1 == End(s.tk.threads[t]) || Off(s.bs, i + 1) == 0 then CMark(i + 1, seg, h, idx, b)
             else CTake(i + 1, seg, h, idx, b);
    TakeMove(s, t, i, seg, h, idx, b, c);
  }

  lemma TakeHere(s: State, t: Tid, i: nat, seg: nat, h: nat, idx: nat, b: BlockId)
    requires t < |s.cons| == |s.tk.threads| && s.tk.threads[t].Holding? && s.cons[t] == CTake(i, seg, h, idx, b)
    requires ConOk(s.ix.headers, s.ix.live, s.mem.place, s.log, s.bs, t, s.tk.threads[t], s.cons[t])
    requires i < |s.log.enq| && Stored(s.mem, s.ix.live, s.bs, i, s.log.enq[i])
    ensures LiveAs(s.ix.live, Blk(s.bs, i), b) && b < |s.mem.blocks| && Off(s.bs, i) < |s.mem.blocks[b].slots|
    ensures s.mem.blocks[b].slots[Off(s.bs, i)] == Some(s.log.enq[i])
  {
  }

  lemma TakeMove(s: State, t: Tid, i: nat, seg: nat, h: nat, idx: nat, b: BlockId, c: Con)
    requires Inv(s) && t < |s.cons| && s.tk.threads[t].Holding? && s.cons[t] == CTake(i, seg, h, idx, b)
    requires i < |s.log.owner| && s.log.owner[i] == t && s.log.stage[i].Fresh?
    requires LiveAs(s.ix.live, Blk(s.bs, i), b) && b < |s.mem.blocks|
    requires c == if i + 1 == End(s.tk.threads[t]) || Off(s.bs, i + 1) == 0 then CMark(i + 1, seg, h, idx, b)
                  else CTake(i + 1, seg, h, idx, b)
    ensures Inv(SetCon(s.(mem := SetSlot(s.mem, b, Off(s.bs, i), None),
                          log := s.log.(stage := s.log.stage[i := Taken], out := s.log.out[i := s.log.enq[i]])), t, c))
  {
    hide Blk, Off, PlaceOk, ConPcOk, HeldHere, LiveBlockOk, X.HeaderOk;
    assert ConOk(s.ix.headers, s.ix.live, s.mem.place, s.log, s.bs, t, s.tk.threads[t], s.cons[t]);
    TakeOwn(s, t, i, seg, h, idx, b);
    hide ConOk, T.Inv;
    var m' := SetSlot(s.mem, b, Off(s.bs, i), None);
    assert m'.place == s.mem.place && m'.pool == s.mem.pool;
    var g := s.log.(stage := s.log.stage[i := Taken], out := s.log.out[i := s.log.enq[i]]);
    TakeElements(s, t, i, b, c);
    TakeCounters(s, i, b);
    TakeSlots(s, i, b);
    TakeProd(s.ix, s.mem, s.bs, s.tk.tail, s.prod, i, b);
    MovePlaces(s, t, c);
    SlotPlaces(s.(cons := s.cons[t := c]), b, Off(s.bs, i), None);
    OtherCons(s, g, t, i, i + 1);
    hide PlacesOk, SlotsOk, CountersOk, ElementsOk, ProdOk, TailBlockOk, X.Inv;
    TakeConsAll(s, g, t, c);
  }

  lemma TakeConsAll(s: State, g: Log, t: Tid, c: Con)
    requires |s.cons| == |s.tk.threads| && t < |s.cons| && g.owner == s.log.owner
    requires forall u :: 0 <= u < |s.cons| && u != t ==> ConOk(s.ix.headers, s.ix.live, s.mem.place, g, s.bs, u, s.tk.threads[u], s.cons[u])
    requires ConOk(s.ix.headers, s.ix.live, s.mem.place, s.log.(stage := g.stage), s.bs, t, s.tk.threads[t], c)
    ensures ConsOk(s.ix.headers, s.ix.live, s.mem.place, g, s.bs, s.tk.threads, s.cons[t := c])
  {
    hide ConPcOk;
  }
}
