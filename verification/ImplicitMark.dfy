// The consumers' steps that mark elements empty and give blocks back keep the invariant.

module ImplicitMark {
  import opened Wrappers
  import opened ModArith
  import opened ImplicitProducer
  import opened ImplicitInvariant
  import opened ImplicitWrite
  import opened ImplicitDequeue
  import opened ImplicitTake
  import T = Tickets
  import X = BlockIndex

  /** After index i a consumer either goes on with its range or is done with all of it. */
  predicate Continues(threads: seq<T.Pc>, threads': seq<T.Pc>, t: Tid, c: Con, i: nat) {
    && |threads'| == |threads| && t < |threads| && threads[t].Holding? && threads' == threads[t := threads'[t]]
    && if threads'[t].Holding? then threads'[t] == threads[t] && Seg(c) == i else i == End(threads[t]) && c.CIdle?
  }

  /** The memory after a block's counter and place have changed. */
  function Marked(m: Mem, b: BlockId, counter: nat, q: Place): Mem
    requires b < |m.blocks| == |m.place|
  {
    m.(blocks := m.blocks[b := m.blocks[b].(counter := counter)], place := m.place[b := q])
  }

  /** Everything MarkStep relies on: the stretch seg .. i lies taken in block n, which is in use. */
  predicate Marking(s: State, t: Tid, seg: nat, i: nat, b: BlockId, n: int) {
    && t < |s.cons| == |s.tk.threads| && seg < i <= |s.log.owner| <= |s.log.stage|
    && (forall j :: seg <= j < i ==> s.log.stage[j].Taken? && s.log.owner[j] == t && Blk(s.bs, j) == n)
    && s.bs * n <= seg && i <= s.bs * n + s.bs
    && LiveAs(s.ix.live, n, b) && b < |s.mem.blocks| == |s.mem.place| && s.mem.place[b] == InUse(n)
    && MarkedIn(MarkAll(s.log.stage, seg, i), s.bs * n, s.bs) == s.mem.blocks[b].counter + (i - seg) <= s.bs
  }

  lemma SegmentBlock(bs: nat, seg: nat, i: nat, n: int)
    requires bs > 0 && seg < i && Blk(bs, seg) == n == Blk(bs, i - 1)
    ensures bs * n <= seg && i <= bs * n + bs
    ensures forall j :: seg <= j < i ==> Blk(bs, j) == n
  {
    BlkRange(bs, seg, n);
    BlkRange(bs, i - 1, n);
    forall j | seg <= j < i ensures Blk(bs, j) == n {
      BlkRange(bs, j, n);
    }
  }

  lemma MarkFacts(s: State, t: Tid, i: nat, seg: nat, h: nat, idx: nat, b: BlockId)
    requires Inv(s) && t < |s.cons| && s.tk.threads[t].Holding? && s.cons[t] == CMark(i, seg, h, idx, b)
    ensures Marking(s, t, seg, i, b, Blk(s.bs, seg))
  {
    hide SlotsOk, ProdOk, TailBlockOk, T.Inv, X.Inv, HeldHere, ElementsOk;
    assert ConOk(s.ix.headers, s.ix.live, s.mem.place, s.log, s.bs, t, s.tk.threads[t], s.cons[t]);
    var n := Blk(s.bs, seg);
    SegmentBlock(s.bs, seg, i, n);
    hide Blk, Walk;
    assert LiveBlockOk(s.mem, s.ix.live, n) && CounterOk(s.mem, s.ix.live, s.log.stage, s.bs, n);
    MarkedMore(s.log.stage, seg, i, s.bs * n, s.bs);
    MarkedBound(s.log.stage, s.bs * n, s.bs);
    MarkedBound(MarkAll(s.log.stage, seg, i), s.bs * n, s.bs);
    assert !IsMarked(s.log.stage, seg);
  }

  lemma MarkElements(s: State, t: Tid, seg: nat, i: nat, b: BlockId, n: int, q: Place, threads': seq<T.Pc>, c: Con)
    requires ElementsOk(s.mem, s.ix.live, s.log, s.tk.threads, s.cons, s.bs) && Marking(s, t, seg, i, b, n)
    requires Continues(s.tk.threads, threads', t, c, i) && Seg(s.cons[t]) == seg
    ensures ElementsOk(Marked(s.mem, b, s.mem.blocks[b].counter + (i - seg), q), s.ix.live,
                       s.log.(stage := MarkAll(s.log.stage, seg, i)), threads', s.cons[t := c], s.bs)
  {
    hide Blk, Off, Seg, End, MarkedIn;
    var m' := Marked(s.mem, b, s.mem.blocks[b].counter + (i - seg), q);
    var g := s.log.(stage := MarkAll(s.log.stage, seg, i));
    var cons := s.cons[t := c];
    forall j | 0 <= j < |g.stage| ensures ElementOk(m', s.ix.live, g, threads', cons, s.bs, j) {
      assert ElementOk(s.mem, s.ix.live, s.log, s.tk.threads, s.cons, s.bs, j);
    }
  }

  lemma MarkCounters(s: State, t: Tid, seg: nat, i: nat, b: BlockId, n: int, q: Place)
    requires Sizes(s) && CountersOk(s.mem, s.ix.live, s.log.stage, s.bs) && Marking(s, t, seg, i, b, n)
    requires PlacesOk(s.mem, s.ix.live, s.cons, s.prod, s.bs)
    requires q == if s.mem.blocks[b].counter + (i - seg) == s.bs then Full(n, t) else InUse(n)
    ensures CountersOk(Marked(s.mem, b, s.mem.blocks[b].counter + (i - seg), q), s.ix.live, MarkAll(s.log.stage, seg, i), s.bs)
  {
    var m' := Marked(s.mem, b, s.mem.blocks[b].counter + (i - seg), q);
    var st' := MarkAll(s.log.stage, seg, i);
    hide MarkedIn, Blk, PlaceOk;
    forall k | k in s.ix.live ensures CounterOk(m', s.ix.live, st', s.bs, k) {
      assert CounterOk(s.mem, s.ix.live, s.log.stage, s.bs, k) && LiveBlockOk(s.mem, s.ix.live, k);
      if k != n {
        MarkedElsewhere(s, t, seg, i, b, n, k);
      }
    }
  }

  lemma MarkedElsewhere(s: State, t: Tid, seg: nat, i: nat, b: BlockId, n: int, k: int)
    requires s.bs > 0 && Marking(s, t, seg, i, b, n) && k != n
    ensures MarkedIn(MarkAll(s.log.stage, seg, i), s.bs * k, s.bs) == MarkedIn(s.log.stage, s.bs * k, s.bs)
  {
    if k < n { MulStep(k, n, s.bs); } else { MulStep(n, k, s.bs); }
    MarkedSame(s.log.stage, MarkAll(s.log.stage, seg, i), s.bs * k, s.bs);
  }

  /** A block that becomes full has all its indices marked. */
  lemma FullIsMarked(s: State, t: Tid, seg: nat, i: nat, b: BlockId, n: int)
    requires Marking(s, t, seg, i, b, n) && s.mem.blocks[b].counter + (i - seg) == s.bs
    ensures forall j :: s.bs * n <= j < s.bs * n + s.bs ==> IsMarked(MarkAll(s.log.stage, seg, i), j)
  {
    MarkedBound(MarkAll(s.log.stage, seg, i), s.bs * n, s.bs);
    hide MarkedIn, Blk, IsMarked;
  }

  lemma MarkSlots(s: State, t: Tid, seg: nat, i: nat, b: BlockId, n: int, q: Place)
    requires Sizes(s) && SlotsOk(s.mem, s.log.stage, s.prod, s.bs) && Marking(s, t, seg, i, b, n)
    requires q == if s.mem.blocks[b].counter + (i - seg) == s.bs then Full(n, t) else InUse(n)
    ensures SlotsOk(Marked(s.mem, b, s.mem.blocks[b].counter + (i - seg), q), MarkAll(s.log.stage, seg, i), s.prod, s.bs)
  {
    var m' := Marked(s.mem, b, s.mem.blocks[b].counter + (i - seg), q);
    var st' := MarkAll(s.log.stage, seg, i);
    if q.Full? { FullIsMarked(s, t, seg, i, b, n); }
    hide Written, MarkedIn, Blk, Marking;
    forall c | 0 <= c < |m'.blocks| ensures |m'.blocks[c].slots| == s.bs {
      assert |s.mem.blocks[c].slots| == s.bs;
    }
    forall c, k | 0 <= c < |m'.blocks| && 0 <= k < |m'.blocks[c].slots| ensures SlotOk(m', st', s.prod, s.bs, c, k) {
      assert SlotOk(s.mem, s.log.stage, s.prod, s.bs, c, k);
      if c == b && q.Full? {
        assert IsMarked(st', s.bs * n + k);
      }
    }
  }

  lemma MarkPlaces(s: State, t: Tid, seg: nat, i: nat, b: BlockId, n: int, counter: nat, q: Place, c: Con)
    requires PlacesOk(s.mem, s.ix.live, s.cons, s.prod, s.bs) && Marking(s, t, seg, i, b, n)
    requires !s.cons[t].CClear? && !s.cons[t].CRelease?
    requires q == InUse(n) || (q == Full(n, t) && c.CClear? && c.i == i && c.b == b)
    ensures PlacesOk(Marked(s.mem, b, counter, q), s.ix.live, s.cons[t := c], s.prod, s.bs)
  {
    var m' := Marked(s.mem, b, counter, q);
    var cons := s.cons[t := c];
    assert Blk(s.bs, i - 1) == n;
    hide HeldHere, Blk, MarkedIn;
    assert PlaceOk(s.mem, s.ix.live, s.cons, s.prod, s.bs, b);
    forall d | 0 <= d < |m'.place| ensures PlaceOk(m', s.ix.live, cons, s.prod, s.bs, d) {
      assert PlaceOk(s.mem, s.ix.live, s.cons, s.prod, s.bs, d);
    }
    forall k | k in s.ix.live ensures LiveBlockOk(m', s.ix.live, k) {
      assert LiveBlockOk(s.mem, s.ix.live, k);
    }
  }

  /** A published block is none of the producer's acquired ones. */
  lemma MarkProd(s: State, t: Tid, seg: nat, i: nat, b: BlockId, n: int, counter: nat, q: Place)
    requires Sizes(s) && X.HeadersOk(s.ix) && ProdOk(s.ix, s.mem, s.bs, s.tk.tail, s.prod) && Marking(s, t, seg, i, b, n)
    ensures ProdOk(s.ix, Marked(s.mem, b, counter, q), s.bs, s.tk.tail, s.prod)
  {
    FirstBase(s.bs, s.tk.tail, First(s.bs, s.tk.tail));
    assert n < First(s.bs, s.tk.tail) by { assert Blk(s.bs, seg) == n; }
    MarkChained(s, b, n, counter, q);
    hide X.HeadersOk, Blk, Off, First, StaleNull, LiveBelow, MarkedIn, Chained;
  }

  lemma MarkChained(s: State, b: BlockId, n: int, counter: nat, q: Place)
    requires X.HeadersOk(s.ix) && b < |s.mem.blocks| == |s.mem.place| && s.mem.place[b] == InUse(n) && n < First(s.bs, s.tk.tail)
    ensures !s.prod.PIdle? && Chained(s.ix, s.mem, s.bs, s.tk.tail, s.prod.chain) ==>
              Chained(s.ix, Marked(s.mem, b, counter, q), s.bs, s.tk.tail, s.prod.chain)
    ensures forall chain, f, lo, hi :: f >= First(s.bs, s.tk.tail) && ChainLive(s.ix.live, s.mem.place, chain, f, lo, hi) ==>
              ChainLive(s.ix.live, Marked(s.mem, b, counter, q).place, chain, f, lo, hi)
  {
    hide X.HeadersOk, Blk;
  }

  /** The partly filled tail block cannot become full: its tail index is not published. */
  lemma MarkTailBlock(s: State, t: Tid, seg: nat, i: nat, b: BlockId, n: int, q: Place)
    requires Sizes(s) && TailBlockOk(s.ix.live, s.mem.place, s.bs, s.tk.tail, s.tailBlock) && Marking(s, t, seg, i, b, n)
    requires q == if s.mem.blocks[b].counter + (i - seg) == s.bs then Full(n, t) else InUse(n)
    ensures TailBlockOk(s.ix.live, s.mem.place[b := q], s.bs, s.tk.tail, s.tailBlock)
  {
    if Blk(s.bs, s.tk.tail) == n {
      MarkedBound(MarkAll(s.log.stage, seg, i), s.bs * n, s.bs);
      BlkRange(s.bs, s.tk.tail, n);
      assert !IsMarked(MarkAll(s.log.stage, seg, i), s.tk.tail);
    }
    hide Blk, Off, MarkedIn;
  }

  lemma MarkCons(s: State, t: Tid, seg: nat, i: nat, b: BlockId, n: int, counter: nat, q: Place, threads': seq<T.Pc>, c: Con)
    requires ConsOk(s.ix.headers, s.ix.live, s.mem.place, s.log, s.bs, s.tk.threads, s.cons) && Marking(s, t, seg, i, b, n)
    requires |threads'| == |s.tk.threads| && threads' == s.tk.threads[t := threads'[t]]
    requires ConOk(s.ix.headers, s.ix.live, Marked(s.mem, b, counter, q).place, s.log.(stage := MarkAll(s.log.stage, seg, i)), s.bs, t, threads'[t], c)
    ensures ConsOk(s.ix.headers, s.ix.live, Marked(s.mem, b, counter, q).place, s.log.(stage := MarkAll(s.log.stage, seg, i)), s.bs,
                   threads', s.cons[t := c])
  {
    var g := s.log.(stage := MarkAll(s.log.stage, seg, i));
    OtherCons(s, g, t, seg, i);
    hide Blk, Walk, LiveAs, MarkedIn, RangeOk, End;
    forall u | 0 <= u < |s.cons| && u != t
      ensures ConOk(s.ix.headers, s.ix.live, Marked(s.mem, b, counter, q).place, g, s.bs, u, threads'[u], s.cons[u])
    {
      assert ConOk(s.ix.headers, s.ix.live, s.mem.place, g, s.bs, u, s.tk.threads[u], s.cons[u]);
    }
  }

  /** The consumer's own state after a marked stretch: the next block, or nothing left to hold. */
  lemma ResumeOwn(s: State, t: Tid, place: seq<Place>, g: Log, i: nat, h: nat, idx: nat)
    requires Sizes(s) && t < |s.cons| == |s.tk.threads| && s.tk.threads[t].Holding? && X.HeadersOk(s.ix)
    requires var p := s.tk.threads[t];
      RangeOk(g, t, p.first, End(p), CValue(i, h, idx)) && p.first < i &&
      (i < End(p) ==> Blk(s.bs, i) == Blk(s.bs, i - 1) + 1) &&
      Walk(s.ix.headers, h, idx, Blk(s.bs, i - 1), Blk(s.bs, End(p) - 1))
    ensures h < |s.ix.headers|
    ensures i != End(s.tk.threads[t]) ==>
      ConOk(s.ix.headers, s.ix.live, place, g, s.bs, t, s.tk.threads[t], CValue(i, h, (idx + 1) % s.ix.headers[h].capacity))
  {
    hide Blk, X.HeadersOk;
    if i != End(s.tk.threads[t]) {
      BlkMonotone(s.bs, i, End(s.tk.threads[t]) - 1);
      NextWalk(s.ix.headers, h, idx, Blk(s.bs, i - 1), Blk(s.bs, End(s.tk.threads[t]) - 1));
      hide Walk;
    }
  }

  /** The next place of a walk is that of the next number. */
  lemma NextWalk(headers: seq<X.Header>, h: nat, idx: nat, n: int, top: int)
    requires Walk(headers, h, idx, n, top) && n < top
    ensures Walk(headers, h, (idx + 1) % headers[h].capacity, n + 1, top)
  {
    ModAdd(n + headers[h].off, 1, headers[h].capacity);
  }

  /** Marking a stretch without filling the block, and going on from there. */
  lemma MarkMove(s: State, t: Tid, i: nat, seg: nat, h: nat, idx: nat, b: BlockId, q: Place, threads': seq<T.Pc>, c: Con, tk': T.State)
    requires Inv(s) && t < |s.cons| && s.tk.threads[t].Holding? && s.cons[t] == CMark(i, seg, h, idx, b)
    requires Marking(s, t, seg, i, b, Blk(s.bs, seg))
    requires q == if s.mem.blocks[b].counter + (i - seg) == s.bs then Full(Blk(s.bs, seg), t) else InUse(Blk(s.bs, seg))
    requires q.Full? ==> c.CClear? && c.i == i && c.b == b
    requires Continues(s.tk.threads, threads', t, c, i)
    requires T.Inv(tk') && tk'.threads == threads' && tk'.tail == s.tk.tail && tk'.head == s.tk.head
    requires ConOk(s.ix.headers, s.ix.live, s.mem.place[b := q], s.log.(stage := MarkAll(s.log.stage, seg, i)), s.bs, t, threads'[t], c)
    ensures Inv(s.(tk := tk', mem := Marked(s.mem, b, s.mem.blocks[b].counter + (i - seg), q),
                   log := s.log.(stage := MarkAll(s.log.stage, seg, i)), cons := s.cons[t := c]))
  {
    var n := Blk(s.bs, seg);
    var counter := s.mem.blocks[b].counter + (i - seg);
    hide ConOk, Blk, First, Off, MarkedIn, T.Inv, X.Inv, X.HeadersOk, HeldHere, PlacesOk, SlotsOk, CountersOk, ElementsOk, ConsOk, ProdOk, TailBlockOk;
    hide Marking;
    MarkElements(s, t, seg, i, b, n, q, threads', c);
    MarkCounters(s, t, seg, i, b, n, q);
    MarkSlots(s, t, seg, i, b, n, q);
    MarkPlaces(s, t, seg, i, b, n, counter, q, c);
    MarkProd(s, t, seg, i, b, n, counter, q);
    MarkTailBlock(s, t, seg, i, b, n, q);
    MarkCons(s, t, seg, i, b, n, counter, q, threads', c);
  }

  lemma MarkOwn(s: State, t: Tid, i: nat, seg: nat, h: nat, idx: nat, b: BlockId)
    requires Inv(s) && t < |s.cons| && s.tk.threads[t].Holding? && s.cons[t] == CMark(i, seg, h, idx, b)
    requires Marking(s, t, seg, i, b, Blk(s.bs, seg))
    ensures var p := s.tk.threads[t];
      var g := s.log.(stage := MarkAll(s.log.stage, seg, i));
      && RangeOk(g, t, p.first, End(p), CValue(i, h, idx)) && RangeOk(g, t, p.first, End(p), CClear(i, h, idx, b))
      && p.first < i && (i < End(p) ==> Blk(s.bs, i) == Blk(s.bs, i - 1) + 1)
      && Blk(s.bs, i - 1) == Blk(s.bs, seg)
      && Walk(s.ix.headers, h, idx, Blk(s.bs, i - 1), Blk(s.bs, End(p) - 1))
  {
    assert ConOk(s.ix.headers, s.ix.live, s.mem.place, s.log, s.bs, t, s.tk.threads[t], s.cons[t]);
    hide SlotsOk, ProdOk, TailBlockOk, T.Inv, X.Inv, HeldHere, ElementsOk, CountersOk, PlacesOk, ConsOk, MarkedIn, Blk, Walk;
  }

  /** Finishing a claimed range. */
  lemma FinishTicket(tk: T.State, t: Tid)
    requires T.Inv(tk) && t < |tk.threads| && tk.threads[t].Holding?
    ensures T.Inv(T.At(tk, t, T.Idle))
  {
    T.NextKeepsInv(tk, T.Finish(t));
  }

  lemma MarkKeepsInv(s: State, t: Tid, i: nat, seg: nat, h: nat, idx: nat, b: BlockId)
    requires Inv(s) && Shaped(s) && t < |s.cons| && s.tk.threads[t].Holding? && s.cons[t] == CMark(i, seg, h, idx, b)
    ensures Inv(MarkStep(s, t, i, seg, h, idx, b))
  {
    MarkFacts(s, t, i, seg, h, idx, b);
    MarkOwn(s, t, i, seg, h, idx, b);
    hide SlotsOk, ProdOk, TailBlockOk, T.Inv, X.Inv, HeldHere, ElementsOk, CountersOk, PlacesOk, ConsOk, MarkedIn, Blk, Walk, RangeOk;
    if s.mem.blocks[b].counter + (i - seg) == s.bs {
      MarkFull(s, t, i, seg, h, idx, b);
    } else {
      MarkPart(s, t, i, seg, h, idx, b);
    }
  }

  lemma MarkFull(s: State, t: Tid, i: nat, seg: nat, h: nat, idx: nat, b: BlockId)
    requires Inv(s) && Shaped(s) && t < |s.cons| && s.tk.threads[t].Holding? && s.cons[t] == CMark(i, seg, h, idx, b)
    requires Marking(s, t, seg, i, b, Blk(s.bs, seg)) && s.mem.blocks[b].counter + (i - seg) == s.bs
    ensures Inv(MarkStep(s, t, i, seg, h, idx, b))
  {
    MarkOwn(s, t, i, seg, h, idx, b);
    hide SlotsOk, ProdOk, TailBlockOk, T.Inv, X.Inv, HeldHere, ElementsOk, CountersOk, PlacesOk, ConsOk, MarkedIn, Blk, Walk;
    MarkMove(s, t, i, seg, h, idx, b, Full(Blk(s.bs, seg), t), s.tk.threads, CClear(i, h, idx, b), s.tk);
    assert s.tk.(threads := s.tk.threads) == s.tk;
  }

  lemma MarkPart(s: State, t: Tid, i: nat, seg: nat, h: nat, idx: nat, b: BlockId)
    requires Inv(s) && Shaped(s) && t < |s.cons| && s.tk.threads[t].Holding? && s.cons[t] == CMark(i, seg, h, idx, b)
    requires Marking(s, t, seg, i, b, Blk(s.bs, seg)) && s.mem.blocks[b].counter + (i - seg) < s.bs
    ensures Inv(MarkStep(s, t, i, seg, h, idx, b))
  {
    MarkOwn(s, t, i, seg, h, idx, b);
    hide SlotsOk, ProdOk, TailBlockOk, T.Inv, X.Inv, HeldHere, ElementsOk, CountersOk, PlacesOk, ConsOk, MarkedIn, Blk, Marking;
    ResumeOwn(s, t, s.mem.place, s.log.(stage := MarkAll(s.log.stage, seg, i)), i, h, idx);
    hide Walk, RangeOk, ConPcOk, X.HeadersOk;
    if i == End(s.tk.threads[t]) {
      MarkLast(s, t, i, seg, h, idx, b);
    } else {
      MarkMore(s, t, i, seg, h, idx, b);
    }
  }

  lemma MarkLast(s: State, t: Tid, i: nat, seg: nat, h: nat, idx: nat, b: BlockId)
    requires Inv(s) && Shaped(s) && t < |s.cons| && s.tk.threads[t].Holding? && s.cons[t] == CMark(i, seg, h, idx, b)
    requires Marking(s, t, seg, i, b, Blk(s.bs, seg)) && s.mem.blocks[b].counter + (i - seg) < s.bs
    requires i == End(s.tk.threads[t])
    ensures Inv(MarkStep(s, t, i, seg, h, idx, b))
  {
    hide SlotsOk, ProdOk, TailBlockOk, T.Inv, X.Inv, HeldHere, ElementsOk, CountersOk, PlacesOk, ConsOk, MarkedIn, Blk, X.HeadersOk, MarkAll;
    var q := InUse(Blk(s.bs, seg));
    assert s.mem.place[b := q] == s.mem.place;
    FinishTicket(s.tk, t);
    MarkMove(s, t, i, seg, h, idx, b, q, s.tk.threads[t := T.Idle], CIdle, T.At(s.tk, t, T.Idle));
  }

  lemma MarkMore(s: State, t: Tid, i: nat, seg: nat, h: nat, idx: nat, b: BlockId)
    requires Inv(s) && Shaped(s) && t < |s.cons| && s.tk.threads[t].Holding? && s.cons[t] == CMark(i, seg, h, idx, b)
    requires Marking(s, t, seg, i, b, Blk(s.bs, seg)) && s.mem.blocks[b].counter + (i - seg) < s.bs
    requires i != End(s.tk.threads[t]) && h < |s.ix.headers|
    requires ConOk(s.ix.headers, s.ix.live, s.mem.place, s.log.(stage := MarkAll(s.log.stage, seg, i)), s.bs, t, s.tk.threads[t],
                   CValue(i, h, (idx + 1) % s.ix.headers[h].capacity))
    ensures Inv(MarkStep(s, t, i, seg, h, idx, b))
  {
    hide SlotsOk, ProdOk, TailBlockOk, T.Inv, X.Inv, HeldHere, ElementsOk, CountersOk, PlacesOk, ConsOk, ConOk, MarkedIn, Blk, MarkAll;
    var q := InUse(Blk(s.bs, seg));
    assert s.mem.place[b := q] == s.mem.place;
    assert s.tk.(threads := s.tk.threads) == s.tk;
    MarkMove(s, t, i, seg, h, idx, b, q, s.tk.threads, CValue(i, h, (idx + 1) % s.ix.headers[h].capacity), s.tk);
  }
}
