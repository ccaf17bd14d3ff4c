// The consumers' last steps: a completely dequeued block leaves the index and returns to the pool.

module ImplicitRelease {
  import opened Wrappers
  import opened ModArith
  import opened ImplicitProducer
  import opened ImplicitInvariant
  import opened ImplicitWrite
  import opened ImplicitDequeue
  import opened ImplicitMark
  import T = Tickets
  import X = BlockIndex

  /** Consumer t is about to clear block b of number n: all of its indices are marked. */
  predicate Clearing(s: State, t: Tid, n: int, b: BlockId) {
    && t < |s.cons| == |s.tk.threads| && s.tk.threads[t].Holding? && s.cons[t].CClear? && s.cons[t].b == b
    && n < First(s.bs, s.tk.tail) && LiveAs(s.ix.live, n, b) && b < |s.mem.place| == |s.mem.blocks| && s.mem.place[b] == Full(n, t)
    && (forall j :: s.bs * n <= j < s.bs * n + s.bs ==> IsMarked(s.log.stage, j))
  }

  lemma ClearFacts(s: State, t: Tid, i: nat, h: nat, idx: nat, b: BlockId)
    requires Inv(s) && t < |s.cons| && s.tk.threads[t].Holding? && s.cons[t] == CClear(i, h, idx, b)
    ensures Clearing(s, t, Blk(s.bs, i - 1), b)
    ensures h < |s.ix.headers| && idx < s.ix.headers[h].capacity == |s.ix.headers[h].index|
    ensures var e := s.ix.headers[h].index[idx]; e < |s.ix.entries| && s.ix.entries[e].key == Some(Blk(s.bs, i - 1))
  {
    hide SlotsOk, ProdOk, TailBlockOk, T.Inv, X.Inv, HeldHere, ElementsOk, PlacesOk;
    assert ConOk(s.ix.headers, s.ix.live, s.mem.place, s.log, s.bs, t, s.tk.threads[t], s.cons[t]);
    hide ConsOk;
    var n := Blk(s.bs, i - 1);
    BlkMonotone(s.bs, i - 1, s.tk.tail - 1);
    hide Blk;
    assert CounterOk(s.mem, s.ix.live, s.log.stage, s.bs, n);
    MarkedBound(s.log.stage, s.bs * n, s.bs);
    hide MarkedIn, CountersOk;
    WalkFinds(s.ix, First(s.bs, s.tk.tail), h, idx, n, Blk(s.bs, End(s.tk.threads[t]) - 1));
  }

  lemma ClearPlaces(s: State, t: Tid, n: int, b: BlockId, c: Con)
    requires PlacesOk(s.mem, s.ix.live, s.cons, s.prod, s.bs) && Clearing(s, t, n, b) && c.CRelease? && c.b == b
    ensures PlacesOk(SetPlace(s.mem, b, Released(t)), s.ix.live - {n}, s.cons[t := c], s.prod, s.bs)
  {
    var m' := SetPlace(s.mem, b, Released(t));
    var live' := s.ix.live - {n};
    var cons := s.cons[t := c];
    hide HeldHere, Blk;
    assert PlaceOk(s.mem, s.ix.live, s.cons, s.prod, s.bs, b);
    forall d | 0 <= d < |m'.place| ensures PlaceOk(m', live', cons, s.prod, s.bs, d) {
      assert PlaceOk(s.mem, s.ix.live, s.cons, s.prod, s.bs, d);
    }
    forall k | k in live' ensures LiveBlockOk(m', live', k) {
      assert LiveBlockOk(s.mem, s.ix.live, k);
    }
  }

  lemma ClearCounters(s: State, t: Tid, n: int, b: BlockId)
    requires PlacesOk(s.mem, s.ix.live, s.cons, s.prod, s.bs) && Clearing(s, t, n, b)
    requires CountersOk(s.mem, s.ix.live, s.log.stage, s.bs)
    ensures CountersOk(SetPlace(s.mem, b, Released(t)), s.ix.live - {n}, s.log.stage, s.bs)
  {
    hide MarkedIn, PlaceOk, Blk;
    forall k | k in s.ix.live - {n} ensures CounterOk(SetPlace(s.mem, b, Released(t)), s.ix.live - {n}, s.log.stage, s.bs, k) {
      assert LiveBlockOk(s.mem, s.ix.live, k);
      assert CounterOk(s.mem, s.ix.live, s.log.stage, s.bs, k);
    }
  }

  /** Elements of other blocks, and the claims on them, are not affected. */
  lemma ClearElements(s: State, t: Tid, n: int, b: BlockId, c: Con)
    requires Sizes(s) && ElementsOk(s.mem, s.ix.live, s.log, s.tk.threads, s.cons, s.bs) && Clearing(s, t, n, b)
    requires Seg(c) == Seg(s.cons[t])
    ensures ElementsOk(SetPlace(s.mem, b, Released(t)), s.ix.live - {n}, s.log, s.tk.threads, s.cons[t := c], s.bs)
  {
    MarkedBlock(s, t, n, b);
    hide Blk, Off, Seg, End, IsMarked;
    var m' := SetPlace(s.mem, b, Released(t));
    var live' := s.ix.live - {n};
    var cons := s.cons[t := c];
    forall j | 0 <= j < |s.log.stage| ensures ElementOk(m', live', s.log, s.tk.threads, cons, s.bs, j) {
      assert ElementOk(s.mem, s.ix.live, s.log, s.tk.threads, s.cons, s.bs, j);
    }
  }

  lemma MarkedBlock(s: State, t: Tid, n: int, b: BlockId)
    requires Sizes(s) && Clearing(s, t, n, b)
    ensures forall j :: 0 <= j < |s.log.stage| && Blk(s.bs, j) == n ==> s.log.stage[j].Marked?
    ensures forall j :: j >= s.tk.tail ==> Blk(s.bs, j) != n
  {
    forall j | Blk(s.bs, j) == n ensures IsMarked(s.log.stage, j) {
      BlkRange(s.bs, j, n);
    }
  }

  lemma ClearSlots(s: State, t: Tid, n: int, b: BlockId)
    requires SlotsOk(s.mem, s.log.stage, s.prod, s.bs) && Clearing(s, t, n, b)
    ensures SlotsOk(SetPlace(s.mem, b, Released(t)), s.log.stage, s.prod, s.bs)
  {
    hide Written, Blk, IsMarked;
    var m' := SetPlace(s.mem, b, Released(t));
    forall c, k | 0 <= c < |m'.blocks| && 0 <= k < |m'.blocks[c].slots| ensures SlotOk(m', s.log.stage, s.prod, s.bs, c, k) {
      assert SlotOk(s.mem, s.log.stage, s.prod, s.bs, c, k);
    }
  }

  lemma ClearOthers(s: State, t: Tid, n: int, b: BlockId)
    requires Sizes(s) && Clearing(s, t, n, b)
    requires ConsOk(s.ix.headers, s.ix.live, s.mem.place, s.log, s.bs, s.tk.threads, s.cons)
    ensures forall u :: 0 <= u < |s.cons| && u != t ==>
      ConOk(s.ix.headers, s.ix.live - {n}, s.mem.place[b := Released(t)], s.log, s.bs, u, s.tk.threads[u], s.cons[u])
  {
    MarkedBlock(s, t, n, b);
    hide Blk, IsMarked, Walk;
    forall u | 0 <= u < |s.cons| && u != t
      ensures ConOk(s.ix.headers, s.ix.live - {n}, s.mem.place[b := Released(t)], s.log, s.bs, u, s.tk.threads[u], s.cons[u])
    {
      assert ConOk(s.ix.headers, s.ix.live, s.mem.place, s.log, s.bs, u, s.tk.threads[u], s.cons[u]);
      ClearOther(s, t, n, b, u);
    }
  }

  lemma ClearOther(s: State, t: Tid, n: int, b: BlockId, u: Tid)
    requires Sizes(s) && Clearing(s, t, n, b) && u < |s.cons| && u != t
    requires ConOk(s.ix.headers, s.ix.live, s.mem.place, s.log, s.bs, u, s.tk.threads[u], s.cons[u])
    requires forall j :: 0 <= j < |s.log.stage| && Blk(s.bs, j) == n ==> s.log.stage[j].Marked?
    ensures ConOk(s.ix.headers, s.ix.live - {n}, s.mem.place[b := Released(t)], s.log, s.bs, u, s.tk.threads[u], s.cons[u])
  {
    hide Blk, IsMarked, Walk;
    if s.tk.threads[u].Holding? {
      var c := s.cons[u];
      if c.CTake? {
        assert s.log.stage[c.i].Fresh?;
      } else if c.CMark? {
        assert s.log.stage[c.i - 1].Taken?;
      }
    }
  }

  lemma ClearOwn(s: State, t: Tid, i: nat, h: nat, idx: nat, b: BlockId)
    requires t < |s.cons| == |s.tk.threads| && s.tk.threads[t].Holding? && s.cons[t] == CClear(i, h, idx, b)
    requires ConOk(s.ix.headers, s.ix.live, s.mem.place, s.log, s.bs, t, s.tk.threads[t], s.cons[t])
    ensures b < |s.mem.place| && ConOk(s.ix.headers, s.ix.live - {Blk(s.bs, i - 1)}, s.mem.place[b := Released(t)], s.log, s.bs, t,
                  s.tk.threads[t], CRelease(i, h, idx, b))
  {
    hide Blk, Walk;
  }

  lemma ClearStale(x: X.Index, e: nat, n: int, from: int)
    requires X.HeadersOk(x) && StaleNull(x, from) && n < from && e < |x.entries|
    ensures X.HeadersOk(X.ClearValue(x, e, n)) && StaleNull(X.ClearValue(x, e, n), from)
  {
  }

  /** The numbers from which the stale entries matter to a producer's step. */
  function StaleFrom(prod: Prod, f: int): int {
    match prod
    case PRoom(_, chain) => f + |chain|
    case PProbe(_, chain) => f + |chain|
    case PGrow(_, chain) => f + |chain|
    case PKey(_, chain, _, _) => f + |chain|
    case PTail(_, chain, _, _) => f + |chain| + 1
    case PAlloc(_, chain, _) => f + |chain| + 1
    case PReset(_, chain, _, _) => f + |chain| + 1
    case PValue(_, chain, _, _) => f + |chain| + 1
    case PUnwind(_, chain, _) => f + |chain| + 1
    case PUnset(_, chain, _) => f + |chain| + 1
    case PWrite(_, chain, _) => f + |chain|
    case PPublish(_, chain) => f + |chain|
    case _ => f
  }

  lemma ClearChains(s: State, t: Tid, n: int, b: BlockId, live': map<int, X.Spot>)
    requires Clearing(s, t, n, b) && live' == s.ix.live - {n}
    ensures forall chain, f, lo, hi :: f >= First(s.bs, s.tk.tail) && ChainLive(s.ix.live, s.mem.place, chain, f, lo, hi) ==>
              ChainLive(live', SetPlace(s.mem, b, Released(t)).place, chain, f, lo, hi)
    ensures forall chain, lo, hi :: ChainHeld(s.mem.place, chain, lo, hi) ==>
              ChainHeld(SetPlace(s.mem, b, Released(t)).place, chain, lo, hi)
    ensures forall k :: LiveBelow(s.ix.live, k) ==> LiveBelow(live', k)
    ensures forall lo, hi :: NotLive(s.ix.live, lo, hi) ==> NotLive(live', lo, hi)
  {
    hide Blk, IsMarked;
  }

  lemma ClearProd(s: State, t: Tid, n: int, b: BlockId, e: nat)
    requires Sizes(s) && X.HeadersOk(s.ix) && ProdOk(s.ix, s.mem, s.bs, s.tk.tail, s.prod) && Clearing(s, t, n, b)
    requires e < |s.ix.entries|
    ensures X.HeadersOk(X.ClearValue(s.ix, e, n))
    ensures ProdOk(X.ClearValue(s.ix, e, n), SetPlace(s.mem, b, Released(t)), s.bs, s.tk.tail, s.prod)
  {
    var f := First(s.bs, s.tk.tail);
    var y := X.ClearValue(s.ix, e, n);
    var m' := SetPlace(s.mem, b, Released(t));
    assert StaleNull(s.ix, StaleFrom(s.prod, f)) by {
      hide X.HeadersOk, Blk, IsMarked, ChainLive, ChainHeld, AllWritten, LiveBelow, NotLive;
    }
    ClearStale(s.ix, e, n, StaleFrom(s.prod, f));
    ClearChains(s, t, n, b, y.live);
    ClearWritten(s, t, n, b, y.live);
    hide X.HeaderOk, Blk, IsMarked, ChainLive, ChainHeld, AllWritten, LiveBelow, NotLive, StaleNull, Clearing;
  }

  lemma ClearWritten(s: State, t: Tid, n: int, b: BlockId, live': map<int, X.Spot>)
    requires Sizes(s) && Clearing(s, t, n, b) && live' == s.ix.live - {n}
    ensures forall vals, k :: AllWritten(s.mem, s.ix.live, s.bs, s.tk.tail, vals, k) ==>
              AllWritten(SetPlace(s.mem, b, Released(t)), live', s.bs, s.tk.tail, vals, k)
  {
    MarkedBlock(s, t, n, b);
    hide Blk, Off, IsMarked;
    forall vals, k: nat | AllWritten(s.mem, s.ix.live, s.bs, s.tk.tail, vals, k)
      ensures AllWritten(SetPlace(s.mem, b, Released(t)), live', s.bs, s.tk.tail, vals, k)
    {
      forall x | 0 <= x < k ensures Stored(SetPlace(s.mem, b, Released(t)), live', s.bs, s.tk.tail + x, vals[x]) {
        assert Stored(s.mem, s.ix.live, s.bs, s.tk.tail + x, vals[x]);
      }
    }
  }

  lemma ClearTailBlock(s: State, t: Tid, n: int, b: BlockId)
    requires Sizes(s) && TailBlockOk(s.ix.live, s.mem.place, s.bs, s.tk.tail, s.tailBlock) && Clearing(s, t, n, b)
    ensures TailBlockOk(s.ix.live - {n}, s.mem.place[b := Released(t)], s.bs, s.tk.tail, s.tailBlock)
  {
    MarkedBlock(s, t, n, b);
    hide Blk, Off, IsMarked;
  }

  lemma ClearKeepsInv(s: State, t: Tid, i: nat, h: nat, idx: nat, b: BlockId)
    requires Inv(s) && Shaped(s) && t < |s.cons| && s.tk.threads[t].Holding? && s.cons[t] == CClear(i, h, idx, b)
    ensures Inv(ClearStep(s, t, i, h, idx, b))
  {
    ClearFacts(s, t, i, h, idx, b);
    var n := Blk(s.bs, i - 1);
    var e := s.ix.headers[h].index[idx];
    var c := CRelease(i, h, idx, b);
    assert ConOk(s.ix.headers, s.ix.live, s.mem.place, s.log, s.bs, t, s.tk.threads[t], s.cons[t]);
    ClearOwn(s, t, i, h, idx, b);
    hide T.Inv, Blk, ConOk, HeldHere, X.HeaderOk, MarkedIn;
    ClearPlaces(s, t, n, b, c);
    ClearCounters(s, t, n, b);
    ClearElements(s, t, n, b, c);
    ClearSlots(s, t, n, b);
    ClearOthers(s, t, n, b);
    ClearProd(s, t, n, b, e);
    ClearTailBlock(s, t, n, b);
    X.ClearValueKeepsInv(s.ix, First(s.bs, s.tk.tail), e, n);
    hide PlacesOk, SlotsOk, CountersOk, ElementsOk, ProdOk, TailBlockOk, X.Inv;
  }

  // ----- returning the block to the pool -----

  function Pooled(m: Mem, b: BlockId): Mem { SetPlace(m, b, Free).(pool := m.pool + {b}) }

  predicate Releasing(s: State, t: Tid, b: BlockId) {
    && t < |s.cons| == |s.tk.threads| && s.tk.threads[t].Holding? && s.cons[t].CRelease? && s.cons[t].b == b
    && b < |s.mem.place| == |s.mem.blocks| && s.mem.place[b] == Released(t)
  }

  lemma ReleasePlaces(s: State, t: Tid, b: BlockId, c: Con)
    requires PlacesOk(s.mem, s.ix.live, s.cons, s.prod, s.bs) && Releasing(s, t, b) && !c.CClear? && !c.CRelease?
    ensures PlacesOk(Pooled(s.mem, b), s.ix.live, s.cons[t := c], s.prod, s.bs)
  {
    var m' := Pooled(s.mem, b);
    var cons := s.cons[t := c];
    hide HeldHere, Blk;
    assert PlaceOk(s.mem, s.ix.live, s.cons, s.prod, s.bs, b);
    forall d | 0 <= d < |m'.place| ensures PlaceOk(m', s.ix.live, cons, s.prod, s.bs, d) {
      assert PlaceOk(s.mem, s.ix.live, s.cons, s.prod, s.bs, d);
    }
    forall k | k in s.ix.live ensures LiveBlockOk(m', s.ix.live, k) {
      assert LiveBlockOk(s.mem, s.ix.live, k);
    }
  }

  lemma ReleaseCounters(s: State, t: Tid, b: BlockId)
    requires PlacesOk(s.mem, s.ix.live, s.cons, s.prod, s.bs) && Releasing(s, t, b)
    requires CountersOk(s.mem, s.ix.live, s.log.stage, s.bs)
    ensures CountersOk(Pooled(s.mem, b), s.ix.live, s.log.stage, s.bs)
  {
    hide MarkedIn, PlaceOk;
    forall k | k in s.ix.live ensures CounterOk(Pooled(s.mem, b), s.ix.live, s.log.stage, s.bs, k) {
      assert LiveBlockOk(s.mem, s.ix.live, k);
      assert CounterOk(s.mem, s.ix.live, s.log.stage, s.bs, k);
    }
  }

  /** A finished consumer has left no index unmarked. */
  lemma ReleaseElements(s: State, t: Tid, b: BlockId, threads': seq<T.Pc>, c: Con)
    requires ElementsOk(s.mem, s.ix.live, s.log, s.tk.threads, s.cons, s.bs) && Releasing(s, t, b)
    requires Continues(s.tk.threads, threads', t, c, s.cons[t].i)
    ensures ElementsOk(Pooled(s.mem, b), s.ix.live, s.log, threads', s.cons[t := c], s.bs)
  {
    hide Blk, Off, End;
    var m' := Pooled(s.mem, b);
    var cons := s.cons[t := c];
    assert Seg(s.cons[t]) == s.cons[t].i;
    hide Seg;
    forall j | 0 <= j < |s.log.stage| ensures ElementOk(m', s.ix.live, s.log, threads', cons, s.bs, j) {
      assert ElementOk(s.mem, s.ix.live, s.log, s.tk.threads, s.cons, s.bs, j);
    }
  }

  lemma ReleaseSlots(s: State, t: Tid, b: BlockId)
    requires SlotsOk(s.mem, s.log.stage, s.prod, s.bs) && Releasing(s, t, b)
    ensures SlotsOk(Pooled(s.mem, b), s.log.stage, s.prod, s.bs)
  {
    hide Written;
    var m' := Pooled(s.mem, b);
    forall c, k | 0 <= c < |m'.blocks| && 0 <= k < |m'.blocks[c].slots| ensures SlotOk(m', s.log.stage, s.prod, s.bs, c, k) {
      assert SlotOk(s.mem, s.log.stage, s.prod, s.bs, c, k);
    }
  }

  lemma ReleaseCons(s: State, t: Tid, b: BlockId, threads': seq<T.Pc>, c: Con)
    requires ConsOk(s.ix.headers, s.ix.live, s.mem.place, s.log, s.bs, s.tk.threads, s.cons) && Releasing(s, t, b)
    requires |threads'| == |s.tk.threads| && threads' == s.tk.threads[t := threads'[t]]
    requires ConOk(s.ix.headers, s.ix.live, Pooled(s.mem, b).place, s.log, s.bs, t, threads'[t], c)
    ensures ConsOk(s.ix.headers, s.ix.live, Pooled(s.mem, b).place, s.log, s.bs, threads', s.cons[t := c])
  {
    hide RangeOk, Walk, LiveAs, Blk, End;
    forall u | 0 <= u < |s.cons| && u != t
      ensures ConOk(s.ix.headers, s.ix.live, Pooled(s.mem, b).place, s.log, s.bs, u, threads'[u], s.cons[u])
    {
      assert ConOk(s.ix.headers, s.ix.live, s.mem.place, s.log, s.bs, u, s.tk.threads[u], s.cons[u]);
    }
  }

  lemma ReleaseProd(s: State, t: Tid, b: BlockId)
    requires X.HeadersOk(s.ix) && ProdOk(s.ix, s.mem, s.bs, s.tk.tail, s.prod) && Releasing(s, t, b)
    ensures ProdOk(s.ix, Pooled(s.mem, b), s.bs, s.tk.tail, s.prod)
  {
    var m' := Pooled(s.mem, b);
    assert forall chain, f, lo, hi :: ChainLive(s.ix.live, s.mem.place, chain, f, lo, hi) ==> ChainLive(s.ix.live, m'.place, chain, f, lo, hi) by {
      hide X.HeadersOk, Blk, ProdOk;
    }
    assert forall chain, lo, hi :: ChainHeld(s.mem.place, chain, lo, hi) ==> ChainHeld(m'.place, chain, lo, hi) by {
      hide X.HeadersOk, Blk, ProdOk;
    }
    assert m'.blocks == s.mem.blocks;
    SameWritten(s, m');
    hide X.HeadersOk, Blk, Off, ChainLive, ChainHeld, LiveBelow, NotLive, StaleNull, AllWritten;
  }

  lemma SameWritten(s: State, m': Mem)
    requires m'.blocks == s.mem.blocks
    ensures forall vals, k: nat :: AllWritten(s.mem, s.ix.live, s.bs, s.tk.tail, vals, k) ==> AllWritten(m', s.ix.live, s.bs, s.tk.tail, vals, k)
  {
    hide Blk, Off;
    forall vals, k: nat | AllWritten(s.mem, s.ix.live, s.bs, s.tk.tail, vals, k) ensures AllWritten(m', s.ix.live, s.bs, s.tk.tail, vals, k) {
      forall x | 0 <= x < k ensures Stored(m', s.ix.live, s.bs, s.tk.tail + x, vals[x]) {
        assert Stored(s.mem, s.ix.live, s.bs, s.tk.tail + x, vals[x]);
      }
    }
  }

  lemma ReleaseMove(s: State, t: Tid, b: BlockId, threads': seq<T.Pc>, c: Con, tk': T.State)
    requires Inv(s) && Releasing(s, t, b) && !c.CClear? && !c.CRelease?
    requires Continues(s.tk.threads, threads', t, c, s.cons[t].i)
    requires T.Inv(tk') && tk'.threads == threads' && tk'.tail == s.tk.tail && tk'.head == s.tk.head
    requires ConOk(s.ix.headers, s.ix.live, Pooled(s.mem, b).place, s.log, s.bs, t, threads'[t], c)
    ensures Inv(s.(tk := tk', mem := Pooled(s.mem, b), cons := s.cons[t := c]))
  {
    hide T.Inv, Blk, ConOk, HeldHere, X.HeaderOk, MarkedIn, Off, End;
    ReleasePlaces(s, t, b, c);
    ReleaseCounters(s, t, b);
    ReleaseElements(s, t, b, threads', c);
    ReleaseSlots(s, t, b);
    ReleaseCons(s, t, b, threads', c);
    ReleaseProd(s, t, b);
    assert TailBlockOk(s.ix.live, Pooled(s.mem, b).place, s.bs, s.tk.tail, s.tailBlock) by {
      hide PlacesOk, SlotsOk, CountersOk, ElementsOk, ProdOk, X.Inv, ConsOk, Continues;
    }
    hide PlacesOk, SlotsOk, CountersOk, ElementsOk, ProdOk, TailBlockOk, X.Inv, ConsOk;
  }

  lemma ReleaseKeepsInv(s: State, t: Tid, i: nat, h: nat, idx: nat, b: BlockId)
    requires Inv(s) && Shaped(s) && t < |s.cons| && s.tk.threads[t].Holding? && s.cons[t] == CRelease(i, h, idx, b)
    ensures Inv(Resume(s.(mem := Pooled(s.mem, b)), t, i, h, idx))
  {
    assert ConOk(s.ix.headers, s.ix.live, s.mem.place, s.log, s.bs, t, s.tk.threads[t], s.cons[t]);
    hide SlotsOk, ProdOk, TailBlockOk, T.Inv, X.Inv, HeldHere, ElementsOk, CountersOk, ConsOk, MarkedIn, Blk;
    ResumeOwn(s, t, Pooled(s.mem, b).place, s.log, i, h, idx);
    assert Releasing(s, t, b) by { hide RangeOk, Walk; }
    hide Walk, RangeOk, ConPcOk, X.HeaderOk, PlacesOk;
    if i == End(s.tk.threads[t]) {
      FinishTicket(s.tk, t);
      ReleaseMove(s, t, b, s.tk.threads[t := T.Idle], CIdle, T.At(s.tk, t, T.Idle));
    } else {
      assert s.tk.(threads := s.tk.threads) == s.tk;
      ReleaseMove(s, t, b, s.tk.threads, CValue(i, h, (idx + 1) % s.ix.headers[h].capacity), s.tk);
    }
  }
}
