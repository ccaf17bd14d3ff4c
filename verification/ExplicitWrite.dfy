// The producer's steps that bring in a block, fill its index entry, construct the element and
// publish it keep the invariant.

module ExplicitWrite {
  import opened Wrappers
  import opened ModArith
  import opened ExplicitProducer
  import opened ExplicitInvariant
  import opened ExplicitEnqueue
  import opened ExplicitBlocks
  import T = Tickets
  import I = ImplicitProducer
  import V = ImplicitInvariant

  // ----- requisitioning a block -----

  /** The blocks there were, and possibly a new vacant one; the pool can only shrink. */
  predicate Brought(blocks: seq<Block>, blocks': seq<Block>, pool: set<BlockId>, pool': set<BlockId>, bs: nat) {
    && |blocks| <= |blocks'| && (forall b :: 0 <= b < |blocks| ==> blocks'[b] == blocks[b])
    && (forall b :: |blocks| <= b < |blocks'| ==> |blocks'[b].slots| == bs == |blocks'[b].flags| && Vacant(blocks'[b]))
    && pool' <= pool
  }

  lemma BroughtList(blocks: seq<Block>, blocks': seq<Block>, pool: set<BlockId>, pool': set<BlockId>, ring: seq<BlockId>, tailBlock: Option<BlockId>,
                    last: int, stage: seq<I.Stage>, bs: nat, p: Prod, q: Prod, extra: nat)
    requires Brought(blocks, blocks', pool, pool', bs) && RingOk(blocks, pool, ring, tailBlock)
    requires FlagsOk(blocks, ring, last, stage, bs, p) && !p.PReset? && !q.PReset? && SlotsOk(blocks, ring, last, stage, bs, extra)
    ensures RingOk(blocks', pool', ring, tailBlock) && FlagsOk(blocks', ring, last, stage, bs, q) && SlotsOk(blocks', ring, last, stage, bs, extra)
  {
    hide Brought, RingOk, FlagsOk, SlotsOk;
    BroughtRing(blocks, blocks', pool, pool', ring, tailBlock, bs);
    BroughtFlags(blocks, blocks', pool, pool', ring, last, stage, bs, p, q);
    BroughtSlots(blocks, blocks', pool, pool', ring, last, stage, bs, extra);
  }

  lemma BroughtRing(blocks: seq<Block>, blocks': seq<Block>, pool: set<BlockId>, pool': set<BlockId>, ring: seq<BlockId>, tailBlock: Option<BlockId>, bs: nat)
    requires Brought(blocks, blocks', pool, pool', bs) && RingOk(blocks, pool, ring, tailBlock)
    ensures RingOk(blocks', pool', ring, tailBlock)
  {
    hide Vacant;
    forall j | 0 <= j < |ring| ensures Linked(blocks', ring, j) && ring[j] !in pool' { assert Linked(blocks, ring, j); }
  }

  lemma BroughtFlags(blocks: seq<Block>, blocks': seq<Block>, pool: set<BlockId>, pool': set<BlockId>, ring: seq<BlockId>, last: int, stage: seq<I.Stage>, bs: nat, p: Prod, q: Prod)
    requires Brought(blocks, blocks', pool, pool', bs) && FlagsOk(blocks, ring, last, stage, bs, p) && !p.PReset? && !q.PReset?
    ensures FlagsOk(blocks', ring, last, stage, bs, q)
  {
    hide FlagsAt, Cleared, Vacant;
    forall j | 0 <= j < |ring| ensures ring[j] < |blocks'| && BlockFlagsOk(blocks'[ring[j]], Low(ring, last) + j, stage, bs, q, j == |ring| - 1) {
      assert BlockFlagsOk(blocks[ring[j]], Low(ring, last) + j, stage, bs, p, j == |ring| - 1);
    }
  }

  lemma BroughtSlots(blocks: seq<Block>, blocks': seq<Block>, pool: set<BlockId>, pool': set<BlockId>, ring: seq<BlockId>, last: int, stage: seq<I.Stage>, bs: nat, extra: nat)
    requires Brought(blocks, blocks', pool, pool', bs) && SlotsOk(blocks, ring, last, stage, bs, extra)
    ensures SlotsOk(blocks', ring, last, stage, bs, extra)
  {
    hide SlotsAt, Vacant;
  }

  lemma BroughtElements(blocks: seq<Block>, blocks': seq<Block>, pool: set<BlockId>, pool': set<BlockId>, ring: seq<BlockId>, last: int, g: Log, threads: seq<T.Pc>, bs: nat)
    requires Brought(blocks, blocks', pool, pool', bs) && ElementsOk(blocks, ring, last, g, threads, bs)
    ensures ElementsOk(blocks', ring, last, g, threads, bs)
  {
    hide I.Blk, I.Off, HeldIndex, Vacant;
    forall j | 0 <= j < |g.stage| ensures ElementOk(blocks', ring, last, g, threads, bs, j) {
      assert ElementOk(blocks, ring, last, g, threads, bs, j);
    }
  }

  lemma AllocBrings(s: State, v: Elem, b: BlockId)
    requires RingOk(s.blocks, s.pool, s.ring, s.tailBlock) && SlotsOk(s.blocks, s.ring, s.last, s.log.stage, s.bs, 0)
    requires b in s.pool || b == |s.blocks|
    ensures var u := AllocStep(s, v, Some(b));
      && Brought(s.blocks, u.blocks, s.pool, u.pool, s.bs)
      && u == s.(blocks := u.blocks, pool := u.pool, prod := PClear(v, b, 0))
      && NewBlock(u.blocks, u.pool, s.ring, b) && Cleared(u.blocks[b], 0, s.bs)
  {
    forall j | 0 <= j < |s.ring| ensures s.ring[j] != b { assert Linked(s.blocks, s.ring, j); }
    hide SlotsAt;
  }

  lemma AllocMoves(s: State, v: Elem, b: BlockId, blocks: seq<Block>, pool: set<BlockId>)
    requires s.prod == PAlloc(v) && s.bs >= 2 && NewBlock(blocks, pool, s.ring, b) && Cleared(blocks[b], 0, s.bs)
    requires CurrentOk(s.headers, s.size, s.front, s.used, s.ring, s.last, s.prod)
    requires ProdOk(s.blocks, s.pool, s.headers, s.size, s.used, s.ring, s.last, s.bs, s.tk.tail, s.prod)
    ensures CurrentOk(s.headers, s.size, s.front, s.used, s.ring, s.last, PClear(v, b, 0))
    ensures ProdOk(blocks, pool, s.headers, s.size, s.used, s.ring, s.last, s.bs, s.tk.tail, PClear(v, b, 0))
  {
    hide I.Blk, I.Off;
  }

  lemma AllocKeepsInv(s: State, v: Elem, b: BlockId)
    requires Inv(s) && s.prod == PAlloc(v) && (b in s.pool || b == |s.blocks|)
    ensures Inv(AllocStep(s, v, Some(b)))
  {
    hide T.Inv, Singles, RingOk, FlagsOk, SlotsOk, HeadersOk, CurrentOk, ProdOk, ElementsOk, ConsOk, Brought, NewBlock, Cleared;
    AllocBrings(s, v, b);
    var u := AllocStep(s, v, Some(b));
    AllocMoves(s, v, b, u.blocks, u.pool);
    hide AllocStep;
    BroughtList(s.blocks, u.blocks, s.pool, u.pool, s.ring, s.tailBlock, s.last, s.log.stage, s.bs, s.prod, u.prod, 0);
    BroughtElements(s.blocks, u.blocks, s.pool, u.pool, s.ring, s.last, s.log, s.tk.threads, s.bs);
  }

  // ----- linking it in -----

  /** The same blocks but for next pointers. */
  predicate SameButNext(blocks: seq<Block>, blocks': seq<Block>) {
    |blocks| == |blocks'| && forall c :: 0 <= c < |blocks| ==> blocks'[c].slots == blocks[c].slots && blocks'[c].flags == blocks[c].flags
  }

  lemma LinkRing(s: State, v: Elem, b: BlockId)
    requires RingOk(s.blocks, s.pool, s.ring, s.tailBlock) && NewBlock(s.blocks, s.pool, s.ring, b)
    ensures var u := LinkStep(s, v, b);
      && u == s.(blocks := u.blocks, tailBlock := Some(b), used := s.used + 1, prod := PBase(v), ring := s.ring + [b], last := s.last + 1)
      && SameButNext(s.blocks, u.blocks) && RingOk(u.blocks, u.pool, u.ring, u.tailBlock)
  {
    var u := LinkStep(s, v, b);
    if s.ring != [] { assert Linked(s.blocks, s.ring, |s.ring| - 1); }
    LinkList(s.blocks, u.blocks, s.pool, s.ring, s.tailBlock, b);
    hide RingOk;
  }

  lemma LinkList(blocks: seq<Block>, blocks': seq<Block>, pool: set<BlockId>, ring: seq<BlockId>, tailBlock: Option<BlockId>, b: BlockId)
    requires RingOk(blocks, pool, ring, tailBlock) && NewBlock(blocks, pool, ring, b) && |blocks'| == |blocks|
    requires forall c :: 0 <= c < |blocks| && c != b && Some(c) != tailBlock ==> blocks'[c] == blocks[c]
    requires ring == [] ==> blocks'[b].next == b
    requires ring != [] ==> blocks'[b].next == ring[0] && ring[|ring| - 1] < |blocks| && blocks'[ring[|ring| - 1]].next == b
    ensures RingOk(blocks', pool, ring + [b], Some(b))
  {
    var r := ring + [b];
    forall j | 0 <= j < |r| ensures Linked(blocks', r, j) && r[j] !in pool {
      if j + 1 < |ring| {
        assert Linked(blocks, ring, j) && ring[j] != ring[|ring| - 1];
        LinkedBefore(blocks, blocks', ring, b, j);
      }
    }
    hide Linked;
  }

  /** Pointers inside the list stay. */
  lemma LinkedBefore(blocks: seq<Block>, blocks': seq<Block>, ring: seq<BlockId>, b: BlockId, j: nat)
    requires j + 1 < |ring| && Linked(blocks, ring, j) && ring[j] < |blocks'| && blocks'[ring[j]] == blocks[ring[j]]
    ensures Linked(blocks', ring + [b], j)
  {
  }

  lemma LinkFlags(blocks: seq<Block>, blocks': seq<Block>, ring: seq<BlockId>, last: int, stage: seq<I.Stage>, bs: nat, p: Prod, b: BlockId, q: Prod)
    requires FlagsOk(blocks, ring, last, stage, bs, p) && !p.PReset? && !q.PReset? && SameButNext(blocks, blocks') && b < |blocks|
    requires FlagsAt(blocks[b], last + 1, stage, bs)
    ensures FlagsOk(blocks', ring + [b], last + 1, stage, bs, q)
  {
    var r := ring + [b];
    forall j | 0 <= j < |r| ensures r[j] < |blocks'| && BlockFlagsOk(blocks'[r[j]], Low(r, last + 1) + j, stage, bs, q, j == |r| - 1) {
      if j < |ring| {
        assert BlockFlagsOk(blocks[ring[j]], Low(ring, last) + j, stage, bs, p, j == |ring| - 1);
      }
    }
  }

  lemma LinkSlots(blocks: seq<Block>, blocks': seq<Block>, ring: seq<BlockId>, last: int, stage: seq<I.Stage>, bs: nat, b: BlockId)
    requires SlotsOk(blocks, ring, last, stage, bs, 0) && SameButNext(blocks, blocks') && b < |blocks| && b !in ring
    ensures SlotsOk(blocks', ring + [b], last + 1, stage, bs, 0)
  {
    var r := ring + [b];
    assert Vacant(blocks[b]);
    forall j | 0 <= j < |r| ensures r[j] < |blocks'| && SlotsAt(blocks'[r[j]], Low(r, last + 1) + j, stage, bs, 0) {
      if j < |ring| {
        var n := Low(ring, last) + j;
        assert SlotsAt(blocks[ring[j]], n, stage, bs, 0);
        forall k | 0 <= k < |blocks'[ring[j]].slots| ensures SlotAt(blocks'[ring[j]], n, k, stage, bs, 0) {
          assert SlotAt(blocks[ring[j]], n, k, stage, bs, 0);
        }
      }
    }
    forall c | 0 <= c < |blocks'| ensures |blocks'[c].slots| == bs == |blocks'[c].flags| && (c !in r ==> Vacant(blocks'[c])) {
      if c !in r { assert r[..|ring|] == ring && Vacant(blocks[c]); }
    }
  }

  lemma LinkHeaders(headers: seq<Header>, ring: seq<BlockId>, last: int, b: BlockId)
    requires HeadersOk(headers, ring, last)
    ensures HeadersOk(headers, ring + [b], last + 1)
  {
    var r, next := ring + [b], last + 1;
    forall h | 0 <= h < |headers| ensures HeaderOk(headers[h], r, next) {
      assert HeaderOk(headers[h], ring, last);
      forall n | Low(r, next) <= n <= headers[h].high ensures EntryOk(headers[h], r, next, n) {
        assert EntryOk(headers[h], ring, last, n);
      }
    }
  }

  lemma LinkElements(blocks: seq<Block>, blocks': seq<Block>, ring: seq<BlockId>, last: int, g: Log, threads: seq<T.Pc>, bs: nat, b: BlockId)
    requires ElementsOk(blocks, ring, last, g, threads, bs) && SameButNext(blocks, blocks')
    ensures ElementsOk(blocks', ring + [b], last + 1, g, threads, bs)
  {
    hide I.Blk, I.Off, HeldIndex;
    var r, next := ring + [b], last + 1;
    forall j | 0 <= j < |g.stage| ensures ElementOk(blocks', r, next, g, threads, bs, j) {
      assert ElementOk(blocks, ring, last, g, threads, bs, j);
    }
  }

  lemma LinkCons(headers: seq<Header>, ring: seq<BlockId>, last: int, g: Log, bs: nat, threads: seq<T.Pc>, cons: seq<Con>, b: BlockId)
    requires ConsOk(headers, ring, last, g, bs, threads, cons)
    ensures ConsOk(headers, ring + [b], last + 1, g, bs, threads, cons)
  {
    hide I.Blk, AtFront;
    var r, next := ring + [b], last + 1;
    forall t | 0 <= t < |cons| ensures ConOk(headers, r, next, g, bs, t, threads[t], cons[t]) {
      assert ConOk(headers, ring, last, g, bs, t, threads[t], cons[t]);
    }
  }

  lemma LinkMoves(s: State, v: Elem, b: BlockId, blocks: seq<Block>)
    requires s.prod == PLink(v, b) && s.bs >= 2 && |s.log.stage| == s.tk.tail
    requires CurrentOk(s.headers, s.size, s.front, s.used, s.ring, s.last, s.prod)
    requires ProdOk(s.blocks, s.pool, s.headers, s.size, s.used, s.ring, s.last, s.bs, s.tk.tail, s.prod)
    ensures NewBlock(s.blocks, s.pool, s.ring, b) && FlagsAt(s.blocks[b], s.last + 1, s.log.stage, s.bs)
    ensures CurrentOk(s.headers, s.size, s.front, s.used + 1, s.ring + [b], s.last + 1, PBase(v))
    ensures ProdOk(blocks, s.pool, s.headers, s.size, s.used + 1, s.ring + [b], s.last + 1, s.bs, s.tk.tail, PBase(v))
  {
    TailStartsBlock(s.bs, s.tk.tail);
    hide I.Blk, I.Off, FlagsAt, Cleared;
    ClearedIsRight(s.blocks[b], s.last + 1, s.log.stage, s.bs);
  }

  lemma LinkKeepsInv(s: State, v: Elem, b: BlockId)
    requires Inv(s) && s.prod == PLink(v, b)
    ensures Inv(LinkStep(s, v, b))
  {
    hide T.Inv, Singles, RingOk, FlagsOk, SlotsOk, HeadersOk, CurrentOk, ProdOk, ElementsOk, ConsOk, LinkStep, SameButNext, FlagsAt;
    var u := LinkStep(s, v, b);
    LinkMoves(s, v, b, u.blocks);
    LinkRing(s, v, b);
    LinkFlags(s.blocks, u.blocks, s.ring, s.last, s.log.stage, s.bs, s.prod, b, u.prod);
    LinkSlots(s.blocks, u.blocks, s.ring, s.last, s.log.stage, s.bs, b);
    LinkHeaders(s.headers, s.ring, s.last, b);
    LinkElements(s.blocks, u.blocks, s.ring, s.last, s.log, s.tk.threads, s.bs, b);
    LinkCons(s.headers, s.ring, s.last, s.log, s.bs, s.tk.threads, s.cons, b);
  }

  // ----- the index entry -----

  /** A step that changes the current header; the older ones are never written again. */
  lemma HeaderStep(s: State, hd: Header, front: nat, q: Prod)
    requires Inv(s) && s.headers != [] && !s.prod.PReset? && !q.PReset? && Extra(q) == Extra(s.prod)
    requires HeaderOk(hd, s.ring, s.last) && Current(s).top <= hd.top && Current(s).high <= hd.high && hd.size == Current(s).size && hd.off == Current(s).off
    requires CurrentOk(WithCurrent(s, hd).headers, s.size, front, s.used, s.ring, s.last, q)
    requires ProdOk(s.blocks, s.pool, WithCurrent(s, hd).headers, s.size, s.used, s.ring, s.last, s.bs, s.tk.tail, q)
    ensures Inv(WithCurrent(s, hd).(front := front, prod := q))
  {
    var headers := WithCurrent(s, hd).headers;
    HeaderCons(s.headers, hd, s.ring, s.last, s.log, s.bs, s.tk.threads, s.cons);
    FlagsMove(s.blocks, s.ring, s.last, s.log.stage, s.bs, s.prod, q);
    assert HeadersOk(headers, s.ring, s.last) by { hide HeaderOk; }
    hide T.Inv, Singles, RingOk, FlagsOk, SlotsOk, HeadersOk, CurrentOk, ProdOk, ElementsOk, ConsOk;
  }

  lemma HeaderCons(headers: seq<Header>, hd: Header, ring: seq<BlockId>, last: int, g: Log, bs: nat, threads: seq<T.Pc>, cons: seq<Con>)
    requires headers != [] && ConsOk(headers, ring, last, g, bs, threads, cons)
    requires var o := headers[|headers| - 1]; o.top <= hd.top && o.high <= hd.high && o.size == hd.size && o.off == hd.off
    ensures ConsOk(headers[|headers| - 1 := hd], ring, last, g, bs, threads, cons)
  {
    hide I.Blk, FoundBlock;
    var more := headers[|headers| - 1 := hd];
    forall t | 0 <= t < |cons| ensures ConOk(more, ring, last, g, bs, t, threads[t], cons[t]) {
      assert ConOk(headers, ring, last, g, bs, t, threads[t], cons[t]);
    }
  }

  /** The slot of the new number belongs to no other number of the list. */
  lemma SlotIsOther(hd: Header, ring: seq<BlockId>, last: int, n: int)
    requires hd.size > 0 && |ring| <= hd.size && Low(ring, last) <= n < last
    ensures (n + hd.off) % hd.size != (last + hd.off) % hd.size
  {
    ModDistinct(n + hd.off, last + hd.off, hd.size);
  }

  /** Storing into the slot of the newest number keeps the entries of the others. */
  lemma StoredHeaderOk(hd: Header, e: Entry, ring: seq<BlockId>, last: int, high: int)
    requires HeaderOk(hd, ring, last) && |ring| <= hd.size && hd.high == last - 1
    requires high == last - 1 || (high == last && ring != [] && e == Entry(last, ring[|ring| - 1]))
    ensures HeaderOk(hd.(entries := hd.entries[(last + hd.off) % hd.size := e], high := high), ring, last)
  {
    var x := hd.(entries := hd.entries[(last + hd.off) % hd.size := e], high := high);
    forall n | Low(ring, last) <= n <= high ensures EntryOk(x, ring, last, n) {
      if n < last {
        assert EntryOk(hd, ring, last, n);
        SlotIsOther(hd, ring, last, n);
      }
    }
  }

  lemma WritingFacts(s: State)
    requires Inv(s) && (s.prod.PBase? || s.prod.PEntry? || s.prod.PFront?)
    ensures s.headers != [] && s.ring != [] && s.tailBlock == Some(s.ring[|s.ring| - 1]) && |s.ring| <= s.size == Current(s).size
    ensures HeaderOk(Current(s), s.ring, s.last) && Current(s).top == s.last - 1 && s.last == I.Blk(s.bs, s.tk.tail)
    ensures Current(s).high == if s.prod.PFront? then s.last else s.last - 1
    ensures s.front == (s.last + Current(s).off) % Current(s).size && s.front < |Current(s).entries| && s.last >= 0
    ensures s.prod.PEntry? ==> Current(s).entries[s.front].base == s.last
  {
    hide T.Inv, Singles, FlagsOk, SlotsOk, ElementsOk, ConsOk, I.Blk, I.Off, Linked, EntryOk;
    assert HeaderOk(s.headers[|s.headers| - 1], s.ring, s.last);
  }

  lemma WritingOk(s: State)
    requires Inv(s)
    ensures CurrentOk(s.headers, s.size, s.front, s.used, s.ring, s.last, s.prod)
    ensures ProdOk(s.blocks, s.pool, s.headers, s.size, s.used, s.ring, s.last, s.bs, s.tk.tail, s.prod)
  {
    hide T.Inv, Singles, RingOk, FlagsOk, SlotsOk, HeadersOk, CurrentOk, ProdOk, ElementsOk, ConsOk;
  }

  lemma BaseKeepsInv(s: State, v: Elem)
    requires Inv(s) && s.prod == PBase(v)
    ensures Inv(BaseStep(s, v))
  {
    hide Inv, HeaderOk, CurrentOk, ProdOk, I.Blk;
    WritingFacts(s);
    var e := Current(s).entries[s.front].(base := s.last);
    StoredHeaderOk(Current(s), e, s.ring, s.last, s.last - 1);
    var hd := Current(s).(entries := Current(s).entries[s.front := e]);
    EntryMoves(s, hd, PEntry(v));
    HeaderStep(s, hd, s.front, PEntry(v));
  }

  /** The producer's position after storing the base or the block of the entry. */
  lemma EntryMoves(s: State, hd: Header, q: Prod)
    requires Inv(s) && s.headers != [] && s.front < |Current(s).entries|
    requires hd.size == Current(s).size && hd.off == Current(s).off && hd.top == Current(s).top
    requires match s.prod
      case PBase(v) => q == PEntry(v) && hd.high == Current(s).high && s.front < |hd.entries| && hd.entries[s.front].base == s.last
      case PEntry(v) => q == PFront(v) && hd.high == s.last
      case _ => false
    ensures CurrentOk(WithCurrent(s, hd).headers, s.size, s.front, s.used, s.ring, s.last, q)
    ensures ProdOk(s.blocks, s.pool, WithCurrent(s, hd).headers, s.size, s.used, s.ring, s.last, s.bs, s.tk.tail, q)
  {
    hide T.Inv, Singles, RingOk, FlagsOk, SlotsOk, HeadersOk, ElementsOk, ConsOk, I.Blk, I.Off;
  }

  lemma EntryKeepsInv(s: State, v: Elem)
    requires Inv(s) && s.prod == PEntry(v)
    ensures Inv(EntryStep(s, v))
  {
    hide Inv, HeaderOk, CurrentOk, ProdOk, I.Blk;
    WritingFacts(s);
    var e := Current(s).entries[s.front].(block := s.tailBlock.value);
    StoredHeaderOk(Current(s), e, s.ring, s.last, s.last);
    var hd := Current(s).(entries := Current(s).entries[s.front := e], high := s.last);
    EntryMoves(s, hd, PFront(v));
    HeaderStep(s, hd, s.front, PFront(v));
  }

  lemma FrontHeaderOk(hd: Header, ring: seq<BlockId>, last: int, front: nat)
    requires HeaderOk(hd, ring, last) && hd.high == last && front == (last + hd.off) % hd.size
    ensures HeaderOk(hd.(front := front, top := last), ring, last)
  {
    var x := hd.(front := front, top := last);
    forall n | Low(ring, last) <= n <= x.high ensures EntryOk(x, ring, last, n) { assert EntryOk(hd, ring, last, n); }
  }

  lemma NextFront(last: int, off: int, size: nat)
    requires size > 0
    ensures ((last + off) % size + 1) % size == (last + 1 + off) % size
  {
    ModAdd(last + off, 1, size);
  }

  lemma FrontKeepsInv(s: State, v: Elem)
    requires Inv(s) && s.prod == PFront(v)
    ensures Inv(FrontStep(s, v))
  {
    hide Inv, HeaderOk, CurrentOk, ProdOk, I.Blk;
    WritingFacts(s);
    NextFront(s.last, Current(s).off, s.size);
    FrontStores(s, v, (s.front + 1) % s.size);
  }

  lemma FrontStores(s: State, v: Elem, front: nat)
    requires Inv(s) && s.prod == PFront(v) && s.headers != [] && s.size > 0 && front == (s.last + 1 + Current(s).off) % s.size
    ensures Inv(WithCurrent(s, Current(s).(front := s.front, top := s.last)).(front := front, prod := PWrite(v)))
  {
    hide Inv, HeaderOk, CurrentOk, ProdOk, I.Blk;
    WritingFacts(s);
    WritingOk(s);
    FrontHeaderOk(Current(s), s.ring, s.last, s.front);
    var hd := Current(s).(front := s.front, top := s.last);
    FrontMoves(s, v, hd, front);
    HeaderStep(s, hd, front, PWrite(v));
  }

  lemma FrontMoves(s: State, v: Elem, hd: Header, front: nat)
    requires s.prod == PFront(v) && s.headers != []
    requires CurrentOk(s.headers, s.size, s.front, s.used, s.ring, s.last, s.prod)
    requires ProdOk(s.blocks, s.pool, s.headers, s.size, s.used, s.ring, s.last, s.bs, s.tk.tail, s.prod)
    requires hd == Current(s).(front := s.front, top := s.last) && s.size > 0 && front == (s.last + 1 + hd.off) % s.size
    ensures CurrentOk(WithCurrent(s, hd).headers, s.size, front, s.used, s.ring, s.last, PWrite(v))
    ensures ProdOk(s.blocks, s.pool, WithCurrent(s, hd).headers, s.size, s.used, s.ring, s.last, s.bs, s.tk.tail, PWrite(v))
  {
    hide I.Blk, I.Off;
  }
}
