// The invariant of the explicit producer machine.

module ExplicitInvariant {
  import opened Wrappers
  import opened ModArith
  import opened ExplicitProducer
  import T = Tickets
  import I = ImplicitProducer
  import V = ImplicitInvariant

  /** The number of the oldest block in the circular list. */
  function Low(ring: seq<BlockId>, last: int): int { last - |ring| + 1 }

  // ----- the circular list -----

  predicate Linked(blocks: seq<Block>, ring: seq<BlockId>, j: nat)
    requires j < |ring|
  {
    && ring[j] < |blocks|
    && blocks[ring[j]].next == if j + 1 < |ring| then ring[j + 1] else ring[0]
  }

  /** The list is circular: from the oldest block along the next pointers to the tail block and back. */
  predicate RingOk(blocks: seq<Block>, pool: set<BlockId>, ring: seq<BlockId>, tailBlock: Option<BlockId>) {
    && (forall j :: 0 <= j < |ring| ==> Linked(blocks, ring, j) && ring[j] !in pool)
    && (forall i, j :: 0 <= i < j < |ring| ==> ring[i] != ring[j])
    && (forall b :: b in pool ==> b < |blocks|)
    && tailBlock == if ring == [] then None else Some(ring[|ring| - 1])
  }

  // ----- flags and slots -----

  /** Flags are kept in reverse order: flag r is that of slot bs - 1 - r. */
  predicate FlagsAt(b: Block, n: int, stage: seq<I.Stage>, bs: nat) {
    |b.flags| == bs && forall r :: 0 <= r < bs ==> (b.flags[r] <==> V.IsMarked(stage, bs * n + (bs - 1 - r)))
  }

  /** Flags 0 .. i have been cleared. */
  predicate Cleared(b: Block, i: nat, bs: nat) { i <= |b.flags| == bs && forall x :: 0 <= x < i ==> !b.flags[x] }

  /** A block's flags say which of its elements have been dequeued, but for one being cleared. */
  predicate BlockFlagsOk(b: Block, n: int, stage: seq<I.Stage>, bs: nat, prod: Prod, newest: bool) {
    if prod.PReset? && newest then Cleared(b, prod.i, bs) else FlagsAt(b, n, stage, bs)
  }

  predicate FlagsOk(blocks: seq<Block>, ring: seq<BlockId>, last: int, stage: seq<I.Stage>, bs: nat, prod: Prod) {
    forall j :: 0 <= j < |ring| ==>
      ring[j] < |blocks| && BlockFlagsOk(blocks[ring[j]], Low(ring, last) + j, stage, bs, prod, j == |ring| - 1)
  }

  predicate SlotAt(b: Block, n: int, k: nat, stage: seq<I.Stage>, bs: nat, extra: nat)
    requires k < |b.slots|
  {
    b.slots[k].Some? ==> var i := bs * n + k; 0 <= i < |stage| + extra && (i < |stage| ==> stage[i].Fresh?)
  }

  predicate SlotsAt(b: Block, n: int, stage: seq<I.Stage>, bs: nat, extra: nat) {
    forall k :: 0 <= k < |b.slots| ==> SlotAt(b, n, k, stage, bs, extra)
  }

  predicate Vacant(b: Block) { forall k :: 0 <= k < |b.slots| ==> b.slots[k] == None }

  /** What lies in a slot of the list is an undelivered element, or one just constructed; other blocks are vacant. */
  predicate SlotsOk(blocks: seq<Block>, ring: seq<BlockId>, last: int, stage: seq<I.Stage>, bs: nat, extra: nat) {
    && (forall b :: 0 <= b < |blocks| ==> |blocks[b].slots| == bs == |blocks[b].flags| && (b !in ring ==> Vacant(blocks[b])))
    && (forall j :: 0 <= j < |ring| ==> ring[j] < |blocks| && SlotsAt(blocks[ring[j]], Low(ring, last) + j, stage, bs, extra))
  }

  function Extra(p: Prod): nat { if p.PPublish? then 1 else 0 }

  // ----- the index -----

  predicate EntryOk(hd: Header, ring: seq<BlockId>, last: int, n: int)
    requires hd.size > 0 && |hd.entries| == hd.size && Low(ring, last) <= n <= last
  {
    hd.entries[(n + hd.off) % hd.size] == Entry(n, ring[n - Low(ring, last)])
  }

  /** A header, old or current, still has the right entry for every block of the list that it ever had. */
  predicate HeaderOk(hd: Header, ring: seq<BlockId>, last: int) {
    && hd.size > 0 && |hd.entries| == hd.size
    && -1 <= hd.top <= hd.high <= last
    && (hd.top >= 0 ==> hd.front == (hd.top + hd.off) % hd.size)
    && (forall n :: Low(ring, last) <= n <= hd.high ==> EntryOk(hd, ring, last, n))
  }

  predicate HeadersOk(headers: seq<Header>, ring: seq<BlockId>, last: int) {
    forall h :: 0 <= h < |headers| ==> HeaderOk(headers[h], ring, last)
  }

  /** The new block's entry is not complete yet; its front is not stored yet. */
  predicate Incomplete(p: Prod) { p.PReset? || p.PBase? || p.PEntry? }
  predicate Unexposed(p: Prod) { Incomplete(p) || p.PFront? }

  /** The window of the index and the list have the same length; the next slot is the one after the window. */
  predicate CurrentOk(headers: seq<Header>, size: nat, front: nat, used: nat, ring: seq<BlockId>, last: int, prod: Prod) {
    && size > 0 && used == |ring| <= size
    && (headers == [] ==> ring == [] && (prod.PIdle? || prod.PRoom? || prod.PGrow?))
    && (headers != [] ==>
          var hd := headers[|headers| - 1];
          && hd.size == size
          && hd.high == (if Incomplete(prod) then last - 1 else last)
          && hd.top == (if Unexposed(prod) then last - 1 else last)
          && front == ((if Unexposed(prod) then last else last + 1) + hd.off) % size
          && (prod.PEntry? ==> front < |hd.entries| && hd.entries[front].base == last))
  }

  // ----- the producer -----

  predicate AtBoundary(bs: nat, tail: nat, last: int) { I.Off(bs, tail) == 0 && last == I.Blk(bs, tail - 1) }

  predicate NewBlock(blocks: seq<Block>, pool: set<BlockId>, ring: seq<BlockId>, b: BlockId) {
    b < |blocks| && b !in pool && b !in ring
  }

  predicate ProdOk(blocks: seq<Block>, pool: set<BlockId>, headers: seq<Header>, size: nat, used: nat, ring: seq<BlockId>, last: int, bs: nat, tail: nat, prod: Prod) {
    match prod
    case PIdle => last == I.Blk(bs, tail - 1)
    case PCheck(_, i) =>
      AtBoundary(bs, tail, last) && ring != [] && i < bs &&
      ring[0] < |blocks| && |blocks[ring[0]].flags| == bs && forall x :: 0 <= x < i ==> blocks[ring[0]].flags[x]
    case PReset(_, i) => I.Off(bs, tail) == 0 && last == I.Blk(bs, tail) && ring != [] && i < bs
    case PRoom(_) => AtBoundary(bs, tail, last)
    case PGrow(_) => AtBoundary(bs, tail, last)
    case PAlloc(_) => AtBoundary(bs, tail, last) && headers != [] && used < size
    case PClear(_, b, i) => AtBoundary(bs, tail, last) && headers != [] && used < size && i < bs && NewBlock(blocks, pool, ring, b) && Cleared(blocks[b], i, bs)
    case PLink(_, b) => AtBoundary(bs, tail, last) && headers != [] && used < size && NewBlock(blocks, pool, ring, b) && Cleared(blocks[b], bs, bs)
    case PBase(_) => I.Off(bs, tail) == 0 && last == I.Blk(bs, tail) && ring != []
    case PEntry(_) => I.Off(bs, tail) == 0 && last == I.Blk(bs, tail) && ring != []
    case PFront(_) => I.Off(bs, tail) == 0 && last == I.Blk(bs, tail) && ring != []
    case PWrite(_) => last == I.Blk(bs, tail) && ring != []
    case PPublish(v) =>
      last == I.Blk(bs, tail) && ring != [] && ring[|ring| - 1] < |blocks| &&
      I.Off(bs, tail) < |blocks[ring[|ring| - 1]].slots| && blocks[ring[|ring| - 1]].slots[I.Off(bs, tail)] == Some(v)
  }

  // ----- elements -----

  predicate Stored(blocks: seq<Block>, ring: seq<BlockId>, last: int, bs: nat, j: int, v: Elem) {
    && Low(ring, last) <= I.Blk(bs, j) <= last
    && var b := ring[I.Blk(bs, j) - Low(ring, last)];
       b < |blocks| && I.Off(bs, j) < |blocks[b].slots| && blocks[b].slots[I.Off(bs, j)] == Some(v)
  }

  predicate HeldIndex(threads: seq<T.Pc>, t: Tid, j: int) {
    t < |threads| && threads[t].Holding? && threads[t].first == j
  }

  predicate ElementOk(blocks: seq<Block>, ring: seq<BlockId>, last: int, g: Log, threads: seq<T.Pc>, bs: nat, j: int)
    requires 0 <= j < |g.stage| && |g.enq| == |g.stage|
  {
    && (j in g.out <==> !g.stage[j].Fresh?)
    && (j in g.out ==> g.out[j] == g.enq[j])
    && (!g.stage[j].Marked? ==> Low(ring, last) <= I.Blk(bs, j))
    && (g.stage[j].Fresh? ==> Stored(blocks, ring, last, bs, j, g.enq[j]))
    && (j >= |g.owner| ==> g.stage[j].Fresh?)
    && (j < |g.owner| && !g.stage[j].Marked? ==> HeldIndex(threads, g.owner[j], j))
  }

  predicate ElementsOk(blocks: seq<Block>, ring: seq<BlockId>, last: int, g: Log, threads: seq<T.Pc>, bs: nat) {
    && |g.enq| == |g.stage| && |g.owner| <= |g.stage|
    && (forall j :: j in g.out ==> 0 <= j < |g.stage|)
    && (forall j :: 0 <= j < |g.stage| ==> ElementOk(blocks, ring, last, g, threads, bs, j))
  }

  // ----- consumers -----

  /** Only single elements are dequeued. */
  predicate Single(p: T.Pc) {
    match p
    case Idle => true
    case Start(max) => max == 1
    case HaveTail(max, _) => max == 1
    case HaveOver(max, _, _) => max == 1
    case Draw(want, _) => want == 1
    case Drawn(want, _, _) => want == 1
    case Repay(want, got) => want == 1 && got == 0
    case Claiming(got) => got == 1
    case Holding(_, count) => count == 1
  }

  predicate Singles(threads: seq<T.Pc>) { forall t :: 0 <= t < |threads| ==> Single(threads[t]) }

  predicate FoundBlock(ring: seq<BlockId>, last: int, n: int, b: BlockId) {
    Low(ring, last) <= n <= last && ring[n - Low(ring, last)] == b
  }

  predicate AtFront(headers: seq<Header>, h: nat, f: int, num: int, n: int) {
    && h < |headers| && n <= num <= headers[h].high && headers[h].size > 0
    && f == (num + headers[h].off) % headers[h].size
  }

  predicate ConPcOk(headers: seq<Header>, ring: seq<BlockId>, last: int, g: Log, bs: nat, i: nat, c: Con) {
    && i < |g.stage|
    && match c
       case CIdle => false
       case CIndex(j) => j == i && g.stage[i].Fresh?
       case CFront(j, h) => j == i && g.stage[i].Fresh? && h < |headers| && I.Blk(bs, i) <= headers[h].top
       case CBase(j, h, f, num) => j == i && g.stage[i].Fresh? && AtFront(headers, h, f, num, I.Blk(bs, i))
       case CBlock(j, h, f, base) => j == i && g.stage[i].Fresh? && AtFront(headers, h, f, base, I.Blk(bs, i))
       case CMove(j, b) => j == i && g.stage[i].Fresh? && FoundBlock(ring, last, I.Blk(bs, i), b)
       case CMark(j, b) => j == i && g.stage[i].Taken? && FoundBlock(ring, last, I.Blk(bs, i), b)
  }

  predicate ConOk(headers: seq<Header>, ring: seq<BlockId>, last: int, g: Log, bs: nat, t: Tid, p: T.Pc, c: Con) {
    if p.Holding? then p.first < |g.owner| && g.owner[p.first] == t && ConPcOk(headers, ring, last, g, bs, p.first, c) else c.CIdle?
  }

  predicate ConsOk(headers: seq<Header>, ring: seq<BlockId>, last: int, g: Log, bs: nat, threads: seq<T.Pc>, cons: seq<Con>) {
    && |cons| == |threads|
    && (forall t :: 0 <= t < |cons| ==> ConOk(headers, ring, last, g, bs, t, threads[t], cons[t]))
  }

  // ----- all of it -----

  predicate Basics(s: State) {
    && s.bs >= 2 && !s.fault
    && |s.log.stage| == s.tk.tail && |s.log.owner| == s.tk.head
    && Low(s.ring, s.last) >= 0 && (s.ring == [] ==> s.last == -1)
  }

  predicate Inv(s: State) {
    && Basics(s)
    && T.Inv(s.tk) && Singles(s.tk.threads)
    && RingOk(s.blocks, s.pool, s.ring, s.tailBlock)
    && FlagsOk(s.blocks, s.ring, s.last, s.log.stage, s.bs, s.prod)
    && SlotsOk(s.blocks, s.ring, s.last, s.log.stage, s.bs, Extra(s.prod))
    && HeadersOk(s.headers, s.ring, s.last)
    && CurrentOk(s.headers, s.size, s.front, s.used, s.ring, s.last, s.prod)
    && ProdOk(s.blocks, s.pool, s.headers, s.size, s.used, s.ring, s.last, s.bs, s.tk.tail, s.prod)
    && ElementsOk(s.blocks, s.ring, s.last, s.log, s.tk.threads, s.bs)
    && ConsOk(s.headers, s.ring, s.last, s.log, s.bs, s.tk.threads, s.cons)
  }

  lemma InvShaped(s: State)
    requires Inv(s)
    ensures Shaped(s)
  {
    hide T.Inv, FlagsOk, ElementsOk, ProdOk, SlotsAt, Vacant, EntryOk;
    forall h | 0 <= h < |s.headers| ensures s.headers[h].size > 0 && |s.headers[h].entries| == s.headers[h].size {
      assert HeaderOk(s.headers[h], s.ring, s.last);
    }
  }
}
