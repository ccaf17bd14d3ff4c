// The invariant of the implicit producer machine.

module ImplicitInvariant {
  import opened Wrappers
  import opened ModArith
  import opened ImplicitProducer
  import T = Tickets
  import X = BlockIndex

  // ----- arithmetic -----

  lemma BlkOff(bs: nat, i: int)
    requires bs > 0
    ensures i == bs * Blk(bs, i) + Off(bs, i) && Off(bs, i) < bs
  {
  }

  lemma BlkMonotone(bs: nat, i: int, j: int)
    requires bs > 0 && i <= j
    ensures Blk(bs, i) <= Blk(bs, j)
  {
    BlkOff(bs, i);
    BlkOff(bs, j);
    if Blk(bs, j) < Blk(bs, i) {
      MulStep(Blk(bs, j), Blk(bs, i), bs);
    }
  }

  /** An index is determined by its block and its slot. */
  lemma BlkOffUnique(bs: nat, i: int, j: int)
    requires bs > 0 && Blk(bs, i) == Blk(bs, j) && Off(bs, i) == Off(bs, j)
    ensures i == j
  {
    BlkOff(bs, i);
    BlkOff(bs, j);
  }

  lemma BlkNext(bs: nat, i: int)
    requires bs > 0
    ensures Off(bs, i + 1) == 0 ==> Blk(bs, i + 1) == Blk(bs, i) + 1
    ensures Off(bs, i + 1) != 0 ==> Blk(bs, i + 1) == Blk(bs, i)
  {
    BlkOff(bs, i);
    if Off(bs, i) + 1 < bs {
      DivModUnique(i + 1, bs, Blk(bs, i), Off(bs, i) + 1);
    } else {
      DivModUnique(i + 1, bs, Blk(bs, i) + 1, 0);
    }
  }

  lemma BlkOf(bs: nat, n: int, k: nat)
    requires k < bs
    ensures Blk(bs, bs * n + k) == n && Off(bs, bs * n + k) == k
  {
    DivModUnique(bs * n + k, bs, n, k);
  }

  /** Block n holds exactly the indices bs * n .. bs * n + bs. */
  lemma BlkRange(bs: nat, i: int, n: int)
    requires bs > 0
    ensures Blk(bs, i) == n <==> bs * n <= i < bs * n + bs
  {
    BlkOff(bs, i);
    if bs * n <= i < bs * n + bs {
      BlkOf(bs, n, i - bs * n);
    }
  }

  lemma BlkNonNegative(bs: nat, i: nat)
    requires bs > 0
    ensures Blk(bs, i) >= 0
  {
  }

  /** Unpublished blocks start at or after the tail, published indices lie in earlier blocks. */
  lemma FirstBase(bs: nat, tail: nat, n: int)
    requires bs > 0 && First(bs, tail) <= n
    ensures tail <= bs * n
    ensures forall i :: i < tail ==> Blk(bs, i) < n
  {
    BlkOff(bs, tail - 1);
    var q := Blk(bs, tail - 1);
    MulStep(q, q + 1, bs);
    if q + 1 < n { MulStep(q + 1, n, bs); }
    forall i | i < tail ensures Blk(bs, i) < n {
      BlkMonotone(bs, i, tail - 1);
    }
  }

  // ----- counting marked indices -----

  predicate IsMarked(st: seq<Stage>, j: int) { 0 <= j < |st| && st[j].Marked? }

  /** How many of the k indices from base on have been marked empty. */
  function MarkedIn(st: seq<Stage>, base: int, k: nat): nat {
    if k == 0 then 0 else MarkedIn(st, base, k - 1) + if IsMarked(st, base + k - 1) then 1 else 0
  }

  lemma {:induction false} MarkedBound(st: seq<Stage>, base: int, k: nat)
    ensures MarkedIn(st, base, k) <= k
    ensures MarkedIn(st, base, k) == k <==> forall j :: base <= j < base + k ==> IsMarked(st, j)
  {
    if k > 0 { MarkedBound(st, base, k - 1); }
  }

  lemma {:induction false} MarkedSame(st: seq<Stage>, st': seq<Stage>, base: int, k: nat)
    requires forall j :: base <= j < base + k ==> IsMarked(st, j) == IsMarked(st', j)
    ensures MarkedIn(st, base, k) == MarkedIn(st', base, k)
  {
    if k > 0 { MarkedSame(st, st', base, k - 1); }
  }

  lemma {:induction false} MarkedNone(st: seq<Stage>, base: int, k: nat)
    requires forall j :: base <= j < base + k ==> !IsMarked(st, j)
    ensures MarkedIn(st, base, k) == 0
  {
    if k > 0 { MarkedNone(st, base, k - 1); }
  }

  function Clamp(x: int, hi: nat): nat { if x <= 0 then 0 else if x < hi then x else hi }

  /** Marking a stretch of unmarked indices inside the counted range adds its length. */
  lemma {:induction false} MarkedMore(st: seq<Stage>, from: nat, to: nat, base: int, k: nat)
    requires base <= from <= to <= |st| && forall j :: from <= j < to ==> !st[j].Marked?
    ensures MarkedIn(MarkAll(st, from, to), base, k) == MarkedIn(st, base, k) + Clamp(base + k - from, to - from)
  {
    if k > 0 { MarkedMore(st, from, to, base, k - 1); }
  }

  // ----- blocks and their places -----

  /** The producer holds block b, which is in no place of its own at the moment. */
  predicate HeldHere(p: Prod, b: BlockId) {
    match p
    case PReset(_, _, _, c) => b == c
    case PValue(_, _, _, c) => b == c
    case PUndo(_, chain, j) => b in Take(chain, j)
    case PBack(_, chain, j) => b in Take(chain, j + 1)
    case PFree(_, chain, j) => b in Drop(chain, j)
    case _ => false
  }

  function Take(q: seq<BlockId>, j: nat): seq<BlockId> { if j <= |q| then q[..j] else q }
  function Drop(q: seq<BlockId>, j: nat): seq<BlockId> { if j <= |q| then q[j..] else [] }

  /** Each block is in exactly one place, and the place says who will move it on. */
  predicate PlaceOk(m: Mem, live: map<int, X.Spot>, cons: seq<Con>, prod: Prod, bs: nat, b: BlockId)
    requires b < |m.place|
  {
    && (b in m.pool <==> m.place[b].Free?)
    && match m.place[b]
       case Free => true
       case Held => HeldHere(prod, b)
       case InUse(n) => n in live && live[n].block == b
       case Full(n, t) =>
         n in live && live[n].block == b && t < |cons| && cons[t].CClear? && cons[t].b == b && Blk(bs, cons[t].i - 1) == n
       case Released(t) => t < |cons| && cons[t].CRelease? && cons[t].b == b
  }

  predicate LiveBlockOk(m: Mem, live: map<int, X.Spot>, n: int)
    requires n in live
  {
    && live[n].block < |m.place|
    && (m.place[live[n].block] == InUse(n) || (m.place[live[n].block].Full? && m.place[live[n].block].n == n))
  }

  predicate PlacesOk(m: Mem, live: map<int, X.Spot>, cons: seq<Con>, prod: Prod, bs: nat) {
    && |m.place| == |m.blocks|
    && (forall b :: b in m.pool ==> b < |m.place|)
    && (forall b :: 0 <= b < |m.place| ==> PlaceOk(m, live, cons, prod, bs, b))
    && (forall n :: n in live ==> LiveBlockOk(m, live, n))
  }

  /** The counter of a live block counts its marked indices; it is full once all are. */
  predicate CounterOk(m: Mem, live: map<int, X.Spot>, st: seq<Stage>, bs: nat, n: int)
    requires n in live
  {
    && live[n].block < |m.blocks| == |m.place|
    && m.blocks[live[n].block].counter == MarkedIn(st, bs * n, bs)
    && (m.place[live[n].block].Full? <==> MarkedIn(st, bs * n, bs) == bs)
  }

  predicate CountersOk(m: Mem, live: map<int, X.Spot>, st: seq<Stage>, bs: nat) {
    forall n :: n in live ==> CounterOk(m, live, st, bs, n)
  }

  // ----- elements -----

  /** The first index a consumer has claimed but not yet marked. */
  function Seg(c: Con): nat {
    match c
    case CIdle => 0
    case CTake(_, seg, _, _, _) => seg
    case CMark(_, seg, _, _, _) => seg
    case _ => c.i
  }

  predicate HeldIndex(threads: seq<T.Pc>, cons: seq<Con>, t: Tid, j: int) {
    t < |threads| && t < |cons| && threads[t].Holding? && Seg(cons[t]) <= j < End(threads[t])
  }

  /** What is known of a published index: a fresh one lies intact in its block, a taken one was delivered. */
  predicate ElementOk(m: Mem, live: map<int, X.Spot>, g: Log, threads: seq<T.Pc>, cons: seq<Con>, bs: nat, j: int)
    requires 0 <= j < |g.stage| && |g.enq| == |g.stage|
  {
    && (j in g.out <==> !g.stage[j].Fresh?)
    && (j in g.out ==> g.out[j] == g.enq[j])
    && (!g.stage[j].Marked? ==> Blk(bs, j) in live)
    && (g.stage[j].Fresh? ==> Stored(m, live, bs, j, g.enq[j]))
    && (j >= |g.owner| ==> g.stage[j].Fresh?)
    && (j < |g.owner| && !g.stage[j].Marked? ==> HeldIndex(threads, cons, g.owner[j], j))
  }

  predicate Stored(m: Mem, live: map<int, X.Spot>, bs: nat, j: int, v: Elem) {
    && Blk(bs, j) in live && live[Blk(bs, j)].block < |m.blocks|
    && Off(bs, j) < |m.blocks[live[Blk(bs, j)].block].slots|
    && m.blocks[live[Blk(bs, j)].block].slots[Off(bs, j)] == Some(v)
  }

  predicate ElementsOk(m: Mem, live: map<int, X.Spot>, g: Log, threads: seq<T.Pc>, cons: seq<Con>, bs: nat) {
    && |g.enq| == |g.stage| && |g.owner| <= |g.stage|
    && (forall j :: j in g.out ==> 0 <= j < |g.stage|)
    && (forall j :: 0 <= j < |g.stage| ==> ElementOk(m, live, g, threads, cons, bs, j))
  }

  /** How many elements the producer has constructed for the operation in progress. */
  function Written(p: Prod): nat {
    match p case PWrite(_, _, k) => k case PPublish(vals, _) => |vals| case _ => 0
  }

  /** A slot that holds something belongs to a live block, and to an index that is fresh or just being written. */
  predicate SlotOk(m: Mem, st: seq<Stage>, prod: Prod, bs: nat, b: BlockId, k: nat)
    requires b < |m.blocks| == |m.place| && k < |m.blocks[b].slots|
  {
    m.blocks[b].slots[k].Some? ==>
      m.place[b].InUse? && var j := bs * m.place[b].n + k;
      0 <= j < |st| + Written(prod) && (j < |st| ==> st[j].Fresh?)
  }

  predicate SlotsOk(m: Mem, st: seq<Stage>, prod: Prod, bs: nat) {
    && |m.blocks| == |m.place|
    && (forall b :: 0 <= b < |m.blocks| ==> |m.blocks[b].slots| == bs)
    && (forall b, k :: 0 <= b < |m.blocks| && 0 <= k < |m.blocks[b].slots| ==> SlotOk(m, st, prod, bs, b, k))
  }

  // ----- consumers -----

  /** A consumer that walks a header: idx is the place of block number n, and the header reaches up to top. */
  predicate Walk(headers: seq<X.Header>, h: nat, idx: nat, n: int, top: int) {
    && h < |headers| && n <= top <= headers[h].high && headers[h].capacity > 0
    && idx == (n + headers[h].off) % headers[h].capacity
  }

  predicate LiveAs(live: map<int, X.Spot>, n: int, b: BlockId) { n in live && live[n].block == b }

  predicate ConPcOk(headers: seq<X.Header>, live: map<int, X.Spot>, place: seq<Place>, bs: nat, t: Tid, first: nat, end: nat, c: Con) {
    var top := Blk(bs, end - 1);
    match c
    case CIdle => false
    case CHeader(i) => i < end
    case CTail(i, h) => i < end && h < |headers| && top <= headers[h].last
    case CKey(i, h, pos, num) =>
      i < end && h < |headers| && top <= num <= headers[h].high && headers[h].capacity > 0 &&
      pos == (num + headers[h].off) % headers[h].capacity
    case CValue(i, h, idx) => i < end && Walk(headers, h, idx, Blk(bs, i), top)
    case CTake(i, seg, h, idx, b) =>
      i < end && Blk(bs, seg) == Blk(bs, i) && Walk(headers, h, idx, Blk(bs, i), top) && LiveAs(live, Blk(bs, i), b)
    case CMark(i, seg, h, idx, b) =>
      seg < i && Blk(bs, seg) == Blk(bs, i - 1) && (i < end ==> Blk(bs, i) == Blk(bs, i - 1) + 1) &&
      Walk(headers, h, idx, Blk(bs, i - 1), top) && LiveAs(live, Blk(bs, i - 1), b)
    case CClear(i, h, idx, b) =>
      first < i && (i < end ==> Blk(bs, i) == Blk(bs, i - 1) + 1) &&
      Walk(headers, h, idx, Blk(bs, i - 1), top) && LiveAs(live, Blk(bs, i - 1), b) &&
      b < |place| && place[b] == Full(Blk(bs, i - 1), t)
    case CRelease(i, h, idx, b) =>
      first < i && (i < end ==> Blk(bs, i) == Blk(bs, i - 1) + 1) &&
      Walk(headers, h, idx, Blk(bs, i - 1), top) && b < |place| && place[b] == Released(t)
  }

  /** The indices a consumer has claimed: marked up to seg, taken up to i, fresh from there on. */
  predicate RangeOk(g: Log, t: Tid, first: nat, end: nat, c: Con) {
    && end <= |g.owner| <= |g.stage|
    && !c.CIdle? && first <= Seg(c) <= c.i <= end
    && (forall j :: first <= j < end ==> g.owner[j] == t)
    && (forall j :: first <= j < Seg(c) ==> g.stage[j].Marked?)
    && (forall j :: Seg(c) <= j < c.i ==> g.stage[j].Taken?)
    && (forall j :: c.i <= j < end ==> g.stage[j].Fresh?)
  }

  predicate ConOk(headers: seq<X.Header>, live: map<int, X.Spot>, place: seq<Place>, g: Log, bs: nat, t: Tid, p: T.Pc, c: Con) {
    if p.Holding? then
      RangeOk(g, t, p.first, End(p), c) && ConPcOk(headers, live, place, bs, t, p.first, End(p), c)
    else c.CIdle?
  }

  predicate ConsOk(headers: seq<X.Header>, live: map<int, X.Spot>, place: seq<Place>, g: Log, bs: nat, threads: seq<T.Pc>, cons: seq<Con>) {
    && |cons| == |threads|
    && (forall t :: 0 <= t < |cons| ==> ConOk(headers, live, place, g, bs, t, threads[t], cons[t]))
  }

  // ----- the producer -----

  /** Blocks lo .. hi of the chain are live as the next numbers after the published ones. */
  predicate ChainLive(live: map<int, X.Spot>, place: seq<Place>, chain: seq<BlockId>, f: int, lo: nat, hi: nat) {
    hi <= |chain| && forall x :: lo <= x < hi ==>
      LiveAs(live, f + x, chain[x]) && chain[x] < |place| && place[chain[x]] == InUse(f + x)
  }

  predicate ChainHeld(place: seq<Place>, chain: seq<BlockId>, lo: nat, hi: nat) {
    hi <= |chain| && forall x :: lo <= x < hi ==> chain[x] < |place| && place[chain[x]].Held?
  }

  predicate Distinct(q: seq<BlockId>) { forall i, j :: 0 <= i < j < |q| ==> q[i] != q[j] }

  predicate LiveBelow(live: map<int, X.Spot>, n: int) { forall m :: m in live ==> m < n }

  predicate NotLive(live: map<int, X.Spot>, lo: int, hi: int) { forall m :: lo <= m < hi ==> m !in live }

  /** Entries past the index tail, left over from a rewound operation, hold no block. */
  predicate StaleNull(x: X.Index, from: int)
    requires X.HeadersOk(x)
  {
    forall m :: from <= m <= X.Current(x).high && m !in x.live ==> x.entries[X.EntryOf(X.Current(x), m)].value == None
  }

  predicate AllWritten(m: Mem, live: map<int, X.Spot>, bs: nat, tail: nat, vals: seq<Elem>, k: nat) {
    k <= |vals| && forall x :: 0 <= x < k ==> Stored(m, live, bs, tail + x, vals[x])
  }

  predicate ProdOk(x: X.Index, m: Mem, bs: nat, tail: nat, prod: Prod)
    requires X.HeadersOk(x)
  {
    var f := First(bs, tail);
    var hd := X.Current(x);
    match prod
    case PIdle => hd.last == f - 1 && LiveBelow(x.live, f) && StaleNull(x, f)
    case PRoom(vals, chain) => Filling(x, m, bs, tail, vals, chain)
    case PProbe(vals, chain) => Filling(x, m, bs, tail, vals, chain)
    case PGrow(vals, chain) => Filling(x, m, bs, tail, vals, chain) && hd.last == hd.high
    case PKey(vals, chain, e, pos) =>
      Filling(x, m, bs, tail, vals, chain) && e == X.EntryOf(hd, f + |chain|) && pos == (hd.tail + 1) % hd.capacity &&
      f + |chain| <= hd.high + 1 &&
      (f + |chain| == hd.high + 1 ==> forall n :: n in x.live ==> f + |chain| - n < hd.capacity)
    case PTail(vals, chain, e, pos) =>
      Keyed(x, m, bs, tail, vals, chain, e) && hd.last == f + |chain| - 1 && pos == (hd.tail + 1) % hd.capacity
    case PAlloc(vals, chain, e) => Keyed(x, m, bs, tail, vals, chain, e) && hd.last == f + |chain|
    case PReset(vals, chain, e, b) =>
      Keyed(x, m, bs, tail, vals, chain, e) && hd.last == f + |chain| && b < |m.place| && m.place[b].Held?
    case PValue(vals, chain, e, b) =>
      Keyed(x, m, bs, tail, vals, chain, e) && hd.last == f + |chain| && b < |m.place| == |m.blocks| && m.place[b].Held? &&
      m.blocks[b].counter == 0
    case PUnwind(vals, chain, e) => Keyed(x, m, bs, tail, vals, chain, e) && hd.last == f + |chain|
    case PUnset(vals, chain, e) => Keyed(x, m, bs, tail, vals, chain, e) && hd.last == f + |chain| - 1
    case PUndo(vals, chain, j) => Undoing(x, m, bs, tail, chain, j) && j < |chain| && hd.last == f + |chain| - 1 - j
    case PBack(vals, chain, j) => Undoing(x, m, bs, tail, chain, j + 1) && j < |chain| && hd.last == f + |chain| - 1 - j
    case PFree(vals, chain, j) =>
      hd.last == f - 1 && LiveBelow(x.live, f) && StaleNull(x, f) &&
      j < |chain| && Distinct(chain) && ChainHeld(m.place, chain, j, |chain|)
    case PWrite(vals, chain, k) => k < |vals| && Acquired(x, m, bs, tail, vals, chain) && AllWritten(m, x.live, bs, tail, vals, k)
    case PPublish(vals, chain) => Acquired(x, m, bs, tail, vals, chain) && AllWritten(m, x.live, bs, tail, vals, |vals|)
  }

  /** Acquiring blocks: those so far are live, the index tail is on the last one. */
  predicate Chained(x: X.Index, m: Mem, bs: nat, tail: nat, chain: seq<BlockId>)
    requires X.HeadersOk(x)
  {
    var f := First(bs, tail);
    && ChainLive(x.live, m.place, chain, f, 0, |chain|)
    && LiveBelow(x.live, f + |chain|)
  }

  predicate Filling(x: X.Index, m: Mem, bs: nat, tail: nat, vals: seq<Elem>, chain: seq<BlockId>)
    requires X.HeadersOk(x)
  {
    && Chained(x, m, bs, tail, chain) && |chain| < Need(bs, tail, |vals|)
    && X.Current(x).last == First(bs, tail) + |chain| - 1 && StaleNull(x, First(bs, tail) + |chain|)
  }

  /** The key of the next block's entry has been stored. */
  predicate Keyed(x: X.Index, m: Mem, bs: nat, tail: nat, vals: seq<Elem>, chain: seq<BlockId>, e: nat)
    requires X.HeadersOk(x)
  {
    && Chained(x, m, bs, tail, chain) && |chain| < Need(bs, tail, |vals|)
    && First(bs, tail) + |chain| <= X.Current(x).high && e == X.EntryOf(X.Current(x), First(bs, tail) + |chain|)
    && StaleNull(x, First(bs, tail) + |chain| + 1)
  }

  /** Rolling back: blocks up to k are held again, the others of the chain are still live. */
  predicate Undoing(x: X.Index, m: Mem, bs: nat, tail: nat, chain: seq<BlockId>, k: nat)
    requires X.HeadersOk(x)
  {
    var f := First(bs, tail);
    && ChainLive(x.live, m.place, chain, f, k, |chain|) && ChainHeld(m.place, chain, 0, k)
    && NotLive(x.live, f, f + k) && LiveBelow(x.live, f + |chain|) && Distinct(chain) && StaleNull(x, f)
  }

  predicate Acquired(x: X.Index, m: Mem, bs: nat, tail: nat, vals: seq<Elem>, chain: seq<BlockId>)
    requires X.HeadersOk(x)
  {
    && Chained(x, m, bs, tail, chain) && |chain| == Need(bs, tail, |vals|)
    && X.Current(x).last == First(bs, tail) + |chain| - 1 && StaleNull(x, First(bs, tail) + |chain|)
  }

  /** A partly filled last block is the producer's tail block. */
  predicate TailBlockOk(live: map<int, X.Spot>, place: seq<Place>, bs: nat, tail: nat, tailBlock: Option<BlockId>) {
    Off(bs, tail) != 0 ==>
      tailBlock.Some? && LiveAs(live, Blk(bs, tail), tailBlock.value) &&
      tailBlock.value < |place| && place[tailBlock.value] == InUse(Blk(bs, tail))
  }

  // ----- all of it -----

  predicate Sizes(s: State) {
    && s.bs >= 2 && !s.fault
    && |s.log.stage| == s.tk.tail && |s.log.owner| == s.tk.head
  }

  predicate Inv(s: State) {
    && Sizes(s)
    && T.Inv(s.tk)
    && X.Inv(s.ix, First(s.bs, s.tk.tail))
    && PlacesOk(s.mem, s.ix.live, s.cons, s.prod, s.bs)
    && CountersOk(s.mem, s.ix.live, s.log.stage, s.bs)
    && ElementsOk(s.mem, s.ix.live, s.log, s.tk.threads, s.cons, s.bs)
    && SlotsOk(s.mem, s.log.stage, s.prod, s.bs)
    && ConsOk(s.ix.headers, s.ix.live, s.mem.place, s.log, s.bs, s.tk.threads, s.cons)
    && ProdOk(s.ix, s.mem, s.bs, s.tk.tail, s.prod)
    && TailBlockOk(s.ix.live, s.mem.place, s.bs, s.tk.tail, s.tailBlock)
  }

  lemma InvShapes(s: State)
    requires Inv(s)
    ensures Shaped(s)
  {
    hide X.Window, X.LiveAt, CountersOk, ElementsOk, ProdOk, TailBlockOk, T.Inv;
  }
}
