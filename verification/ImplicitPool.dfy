// Where the blocks of an implicit producer are, and how often each goes back to the pool.

module ImplicitPool {
  import opened Wrappers
  import opened ModArith
  import opened FiniteSets
  import opened ImplicitProducer
  import opened ImplicitInvariant
  import opened ImplicitQueue
  import opened DeliveryRecord
  import T = Tickets
  import X = BlockIndex

  // ----- the blocks at rest -----

  /** At rest a block number is live exactly if it still holds, or will hold, undelivered elements. */
  lemma QuietLive(s: State, n: int)
    requires Inv(s) && Quiet(s.tk.threads) && s.prod.PIdle?
    ensures n in s.ix.live <==> Blk(s.bs, s.tk.head) <= n < First(s.bs, s.tk.tail)
  {
    if n in s.ix.live {
      LiveNotBelowHead(s, n);
      IdleLiveBelow(s, n);
    } else if Blk(s.bs, s.tk.head) <= n < First(s.bs, s.tk.tail) {
      T.HeadNeverPassesTail(s.tk);
      UnclaimedInBlock(s.bs, s.tk.head, s.tk.tail, n);
      QuietUnmarkedLive(s, n);
    }
  }

  lemma IdleLiveBelow(s: State, n: int)
    requires Inv(s) && s.prod.PIdle? && n in s.ix.live
    ensures n < First(s.bs, s.tk.tail)
  {
    hide PlacesOk, SlotsOk, CountersOk, ElementsOk, ConsOk, TailBlockOk, T.Inv, X.Inv, First;
  }

  /** A block at or after the head's that is published has an unclaimed slot, or lies past the tail's end. */
  lemma UnclaimedInBlock(bs: nat, head: nat, tail: nat, n: int)
    requires bs > 0 && head <= tail && Blk(bs, head) <= n < First(bs, tail)
    ensures (exists j :: head <= j < tail && Blk(bs, j) == n) || (head == tail && Off(bs, tail) != 0 && n == Blk(bs, tail))
  {
    BlkOff(bs, head);
    BlkOff(bs, tail - 1);
    if n == Blk(bs, head) {
      if head < tail {
        assert Blk(bs, head) == n;
      } else {
        BlkNext(bs, tail - 1);
      }
    } else {
      BlkRange(bs, bs * n, n);
      MulStep(Blk(bs, head), n, bs);
      if n < Blk(bs, tail - 1) { MulStep(n, Blk(bs, tail - 1), bs); }
      assert Blk(bs, bs * n) == n;
    }
  }

  lemma QuietUnmarkedLive(s: State, n: int)
    requires Inv(s) && Quiet(s.tk.threads)
    requires (exists j :: s.tk.head <= j < s.tk.tail && Blk(s.bs, j) == n) ||
      (s.tk.head == s.tk.tail && Off(s.bs, s.tk.tail) != 0 && n == Blk(s.bs, s.tk.tail))
    ensures n in s.ix.live
  {
    hide PlacesOk, SlotsOk, CountersOk, ConsOk, ProdOk, T.Inv, X.Inv, Blk, Off, Stored;
    if j :| s.tk.head <= j < s.tk.tail && Blk(s.bs, j) == n {
      assert ElementOk(s.mem, s.ix.live, s.log, s.tk.threads, s.cons, s.bs, j);
    }
  }

  /** At rest the indices below the head are all marked, so a block of such indices only is not live. */
  lemma LiveNotBelowHead(s: State, n: int)
    requires Inv(s) && Quiet(s.tk.threads) && n in s.ix.live
    ensures Blk(s.bs, s.tk.head) <= n
  {
    if n < Blk(s.bs, s.tk.head) {
      LiveNonNegative(s, n);
      BlkOff(s.bs, s.tk.head);
      MulStep(n, Blk(s.bs, s.tk.head), s.bs);
      MulNonNegative(s.bs, n);
      T.HeadNeverPassesTail(s.tk);
      forall j | s.bs * n <= j < s.bs * n + s.bs ensures IsMarked(s.log.stage, j) {
        QuietMarked(s, j);
      }
      MarkedBound(s.log.stage, s.bs * n, s.bs);
      LiveNotFull(s, n);
    }
  }

  lemma LiveNonNegative(s: State, n: int)
    requires Inv(s) && n in s.ix.live
    ensures n >= 0
  {
    hide PlacesOk, SlotsOk, CountersOk, ElementsOk, ConsOk, ProdOk, TailBlockOk, T.Inv, X.Window;
    assert X.LiveAt(s.ix, n);
  }

  lemma QuietMarked(s: State, j: int)
    requires Inv(s) && Quiet(s.tk.threads) && 0 <= j < s.tk.head <= s.tk.tail
    ensures IsMarked(s.log.stage, j)
  {
    hide PlacesOk, SlotsOk, CountersOk, ConsOk, ProdOk, TailBlockOk, T.Inv, X.Inv, Blk, Off, Stored;
    assert ElementOk(s.mem, s.ix.live, s.log, s.tk.threads, s.cons, s.bs, j);
  }

  lemma QuietCons(s: State)
    requires Inv(s) && Quiet(s.tk.threads)
    ensures forall t :: 0 <= t < |s.cons| ==> s.cons[t].CIdle?
  {
    hide PlacesOk, SlotsOk, CountersOk, ElementsOk, ProdOk, TailBlockOk, T.Inv, X.Inv, RangeOk, ConPcOk;
    forall t | 0 <= t < |s.cons| ensures s.cons[t].CIdle? {
      assert ConOk(s.ix.headers, s.ix.live, s.mem.place, s.log, s.bs, t, s.tk.threads[t], s.cons[t]);
    }
  }

  lemma LiveNotFull(s: State, n: int)
    requires Inv(s) && Quiet(s.tk.threads) && n in s.ix.live
    ensures MarkedIn(s.log.stage, s.bs * n, s.bs) < s.bs
  {
    hide SlotsOk, ElementsOk, ConsOk, ProdOk, TailBlockOk, T.Inv, X.Inv, Blk, Off;
    assert CounterOk(s.mem, s.ix.live, s.log.stage, s.bs, n);
    MarkedBound(s.log.stage, s.bs * n, s.bs);
    var b := s.ix.live[n].block;
    assert PlaceOk(s.mem, s.ix.live, s.cons, s.prod, s.bs, b);
    QuietCons(s);
  }

  /** The blocks of the live numbers from lo on. */
  function LiveBlocks(live: map<int, X.Spot>, lo: int, k: nat): seq<BlockId>
    requires forall n :: lo <= n < lo + k ==> n in live
    ensures |LiveBlocks(live, lo, k)| == k
    ensures forall i :: 0 <= i < k ==> LiveBlocks(live, lo, k)[i] == live[lo + i].block
  {
    if k == 0 then [] else LiveBlocks(live, lo, k - 1) + [live[lo + k - 1].block]
  }

  /** At rest each block is in the pool or holds a live number, never both. */
  lemma QuietPlaces(s: State, b: BlockId)
    requires Inv(s) && Quiet(s.tk.threads) && s.prod.PIdle? && b < |s.mem.blocks|
    ensures |s.mem.place| == |s.mem.blocks|
    ensures b in s.mem.pool || (s.mem.place[b].InUse? && LiveAs(s.ix.live, s.mem.place[b].n, b))
    ensures b in s.mem.pool ==> forall n :: n in s.ix.live ==> s.ix.live[n].block != b
  {
    hide SlotsOk, CountersOk, ElementsOk, ConsOk, ProdOk, TailBlockOk, T.Inv, X.Inv, Blk, Off;
    assert PlaceOk(s.mem, s.ix.live, s.cons, s.prod, s.bs, b);
    QuietCons(s);
    if b in s.mem.pool {
      forall n | n in s.ix.live ensures s.ix.live[n].block != b {
        assert LiveBlockOk(s.mem, s.ix.live, n);
      }
    }
  }

  lemma LivePlaces(s: State, n: int)
    requires Inv(s) && Quiet(s.tk.threads) && s.prod.PIdle? && n in s.ix.live
    ensures |s.mem.place| == |s.mem.blocks| && s.ix.live[n].block < |s.mem.blocks|
    ensures s.mem.place[s.ix.live[n].block] == InUse(n)
  {
    hide SlotsOk, CountersOk, ElementsOk, ConsOk, ProdOk, TailBlockOk, T.Inv, X.Inv, Blk, Off;
    assert LiveBlockOk(s.mem, s.ix.live, n);
    var b := s.ix.live[n].block;
    assert PlaceOk(s.mem, s.ix.live, s.cons, s.prod, s.bs, b);
    QuietCons(s);
  }

  lemma PoolInRange(s: State, b: BlockId)
    requires Inv(s) && b in s.mem.pool
    ensures b < |s.mem.blocks|
  {
    hide SlotsOk, CountersOk, ElementsOk, ConsOk, ProdOk, TailBlockOk, T.Inv, X.Inv, PlaceOk;
  }

  /** No block is lost or duplicated: with nobody in the middle of an operation, every block that
      was ever created is in the pool, but for the ones that hold the published indices from the
      head's block to the tail's, one each. */
  lemma BlocksConserved(c: Config, run: seq<Action>)
    requires ConfigOk(c) && Run(c, run).Some?
    requires Quiet(Run(c, run).value.tk.threads) && Run(c, run).value.prod.PIdle?
    ensures var s := Run(c, run).value;
      var used := First(s.bs, s.tk.tail) - Blk(s.bs, s.tk.head);
      && used >= 0 && |s.mem.blocks| == |s.mem.pool| + used
      && (forall n :: n in s.ix.live <==> Blk(s.bs, s.tk.head) <= n < First(s.bs, s.tk.tail))
  {
    ReachableInv(c, run);
    var s := Run(c, run).value;
    hide Inv, Run, First, Blk;
    forall n: int ensures n in s.ix.live <==> Blk(s.bs, s.tk.head) <= n < First(s.bs, s.tk.tail) {
      QuietLive(s, n);
    }
    UsedNonNegative(s);
    CountBlocks(s, Blk(s.bs, s.tk.head), First(s.bs, s.tk.tail) - Blk(s.bs, s.tk.head));
  }

  lemma UsedNonNegative(s: State)
    requires Inv(s)
    ensures First(s.bs, s.tk.tail) >= Blk(s.bs, s.tk.head)
  {
    T.HeadNeverPassesTail(s.tk);
    BlkMonotone(s.bs, s.tk.head, s.tk.tail);
    BlkNext(s.bs, s.tk.tail - 1);
  }

  lemma CountBlocks(s: State, lo: int, k: nat)
    requires Inv(s) && Quiet(s.tk.threads) && s.prod.PIdle?
    requires forall n :: n in s.ix.live <==> lo <= n < lo + k
    ensures |s.mem.blocks| == |s.mem.pool| + k
  {
    hide Inv, LiveBlocks;
    var q := LiveBlocks(s.ix.live, lo, k);
    forall i, j | 0 <= i < j < k ensures q[i] != q[j] {
      LivePlaces(s, lo + i);
      LivePlaces(s, lo + j);
    }
    SizeOfDistinct(q);
    CoverBlocks(s, lo, k, q);
  }

  lemma CoverBlocks(s: State, lo: int, k: nat, q: seq<BlockId>)
    requires Inv(s) && Quiet(s.tk.threads) && s.prod.PIdle?
    requires forall n :: n in s.ix.live <==> lo <= n < lo + k
    requires |q| == k && (forall i :: 0 <= i < k ==> q[i] == s.ix.live[lo + i].block) && |Members(q)| == k
    ensures |s.mem.blocks| == |s.mem.pool| + k
  {
    hide Inv;
    forall b: nat ensures b in s.mem.pool + Members(q) <==> b in Below(|s.mem.blocks|) {
      if b in s.mem.pool { PoolInRange(s, b); }
      if b in q {
        var i :| 0 <= i < |q| && q[i] == b;
        LivePlaces(s, lo + i);
      }
      if b < |s.mem.blocks| && b !in s.mem.pool {
        QuietPlaces(s, b);
        assert q[s.mem.place[b].n - lo] == b;
      }
    }
    forall b | b in s.mem.pool ensures b !in q {
      PoolInRange(s, b);
      QuietPlaces(s, b);
    }
    assert s.mem.pool + Members(q) == Below(|s.mem.blocks|);
    assert s.mem.pool !! Members(q);
  }

  // ----- every block number goes back to the pool at most once -----

  /** The number of the block that consumer c is returning. */
  function Returning(bs: nat, c: Con): Option<int> {
    if c.CRelease? then Some(Blk(bs, c.i - 1)) else None
  }

  /** The block number that an action returns to the pool. */
  function Return(s: State, a: Action): Option<int> {
    if a.Consume? && a.t < |s.cons| && a.t < |s.tk.threads| && s.tk.threads[a.t].Holding? then Returning(s.bs, s.cons[a.t]) else None
  }

  function Returns(c: Config, run: seq<Action>): seq<int>
    requires ConfigOk(c) && Run(c, run).Some?
    decreases |run|
  {
    if run == [] then []
    else Returned(Returns(c, run[..|run| - 1]), Run(c, run[..|run| - 1]).value, run[|run| - 1])
  }

  /** Block number n is used up: every element has been dequeued, and the number is live no longer. */
  predicate UsedUp(s: State, n: int) {
    && n < First(s.bs, s.tk.tail) && n !in s.ix.live
    && MarkedIn(s.log.stage, s.bs * n, s.bs) == s.bs
  }

  predicate Pending(s: State, t: Tid, n: int) { t < |s.cons| && Returning(s.bs, s.cons[t]) == Some(n) }

  /** The numbers returned or about to be are used up and all different, and no other published number is missing. */
  ghost predicate ReturnsOk(r: seq<int>, s: State) {
    && (forall i, j :: 0 <= i < j < |r| ==> r[i] != r[j])
    && (forall n :: n in r ==> UsedUp(s, n))
    && (forall t, n :: Pending(s, t, n) ==> UsedUp(s, n) && n !in r)
    && (forall t, u, n :: Pending(s, t, n) && Pending(s, u, n) ==> t == u)
    && (forall n :: 0 <= n < First(s.bs, s.tk.tail) ==> Accounted(r, s, n))
  }

  ghost predicate Accounted(r: seq<int>, s: State, n: int) {
    n in s.ix.live || n in r || exists t :: Pending(s, t, n)
  }

  /** The returns so far, after one more action. */
  function Returned(r: seq<int>, s: State, a: Action): seq<int> {
    match Return(s, a) case Some(n) => r + [n] case None => r
  }

  /** What a step of consumer t may do to it: a consumer comes to return a block only by clearing its entry. */
  predicate ReleaseStep(bs: nat, c: Con, c': Con, live': map<int, X.Spot>) {
    && (c'.CRelease? ==> c.CClear? && c'.i == c.i && Blk(bs, c.i - 1) !in live')
    && (c.CRelease? ==> !c'.CRelease?)
  }

  /** What a step may do to the consumers, the live numbers and the marks. */
  ghost predicate Releases(s: State, s': State, a: Action) {
    && |s'.cons| == |s.cons|
    && (forall t :: 0 <= t < |s.cons| && !(a.Consume? && a.t == t) ==> s'.cons[t] == s.cons[t])
    && (a.Consume? && a.t < |s.cons| ==> ReleaseStep(s.bs, s.cons[a.t], s'.cons[a.t], s'.ix.live))
    && s'.bs == s.bs && First(s'.bs, s'.tk.tail) >= First(s.bs, s.tk.tail)
    && (forall n :: n in s'.ix.live ==> n in s.ix.live || n >= First(s.bs, s.tk.tail))
    && (forall j :: IsMarked(s.log.stage, j) ==> IsMarked(s'.log.stage, j))
  }

  lemma ProduceReleases(s: State, ch: Choice)
    requires Shaped(s) && Enabled(s, Produce(ch))
    ensures Releases(s, ProduceStep(s, ch), Produce(ch))
  {
    hide X.HeadersOk, First, Need, Blk, Off, X.Available, X.Locate, ProduceStep;
    ProduceLeavesConsumers(s, ch);
    ProduceLive(s, ch);
    ProduceStages(s, ch);
  }

  lemma ProduceLive(s: State, ch: Choice)
    requires Shaped(s) && Enabled(s, Produce(ch))
    ensures forall n :: n in ProduceStep(s, ch).ix.live ==> n in s.ix.live || n >= First(s.bs, s.tk.tail)
  {
    hide X.HeadersOk, First, Need, Blk, Off, X.Available, X.Locate, X.GrownIndex;
  }

  lemma ProduceStages(s: State, ch: Choice)
    requires Shaped(s) && Enabled(s, Produce(ch))
    ensures ProduceStep(s, ch).bs == s.bs && First(s.bs, ProduceStep(s, ch).tk.tail) >= First(s.bs, s.tk.tail)
    ensures forall j :: IsMarked(s.log.stage, j) ==> IsMarked(ProduceStep(s, ch).log.stage, j)
  {
    ProduceTails(s, ch);
    hide ProduceStep, IsMarked;
    BlkMonotone(s.bs, s.tk.tail - 1, ProduceStep(s, ch).tk.tail - 1);
  }

  lemma ProduceTails(s: State, ch: Choice)
    requires Shaped(s) && Enabled(s, Produce(ch))
    ensures ProduceStep(s, ch).bs == s.bs && ProduceStep(s, ch).tk.tail >= s.tk.tail
    ensures forall j :: IsMarked(s.log.stage, j) ==> IsMarked(ProduceStep(s, ch).log.stage, j)
  {
    ProduceTicket(s, ch);
    ProduceMarks(s, ch);
    hide ProduceStep;
  }

  /** Only publishing touches the ticket state, and it only moves the tail on. */
  lemma ProduceTicket(s: State, ch: Choice)
    requires Shaped(s) && Enabled(s, Produce(ch))
    ensures ProduceStep(s, ch).bs == s.bs
    ensures ProduceStep(s, ch).tk == if s.prod.PPublish? then s.tk.(tail := s.tk.tail + |s.prod.vals|) else s.tk
  {
    hide X.HeadersOk, First, Need, Blk, Off, X.Available, X.Locate, X.Grow, X.ClearValue, X.StoreValue, X.StoreKey, X.StoreTail, X.Rewind;
  }

  lemma ProduceMarks(s: State, ch: Choice)
    requires Shaped(s) && Enabled(s, Produce(ch))
    ensures ProduceStep(s, ch).log.stage == s.log.stage + if s.prod.PPublish? then seq(|s.prod.vals|, _ => Fresh) else []
  {
    hide X.HeadersOk, First, Need, Blk, Off, X.Available, X.Locate, X.Grow, X.ClearValue, X.StoreValue, X.StoreKey, X.StoreTail, X.Rewind;
    assert s.log.stage + [] == s.log.stage;
  }

  lemma TicketReleases(s: State, t: Tid)
    requires Inv(s) && Shaped(s) && Enabled(s, Consume(t)) && !s.tk.threads[t].Holding?
    ensures Releases(s, TicketStep(s, t), Consume(t))
  {
    assert ConOk(s.ix.headers, s.ix.live, s.mem.place, s.log, s.bs, t, s.tk.threads[t], s.cons[t]);
    hide Inv, X.HeadersOk, Need, Blk, Off;
  }

  lemma NoFault(s: State, t: Tid)
    requires Inv(s) && Shaped(s) && Enabled(s, Consume(t)) && s.tk.threads[t].Holding?
    ensures !ConsumeStep(s, t).fault && !s.cons[t].CIdle?
    ensures s.cons[t].CTake? ==> s.cons[t].i < |s.log.stage| && s.log.stage[s.cons[t].i].Fresh?
  {
    ConsumeKeepsInv(s, t);
    hide ConsumeStep, PlacesOk, SlotsOk, CountersOk, ElementsOk, ProdOk, TailBlockOk, T.Inv, X.Inv, Blk, Off;
    assert ConOk(s.ix.headers, s.ix.live, s.mem.place, s.log, s.bs, t, s.tk.threads[t], s.cons[t]);
  }

  lemma LookupReleases(s: State, t: Tid)
    requires Shaped(s) && t < |s.cons| && s.tk.threads[t].Holding? && !ConsumeStep(s, t).fault
    requires s.cons[t].CHeader? || s.cons[t].CTail? || s.cons[t].CKey? || s.cons[t].CValue? || s.cons[t].CRelease?
    ensures Releases(s, ConsumeStep(s, t), Consume(t))
  {
    hide X.HeadersOk, First, Blk, Off, X.Locate;
  }

  lemma TakeReleases(s: State, t: Tid)
    requires Shaped(s) && t < |s.cons| && s.tk.threads[t].Holding? && !ConsumeStep(s, t).fault
    requires s.cons[t].CTake? && s.cons[t].i < |s.log.stage| && s.log.stage[s.cons[t].i].Fresh?
    ensures Releases(s, ConsumeStep(s, t), Consume(t))
  {
    hide X.HeadersOk, First, Blk, Off;
  }

  lemma MarkReleases(s: State, t: Tid)
    requires Shaped(s) && t < |s.cons| && s.tk.threads[t].Holding? && !ConsumeStep(s, t).fault
    requires s.cons[t].CMark? || s.cons[t].CClear?
    ensures Releases(s, ConsumeStep(s, t), Consume(t))
  {
    hide X.HeadersOk, First, Blk, Off;
  }

  lemma NextReleases(s: State, a: Action)
    requires Inv(s) && Shaped(s) && Enabled(s, a)
    ensures Releases(s, Next(s, a), a)
  {
    hide Inv, Shaped, ConsumeStep, ProduceStep, TicketStep, Releases, First;
    match a {
      case Enqueue(vals) => IdleReleases(s, a);
      case Produce(ch) => ProduceReleases(s, ch);
      case Dequeue(t, max) => IdleReleases(s, a);
      case Consume(t) =>
        if !s.tk.threads[t].Holding? {
          TicketReleases(s, t);
        } else {
          NoFault(s, t);
          match s.cons[t] {
            case CTake(i, seg, h, idx, b) => TakeReleases(s, t);
            case CMark(i, seg, h, idx, b) => MarkReleases(s, t);
            case CClear(i, h, idx, b) => MarkReleases(s, t);
            case _ => LookupReleases(s, t);
          }
        }
    }
  }

  lemma IdleReleases(s: State, a: Action)
    requires Shaped(s) && Enabled(s, a) && (a.Enqueue? || a.Dequeue?)
    ensures Releases(s, Next(s, a), a)
  {
    hide X.HeadersOk, First, Need, Blk, Off;
  }

  /** A used-up number stays used up. */
  lemma StaysUsedUp(s: State, s': State, a: Action, n: int)
    requires Releases(s, s', a) && UsedUp(s, n)
    ensures UsedUp(s', n)
  {
    hide First;
    MarkedBound(s.log.stage, s.bs * n, s.bs);
    MarkedBound(s'.log.stage, s.bs * n, s.bs);
  }

  /** Clearing the entry of a block uses its number up. */
  lemma ClearUsesUp(s: State, s': State, t: Tid)
    requires Inv(s) && t < |s.cons| && s.cons[t].CClear? && Releases(s, s', Consume(t)) && s'.cons[t].CRelease?
    ensures UsedUp(s', Blk(s.bs, s.cons[t].i - 1)) && Blk(s.bs, s.cons[t].i - 1) in s.ix.live
  {
    var n := Blk(s.bs, s.cons[t].i - 1);
    ClearingIsFull(s, t);
    hide First, Inv;
    MarkedBound(s.log.stage, s.bs * n, s.bs);
    MarkedBound(s'.log.stage, s.bs * n, s.bs);
  }

  lemma ClearingIsFull(s: State, t: Tid)
    requires Inv(s) && t < |s.cons| && s.cons[t].CClear?
    ensures var n := Blk(s.bs, s.cons[t].i - 1);
      n in s.ix.live && n < First(s.bs, s.tk.tail) && MarkedIn(s.log.stage, s.bs * n, s.bs) == s.bs
  {
    hide PlacesOk, SlotsOk, ElementsOk, ProdOk, TailBlockOk, T.Inv, X.Inv, Off;
    assert ConOk(s.ix.headers, s.ix.live, s.mem.place, s.log, s.bs, t, s.tk.threads[t], s.cons[t]);
    var n := Blk(s.bs, s.cons[t].i - 1);
    assert CounterOk(s.mem, s.ix.live, s.log.stage, s.bs, n);
    BlkMonotone(s.bs, s.cons[t].i - 1, s.tk.tail - 1);
  }

  /** A step of one consumer leaves the others' pending returns alone. */
  lemma PendingOther(s: State, s': State, a: Action, t: Tid, n: int)
    requires Releases(s, s', a) && a != Consume(t)
    ensures Pending(s', t, n) <==> Pending(s, t, n)
  {
    hide First, Blk;
  }

  /** A consumer that starts returning a number has just taken it out of the live ones. */
  lemma PendingStepper(s: State, s': State, t: Tid, n: int)
    requires Inv(s) && Releases(s, s', Consume(t)) && Pending(s', t, n)
    ensures n in s.ix.live && UsedUp(s', n) && s.cons[t].CClear?
  {
    hide Inv, First, Blk, UsedUp;
    ClearUsesUp(s, s', t);
  }

  /** The step that returns a number ends its consumer's pending return. */
  lemma ReturnSteps(s: State, s': State, a: Action)
    requires Inv(s) && Enabled(s, a) && Releases(s, s', a)
    ensures match Return(s, a)
      case Some(n) => a.Consume? && Pending(s, a.t, n) && forall m :: !Pending(s', a.t, m)
      case None => a.Consume? ==> forall m :: !Pending(s, a.t, m)
  {
    if a.Consume? { ReleaserHolds(s, a.t); }
    hide Inv, First, Blk;
  }

  lemma NextUsedUp(r: seq<int>, s: State, s': State, a: Action)
    requires Inv(s) && Enabled(s, a) && Releases(s, s', a) && ReturnsOk(r, s)
    ensures var r' := Returned(r, s, a);
      && (forall n :: n in r' ==> UsedUp(s', n))
      && (forall i, j :: 0 <= i < j < |r'| ==> r'[i] != r'[j])
  {
    hide Inv, Enabled, Releases, First, UsedUp, Return, Pending;
    ReturnSteps(s, s', a);
    forall n | n in Returned(r, s, a) ensures UsedUp(s', n) {
      StaysUsedUp(s, s', a, n);
    }
  }

  lemma NextPending(r: seq<int>, s: State, s': State, a: Action)
    requires Inv(s) && Enabled(s, a) && Releases(s, s', a) && ReturnsOk(r, s)
    ensures var r' := Returned(r, s, a);
      && (forall t, n :: Pending(s', t, n) ==> UsedUp(s', n) && n !in r')
      && (forall t, u, n :: Pending(s', t, n) && Pending(s', u, n) ==> t == u)
  {
    hide Inv, Enabled, Releases, First, UsedUp, Return, Pending;
    ReturnSteps(s, s', a);
    forall t, n | Pending(s', t, n) ensures UsedUp(s', n) && n !in Returned(r, s, a) && (Pending(s, t, n) || (a == Consume(t) && n in s.ix.live)) {
      if a == Consume(t) {
        PendingStepper(s, s', t, n);
        if UsedUp(s, n) { UsedUpNotLive(s, n); }
      } else {
        PendingOther(s, s', a, t, n);
        StaysUsedUp(s, s', a, n);
      }
    }
    forall t, u, n | Pending(s', t, n) && Pending(s', u, n) ensures t == u {
      if UsedUp(s, n) { UsedUpNotLive(s, n); }
      if a != Consume(t) { PendingOther(s, s', a, t, n); }
      if a != Consume(u) { PendingOther(s, s', a, u, n); }
    }
  }

  /** What a step takes out of the live numbers, and which numbers it publishes. */
  ghost predicate Retires(s: State, s': State, a: Action) {
    && (forall n :: n in s.ix.live && n < First(s.bs, s.tk.tail) ==> n in s'.ix.live || (a.Consume? && Pending(s', a.t, n)))
    && (forall n :: First(s.bs, s.tk.tail) <= n < First(s'.bs, s'.tk.tail) ==> n in s'.ix.live)
  }

  lemma NextAccounted(r: seq<int>, s: State, s': State, a: Action, n: int)
    requires Inv(s) && Enabled(s, a) && Releases(s, s', a) && Retires(s, s', a) && ReturnsOk(r, s)
    requires 0 <= n < First(s'.bs, s'.tk.tail)
    ensures Accounted(Returned(r, s, a), s', n)
  {
    hide Inv, Enabled, Releases, First, UsedUp, Return, Pending;
    ReturnSteps(s, s', a);
    if n < First(s.bs, s.tk.tail) && n !in s.ix.live && n !in r {
      assert Accounted(r, s, n);
      var t :| Pending(s, t, n);
      if a != Consume(t) {
        PendingOther(s, s', a, t, n);
      } else {
        PendingIs(s, t, n);
      }
    }
  }

  lemma PendingIs(s: State, t: Tid, n: int)
    requires Pending(s, t, n)
    ensures forall m :: Pending(s, t, m) ==> m == n
  {
  }

  lemma NextReturns(r: seq<int>, s: State, s': State, a: Action)
    requires Inv(s) && Enabled(s, a) && Releases(s, s', a) && Retires(s, s', a) && ReturnsOk(r, s)
    ensures ReturnsOk(Returned(r, s, a), s')
  {
    NextUsedUp(r, s, s', a);
    NextPending(r, s, s', a);
    forall n | 0 <= n < First(s'.bs, s'.tk.tail) ensures Accounted(Returned(r, s, a), s', n) {
      NextAccounted(r, s, s', a, n);
    }
    hide Inv, Enabled, Releases, Retires, First, UsedUp, Pending, Returned, Accounted;
  }

  // ----- only clearing an entry takes a published number out of the live ones -----

  lemma ProduceRetires(s: State, ch: Choice)
    requires Inv(s) && Shaped(s) && Enabled(s, Produce(ch))
    ensures Retires(s, ProduceStep(s, ch), Produce(ch))
  {
    if s.prod.PPublish? { PublishedLive(s); }
    ProduceTicket(s, ch);
    ProduceKeepsLive(s, ch);
    hide Inv, First, ProduceStep, Shaped;
  }

  lemma ProduceKeepsLive(s: State, ch: Choice)
    requires Shaped(s) && Enabled(s, Produce(ch))
    ensures forall n :: n in s.ix.live && n < First(s.bs, s.tk.tail) ==> n in ProduceStep(s, ch).ix.live
    ensures s.prod.PPublish? ==> ProduceStep(s, ch).ix == s.ix
  {
    hide X.HeadersOk, First, Need, Blk, Off, X.Available, X.Locate, X.GrownIndex;
  }

  lemma PublishedLive(s: State)
    requires Inv(s) && s.prod.PPublish?
    ensures forall n :: First(s.bs, s.tk.tail) <= n < First(s.bs, s.tk.tail + |s.prod.vals|) ==> n in s.ix.live
  {
    hide PlacesOk, SlotsOk, CountersOk, ElementsOk, ConsOk, TailBlockOk, T.Inv, X.Inv, Blk;
    var f, chain := First(s.bs, s.tk.tail), s.prod.chain;
    forall n | f <= n < First(s.bs, s.tk.tail + |s.prod.vals|) ensures n in s.ix.live {
      assert LiveAs(s.ix.live, f + (n - f), chain[n - f]);
    }
  }

  lemma ClearRetires(s: State, t: Tid)
    requires Shaped(s) && Enabled(s, Consume(t)) && s.tk.threads[t].Holding? && s.cons[t].CClear?
    ensures Retires(s, ConsumeStep(s, t), Consume(t))
  {
    hide X.HeadersOk, First, Need, Blk, Off, X.Locate;
  }

  lemma ConsumeRetires(s: State, a: Action)
    requires Shaped(s) && Enabled(s, a) && !a.Produce?
    ensures Retires(s, Next(s, a), a)
  {
    hide X.HeadersOk, First, Need, Blk, Off, X.Locate;
    match a {
      case Enqueue(vals) =>
      case Dequeue(t, max) =>
      case Consume(t) =>
        if s.tk.threads[t].Holding? {
          if !s.cons[t].CClear? {
            assert ConsumeStep(s, t).ix.live == s.ix.live;
          } else {
            ClearRetires(s, t);
          }
        }
    }
  }


  lemma UsedUpNotLive(s: State, n: int)
    requires UsedUp(s, n)
    ensures n !in s.ix.live
  {
  }

  lemma {:induction false} ReachableReturns(c: Config, run: seq<Action>)
    requires ConfigOk(c) && Run(c, run).Some?
    ensures ReturnsOk(Returns(c, run), Run(c, run).value)
    decreases |run|
  {
    if run != [] {
      var before, a := run[..|run| - 1], run[|run| - 1];
      var s := Run(c, before).value;
      ReachableReturns(c, before);
      ReachableInv(c, before);
      hide Inv, Shaped, Next, ReturnsOk, Returned, Releases, Retires;
      NextReleases(s, a);
      NextRetires(s, a);
      NextReturns(Returns(c, before), s, Next(s, a), a);
    } else {
      DivModUnique(-1, c.bs, -1, c.bs - 1);
    }
  }

  lemma NextRetires(s: State, a: Action)
    requires Inv(s) && Shaped(s) && Enabled(s, a)
    ensures Retires(s, Next(s, a), a)
  {
    hide Inv, Shaped, ProduceStep, Retires;
    if a.Produce? { ProduceRetires(s, a.choice); } else { ConsumeRetires(s, a); }
  }

  lemma ReleaserHolds(s: State, t: Tid)
    requires Inv(s)
    ensures t < |s.cons| && s.cons[t].CRelease? ==> t < |s.tk.threads| && s.tk.threads[t].Holding?
  {
    hide PlacesOk, SlotsOk, CountersOk, ElementsOk, ProdOk, TailBlockOk, T.Inv, X.Inv, RangeOk, ConPcOk;
    if t < |s.cons| {
      assert ConOk(s.ix.headers, s.ix.live, s.mem.place, s.log, s.bs, t, s.tk.threads[t], s.cons[t]);
    }
  }

  /** A filled block goes back to the pool exactly once and only after its last element was moved
      out: no block number is returned twice, every index of a returned number has been delivered,
      and, with nobody in the middle of an operation, the numbers returned are exactly those of the
      blocks below the head's. */
  lemma ReturnedExactlyOnce(c: Config, run: seq<Action>)
    requires ConfigOk(c) && Run(c, run).Some?
    ensures var r := Returns(c, run);
      var s := Run(c, run).value;
      && (forall i, j :: 0 <= i < j < |r| ==> r[i] != r[j])
      && (forall n, k :: n in r && s.bs * n <= k < s.bs * n + s.bs ==> Delivered(Deliveries(c, run), k))
      && (Quiet(s.tk.threads) && s.prod.PIdle? ==> forall n :: n in r <==> 0 <= n < Blk(s.bs, s.tk.head))
  {
    ReachableReturns(c, run);
    ReachableInv(c, run);
    DeliveriesSound(c, run);
    hide Run, Returns, Deliveries, Published, Inv, First, Blk, Pending;
    var r, s := Returns(c, run), Run(c, run).value;
    forall n, k | n in r && s.bs * n <= k < s.bs * n + s.bs ensures Delivered(Deliveries(c, run), k) {
      MarkedBound(s.log.stage, s.bs * n, s.bs);
      assert IsMarked(s.log.stage, k);
      MarkedDelivered(s, k);
    }
    if Quiet(s.tk.threads) && s.prod.PIdle? {
      UsedNonNegative(s);
      QuietNothingPending(s);
      forall n | 0 <= n < Blk(s.bs, s.tk.head) ensures n in r {
        QuietLive(s, n);
        assert Accounted(r, s, n);
      }
      forall n | n in r ensures 0 <= n < Blk(s.bs, s.tk.head) {
        QuietDeliveredAll(c, run, s.bs * n);
        QuietDeliveredAll(c, run, s.bs * n + s.bs - 1);
        BelowHead(s.bs, s.tk.head, n);
      }
    }
  }

  /** A block of indices below the head comes before the head's block. */
  lemma BelowHead(bs: nat, head: nat, n: int)
    requires bs > 0 && 0 <= bs * n && bs * n + bs - 1 < head
    ensures 0 <= n < Blk(bs, head)
  {
    BlkOff(bs, head);
    hide Blk, Off;
    if n < 0 { MulStep(n, 0, bs); }
    if Blk(bs, head) < n { MulStep(Blk(bs, head), n, bs); }
  }

  lemma QuietNothingPending(s: State)
    requires Inv(s) && Quiet(s.tk.threads)
    ensures forall t, n :: !Pending(s, t, n)
  {
    QuietCons(s);
    hide Inv, Blk;
  }

  lemma MarkedDelivered(s: State, k: int)
    requires Inv(s) && IsMarked(s.log.stage, k)
    ensures k in s.log.out
  {
    hide PlacesOk, SlotsOk, CountersOk, ConsOk, ProdOk, TailBlockOk, T.Inv, X.Inv, Blk, Off, Stored, HeldIndex;
    assert ElementOk(s.mem, s.ix.live, s.log, s.tk.threads, s.cons, s.bs, k);
  }
}
