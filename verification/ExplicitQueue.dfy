// What the explicit producer machine guarantees over whole runs.

module ExplicitQueue {
  import opened Wrappers
  import opened ModArith
  import opened ExplicitProducer
  import opened ExplicitInvariant
  import opened ExplicitEnqueue
  import opened ExplicitBlocks
  import opened ExplicitWrite
  import opened ExplicitDequeue
  import opened ExplicitTake
  import T = Tickets
  import I = ImplicitProducer
  import V = ImplicitInvariant
  import Q = DeliveryRecord

  // ----- every step keeps the invariant -----

  lemma ProduceKeepsInv(s: State, ch: Choice)
    requires Inv(s) && Shaped(s) && Enabled(s, Produce(ch))
    ensures Inv(ProduceStep(s, ch))
  {
    hide Inv, Shaped, CheckStep, RoomStep, GrowStep, AllocStep, LinkStep, BaseStep, EntryStep, FrontStep, SetFlag, SetSlot;
    match s.prod
    case PCheck(v, i) => CheckKeepsInv(s, v, i);
    case PReset(v, i) => ResetKeepsInv(s, v, i);
    case PRoom(v) => RoomKeepsInv(s, v);
    case PGrow(v) => if ch.grow { GrowKeepsInv(s, v, ch.junk); } else { StopKeepsInv(s, v); }
    case PAlloc(v) => if ch.block.Some? { AllocKeepsInv(s, v, ch.block.value); } else { AllocNone(s, v); StopKeepsInv(s, v); }
    case PClear(v, b, i) => ClearKeepsInv(s, v, b, i);
    case PLink(v, b) => LinkKeepsInv(s, v, b);
    case PBase(v) => ExplicitWrite.BaseKeepsInv(s, v);
    case PEntry(v) => EntryKeepsInv(s, v);
    case PFront(v) => ExplicitWrite.FrontKeepsInv(s, v);
    case PWrite(v) => WriteFacts(s, v); WriteKeepsInv(s, v);
    case PPublish(v) => PublishKeepsInv(s, v);
  }

  lemma AllocNone(s: State, v: Elem)
    ensures AllocStep(s, v, None) == s.(prod := PIdle)
  {
  }

  lemma NotIdle(s: State, t: Tid)
    requires Inv(s) && t < |s.cons| && s.tk.threads[t].Holding?
    ensures !s.cons[t].CIdle?
  {
    HeldFacts(s, t);
    hide Inv, Stored, I.Blk;
  }

  lemma LookupKeepsInv(s: State, t: Tid)
    requires Inv(s) && Shaped(s) && t < |s.cons| && s.tk.threads[t].Holding?
    requires s.cons[t].CIndex? || s.cons[t].CFront? || s.cons[t].CBase?
    ensures Inv(ConsumeStep(s, t))
  {
    hide Inv, Shaped, MoveStep, MarkStep, SetCon, I.Blk;
    match s.cons[t]
    case CIndex(i) => IndexKeepsInv(s, t, i);
    case CFront(i, h) => ExplicitTake.FrontKeepsInv(s, t, i, h);
    case CBase(i, h, f, num) => ExplicitTake.BaseKeepsInv(s, t, i, h, f, num);
  }

  lemma FoundKeepsInv(s: State, t: Tid, i: nat, h: nat, f: int, base: int)
    requires Inv(s) && Shaped(s) && t < |s.cons| && s.tk.threads[t].Holding? && s.cons[t] == CBlock(i, h, f, base)
    ensures Inv(ConsumeStep(s, t))
  {
    hide Inv, Shaped, MoveStep, MarkStep, SetCon, I.Blk;
    BlockKeepsInv(s, t, i, h, f, base);
  }

  lemma ConsumeKeepsInv(s: State, t: Tid)
    requires Inv(s) && Shaped(s) && Enabled(s, Consume(t)) && s.tk.threads[t].Holding?
    ensures Inv(ConsumeStep(s, t))
  {
    NotIdle(s, t);
    hide Inv, Shaped;
    if s.cons[t].CBlock? {
      hide ConsumeStep;
      FoundKeepsInv(s, t, s.cons[t].i, s.cons[t].h, s.cons[t].f, s.cons[t].base);
    } else if s.cons[t].CMove? {
      hide MoveStep;
      MoveKeepsInv(s, t, s.cons[t].i, s.cons[t].b);
    } else if s.cons[t].CMark? {
      hide MarkStep;
      MarkKeepsInv(s, t, s.cons[t].i, s.cons[t].b);
    } else {
      hide ConsumeStep;
      LookupKeepsInv(s, t);
    }
  }

  lemma NextKeepsInv(s: State, a: Action)
    requires Inv(s) && Shaped(s) && Enabled(s, a)
    ensures Inv(Next(s, a)) && Shaped(Next(s, a))
  {
    hide Inv, Shaped, ProduceStep, ConsumeStep, TicketStep;
    match a {
      case Enqueue(v) => EnqueueKeepsInv(s, v);
      case Produce(ch) => ProduceKeepsInv(s, ch);
      case Dequeue(t) => BeginKeepsInv(s, t);
      case Consume(t) => if s.tk.threads[t].Holding? { ConsumeKeepsInv(s, t); } else { TicketKeepsInv(s, t); }
    }
    InvShaped(Next(s, a));
  }

  // ----- whole runs -----

  /** Block size, size limit, half the initial index size, whether its allocation succeeded, its junk, and the consumers. */
  datatype Config = Config(bs: nat, limit: Option<nat>, half: nat, index: bool, junk: Entry, consumers: nat)

  predicate ConfigOk(c: Config) { c.bs >= 2 && c.half > 0 }

  /** A producer just constructed; new_block_index(0) may have failed. */
  function Start(c: Config): State
    requires ConfigOk(c)
  {
    var tk := T.State(0, 0, 0, 0, seq(c.consumers, _ => T.Idle), []);
    var headers := if c.index then [Header(2 * c.half, -1, seq(2 * c.half, _ => c.junk), 0, -1, -1)] else [];
    State(c.bs, c.limit, tk, headers, if c.index then 2 * c.half else c.half, 0, 0, [], {}, None, PIdle, seq(c.consumers, _ => CIdle),
          [], -1, Log([], [], [], map[]), false)
  }

  lemma StartInv(c: Config)
    requires ConfigOk(c)
    ensures Inv(Start(c)) && Shaped(Start(c))
  {
    var s := Start(c);
    T.InitInv(s.tk);
    DivModUnique(-1, c.bs, -1, c.bs - 1);
    ModSmall(0, 2 * c.half);
    hide T.Inv;
    InvShaped(s);
  }

  /** The state after a run, or None when some action of the run is not possible. */
  function Run(c: Config, run: seq<Action>): Option<State>
    requires ConfigOk(c)
    decreases |run|
  {
    if run == [] then Some(Start(c))
    else match Run(c, run[..|run| - 1])
      case None => None
      case Some(u) => if Shaped(u) && Enabled(u, run[|run| - 1]) then Some(Next(u, run[|run| - 1])) else None
  }

  lemma {:induction false} ReachableInv(c: Config, run: seq<Action>)
    requires ConfigOk(c) && Run(c, run).Some?
    ensures Inv(Run(c, run).value) && Shaped(Run(c, run).value)
    decreases |run|
  {
    hide Inv, Shaped, Next, Enabled;
    if run == [] {
      StartInv(c);
    } else {
      ReachableInv(c, run[..|run| - 1]);
      NextKeepsInv(Run(c, run[..|run| - 1]).value, run[|run| - 1]);
    }
  }

  /** In no interleaving does an assertion of the source fail, a consumer reach a wrong block or an
      empty slot, or the producer construct over an element that has not been dequeued. */
  lemma NeverFaults(c: Config, run: seq<Action>)
    requires ConfigOk(c) && Run(c, run).Some?
    ensures !Run(c, run).value.fault
  {
    ReachableInv(c, run);
  }

  // ----- the list and the index say the same -----

  /** k next pointers from block b. */
  function Follow(blocks: seq<Block>, b: BlockId, k: nat): BlockId {
    if k == 0 then b else var p := Follow(blocks, b, k - 1); if p < |blocks| then blocks[p].next else p
  }

  lemma {:induction false} FollowRing(blocks: seq<Block>, pool: set<BlockId>, ring: seq<BlockId>, tailBlock: Option<BlockId>, k: nat)
    requires RingOk(blocks, pool, ring, tailBlock) && ring != [] && k <= |ring|
    ensures Follow(blocks, ring[|ring| - 1], k) == if k == 0 then ring[|ring| - 1] else ring[k - 1]
  {
    if k > 0 {
      FollowRing(blocks, pool, ring, tailBlock, k - 1);
      assert Linked(blocks, ring, |ring| - 1);
      if k > 1 { assert Linked(blocks, ring, k - 2); }
    }
  }

  /** The j-th of the used entries before the front, oldest first, and the j-th block of the list. */
  function WindowAt(s: State, j: int): Entry
    requires s.headers != [] && s.size > 0 && |Current(s).entries| == s.size
  {
    Current(s).entries[(s.front - s.used + j) % s.size]
  }

  function ListAt(s: State, j: nat): BlockId
    requires s.tailBlock.Some?
  {
    Follow(s.blocks, s.tailBlock.value, j + 1)
  }

  lemma IdleHeader(s: State)
    requires Inv(s) && s.prod.PIdle? && s.headers != []
    ensures HeaderOk(Current(s), s.ring, s.last) && s.size > 0 && s.used == |s.ring|
    ensures Current(s).size == s.size && Current(s).high == s.last && s.front == (s.last + 1 + Current(s).off) % s.size
  {
    hide T.Inv, Singles, RingOk, FlagsOk, SlotsOk, HeadersOk, ProdOk, ElementsOk, ConsOk, HeaderOk;
    HeaderFacts(s, |s.headers| - 1);
  }

  lemma WindowEntry(s: State, j: nat)
    requires Inv(s) && s.prod.PIdle? && s.headers != [] && j < |s.ring|
    ensures s.size > 0 && |Current(s).entries| == s.size && WindowAt(s, j) == Entry(Low(s.ring, s.last) + j, s.ring[j])
  {
    hide Inv, HeaderOk;
    IdleHeader(s);
    var hd := Current(s);
    EntryIs(hd, s.ring, s.last, Low(s.ring, s.last) + j);
    ModAdd(s.last + 1 + hd.off, j - s.used, s.size);
    assert s.last + 1 + hd.off + (j - s.used) == Low(s.ring, s.last) + j + hd.off;
  }

  /** With no enqueue in progress the circular list, followed from the tail block, and the window
      of the index, the pr_blockIndexSlotsUsed entries before the front, hold the same blocks in
      the same order: used next pointers lead back to the tail block, the blocks on the way are
      different, and their bases are contiguous and end at the tail's block. */
  lemma ListMatchesIndex(c: Config, run: seq<Action>)
    requires ConfigOk(c) && Run(c, run).Some? && Run(c, run).value.prod.PIdle? && Run(c, run).value.used > 0
    ensures var s := Run(c, run).value;
      && s.tailBlock.Some? && s.headers != [] && s.used <= s.size == |Current(s).entries|
      && Follow(s.blocks, s.tailBlock.value, s.used) == s.tailBlock.value
      && (forall j :: 0 <= j < s.used ==> WindowAt(s, j) == Entry(I.Blk(s.bs, s.tk.tail - 1) - s.used + 1 + j, ListAt(s, j)))
      && (forall i, j :: 0 <= i < j < s.used ==> ListAt(s, i) != ListAt(s, j))
  {
    hide Run, Inv, Shaped, I.Blk, Follow, RingOk, WindowAt;
    ReachableInv(c, run);
    var s := Run(c, run).value;
    IdleFacts(s);
    FollowRing(s.blocks, s.pool, s.ring, s.tailBlock, s.used);
    WindowEntry(s, 0);
    forall j | 0 <= j < s.used ensures ListAt(s, j) == s.ring[j] && WindowAt(s, j) == Entry(s.last - s.used + 1 + j, s.ring[j]) {
      FollowRing(s.blocks, s.pool, s.ring, s.tailBlock, j + 1);
      WindowEntry(s, j);
    }
  }

  lemma IdleFacts(s: State)
    requires Inv(s) && s.prod.PIdle? && s.used > 0
    ensures s.used == |s.ring| <= s.size && s.tailBlock == Some(s.ring[|s.ring| - 1]) && s.headers != [] && s.last == I.Blk(s.bs, s.tk.tail - 1)
    ensures RingOk(s.blocks, s.pool, s.ring, s.tailBlock) && forall i, j :: 0 <= i < j < |s.ring| ==> s.ring[i] != s.ring[j]
  {
    hide T.Inv, Singles, FlagsOk, SlotsOk, HeadersOk, ElementsOk, ConsOk, I.Blk;
  }

  /** The block ahead is taken over only when every element of it has been dequeued and destroyed:
      all its indices are marked and all its slots are empty. */
  lemma ReusedBlockIsEmpty(c: Config, run: seq<Action>, v: Elem, ch: Choice)
    requires ConfigOk(c) && Run(c, run).Some? && Run(c, run).value.prod.PCheck?
    requires Run(c, run).value.prod.v == v && CheckStep(Run(c, run).value, v, Run(c, run).value.prod.i).prod.PReset?
    ensures var s := Run(c, run).value;
      && s.ring != [] && s.ring[0] < |s.blocks|
      && CheckStep(s, v, s.prod.i).tailBlock == Some(s.ring[0])
      && AllMarked(s.log.stage, s.bs, Low(s.ring, s.last)) && Vacant(s.blocks[s.ring[0]])
  {
    ReachableInv(c, run);
    hide Run;
    var s := Run(c, run).value;
    AheadIsOldest(s, v, s.prod.i);
    hide Inv, AllMarked, Shaped;
    AllFlagsSet(s, v, s.prod.i);
    MarkedIsVacant(s);
  }

  lemma MarkedIsVacant(s: State)
    requires Inv(s) && s.prod.PCheck? && s.ring != [] && s.ring[0] < |s.blocks| && AllMarked(s.log.stage, s.bs, Low(s.ring, s.last))
    ensures Vacant(s.blocks[s.ring[0]])
  {
    var b, n := s.blocks[s.ring[0]], Low(s.ring, s.last);
    assert SlotsAt(b, n + 0, s.log.stage, s.bs, 0) && |b.slots| == s.bs;
    hide Inv;
    forall k | 0 <= k < |b.slots| ensures b.slots[k] == None {
      assert SlotAt(b, n, k, s.log.stage, s.bs, 0);
      assert V.IsMarked(s.log.stage, s.bs * n + k);
    }
  }

  // ----- exactly-once delivery -----

  /** The element an action delivers, with its index. */
  function Delivery(s: State, a: Action): Option<(int, Elem)> {
    if a.Consume? && a.t < |s.cons| && a.t < |s.tk.threads| && s.tk.threads[a.t].Holding? && s.cons[a.t].CMove? then
      var c := s.cons[a.t];
      if c.b < |s.blocks| && I.Off(s.bs, c.i) < |s.blocks[c.b].slots| && s.blocks[c.b].slots[I.Off(s.bs, c.i)].Some? then
        Some((c.i, s.blocks[c.b].slots[I.Off(s.bs, c.i)].value))
      else None
    else None
  }

  function Deliveries(c: Config, run: seq<Action>): seq<(int, Elem)>
    requires ConfigOk(c) && Run(c, run).Some?
    decreases |run|
  {
    if run == [] then []
    else
      var before := Deliveries(c, run[..|run| - 1]);
      match Delivery(Run(c, run[..|run| - 1]).value, run[|run| - 1])
      case Some(d) => before + [d]
      case None => before
  }

  /** The elements whose enqueue has stored the tail, in order. */
  function Published(c: Config, run: seq<Action>): seq<Elem>
    requires ConfigOk(c) && Run(c, run).Some?
    decreases |run|
  {
    if run == [] then []
    else
      var u := Run(c, run[..|run| - 1]).value;
      Published(c, run[..|run| - 1]) + if run[|run| - 1].Produce? && u.prod.PPublish? then [u.prod.v] else []
  }

  lemma ProduceLogs(s: State, ch: Choice)
    requires Shaped(s) && Enabled(s, Produce(ch))
    ensures ProduceStep(s, ch).log.out == s.log.out
    ensures ProduceStep(s, ch).log.enq == s.log.enq + if s.prod.PPublish? then [s.prod.v] else []
  {
    hide I.Blk, I.Off, GrownEntries;
    assert s.log.enq + [] == s.log.enq;
  }

  lemma ConsumeLogs(s: State, t: Tid)
    requires Shaped(s) && t < |s.cons| && s.tk.threads[t].Holding?
    ensures ConsumeStep(s, t).log.enq == s.log.enq && (!s.cons[t].CMove? ==> ConsumeStep(s, t).log.out == s.log.out)
  {
    hide I.Blk, I.Off;
  }

  lemma OtherSteps(s: State, a: Action)
    requires Shaped(s) && Enabled(s, a)
    ensures !(a.Consume? && s.tk.threads[a.t].Holding? && s.cons[a.t].CMove?) ==> Next(s, a).log.out == s.log.out && Delivery(s, a) == None
    ensures Next(s, a).log.enq == s.log.enq + if a.Produce? && s.prod.PPublish? then [s.prod.v] else []
  {
    hide I.Blk, I.Off, T.Next, ProduceStep, ConsumeStep;
    assert s.log.enq + [] == s.log.enq;
    match a {
      case Produce(ch) => ProduceLogs(s, ch);
      case Consume(t) => if s.tk.threads[t].Holding? { ConsumeLogs(s, t); }
      case _ =>
    }
  }

  lemma MoveDelivers(s: State, t: Tid)
    requires Inv(s) && Shaped(s) && t < |s.cons| && s.tk.threads[t].Holding? && s.cons[t].CMove?
    ensures var i := s.cons[t].i;
      && i < |s.log.enq| && i !in s.log.out && Delivery(s, Consume(t)) == Some((i, s.log.enq[i]))
      && ConsumeStep(s, t).log.out == s.log.out[i := s.log.enq[i]]
  {
    TakeFacts(s, t, s.cons[t].i, s.cons[t].b);
    MoveKeepsInv(s, t, s.cons[t].i, s.cons[t].b);
    var i := s.cons[t].i;
    hide T.Inv, Singles, RingOk, FlagsOk, SlotsOk, HeadersOk, CurrentOk, ProdOk, ConsOk, I.Blk, I.Off, Stored, MoveStep;
    assert ElementOk(s.blocks, s.ring, s.last, s.log, s.tk.threads, s.bs, i);
  }

  lemma DeliveryIsFresh(s: State, a: Action)
    requires Inv(s) && Shaped(s) && Enabled(s, a)
    ensures match Delivery(s, a)
      case Some(d) => 0 <= d.0 < |s.log.enq| && d.0 !in s.log.out && d.1 == s.log.enq[d.0] && Next(s, a).log.out == s.log.out[d.0 := d.1]
      case None => Next(s, a).log.out == s.log.out
  {
    hide Inv, Shaped, Delivery, ConsumeStep, ProduceStep;
    if a.Consume? && s.tk.threads[a.t].Holding? && s.cons[a.t].CMove? {
      MoveDelivers(s, a.t);
    } else {
      OtherSteps(s, a);
    }
  }

  lemma {:induction false} DeliveriesSound(c: Config, run: seq<Action>)
    requires ConfigOk(c) && Run(c, run).Some?
    ensures Published(c, run) == Run(c, run).value.log.enq
    ensures Q.DeliversFrom(Deliveries(c, run), Published(c, run), Run(c, run).value.log.out)
    decreases |run|
  {
    hide Inv, Shaped, Next, Enabled, Delivery, Q.DeliversFrom;
    if run == [] {
      Q.NoDeliveries();
    } else {
      var before, a := run[..|run| - 1], run[|run| - 1];
      DeliveriesSound(c, before);
      ReachableInv(c, before);
      var s := Run(c, before).value;
      DeliveryIsFresh(s, a);
      OtherSteps(s, a);
      if Delivery(s, a).Some? {
        Q.DeliversNext(Deliveries(c, before), s.log.enq, s.log.out, Delivery(s, a).value);
      }
      Q.DeliversMore(Deliveries(c, run), s.log.enq, if a.Produce? && s.prod.PPublish? then [s.prod.v] else [], Next(s, a).log.out);
    }
  }

  /** Under every interleaving each index is delivered at most once, with the value enqueued at it;
      a value not yet delivered still lies in its block, which is still in the list, however often
      blocks were reused and the index grew. */
  lemma ExactlyOnce(c: Config, run: seq<Action>)
    requires ConfigOk(c) && Run(c, run).Some?
    ensures var d := Deliveries(c, run);
      var p := Published(c, run);
      var s := Run(c, run).value;
      && (forall i :: 0 <= i < |d| ==> 0 <= d[i].0 < |p| && d[i].1 == p[d[i].0])
      && (forall i, j :: 0 <= i < j < |d| ==> d[i].0 != d[j].0)
      && (forall k :: 0 <= k < |p| && !Q.Delivered(d, k) ==> Stored(s.blocks, s.ring, s.last, s.bs, k, p[k]))
      && |p| == s.tk.tail
  {
    DeliveriesSound(c, run);
    ReachableInv(c, run);
    var s := Run(c, run).value;
    hide T.Inv, Singles, RingOk, FlagsOk, SlotsOk, HeadersOk, CurrentOk, ProdOk, ConsOk, I.Blk, I.Off, Run, Published, Deliveries, Stored, HeldIndex;
    forall k | 0 <= k < |s.log.enq| && k !in s.log.out ensures Stored(s.blocks, s.ring, s.last, s.bs, k, s.log.enq[k]) {
      assert ElementOk(s.blocks, s.ring, s.last, s.log, s.tk.threads, s.bs, k);
    }
  }
}
