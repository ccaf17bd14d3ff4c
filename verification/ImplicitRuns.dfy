// What an enqueue operation does as a whole, and where the blocks are.

module ImplicitRuns {
  import opened Wrappers
  import opened ModArith
  import opened ImplicitProducer
  import opened ImplicitInvariant
  import opened ImplicitQueue
  import T = Tickets
  import X = BlockIndex

  // ----- enqueue is all or nothing -----

  /** The operation in progress, or the last one: the state and the elements it started with, the
      blocks it has requisitioned and given back, its tail stores, and whether it was refused room or memory. */
  datatype Operation = Operation(start: State, vals: seq<Elem>, acquired: nat, returned: nat, stores: nat, refused: bool)

  /** What a step of the producer means for the operation. */
  function Account(op: Operation, s: State, a: Action): Operation {
    match a
    case Enqueue(vals) => Operation(s, vals, 0, 0, 0, false)
    case Produce(ch) =>
      op.(acquired := op.acquired + if s.prod.PAlloc? && ch.block.Some? then 1 else 0,
          returned := op.returned + if s.prod.PFree? then 1 else 0,
          stores := op.stores + if s.prod.PPublish? then 1 else 0,
          refused := op.refused || (s.prod.PRoom? && NoRoom(s)) || (s.prod.PGrow? && !ch.grow) || (s.prod.PAlloc? && ch.block == None))
    case _ => op
  }

  /** The sub-queue has reached its size limit. */
  predicate NoRoom(s: State)
    requires s.prod.PRoom?
  {
    s.limit.Some? && (s.limit.value == 0 || s.limit.value - s.bs < (First(s.bs, s.tk.tail) + |s.prod.chain|) * s.bs - s.tk.head)
  }

  function LastOperation(c: Config, run: seq<Action>): Operation
    requires ConfigOk(c) && Run(c, run).Some?
    decreases |run|
  {
    if run == [] then Operation(Start(c), [], 0, 0, 1, false)
    else Account(LastOperation(c, run[..|run| - 1]), Run(c, run[..|run| - 1]).value, run[|run| - 1])
  }

  /** Blocks requisitioned and neither published nor given back. */
  function Outstanding(p: Prod): nat {
    match p
    case PIdle => 0
    case PReset(_, chain, _, _) => |chain| + 1
    case PValue(_, chain, _, _) => |chain| + 1
    case PFree(_, chain, j) => if j <= |chain| then |chain| - j else 0
    case _ => |p.chain|
  }

  predicate RollingBack(p: Prod) { p.PUnwind? || p.PUnset? || p.PUndo? || p.PBack? || p.PFree? }

  /** Nothing the operation would change has changed. */
  predicate Untouched(u: State, s: State) {
    s.bs == u.bs && s.tk.tail == u.tk.tail && s.log.enq == u.log.enq && s.tailBlock == u.tailBlock
  }

  predicate Blocked(u: State, vals: seq<Elem>, s: State) {
    && s.bs == u.bs && s.tk.tail == u.tk.tail + |vals| && s.log.enq == u.log.enq + vals
    && (Need(u.bs, u.tk.tail, |vals|) == 0 ==> s.tailBlock == u.tailBlock)
  }

  predicate OperationOk(op: Operation, s: State) {
    if s.prod.PIdle? then
      if op.refused then op.stores == 0 && op.returned == op.acquired && Untouched(op.start, s)
      else
        op.stores == 1 && op.returned == 0 && op.acquired == Need(op.start.bs, op.start.tk.tail, |op.vals|) && Blocked(op.start, op.vals, s)
    else
      op.stores == 0 && s.prod.vals == op.vals && Untouched(op.start, s) &&
      op.acquired == op.returned + Outstanding(s.prod) && (op.refused <==> RollingBack(s.prod)) && (op.returned > 0 ==> s.prod.PFree?)
  }

  lemma ProduceLeavesRest(s: State, ch: Choice)
    requires Shaped(s) && Enabled(s, Produce(ch)) && !s.prod.PPublish?
    ensures Untouched(s, ProduceStep(s, ch))
  {
    hide X.HeadersOk, First, Need, Blk, Off, X.Available, X.Grow, X.Locate, X.ClearValue, X.StoreValue, X.StoreKey, X.StoreTail, X.Rewind;
  }

  /** How the producer moves: what it holds, and whether it turns back. */
  predicate MovesOk(p: Prod, q: Prod, acquired: nat, returned: nat, refused: bool)
    requires !p.PIdle?
  {
    && (!q.PIdle? ==> q.vals == p.vals)
    && Outstanding(q) + returned == Outstanding(p) + acquired
    && (q.PIdle? || RollingBack(q) ==> refused || RollingBack(p))
    && (refused || RollingBack(p) ==> q.PIdle? || RollingBack(q))
    && (returned > 0 ==> q.PIdle? || q.PFree?)
    && (p.PFree? ==> returned > 0)
  }

  lemma ProduceMoves(s: State, ch: Choice)
    requires Inv(s) && Shaped(s) && Enabled(s, Produce(ch)) && !s.prod.PPublish?
    ensures var op := Account(Operation(s, [], 0, 0, 0, false), s, Produce(ch));
      MovesOk(s.prod, ProduceStep(s, ch).prod, op.acquired, op.returned, op.refused)
  {
    NotFaulty(s, ch);
    JInRange(s);
    hide Inv, First, Need, NoRoom, CanRequisition;
    if s.prod.PRoom? || s.prod.PProbe? || s.prod.PGrow? || s.prod.PAlloc? || s.prod.PValue? {
      MovesForward(s, ch);
    } else {
      MovesOn(s, ch);
    }
  }

  lemma MovesForward(s: State, ch: Choice)
    requires Shaped(s) && Enabled(s, Produce(ch)) && !ProduceStep(s, ch).fault
    requires s.prod.PRoom? || s.prod.PProbe? || s.prod.PGrow? || s.prod.PAlloc? || s.prod.PValue?
    ensures var op := Account(Operation(s, [], 0, 0, 0, false), s, Produce(ch));
      MovesOk(s.prod, ProduceStep(s, ch).prod, op.acquired, op.returned, op.refused)
  {
    hide X.HeadersOk, First, Need, Blk, Off, X.Available, X.Grow, X.StoreValue;
  }

  lemma MovesOn(s: State, ch: Choice)
    requires Shaped(s) && Enabled(s, Produce(ch)) && !ProduceStep(s, ch).fault && !s.prod.PPublish?
    requires !(s.prod.PRoom? || s.prod.PProbe? || s.prod.PGrow? || s.prod.PAlloc? || s.prod.PValue?)
    requires s.prod.PFree? || s.prod.PBack? || s.prod.PUndo? ==> s.prod.j < |s.prod.chain|
    ensures var op := Account(Operation(s, [], 0, 0, 0, false), s, Produce(ch));
      MovesOk(s.prod, ProduceStep(s, ch).prod, op.acquired, op.returned, op.refused)
  {
    hide X.HeadersOk, First, Need, Blk, Off, X.Locate, X.ClearValue, X.StoreKey, X.StoreTail, X.Rewind, NoRoom;
  }

  lemma JInRange(s: State)
    requires Inv(s)
    ensures s.prod.PFree? || s.prod.PBack? || s.prod.PUndo? ==> s.prod.j < |s.prod.chain|
  {
    hide PlacesOk, SlotsOk, CountersOk, ElementsOk, ConsOk, TailBlockOk, T.Inv, X.Inv;
  }

  lemma NotFaulty(s: State, ch: Choice)
    requires Inv(s) && Shaped(s) && Enabled(s, Produce(ch))
    ensures !ProduceStep(s, ch).fault
  {
    ProduceKeepsInv(s, ch);
    hide ProduceStep, PlacesOk, SlotsOk, CountersOk, ElementsOk, ConsOk, ProdOk, TailBlockOk, T.Inv, X.Inv;
  }

  lemma PublishIsWhole(s: State)
    requires Inv(s) && s.prod.PPublish?
    ensures |s.prod.chain| == Need(s.bs, s.tk.tail, |s.prod.vals|)
  {
    hide PlacesOk, SlotsOk, CountersOk, ElementsOk, ConsOk, TailBlockOk, T.Inv, X.Inv;
  }

  lemma ProduceKeepsOperation(op: Operation, s: State, ch: Choice)
    requires Inv(s) && Shaped(s) && Enabled(s, Produce(ch)) && OperationOk(op, s)
    ensures OperationOk(Account(op, s, Produce(ch)), ProduceStep(s, ch))
  {
    if s.prod.PPublish? {
      PublishIsWhole(s);
      hide Inv, X.HeadersOk, First, Need, Blk, Off;
    } else {
      ProduceLeavesRest(s, ch);
      ProduceMoves(s, ch);
      hide Inv, ProduceStep, Shaped, First, Need, Blk, Off, NoRoom;
    }
  }

  lemma ConsumeLeavesProducer(s: State, t: Tid)
    requires Shaped(s) && t < |s.cons| && s.tk.threads[t].Holding?
    ensures Untouched(s, ConsumeStep(s, t)) && ConsumeStep(s, t).prod == s.prod
  {
    hide X.HeadersOk, First, Need, Blk, Off, X.Locate, X.ClearValue, SetSlot, SetPlace, MarkAll;
  }

  lemma ConsumersLeaveProducer(s: State, a: Action)
    requires Shaped(s) && Enabled(s, a) && (a.Dequeue? || a.Consume?)
    ensures Untouched(s, Next(s, a)) && Next(s, a).prod == s.prod
  {
    hide X.HeadersOk, First, Need, Blk, Off, X.Locate, X.ClearValue;
    match a {
      case Dequeue(t, max) =>
      case Consume(t) =>
        if s.tk.threads[t].Holding? {
          hide ConsumeStep, Untouched;
          ConsumeLeavesProducer(s, t);
        } else {
          assert T.Next(s.tk, T.Go(t)).tail == s.tk.tail;
        }
    }
  }

  lemma {:induction false} NextKeepsOperation(op: Operation, s: State, a: Action)
    requires Inv(s) && Shaped(s) && Enabled(s, a) && OperationOk(op, s)
    ensures OperationOk(Account(op, s, a), Next(s, a))
  {
    match a {
      case Enqueue(vals) => EnqueueStarts(s, vals);
      case Produce(ch) =>
        ProduceKeepsOperation(op, s, ch);
      case _ =>
        ConsumersLeaveProducer(s, a);
        hide Inv, Shaped, Next, Enabled, First, Need, Blk, Off, NoRoom;
    }
  }

  lemma EnqueueStarts(s: State, vals: seq<Elem>)
    requires Shaped(s) && s.prod.PIdle?
    ensures OperationOk(Operation(s, vals, 0, 0, 0, false), Next(s, Enqueue(vals)))
  {
    hide X.HeadersOk, First, Need, Blk, Off;
  }

  lemma {:induction false} LastOperationOk(c: Config, run: seq<Action>)
    requires ConfigOk(c) && Run(c, run).Some?
    ensures OperationOk(LastOperation(c, run), Run(c, run).value)
    decreases |run|
  {
    if run != [] {
      LastOperationOk(c, run[..|run| - 1]);
      ReachableInv(c, run[..|run| - 1]);
      hide Inv, Shaped, Next, Enabled, OperationOk, Account;
      NextKeepsOperation(LastOperation(c, run[..|run| - 1]), Run(c, run[..|run| - 1]).value, run[|run| - 1]);
    }
  }

  /** enqueue and enqueue_bulk, under every interleaving with consumers: an operation that has
      ended was refused neither room nor memory, published all its elements in order with one store
      of the tail, and acquired exactly one block per block boundary crossed; or it was refused,
      left the tail, the tail block and the published elements alone, put the index tail back on
      the last published block, left no block number past it live, and gave every block it had
      acquired back. */
  lemma AllOrNothing(c: Config, run: seq<Action>)
    requires ConfigOk(c) && Run(c, run).Some? && Run(c, run).value.prod.PIdle?
    ensures var s := Run(c, run).value;
      var op := LastOperation(c, run);
      var u := op.start;
      && (!op.refused ==>
            s.log.enq == u.log.enq + op.vals && s.tk.tail == u.tk.tail + |op.vals| && op.stores == 1 &&
            op.returned == 0 && op.acquired == Blk(c.bs, u.tk.tail + |op.vals| - 1) - Blk(c.bs, u.tk.tail - 1))
      && (op.refused ==>
            s.log.enq == u.log.enq && s.tk.tail == u.tk.tail && s.tailBlock == u.tailBlock && op.stores == 0 &&
            op.returned == op.acquired)
      && |s.ix.headers| > 0 && X.Current(s.ix).last == First(c.bs, s.tk.tail) - 1
      && (forall n :: n in s.ix.live ==> n < First(c.bs, s.tk.tail))
      && (forall b :: 0 <= b < |s.mem.place| ==> !s.mem.place[b].Held?)
  {
    hide Run, LastOperation, Inv, Shaped, First, Blk;
    LastOperationOk(c, run);
    ReachableInv(c, run);
    BlockSizeFixed(c, run);
    IdleHoldsNothing(Run(c, run).value);
  }

  lemma IdleHoldsNothing(s: State)
    requires Inv(s) && s.prod.PIdle?
    ensures |s.ix.headers| > 0 && X.Current(s.ix).last == First(s.bs, s.tk.tail) - 1
    ensures forall n :: n in s.ix.live ==> n < First(s.bs, s.tk.tail)
    ensures forall b :: 0 <= b < |s.mem.place| ==> !s.mem.place[b].Held?
  {
    hide SlotsOk, CountersOk, ElementsOk, ConsOk, TailBlockOk, T.Inv, X.Window, X.LiveAt;
    forall b | 0 <= b < |s.mem.place| ensures !s.mem.place[b].Held? {
      assert PlaceOk(s.mem, s.ix.live, s.cons, s.prod, s.bs, b);
    }
  }

  lemma ProduceKeepsParameters(s: State, ch: Choice)
    requires Shaped(s) && Enabled(s, Produce(ch))
    ensures ProduceStep(s, ch).bs == s.bs && ProduceStep(s, ch).limit == s.limit
  {
    hide X.HeadersOk, First, Need, Blk, Off, X.Available, X.Grow, X.Locate, X.ClearValue, X.StoreValue, X.StoreKey, X.StoreTail, X.Rewind;
  }

  lemma NextKeepsParameters(s: State, a: Action)
    requires Shaped(s) && Enabled(s, a)
    ensures Next(s, a).bs == s.bs && Next(s, a).limit == s.limit
  {
    hide X.HeadersOk, First, Need, Blk, Off, X.Available, X.Grow, X.Locate, X.ClearValue, X.StoreValue, X.StoreKey, X.StoreTail, X.Rewind, T.Next;
    match a {
      case Enqueue(vals) =>
      case Produce(ch) => ProduceKeepsParameters(s, ch);
      case Dequeue(t, max) =>
      case Consume(t) => if s.tk.threads[t].Holding? { assert ConsumeStep(s, t).bs == s.bs && ConsumeStep(s, t).limit == s.limit; }
    }
  }

  lemma {:induction false} BlockSizeFixed(c: Config, run: seq<Action>)
    requires ConfigOk(c) && Run(c, run).Some?
    ensures Run(c, run).value.bs == c.bs && Run(c, run).value.limit == c.limit
    ensures LastOperation(c, run).start.bs == c.bs
    decreases |run|
  {
    if run != [] {
      BlockSizeFixed(c, run[..|run| - 1]);
      hide Shaped, Next, Enabled;
      NextKeepsParameters(Run(c, run[..|run| - 1]).value, run[|run| - 1]);
    }
  }

  // ----- the size limit -----

  /** Blocks the operation in progress has room for, beyond the published ones. */
  function Reach(p: Prod): nat {
    if p.PIdle? || RollingBack(p) then 0
    else if p.PRoom? || p.PWrite? || p.PPublish? then |p.chain|
    else |p.chain| + 1
  }

  predicate WithinLimit(s: State) {
    s.limit.Some? ==> (First(s.bs, s.tk.tail) + Reach(s.prod)) * s.bs - s.tk.head <= s.limit.value
  }

  /** A smaller reach, or one more block after the room test, stays within the limit. */
  lemma ReachFits(bs: nat, f: int, r: nat, r': nat, head: nat, limit: nat)
    requires (f + r) * bs - head <= limit
    requires r' == r || r' == 0 || (r' == r + 1 && !(limit - bs < (f + r) * bs - head))
    ensures (f + r') * bs - head <= limit
  {
    MulNonNegative(r, bs);
    assert (f + r) * bs == f * bs + r * bs;
    assert (f + r + 1) * bs == (f + r) * bs + bs;
  }

  lemma FirstAfter(bs: nat, tail: nat, count: nat)
    ensures First(bs, tail + count) == First(bs, tail) + Need(bs, tail, count)
  {
    hide Blk;
  }

  lemma PublishKeepsLimit(s: State)
    requires Inv(s) && s.prod.PPublish? && WithinLimit(s)
    ensures WithinLimit(PublishStep(s, s.prod.vals, s.prod.chain))
  {
    hide Inv, First, Need;
    PublishIsWhole(s);
    FirstAfter(s.bs, s.tk.tail, |s.prod.vals|);
  }

  lemma PublishIsPublish(s: State, ch: Choice)
    requires Shaped(s) && s.prod.PPublish?
    ensures ProduceStep(s, ch) == PublishStep(s, s.prod.vals, s.prod.chain)
  {
  }

  lemma ProduceKeepsLimit(s: State, ch: Choice)
    requires Inv(s) && Shaped(s) && Enabled(s, Produce(ch)) && WithinLimit(s)
    ensures WithinLimit(ProduceStep(s, ch))
  {
    hide Inv, X.HeadersOk, First, Blk, Off, ProduceStep, Reach;
    if s.prod.PPublish? {
      PublishKeepsLimit(s);
      assert ProduceStep(s, ch) == PublishStep(s, s.prod.vals, s.prod.chain) by { PublishIsPublish(s, ch); }
    } else {
      NotFaulty(s, ch);
      NextKeepsParameters(s, Produce(ch));
      ProduceLeavesRest(s, ch);
      ProduceKeepsHead(s, ch);
      ReachAfter(s, ch);
      if s.limit.Some? {
        ReachFits(s.bs, First(s.bs, s.tk.tail), Reach(s.prod), Reach(ProduceStep(s, ch).prod), s.tk.head, s.limit.value);
      }
    }
  }

  lemma ProduceKeepsHead(s: State, ch: Choice)
    requires Shaped(s) && Enabled(s, Produce(ch))
    ensures ProduceStep(s, ch).tk.head == s.tk.head
  {
    hide X.HeadersOk, First, Need, Blk, Off, X.Available, X.Grow, X.Locate, X.ClearValue, X.StoreValue, X.StoreKey, X.StoreTail, X.Rewind;
  }

  /** Only the room test extends the reach, and it extends it by one block. */
  lemma ReachAfter(s: State, ch: Choice)
    requires Shaped(s) && Enabled(s, Produce(ch)) && !s.prod.PPublish? && !ProduceStep(s, ch).fault
    ensures var r := Reach(ProduceStep(s, ch).prod);
      r == Reach(s.prod) || r == 0 || (s.prod.PRoom? && !NoRoom(s) && Reach(s.prod) == |s.prod.chain| && r == Reach(s.prod) + 1)
  {
    hide X.HeadersOk, First, Need, Blk, Off, X.Available, X.Grow, X.Locate, X.ClearValue, X.StoreValue, X.StoreKey, X.StoreTail, X.Rewind;
  }

  lemma ConsumersAdvanceHead(s: State, a: Action)
    requires Shaped(s) && Enabled(s, a) && (a.Dequeue? || a.Consume?)
    ensures Next(s, a).tk.head >= s.tk.head
  {
    hide X.HeadersOk, First, Need, Blk, Off, X.Locate, X.ClearValue;
    match a {
      case Dequeue(t, max) =>
      case Consume(t) =>
        if s.tk.threads[t].Holding? {
          assert ConsumeStep(s, t).tk.head == s.tk.head;
        } else {
          assert T.Next(s.tk, T.Go(t)).head >= s.tk.head;
        }
    }
  }

  lemma NextKeepsLimit(s: State, a: Action)
    requires Inv(s) && Shaped(s) && Enabled(s, a) && WithinLimit(s)
    ensures WithinLimit(Next(s, a))
  {
    hide Inv, X.HeadersOk, First, Blk, Off, ProduceStep;
    match a {
      case Enqueue(vals) =>
      case Produce(ch) => ProduceKeepsLimit(s, ch);
      case _ =>
        ConsumersLeaveProducer(s, a);
        ConsumersAdvanceHead(s, a);
        NextKeepsParameters(s, a);
        hide Next;
    }
  }

  lemma {:induction false} ReachableWithinLimit(c: Config, run: seq<Action>)
    requires ConfigOk(c) && Run(c, run).Some?
    ensures WithinLimit(Run(c, run).value)
    decreases |run|
  {
    if run == [] {
      DivModUnique(-1, c.bs, -1, c.bs - 1);
    } else {
      ReachableWithinLimit(c, run[..|run| - 1]);
      ReachableInv(c, run[..|run| - 1]);
      hide Inv, Shaped, Next, Enabled, WithinLimit;
      NextKeepsLimit(Run(c, run[..|run| - 1]).value, run[|run| - 1]);
    }
  }

  /** MAX_SUBQUEUE_SIZE holds under every interleaving, although the room test reads a head that
      consumers keep moving: never more unclaimed elements than the limit. */
  lemma SizeNeverExceedsLimit(c: Config, run: seq<Action>)
    requires ConfigOk(c) && Run(c, run).Some? && c.limit.Some?
    ensures Run(c, run).value.tk.tail - Run(c, run).value.tk.head <= c.limit.value
  {
    hide Run, LastOperation, Inv, Shaped, Blk;
    ReachableWithinLimit(c, run);
    BlockSizeFixed(c, run);
    var s := Run(c, run).value;
    FirstBase(s.bs, s.tk.tail, First(s.bs, s.tk.tail));
    MulNonNegative(Reach(s.prod), s.bs);
    var f := First(s.bs, s.tk.tail);
    assert (f + Reach(s.prod)) * s.bs == s.bs * f + Reach(s.prod) * s.bs;
  }
}
