// What the implicit producer machine guarantees over whole runs.

module ImplicitQueue {
  import opened Wrappers
  import opened ModArith
  import opened ImplicitProducer
  import opened ImplicitInvariant
  import opened ImplicitEnqueue
  import opened ImplicitBlocks
  import opened ImplicitWrite
  import opened ImplicitDequeue
  import opened ImplicitTake
  import opened ImplicitMark
  import opened ImplicitRelease
  import opened DeliveryRecord
  import T = Tickets
  import X = BlockIndex

  // ----- every step keeps the invariant -----

  lemma ProduceKeepsInv(s: State, ch: Choice)
    requires Inv(s) && Shaped(s) && Enabled(s, Produce(ch))
    ensures Inv(ProduceStep(s, ch))
  {
    hide PlacesOk, SlotsOk, CountersOk, ElementsOk, ConsOk, ProdOk, TailBlockOk, T.Inv, X.Inv, X.HeadersOk;
    match s.prod
    case PRoom(vals, chain) => RoomKeepsInv(s, vals, chain);
    case PProbe(vals, chain) => ProbeKeepsInv(s, vals, chain);
    case PGrow(vals, chain) => GrowStepKeepsInv(s, vals, chain, ch);
    case PKey(vals, chain, e, pos) =>
      EntryInRange(s);
      ImplicitEnqueue.KeyKeepsInv(s, vals, chain, e, pos);
    case PTail(vals, chain, e, pos) => TailStoreKeepsInv(s, vals, chain, e, pos);
    case PAlloc(vals, chain, e) =>
      if ch.block.Some? {
        AllocKeepsInv(s, vals, chain, e, ch.block.value);
      } else {
        NoBlockKeepsInv(s, vals, chain, e);
      }
    case PReset(vals, chain, e, b) =>
      EntryInRange(s);
      ResetKeepsInv(s, vals, chain, e, b);
    case PValue(vals, chain, e, b) => ValueKeepsInv(s, vals, chain, e, b);
    case PUnwind(vals, chain, e) => UnwindKeepsInv(s, vals, chain, e);
    case PUnset(vals, chain, e) =>
      EntryInRange(s);
      UnsetKeepsInv(s, vals, chain, e);
    case PUndo(vals, chain, j) => UndoKeepsInv(s, vals, chain, j);
    case PBack(vals, chain, j) => BackKeepsInv(s, vals, chain, j);
    case PFree(vals, chain, j) => FreeKeepsInv(s, vals, chain, j);
    case PWrite(vals, chain, k) => WriteKeepsInv(s, vals, chain, k);
    case PPublish(vals, chain) => PublishKeepsInv(s, vals, chain);
  }

  lemma EntryInRange(s: State)
    requires Inv(s) && Shaped(s)
    ensures s.prod.PKey? || s.prod.PUnset? ==> s.prod.e < |s.ix.entries|
    ensures s.prod.PReset? ==> s.prod.b < |s.mem.blocks|
  {
    hide PlacesOk, SlotsOk, CountersOk, ElementsOk, ConsOk, TailBlockOk, T.Inv, X.Inv;
  }

  lemma NoBlockKeepsInv(s: State, vals: seq<Elem>, chain: seq<BlockId>, e: nat)
    requires Inv(s) && s.prod == PAlloc(vals, chain, e)
    ensures Inv(s.(prod := PUnwind(vals, chain, e)))
  {
    hide PlacesOk, SlotsOk, CountersOk, ElementsOk, ConsOk, TailBlockOk, T.Inv, X.Inv;
    ProdMove(s, PUnwind(vals, chain, e));
  }

  lemma ConsumeKeepsInv(s: State, t: Tid)
    requires Inv(s) && Shaped(s) && Enabled(s, Consume(t)) && s.tk.threads[t].Holding?
    ensures Inv(ConsumeStep(s, t))
  {
    hide PlacesOk, SlotsOk, CountersOk, ElementsOk, ProdOk, TailBlockOk, T.Inv, X.Inv, X.HeadersOk;
    assert ConOk(s.ix.headers, s.ix.live, s.mem.place, s.log, s.bs, t, s.tk.threads[t], s.cons[t]);
    hide ConsOk, RangeOk;
    match s.cons[t]
    case CHeader(i) => HeaderKeepsInv(s, t, i);
    case CTail(i, h) => TailKeepsInv(s, t, i, h);
    case CKey(i, h, pos, num) => ImplicitDequeue.KeyKeepsInv(s, t, i, h, pos, num);
    case CValue(i, h, idx) => LoadKeepsInv(s, t, i, h, idx);
    case CTake(i, seg, h, idx, b) => TakeKeepsInv(s, t, i, seg, h, idx, b);
    case CMark(i, seg, h, idx, b) => MarkKeepsInv(s, t, i, seg, h, idx, b);
    case CClear(i, h, idx, b) => ClearKeepsInv(s, t, i, h, idx, b);
    case CRelease(i, h, idx, b) => ReleaseKeepsInv(s, t, i, h, idx, b);
  }

  lemma NextKeepsInv(s: State, a: Action)
    requires Inv(s) && Shaped(s) && Enabled(s, a)
    ensures Inv(Next(s, a)) && Shaped(Next(s, a))
  {
    hide PlacesOk, SlotsOk, CountersOk, ElementsOk, ConsOk, ProdOk, TailBlockOk, T.Inv, X.Inv, X.HeadersOk;
    match a {
      case Enqueue(vals) => EnqueueKeepsInv(s, vals);
      case Produce(ch) => ProduceKeepsInv(s, ch);
      case Dequeue(t, max) => BeginKeepsInv(s, t, max);
      case Consume(t) => if s.tk.threads[t].Holding? { ConsumeKeepsInv(s, t); } else { TicketKeepsInv(s, t); }
    }
    InvShapes(Next(s, a));
  }

  // ----- initial states -----

  /** A producer just constructed: an index of `capacity` unused entries, no blocks, n idle consumers. */
  function Init(bs: nat, limit: Option<nat>, capacity: nat, junk: seq<Option<BlockId>>, n: nat): State
    requires capacity > 0
  {
    State(bs, limit,
          T.State(0, 0, 0, 0, seq(n, _ => T.Idle), []),
          X.Index([X.Header(capacity, capacity - 1, seq(capacity, i => if i >= 0 then i else 0), 0, -1, -1)],
                  seq(capacity, i => X.Entry(None, if 0 <= i < |junk| then junk[i] else None)), map[]),
          Mem([], {}, []), None, PIdle, seq(n, _ => CIdle), Log([], [], [], map[]), false)
  }

  lemma InitInv(bs: nat, limit: Option<nat>, capacity: nat, junk: seq<Option<BlockId>>, n: nat)
    requires bs >= 2 && capacity >= 2
    ensures Inv(Init(bs, limit, capacity, junk, n)) && Shaped(Init(bs, limit, capacity, junk, n))
  {
    var s := Init(bs, limit, capacity, junk, n);
    InitTickets(s.tk);
    InitIndex(s.ix, bs, capacity);
    InvShapes(s);
  }

  lemma InitTickets(tk: T.State)
    requires tk.tail == 0 && tk.head == 0 && tk.optimistic == 0 && tk.overcommit == 0 && tk.tickets == []
    requires forall t :: 0 <= t < |tk.threads| ==> tk.threads[t].Idle?
    ensures T.Inv(tk)
  {
    T.InitInv(tk);
  }

  lemma InitIndex(x: X.Index, bs: nat, capacity: nat)
    requires bs >= 2 && capacity >= 2 && |x.entries| == capacity && x.live == map[]
    requires |x.headers| == 1
    requires x.headers[0].capacity == |x.headers[0].index| == capacity && x.headers[0].tail == capacity - 1
    requires x.headers[0].off == 0 && x.headers[0].last == -1 == x.headers[0].high
    requires forall i :: 0 <= i < capacity ==> x.headers[0].index[i] == i
    ensures X.Inv(x, First(bs, 0)) && First(bs, 0) == 0
  {
    DivModUnique(-1, bs, -1, bs - 1);
    DivModUnique(-1, capacity, -1, capacity - 1);
  }

  // ----- whole runs -----

  /** The parameters of a queue: block size, size limit, initial index capacity, consumers. */
  datatype Config = Config(bs: nat, limit: Option<nat>, capacity: nat, junk: seq<Option<BlockId>>, consumers: nat)

  predicate ConfigOk(c: Config) { c.bs >= 2 && c.capacity >= 2 }

  function Start(c: Config): State
    requires ConfigOk(c)
  {
    Init(c.bs, c.limit, c.capacity, c.junk, c.consumers)
  }

  /** The state after a run, or None when some action of the run is not possible. */
  function Run(c: Config, run: seq<Action>): Option<State>
    requires ConfigOk(c)
    decreases |run|
  {
    if run == [] then Some(Start(c))
    else match Run(c, run[..|run| - 1])
      case None => None
      case Some(u) => if Shaped(u) && Enabled(u, run[|run| - 1]) then Some(Next(u, run[|run| - 1])) else None
  }

  lemma {:induction false} ReachableInv(c: Config, run: seq<Action>)
    requires ConfigOk(c) && Run(c, run).Some?
    ensures Inv(Run(c, run).value) && Shaped(Run(c, run).value)
    decreases |run|
  {
    hide Inv, Shaped, Next, Enabled;
    if run == [] {
      InitInv(c.bs, c.limit, c.capacity, c.junk, c.consumers);
    } else {
      ReachableInv(c, run[..|run| - 1]);
      NextKeepsInv(Run(c, run[..|run| - 1]).value, run[|run| - 1]);
    }
  }

  /** In no interleaving does any assertion of the source fail, any consumer read a null entry
      value or an empty slot, or the producer construct over an element. */
  lemma NeverFaults(c: Config, run: seq<Action>)
    requires ConfigOk(c) && Run(c, run).Some?
    ensures !Run(c, run).value.fault
  {
    ReachableInv(c, run);
  }

  // ----- exactly-once delivery in order -----

  /** The element an action delivers, with the index it was claimed under. */
  function Delivery(s: State, a: Action): Option<(int, Elem)> {
    if a.Consume? && a.t < |s.cons| && a.t < |s.tk.threads| && s.tk.threads[a.t].Holding? && s.cons[a.t].CTake? then
      var c := s.cons[a.t];
      if c.b < |s.mem.blocks| && Off(s.bs, c.i) < |s.mem.blocks[c.b].slots| && s.mem.blocks[c.b].slots[Off(s.bs, c.i)].Some? then
        Some((c.i, s.mem.blocks[c.b].slots[Off(s.bs, c.i)].value))
      else None
    else None
  }

  /** All deliveries of a run, in the order in which they happen. */
  function Deliveries(c: Config, run: seq<Action>): seq<(int, Elem)>
    requires ConfigOk(c) && Run(c, run).Some?
    decreases |run|
  {
    if run == [] then []
    else
      var before := Deliveries(c, run[..|run| - 1]);
      match Delivery(Run(c, run[..|run| - 1]).value, run[|run| - 1])
      case Some(d) => before + [d]
      case None => before
  }

  /** The elements a run publishes, in the order in which their tail stores happen. */
  function Published(c: Config, run: seq<Action>): seq<Elem>
    requires ConfigOk(c) && Run(c, run).Some?
    decreases |run|
  {
    if run == [] then []
    else
      var u := Run(c, run[..|run| - 1]).value;
      Published(c, run[..|run| - 1]) + if run[|run| - 1].Produce? && u.prod.PPublish? then u.prod.vals else []
  }

  /** Only moving an element out of its block changes the record of deliveries. */
  lemma OtherStepsDeliverNothing(s: State, a: Action)
    requires Shaped(s) && Enabled(s, a)
    requires !(a.Consume? && s.tk.threads[a.t].Holding? && s.cons[a.t].CTake?)
    ensures Next(s, a).log.out == s.log.out && Delivery(s, a) == None
  {
    hide X.HeadersOk, Blk, Off, First, Need, T.Next, X.Available, X.Grow, X.Locate, X.ClearValue, X.StoreValue;
    match a {
      case Enqueue(vals) =>
      case Produce(ch) => assert ProduceStep(s, ch).log.out == s.log.out;
      case Dequeue(t, max) =>
      case Consume(t) => if s.tk.threads[t].Holding? { assert ConsumeStep(s, t).log.out == s.log.out; }
    }
  }

  /** A delivery takes a fresh index and yields the value published at that index. */
  lemma DeliveryIsFresh(s: State, a: Action)
    requires Inv(s) && Shaped(s) && Enabled(s, a)
    ensures match Delivery(s, a)
      case Some(d) => 0 <= d.0 < |s.log.enq| && d.0 !in s.log.out && d.1 == s.log.enq[d.0] && Next(s, a).log.out == s.log.out[d.0 := d.1]
      case None => Next(s, a).log.out == s.log.out
  {
    hide Inv, ConsumeStep, Delivery, ProduceStep;
    if a.Consume? && s.tk.threads[a.t].Holding? && s.cons[a.t].CTake? {
      TakeDelivers(s, a.t);
    } else {
      OtherStepsDeliverNothing(s, a);
    }
  }

  lemma TakeDelivers(s: State, t: Tid)
    requires Inv(s) && Shaped(s) && t < |s.cons| && s.tk.threads[t].Holding? && s.cons[t].CTake?
    ensures var i := s.cons[t].i;
      && i < |s.log.enq| && i !in s.log.out && Delivery(s, Consume(t)) == Some((i, s.log.enq[i]))
      && ConsumeStep(s, t).log.out == s.log.out[i := s.log.enq[i]]
  {
    var CTake(i, seg, h, idx, b) := s.cons[t];
    assert ConOk(s.ix.headers, s.ix.live, s.mem.place, s.log, s.bs, t, s.tk.threads[t], s.cons[t]);
    hide PlacesOk, SlotsOk, CountersOk, ConsOk, ProdOk, TailBlockOk, T.Inv, X.Inv, Blk, Off, HeldIndex;
    assert ElementOk(s.mem, s.ix.live, s.log, s.tk.threads, s.cons, s.bs, i);
    NextIsLive(s, t);
    TakeHere(s, t, i, seg, h, idx, b);
    TakeKeepsInv(s, t, i, seg, h, idx, b);
  }

  lemma PublishAppends(s: State, a: Action)
    requires Shaped(s) && Enabled(s, a)
    ensures Next(s, a).log.enq == s.log.enq + if a.Produce? && s.prod.PPublish? then s.prod.vals else []
  {
    hide ProduceStep, ConsumeStep, TicketStep;
    assert s.log.enq + [] == s.log.enq;
    match a {
      case Produce(ch) => ProducePublishes(s, ch);
      case Consume(t) => ConsumePublishesNothing(s, t);
      case _ =>
    }
  }

  lemma ProducePublishes(s: State, ch: Choice)
    requires Shaped(s) && Enabled(s, Produce(ch))
    ensures ProduceStep(s, ch).log.enq == s.log.enq + if s.prod.PPublish? then s.prod.vals else []
  {
    hide X.HeadersOk, First, Need, Blk, Off, X.Available, X.Locate, X.Grow, X.ClearValue, X.StoreValue, X.StoreKey, X.StoreTail, X.Rewind;
    assert s.log.enq + [] == s.log.enq;
  }

  lemma ConsumePublishesNothing(s: State, t: Tid)
    requires Shaped(s) && Enabled(s, Consume(t))
    ensures s.tk.threads[t].Holding? ==> ConsumeStep(s, t).log.enq == s.log.enq
    ensures !s.tk.threads[t].Holding? ==> TicketStep(s, t).log.enq == s.log.enq
  {
    hide X.HeadersOk, Blk, Off, X.Locate, X.ClearValue, T.Next;
  }

  lemma {:induction false} DeliveriesSound(c: Config, run: seq<Action>)
    requires ConfigOk(c) && Run(c, run).Some?
    ensures Published(c, run) == Run(c, run).value.log.enq
    ensures DeliversFrom(Deliveries(c, run), Published(c, run), Run(c, run).value.log.out)
    decreases |run|
  {
    hide Inv, Shaped, Next, Enabled, Delivery, DeliversFrom;
    if run == [] {
      NoDeliveries();
    } else {
      var before, a := run[..|run| - 1], run[|run| - 1];
      DeliveriesSound(c, before);
      ReachableInv(c, before);
      var s := Run(c, before).value;
      DeliveryIsFresh(s, a);
      PublishAppends(s, a);
      var d := Deliveries(c, before);
      if Delivery(s, a).Some? {
        DeliversNext(d, s.log.enq, s.log.out, Delivery(s, a).value);
      }
      DeliversMore(Deliveries(c, run), s.log.enq, if a.Produce? && s.prod.PPublish? then s.prod.vals else [], Next(s, a).log.out);
    }
  }

  /** End to end, exactly once and in order: under every interleaving the value delivered for
      index i is the i-th value published, and no index is delivered twice. Every published value
      not yet delivered still lies in its slot. */
  lemma ExactlyOnceFifo(c: Config, run: seq<Action>)
    requires ConfigOk(c) && Run(c, run).Some?
    ensures var d := Deliveries(c, run);
      var p := Published(c, run);
      var s := Run(c, run).value;
      && (forall i :: 0 <= i < |d| ==> 0 <= d[i].0 < |p| && d[i].1 == p[d[i].0])
      && (forall i, j :: 0 <= i < j < |d| ==> d[i].0 != d[j].0)
      && (forall k :: 0 <= k < |p| && !Delivered(d, k) ==> Stored(s.mem, s.ix.live, s.bs, k, p[k]))
      && |p| == s.tk.tail
  {
    DeliveriesSound(c, run);
    ReachableInv(c, run);
    var s := Run(c, run).value;
    hide PlacesOk, SlotsOk, CountersOk, ConsOk, ProdOk, TailBlockOk, T.Inv, X.Inv, Blk, Off, Run, Published, Deliveries, Stored, HeldIndex;
    forall k | 0 <= k < |s.log.enq| && k !in s.log.out ensures Stored(s.mem, s.ix.live, s.bs, k, s.log.enq[k]) {
      assert ElementOk(s.mem, s.ix.live, s.log, s.tk.threads, s.cons, s.bs, k);
    }
  }

  ghost predicate Quiet(threads: seq<T.Pc>) { forall t :: 0 <= t < |threads| ==> threads[t].Idle? }

  /** With no consumer in the middle of an operation exactly the indices below the head have been delivered. */
  lemma QuietDeliveredAll(c: Config, run: seq<Action>, k: int)
    requires ConfigOk(c) && Run(c, run).Some? && Quiet(Run(c, run).value.tk.threads)
    ensures 0 <= k < Run(c, run).value.tk.head <==> Delivered(Deliveries(c, run), k)
  {
    DeliveriesSound(c, run);
    ReachableInv(c, run);
    var s := Run(c, run).value;
    QuietOut(s, k);
    hide Inv, Run, Published, Deliveries;
  }

  lemma QuietOut(s: State, k: int)
    requires Inv(s) && Quiet(s.tk.threads)
    ensures 0 <= k < s.tk.head <==> k in s.log.out
  {
    hide PlacesOk, SlotsOk, CountersOk, ConsOk, ProdOk, TailBlockOk, T.Inv, X.Inv, Blk, Off, Stored;
    if 0 <= k < |s.log.stage| {
      assert ElementOk(s.mem, s.ix.live, s.log, s.tk.threads, s.cons, s.bs, k);
    }
    T.HeadNeverPassesTail(s.tk);
  }

  // ----- the index lookup -----

  /** From header h, whose tail was read while it denoted block number num, the lookup of block
      number n reads the key num and lands on the entry with key n and n's block as value. */
  predicate Finds(x: X.Index, h: nat, num: int, n: int) {
    && h < |x.headers| && n in x.live
    && var hd := x.headers[h];
    (hd.capacity > 0 && |hd.index| == hd.capacity
     && var pos := (num + hd.off) % hd.capacity;
     (var e0, e := hd.index[pos], hd.index[X.Locate(hd, pos, num, n)];
      e0 < |x.entries| && x.entries[e0].key == Some(num) &&
      e < |x.entries| && x.entries[e] == X.Entry(Some(n), Some(x.live[n].block))))
  }

  /** The lookup of index j succeeds from any header there is and any tail number that may have been
      read there, from the current header and its tail in particular. */
  predicate AlwaysFound(s: State, j: int) {
    && (forall h, num :: 0 <= h < |s.ix.headers| && Blk(s.bs, j) <= num <= s.ix.headers[h].high ==> Finds(s.ix, h, num, Blk(s.bs, j)))
    && |s.ix.headers| > 0 && Finds(s.ix, |s.ix.headers| - 1, X.Current(s.ix).last, Blk(s.bs, j))
  }

  /** For every index that a consumer has claimed and not yet marked empty, the lookup from any
      header the consumer may hold, however outdated, and from any tail number it may have read
      there, finds the entry of the index's block. The element is in that block until it is taken. */
  lemma LookupNeverMisses(c: Config, run: seq<Action>, t: Tid, j: nat)
    requires ConfigOk(c) && Run(c, run).Some? && HeldIndex(Run(c, run).value.tk.threads, Run(c, run).value.cons, t, j)
    ensures var s := Run(c, run).value;
      && AlwaysFound(s, j)
      && j < |s.log.enq| == |s.log.stage| && (s.log.stage[j].Fresh? ==> Stored(s.mem, s.ix.live, s.bs, j, s.log.enq[j]))
  {
    ReachableInv(c, run);
    hide Run, Inv, Stored, AlwaysFound, HeldIndex;
    HeldIsLive(Run(c, run).value, t, j);
    LiveIsFound(Run(c, run).value, j);
  }

  lemma LiveIsFound(s: State, j: nat)
    requires Inv(s) && j < |s.log.stage| && Blk(s.bs, j) in s.ix.live
    ensures AlwaysFound(s, j)
  {
    hide Inv, Finds, Blk;
    CurrentReaches(s, j);
    forall h, num | 0 <= h < |s.ix.headers| && Blk(s.bs, j) <= num <= s.ix.headers[h].high ensures Finds(s.ix, h, num, Blk(s.bs, j)) {
      LookupInIndex(s, Blk(s.bs, j), h, num);
    }
  }

  lemma CurrentReaches(s: State, j: nat)
    requires Inv(s) && j < |s.log.stage|
    ensures |s.ix.headers| > 0 && Blk(s.bs, j) <= X.Current(s.ix).last <= X.Current(s.ix).high
  {
    BlkMonotone(s.bs, j, s.tk.tail - 1);
    hide PlacesOk, SlotsOk, CountersOk, ElementsOk, ConsOk, ProdOk, TailBlockOk, T.Inv, X.Window, X.LiveAt, Blk;
  }

  lemma HeldIsLive(s: State, t: Tid, j: nat)
    requires Inv(s) && HeldIndex(s.tk.threads, s.cons, t, j)
    ensures j < |s.log.enq| == |s.log.stage| && Blk(s.bs, j) in s.ix.live
    ensures s.log.stage[j].Fresh? ==> Stored(s.mem, s.ix.live, s.bs, j, s.log.enq[j])
  {
    assert ConOk(s.ix.headers, s.ix.live, s.mem.place, s.log, s.bs, t, s.tk.threads[t], s.cons[t]);
    hide PlacesOk, SlotsOk, CountersOk, ConsOk, ProdOk, TailBlockOk, T.Inv, X.Inv, Blk, Off, Stored, ConPcOk;
    assert ElementOk(s.mem, s.ix.live, s.log, s.tk.threads, s.cons, s.bs, j);
  }

  lemma LookupInIndex(s: State, n: int, h: nat, num: int)
    requires Inv(s) && n in s.ix.live && h < |s.ix.headers| && n <= num <= s.ix.headers[h].high
    ensures Finds(s.ix, h, num, n)
  {
    hide PlacesOk, SlotsOk, CountersOk, ElementsOk, ConsOk, ProdOk, TailBlockOk, T.Inv, X.Window;
    assert X.LiveAt(s.ix, n);
    X.LookupFinds(s.ix, First(s.bs, s.tk.tail), h, num, n);
  }

  // ----- each consumer sees the elements in the order of their indices -----

  /** The indices that consumer t delivers, in the order in which it does. */
  function DeliveredBy(c: Config, run: seq<Action>, t: Tid): seq<int>
    requires ConfigOk(c) && Run(c, run).Some?
    decreases |run|
  {
    if run == [] then []
    else DeliveredBy(c, run[..|run| - 1], t) + DeliveredNow(Run(c, run[..|run| - 1]).value, run[|run| - 1], t)
  }

  function DeliveredNow(s: State, a: Action, t: Tid): seq<int> {
    if a == Consume(t) && Delivery(s, a).Some? then [Delivery(s, a).value.0] else []
  }

  /** What consumer t delivers next comes no earlier than this index. */
  function Position(s: State, t: Tid): nat {
    if t < |s.tk.threads| && t < |s.cons| && s.tk.threads[t].Holding? && !s.cons[t].CIdle? then s.cons[t].i else s.tk.head
  }

  predicate Increasing(q: seq<int>, below: int) {
    && (forall i, j :: 0 <= i < j < |q| ==> q[i] < q[j])
    && (forall i :: 0 <= i < |q| ==> q[i] < below)
  }

  lemma PositionAdvances(s: State, a: Action, t: Tid)
    requires Inv(s) && Shaped(s) && Enabled(s, a)
    ensures DeliveredNow(s, a, t) == [] ==> Position(s, t) <= Position(Next(s, a), t)
    ensures DeliveredNow(s, a, t) != [] ==> DeliveredNow(s, a, t) == [Position(s, t)] && Position(s, t) < Position(Next(s, a), t)
  {
    match a {
      case Enqueue(vals) =>
      case Produce(ch) => ProduceLeavesConsumers(s, ch); hide Inv, ProduceStep;
      case Dequeue(u, max) => hide Inv;
      case Consume(u) =>
        if !s.tk.threads[u].Holding? {
          TicketMoves(s, u, t);
        } else if u == t {
          ConsumerMoves(s, t);
        } else {
          OthersStay(s, u, t);
          hide Inv, ConsumeStep;
        }
    }
  }

  lemma ProduceLeavesConsumers(s: State, ch: Choice)
    requires Shaped(s) && Enabled(s, Produce(ch))
    ensures ProduceStep(s, ch).cons == s.cons && ProduceStep(s, ch).tk.threads == s.tk.threads && ProduceStep(s, ch).tk.head == s.tk.head
  {
    hide X.HeadersOk, Blk, Off, First, Need, X.Available, X.Grow, X.Locate, X.ClearValue, X.StoreValue;
  }

  lemma TicketMoves(s: State, u: Tid, t: Tid)
    requires Inv(s) && Shaped(s) && Enabled(s, Consume(u)) && !s.tk.threads[u].Holding?
    ensures Position(s, t) <= Position(TicketStep(s, u), t) && DeliveredNow(s, Consume(u), t) == []
  {
    hide Inv, X.HeadersOk;
  }

  lemma OthersStay(s: State, u: Tid, t: Tid)
    requires Shaped(s) && u < |s.cons| && s.tk.threads[u].Holding? && u != t
    ensures Position(ConsumeStep(s, u), t) == Position(s, t)
  {
    OneConsumerMoves(s, u);
    hide ConsumeStep;
  }

  /** Only consumer u has moved. */
  predicate OneMoved(s: State, v: State, u: Tid) {
    && v.tk.head == s.tk.head && u < |s.cons| == |v.cons| && v.cons == s.cons[u := v.cons[u]]
    && u < |s.tk.threads| == |v.tk.threads| && v.tk.threads == s.tk.threads[u := v.tk.threads[u]]
  }

  lemma MarkMovesOne(s: State, u: Tid)
    requires Shaped(s) && u < |s.cons| && s.tk.threads[u].Holding? && (s.cons[u].CMark? || s.cons[u].CRelease?)
    ensures OneMoved(s, ConsumeStep(s, u), u)
  {
    hide X.HeadersOk, Blk, Off, SetPlace, MarkAll;
  }

  lemma OneConsumerMoves(s: State, u: Tid)
    requires Shaped(s) && u < |s.cons| && s.tk.threads[u].Holding?
    ensures OneMoved(s, ConsumeStep(s, u), u)
  {
    if s.cons[u].CMark? || s.cons[u].CRelease? {
      hide ConsumeStep, OneMoved;
      MarkMovesOne(s, u);
    }
    hide X.HeadersOk, Blk, Off, X.Locate, X.ClearValue, SetSlot, SetPlace, MarkAll;
  }

  lemma ConsumerFacts(s: State, t: Tid)
    requires Inv(s) && Shaped(s) && t < |s.cons| && s.tk.threads[t].Holding?
    ensures !ConsumeStep(s, t).fault && !s.cons[t].CIdle? && s.cons[t].i <= End(s.tk.threads[t]) <= s.tk.head
  {
    ConsumeKeepsInv(s, t);
    assert T.PcOk(s.tk, t);
    hide ConsumeStep, PlacesOk, SlotsOk, CountersOk, ElementsOk, ProdOk, TailBlockOk, X.Inv, ConPcOk;
    assert ConOk(s.ix.headers, s.ix.live, s.mem.place, s.log, s.bs, t, s.tk.threads[t], s.cons[t]);
  }

  lemma TakeMoves(s: State, t: Tid)
    requires Shaped(s) && t < |s.cons| && s.tk.threads[t].Holding? && s.cons[t].CTake? && !ConsumeStep(s, t).fault
    ensures DeliveredNow(s, Consume(t), t) == [Position(s, t)] && Position(s, t) < Position(ConsumeStep(s, t), t)
  {
    BlkOff(s.bs, s.cons[t].i);
    hide X.HeadersOk, Blk, Off;
  }

  lemma OtherMoves(s: State, t: Tid)
    requires Shaped(s) && t < |s.cons| && s.tk.threads[t].Holding? && !s.cons[t].CTake? && !s.cons[t].CIdle?
    requires s.cons[t].i <= End(s.tk.threads[t]) <= s.tk.head && !ConsumeStep(s, t).fault
    ensures Position(s, t) <= Position(ConsumeStep(s, t), t)
  {
    hide X.HeadersOk, Blk, Off, X.Locate, X.ClearValue;
    match s.cons[t] {
      case CMark(i, seg, h, idx, b) => assert Position(s, t) <= Position(MarkStep(s, t, i, seg, h, idx, b), t);
      case _ =>
    }
  }

  lemma ConsumerMoves(s: State, t: Tid)
    requires Inv(s) && Shaped(s) && t < |s.cons| && s.tk.threads[t].Holding?
    ensures var d := DeliveredNow(s, Consume(t), t);
      && (d == [] ==> Position(s, t) <= Position(ConsumeStep(s, t), t))
      && (d != [] ==> d == [Position(s, t)] && Position(s, t) < Position(ConsumeStep(s, t), t))
  {
    ConsumerFacts(s, t);
    hide Inv, Position, ConsumeStep, Shaped;
    if s.cons[t].CTake? { TakeMoves(s, t); } else { OtherMoves(s, t); }
  }

  lemma IncreasingMore(q: seq<int>, below: int, below': int, x: seq<int>)
    requires Increasing(q, below) && below <= below'
    requires x == [] || (x == [below] && below < below')
    ensures Increasing(q + x, below')
  {
  }

  lemma {:induction false} DeliveredByIncreasing(c: Config, run: seq<Action>, t: Tid)
    requires ConfigOk(c) && Run(c, run).Some?
    ensures Increasing(DeliveredBy(c, run, t), Position(Run(c, run).value, t))
    decreases |run|
  {
    if run != [] {
      var before, a := run[..|run| - 1], run[|run| - 1];
      var s := Run(c, before).value;
      DeliveredByIncreasing(c, before, t);
      ReachableInv(c, before);
      hide Inv, Shaped, Next, Enabled, Increasing, Position, DeliveredNow;
      PositionAdvances(s, a, t);
      IncreasingMore(DeliveredBy(c, before, t), Position(s, t), Position(Next(s, a), t), DeliveredNow(s, a, t));
    }
  }

  /** First in, first out for every consumer: it receives elements in strictly increasing index order. */
  lemma FifoPerConsumer(c: Config, run: seq<Action>, t: Tid)
    requires ConfigOk(c) && Run(c, run).Some?
    ensures var d := DeliveredBy(c, run, t);
      forall i, j :: 0 <= i < j < |d| ==> d[i] < d[j]
  {
    DeliveredByIncreasing(c, run, t);
  }
}
