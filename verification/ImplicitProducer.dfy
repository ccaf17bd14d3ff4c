// One implicit producer's sub-queue: the producer enqueues any number of elements at a time,
// any number of consumers dequeue, and blocks travel between the shared pool, the block index
// and the threads.
//
// The machine joins the ticket protocol (module Tickets), the block index (module BlockIndex)
// and the blocks themselves. Each step is one atomic access, or one construction or move of an
// element. enqueue is enqueue_bulk of one element and dequeue is dequeue_bulk with max == 1:
// they make the same accesses in the same order.

module ImplicitProducer {
  import opened Wrappers
  import opened ModArith
  import T = Tickets
  import X = BlockIndex

  type Tid = nat
  type BlockId = nat
  type Elem = int

  // ----- state -----

  /** Where a block is. Auxiliary: no step reads it. */
  datatype Place =
    | Free                          // in the pool
    | Held                          // requisitioned by the producer, or taken back by it
    | InUse(n: int)                 // live as block number n
    | Full(n: int, t: Tid)          // completely dequeued; consumer t is about to clear its entry
    | Released(t: Tid)              // entry cleared; consumer t is about to return it to the pool

  /** What became of one published index. Auxiliary. */
  datatype Stage = Fresh | Taken | Marked

  datatype Block = Block(slots: seq<Option<Elem>>, counter: nat)

  datatype Mem = Mem(blocks: seq<Block>, pool: set<BlockId>, place: seq<Place>)

  /** The history. Auxiliary: all values published, what became of each, who claimed it, what was delivered. */
  datatype Log = Log(enq: seq<Elem>, stage: seq<Stage>, owner: seq<Tid>, out: map<int, Elem>)

  /** The producer; chain holds the blocks it has acquired for the current operation. */
  datatype Prod =
    | PIdle
    | PRoom(vals: seq<Elem>, chain: seq<BlockId>)                        // load headIndex, test for room
    | PProbe(vals: seq<Elem>, chain: seq<BlockId>)                       // read the index entry after the tail
    | PGrow(vals: seq<Elem>, chain: seq<BlockId>)                        // allocate and publish a bigger index
    | PKey(vals: seq<Elem>, chain: seq<BlockId>, e: nat, pos: nat)       // store the entry's key
    | PTail(vals: seq<Elem>, chain: seq<BlockId>, e: nat, pos: nat)      // store the index tail
    | PAlloc(vals: seq<Elem>, chain: seq<BlockId>, e: nat)               // requisition_block
    | PReset(vals: seq<Elem>, chain: seq<BlockId>, e: nat, b: BlockId)   // reset_empty
    | PValue(vals: seq<Elem>, chain: seq<BlockId>, e: nat, b: BlockId)   // store the entry's value
    | PUnwind(vals: seq<Elem>, chain: seq<BlockId>, e: nat)              // no block: rewind the index tail
    | PUnset(vals: seq<Elem>, chain: seq<BlockId>, e: nat)               // and store null into the entry
    | PUndo(vals: seq<Elem>, chain: seq<BlockId>, j: nat)                // roll back: clear the j-th block's entry
    | PBack(vals: seq<Elem>, chain: seq<BlockId>, j: nat)                // and rewind the index tail
    | PFree(vals: seq<Elem>, chain: seq<BlockId>, j: nat)                // give the j-th block back
    | PWrite(vals: seq<Elem>, chain: seq<BlockId>, k: nat)               // construct the k-th element
    | PPublish(vals: seq<Elem>, chain: seq<BlockId>)                     // store tailIndex

  /** A consumer after it has claimed its indices; i is the next one, h an index header. */
  datatype Con =
    | CIdle
    | CHeader(i: nat)                                                    // load blockIndex
    | CTail(i: nat, h: nat)                                              // load the header's tail
    | CKey(i: nat, h: nat, pos: nat, num: int)                           // load the tail entry's key; num is auxiliary
    | CValue(i: nat, h: nat, idx: nat)                                   // load the entry's value
    | CTake(i: nat, seg: nat, h: nat, idx: nat, b: BlockId)              // move element i out of its block
    | CMark(i: nat, seg: nat, h: nat, idx: nat, b: BlockId)              // set_many_empty for seg .. i
    | CClear(i: nat, h: nat, idx: nat, b: BlockId)                       // store null into the entry
    | CRelease(i: nat, h: nat, idx: nat, b: BlockId)                     // add_block_to_free_list

  datatype State = State(
    bs: nat,                      // BLOCK_SIZE
    limit: Option<nat>,           // MAX_SUBQUEUE_SIZE or the leeway of the words, whichever is less; None for neither
    tk: T.State,
    ix: X.Index,
    mem: Mem,
    tailBlock: Option<BlockId>,
    prod: Prod,
    cons: seq<Con>,
    log: Log,
    fault: bool)                  // a failed assertion, a null or dangling access, an overwritten element

  /** Choices outside the model's control: allocation success, the block handed out, uninitialised memory. */
  datatype Choice = Choice(grow: bool, block: Option<BlockId>, junk: seq<Option<BlockId>>)

  datatype Action =
    | Enqueue(vals: seq<Elem>)
    | Produce(choice: Choice)
    | Dequeue(t: Tid, max: nat)
    | Consume(t: Tid)

  // ----- arithmetic of blocks -----

  /** The number of the block that holds index i, and the slot of i in it. */
  function Blk(bs: nat, i: int): int { if bs == 0 then 0 else i / bs }
  function Off(bs: nat, i: int): nat { if bs == 0 then 0 else i % bs }

  /** The number of the first block that no published index lies in. */
  function First(bs: nat, tail: nat): int { Blk(bs, tail - 1) + 1 }

  /** The number of blocks to acquire for count more elements. */
  function Need(bs: nat, tail: nat, count: nat): int { Blk(bs, tail + count - 1) - Blk(bs, tail - 1) }

  // ----- the producer's steps -----

  predicate Enabled(s: State, a: Action) {
    match a
    case Enqueue(_) => s.prod.PIdle?
    case Produce(ch) => !s.prod.PIdle? && (s.prod.PAlloc? && ch.block.Some? ==> CanRequisition(s.mem, ch.block.value))
    case Dequeue(t, max) => T.Enabled(s.tk, T.Begin(t, max))
    case Consume(t) => t < |s.tk.threads| && t < |s.cons| && !s.tk.threads[t].Idle?
  }

  /** A block comes from the pool or is newly created. */
  predicate CanRequisition(m: Mem, b: BlockId) { b in m.pool || b == |m.blocks| }

  predicate Shaped(s: State) {
    && s.bs >= 2
    && X.HeadersOk(s.ix)
    && |s.mem.place| == |s.mem.blocks|
    && (forall b :: 0 <= b < |s.mem.blocks| ==> |s.mem.blocks[b].slots| == s.bs)
    && |s.cons| == |s.tk.threads|
  }

  function Fails(s: State, ok: bool): State { if ok then s else s.(fault := true) }

  function Next(s: State, a: Action): State
    requires Shaped(s) && Enabled(s, a)
  {
    match a
    case Enqueue(vals) =>
      s.(prod := if Need(s.bs, s.tk.tail, |vals|) > 0 then PRoom(vals, []) else StartWriting(vals, []))
    case Produce(ch) => ProduceStep(s, ch)
    case Dequeue(t, max) => s.(tk := T.Next(s.tk, T.Begin(t, max)))
    case Consume(t) => if s.tk.threads[t].Holding? then ConsumeStep(s, t) else TicketStep(s, t)
  }

  function StartWriting(vals: seq<Elem>, chain: seq<BlockId>): Prod {
    if vals == [] then PPublish(vals, chain) else PWrite(vals, chain, 0)
  }

  /** Where a failed operation goes: straight out, or through the rollback. */
  function Failing(vals: seq<Elem>, chain: seq<BlockId>): Prod {
    if chain == [] then PIdle else PUndo(vals, chain, 0)
  }

  function SetPlace(m: Mem, b: BlockId, p: Place): Mem {
    if b < |m.place| then m.(place := m.place[b := p]) else m
  }

  function ProduceStep(s: State, ch: Choice): State
    requires Shaped(s) && Enabled(s, Produce(ch))
  {
    match s.prod
    case PRoom(vals, chain) => RoomStep(s, vals, chain)
    case PProbe(vals, chain) => ProbeStep(s, vals, chain)
    case PGrow(vals, chain) => GrowStep(s, vals, chain, ch)
    case PKey(vals, chain, e, pos) =>
      if e < |s.ix.entries| then
        s.(ix := X.StoreKey(s.ix, e, First(s.bs, s.tk.tail) + |chain|), prod := PTail(vals, chain, e, pos))
      else s.(fault := true)
    case PTail(vals, chain, e, pos) => s.(ix := X.StoreTail(s.ix, pos), prod := PAlloc(vals, chain, e))
    case PAlloc(vals, chain, e) => AllocStep(s, vals, chain, e, ch.block)
    case PReset(vals, chain, e, b) =>
      if b < |s.mem.blocks| then
        s.(mem := s.mem.(blocks := s.mem.blocks[b := s.mem.blocks[b].(counter := 0)]), prod := PValue(vals, chain, e, b))
      else s.(fault := true)
    case PValue(vals, chain, e, b) => ValueStep(s, vals, chain, e, b)
    case PUnwind(vals, chain, e) => s.(ix := X.Rewind(s.ix), prod := PUnset(vals, chain, e))
    case PUnset(vals, chain, e) =>
      if e < |s.ix.entries| then
        s.(ix := X.ClearValue(s.ix, e, First(s.bs, s.tk.tail) + |chain|), prod := Failing(vals, chain))
      else s.(fault := true)
    case PUndo(vals, chain, j) => UndoStep(s, vals, chain, j)
    case PBack(vals, chain, j) =>
      s.(ix := X.Rewind(s.ix), prod := if j + 1 < |chain| then PUndo(vals, chain, j + 1) else PFree(vals, chain, 0))
    case PFree(vals, chain, j) =>
      if j < |chain| then
        s.(mem := SetPlace(s.mem, chain[j], Free).(pool := s.mem.pool + {chain[j]}),
           prod := if j + 1 < |chain| then PFree(vals, chain, j + 1) else PIdle)
      else s.(fault := true)
    case PWrite(vals, chain, k) => WriteStep(s, vals, chain, k)
    case PPublish(vals, chain) => PublishStep(s, vals, chain)
  }

  /** The room test; the source asserts that the head has not passed the tail. */
  function RoomStep(s: State, vals: seq<Elem>, chain: seq<BlockId>): State {
    var base := (First(s.bs, s.tk.tail) + |chain|) * s.bs;
    var full := s.limit.Some? && (s.limit.value == 0 || s.limit.value - s.bs < base - s.tk.head);
    Fails(s, s.tk.head <= base).(prod := if full then Failing(vals, chain) else PProbe(vals, chain))
  }

  function ProbeStep(s: State, vals: seq<Elem>, chain: seq<BlockId>): State
    requires Shaped(s)
  {
    var hd := X.Current(s.ix);
    var pos := (hd.tail + 1) % hd.capacity;
    var e := hd.index[pos];
    s.(prod := if X.Available(s.ix, e) then PKey(vals, chain, e, pos) else PGrow(vals, chain))
  }

  /** A new header; the source asserts that the entry after its tail has an invalid key. */
  function GrowStep(s: State, vals: seq<Elem>, chain: seq<BlockId>, ch: Choice): State
    requires Shaped(s)
  {
    if !ch.grow then s.(prod := Failing(vals, chain))
    else
      var y := X.Grow(s.ix, ch.junk);
      var hd := X.Current(y);
      var pos := (hd.tail + 1) % hd.capacity;
      var e := hd.index[pos];
      Fails(s, e < |y.entries| && y.entries[e].key == None).(ix := y, prod := PKey(vals, chain, e, pos))
  }

  function AllocStep(s: State, vals: seq<Elem>, chain: seq<BlockId>, e: nat, block: Option<BlockId>): State {
    match block
    case None => s.(prod := PUnwind(vals, chain, e))
    case Some(b) => s.(mem := Requisition(s.mem, s.bs, b), prod := PReset(vals, chain, e, b))
  }

  function Requisition(m: Mem, bs: nat, b: BlockId): Mem {
    if b < |m.place| then m.(pool := m.pool - {b}, place := m.place[b := Held])
    else m.(blocks := m.blocks + [Block(seq(bs, _ => None), 0)], place := m.place + [Held])
  }

  function ValueStep(s: State, vals: seq<Elem>, chain: seq<BlockId>, e: nat, b: BlockId): State {
    if e < |s.ix.entries| then
      var n := First(s.bs, s.tk.tail) + |chain|;
      s.(ix := X.StoreValue(s.ix, e, n, b),
         mem := SetPlace(s.mem, b, InUse(n)),
         prod := if |chain| + 1 < Need(s.bs, s.tk.tail, |vals|) then PRoom(vals, chain + [b])
                 else StartWriting(vals, chain + [b]))
    else s.(fault := true)
  }

  /** One round of the rollback loop: look the block's entry up and store null into it. */
  function UndoStep(s: State, vals: seq<Elem>, chain: seq<BlockId>, j: nat): State
    requires Shaped(s)
  {
    var n := First(s.bs, s.tk.tail) + j;
    var hd := X.Current(s.ix);
    var key := s.ix.entries[hd.index[hd.tail]].key;
    if key == None || j >= |chain| then s.(fault := true)
    else
      var e := hd.index[X.Locate(hd, hd.tail, key.value, n)];
      Fails(s, s.ix.entries[e] == X.Entry(Some(n), Some(chain[j])))
        .(ix := X.ClearValue(s.ix, e, n), mem := SetPlace(s.mem, chain[j], Held), prod := PBack(vals, chain, j))
  }

  /** The block that the k-th new element goes to: the rest of the tail block, then the acquired ones. */
  function Target(s: State, chain: seq<BlockId>, k: nat): Option<BlockId> {
    var j := Blk(s.bs, s.tk.tail + k) - Blk(s.bs, s.tk.tail - 1);
    if j <= 0 then s.tailBlock else if j <= |chain| then Some(chain[j - 1]) else None
  }

  /** Construct an element in its slot, which must be an empty one of an existing block. */
  function WriteStep(s: State, vals: seq<Elem>, chain: seq<BlockId>, k: nat): State
    requires Shaped(s)
  {
    var b := Target(s, chain, k);
    if b == None || b.value >= |s.mem.blocks| || k >= |vals| then s.(fault := true)
    else
      Fails(s, s.mem.blocks[b.value].slots[Off(s.bs, s.tk.tail + k)] == None)
        .(mem := SetSlot(s.mem, b.value, Off(s.bs, s.tk.tail + k), Some(vals[k])),
          prod := if k + 1 < |vals| then PWrite(vals, chain, k + 1) else PPublish(vals, chain))
  }

  function SetSlot(m: Mem, b: BlockId, k: nat, v: Option<Elem>): Mem {
    if b < |m.blocks| && k < |m.blocks[b].slots| then
      m.(blocks := m.blocks[b := m.blocks[b].(slots := m.blocks[b].slots[k := v])])
    else m
  }

  function PublishStep(s: State, vals: seq<Elem>, chain: seq<BlockId>): State {
    s.(tk := s.tk.(tail := s.tk.tail + |vals|),
       tailBlock := if chain == [] then s.tailBlock else Some(chain[|chain| - 1]),
       prod := PIdle,
       log := s.log.(enq := s.log.enq + vals, stage := s.log.stage + seq(|vals|, _ => Fresh)))
  }

  // ----- the consumers' steps -----

  /** A step of the ticket protocol; the one that claims indices starts the lookup. */
  function TicketStep(s: State, t: Tid): State
    requires Shaped(s) && Enabled(s, Consume(t)) && !s.tk.threads[t].Holding?
  {
    var tk := T.Next(s.tk, T.Go(t));
    if tk.threads[t].Holding? then
      s.(tk := tk, cons := s.cons[t := CHeader(tk.threads[t].first)],
         log := s.log.(owner := s.log.owner + seq(tk.threads[t].count, _ => t)))
    else s.(tk := tk)
  }

  function End(p: T.Pc): nat { if p.Holding? then p.first + p.count else 0 }

  function ConsumeStep(s: State, t: Tid): State
    requires Shaped(s) && t < |s.cons| && s.tk.threads[t].Holding?
  {
    match s.cons[t]
    case CIdle => s.(fault := true)
    case CHeader(i) => SetCon(s, t, CTail(i, |s.ix.headers| - 1))
    case CTail(i, h) =>
      if h < |s.ix.headers| then SetCon(s, t, CKey(i, h, s.ix.headers[h].tail, s.ix.headers[h].last))
      else s.(fault := true)
    case CKey(i, h, pos, _) => KeyStep(s, t, i, h, pos)
    case CValue(i, h, idx) => LoadStep(s, t, i, h, idx)
    case CTake(i, seg, h, idx, b) => TakeStep(s, t, i, seg, h, idx, b)
    case CMark(i, seg, h, idx, b) => MarkStep(s, t, i, seg, h, idx, b)
    case CClear(i, h, idx, b) => ClearStep(s, t, i, h, idx, b)
    case CRelease(i, h, idx, b) =>
      Resume(s.(mem := SetPlace(s.mem, b, Free).(pool := s.mem.pool + {b})), t, i, h, idx)
  }

  function SetCon(s: State, t: Tid, c: Con): State
    requires t < |s.cons|
  {
    s.(cons := s.cons[t := c])
  }

  /** Go on with the next block of a claimed range, or finish. */
  function Resume(s: State, t: Tid, i: nat, h: nat, idx: nat): State
    requires Shaped(s) && t < |s.cons|
  {
    if i == End(s.tk.threads[t]) then
      SetCon(s.(tk := T.At(s.tk, t, T.Idle)), t, CIdle)
    else if h < |s.ix.headers| then
      SetCon(s, t, CValue(i, h, (idx + 1) % s.ix.headers[h].capacity))
    else s.(fault := true)
  }

  /** Compute the entry's place from the tail's key; the source asserts that the key is valid
      and that the entry found has the right key and a block. */
  function KeyStep(s: State, t: Tid, i: nat, h: nat, pos: nat): State
    requires Shaped(s) && t < |s.cons|
  {
    if h >= |s.ix.headers| || pos >= s.ix.headers[h].capacity then s.(fault := true)
    else
      var hd := s.ix.headers[h];
      var key := s.ix.entries[hd.index[pos]].key;
      if key == None then s.(fault := true)
      else
        var idx := X.Locate(hd, pos, key.value, Blk(s.bs, i));
        var e := s.ix.entries[hd.index[idx]];
        SetCon(Fails(s, e.key == Some(Blk(s.bs, i)) && e.value != None), t, CValue(i, h, idx))
  }

  function LoadStep(s: State, t: Tid, i: nat, h: nat, idx: nat): State
    requires Shaped(s) && t < |s.cons|
  {
    if h >= |s.ix.headers| || idx >= s.ix.headers[h].capacity then s.(fault := true)
    else
      var v := s.ix.entries[s.ix.headers[h].index[idx]].value;
      if v == None then s.(fault := true) else SetCon(s, t, CTake(i, i, h, idx, v.value))
  }

  /** Move an element out; an empty slot or a missing block is a fault. */
  function TakeStep(s: State, t: Tid, i: nat, seg: nat, h: nat, idx: nat, b: BlockId): State
    requires Shaped(s) && t < |s.cons|
  {
    if b >= |s.mem.blocks| || s.mem.blocks[b].slots[Off(s.bs, i)] == None || i >= |s.log.stage| then s.(fault := true)
    else
      SetCon(s.(mem := SetSlot(s.mem, b, Off(s.bs, i), None),
                log := s.log.(stage := s.log.stage[i := Taken],
                              out := s.log.out[i := s.mem.blocks[b].slots[Off(s.bs, i)].value])),
             t,
             if i + 1 == End(s.tk.threads[t]) || Off(s.bs, i + 1) == 0 then CMark(i + 1, seg, h, idx, b)
             else CTake(i + 1, seg, h, idx, b))
  }

  function MarkAll(st: seq<Stage>, from: nat, to: nat): (r: seq<Stage>)
    ensures |r| == |st|
  {
    seq(|st|, j requires 0 <= j < |st| => if from <= j < to then Marked else st[j])
  }

  /** set_many_empty: one fetch_add; the consumer that completes the block goes on to free it. */
  function MarkStep(s: State, t: Tid, i: nat, seg: nat, h: nat, idx: nat, b: BlockId): State
    requires Shaped(s) && t < |s.cons|
  {
    if b >= |s.mem.blocks| || i < seg then s.(fault := true)
    else
      var sum := s.mem.blocks[b].counter + (i - seg);
      var u := Fails(s, sum <= s.bs)
        .(mem := s.mem.(blocks := s.mem.blocks[b := s.mem.blocks[b].(counter := sum)]),
          log := s.log.(stage := MarkAll(s.log.stage, seg, i)));
      if sum == s.bs then
        SetCon(u.(mem := SetPlace(u.mem, b, Full(Blk(s.bs, seg), t))), t, CClear(i, h, idx, b))
      else Resume(u, t, i, h, idx)
  }

  function ClearStep(s: State, t: Tid, i: nat, h: nat, idx: nat, b: BlockId): State
    requires Shaped(s) && t < |s.cons|
  {
    if h >= |s.ix.headers| || idx >= s.ix.headers[h].capacity then s.(fault := true)
    else
      SetCon(s.(ix := X.ClearValue(s.ix, s.ix.headers[h].index[idx], Blk(s.bs, i - 1)),
                mem := SetPlace(s.mem, b, Released(t))), t, CRelease(i, h, idx, b))
  }
}
