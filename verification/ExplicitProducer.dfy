// The sub-queue of an explicit producer, with single enqueues and dequeues: a circular list of
// blocks that is reused as soon as the block ahead has been emptied, and a circular index of
// (base, block) entries that consumers look blocks up in.
//
// Each step is one access to shared memory, or one construction or move of an element. The block
// index is only ever written by the producer; a bigger one is filled before it is published, and
// the older ones stay as they were. A base is given here as the number of its block.

module ExplicitProducer {
  import opened Wrappers
  import T = Tickets
  import I = ImplicitProducer

  type Tid = nat
  type BlockId = nat
  type Elem = int

  /** Emptiness is kept in flags (BLOCK_SIZE <= EXPLICIT_BLOCK_EMPTY_COUNTER_THRESHOLD). */
  datatype Block = Block(slots: seq<Option<Elem>>, flags: seq<bool>, next: BlockId)

  datatype Entry = Entry(base: int, block: BlockId)

  /** The last three fields are auxiliary: slot p belongs to the block numbers congruent to
      p - off; `top` is the number that front denotes, `high` the last one whose entry is complete. */
  datatype Header = Header(size: nat, front: int, entries: seq<Entry>, off: int, top: int, high: int)

  /** The history. Auxiliary. */
  datatype Log = Log(enq: seq<Elem>, stage: seq<I.Stage>, owner: seq<Tid>, out: map<int, Elem>)

  datatype Prod =
    | PIdle
    | PCheck(v: Elem, i: nat)               // is the block ahead empty? load its i-th flag
    | PReset(v: Elem, i: nat)               // it is; clear the i-th flag of what is now the tail block
    | PRoom(v: Elem)                        // load headIndex, test for room, in the queue and in the index
    | PGrow(v: Elem)                        // allocate and publish a bigger index
    | PAlloc(v: Elem)                       // requisition_block
    | PClear(v: Elem, b: BlockId, i: nat)   // clear the i-th flag of the new block
    | PLink(v: Elem, b: BlockId)            // link it in after the tail block
    | PBase(v: Elem)                        // store the index entry's base
    | PEntry(v: Elem)                       // and its block
    | PFront(v: Elem)                       // store the index's front
    | PWrite(v: Elem)                       // construct the element
    | PPublish(v: Elem)                     // store tailIndex

  datatype Con =
    | CIdle
    | CIndex(i: nat)                                   // load blockIndex
    | CFront(i: nat, h: nat)                           // load the header's front
    | CBase(i: nat, h: nat, f: int, num: int)          // load the front entry's base; num is auxiliary
    | CBlock(i: nat, h: nat, f: int, base: int)        // load the entry's block
    | CMove(i: nat, b: BlockId)                        // move the element out
    | CMark(i: nat, b: BlockId)                        // set_empty

  datatype State = State(
    bs: nat,
    limit: Option<nat>,           // as for the implicit producer
    tk: T.State,
    headers: seq<Header>,         // blockIndex points to the last one; none if its allocation failed
    size: nat,                    // pr_blockIndexSize
    front: nat,                   // pr_blockIndexFront
    used: nat,                    // pr_blockIndexSlotsUsed
    blocks: seq<Block>,
    pool: set<BlockId>,
    tailBlock: Option<BlockId>,
    prod: Prod,
    cons: seq<Con>,
    // auxiliary: the blocks of the circular list, oldest first, and the number of the newest
    ring: seq<BlockId>,
    last: int,
    log: Log,
    fault: bool)                  // a failed assertion, a wrong or missing entry, an overwritten or missing element

  datatype Choice = Choice(grow: bool, block: Option<BlockId>, junk: Entry)

  datatype Action =
    | Enqueue(v: Elem)
    | Produce(choice: Choice)
    | Dequeue(t: Tid)
    | Consume(t: Tid)

  predicate Shaped(s: State) {
    && s.bs >= 2 && s.size > 0
    && (forall b :: 0 <= b < |s.blocks| ==> |s.blocks[b].slots| == s.bs == |s.blocks[b].flags|)
    && (forall h :: 0 <= h < |s.headers| ==> s.headers[h].size > 0 && |s.headers[h].entries| == s.headers[h].size)
    && |s.cons| == |s.tk.threads|
  }

  predicate Enabled(s: State, a: Action) {
    match a
    case Enqueue(_) => s.prod.PIdle?
    case Produce(ch) => !s.prod.PIdle? && (s.prod.PAlloc? && ch.block.Some? ==> ch.block.value in s.pool || ch.block.value == |s.blocks|)
    case Dequeue(t) => T.Enabled(s.tk, T.Begin(t, 1))
    case Consume(t) => t < |s.tk.threads| && t < |s.cons| && !s.tk.threads[t].Idle?
  }

  function Next(s: State, a: Action): State
    requires Shaped(s) && Enabled(s, a)
  {
    match a
    case Enqueue(v) =>
      s.(prod := if I.Off(s.bs, s.tk.tail) != 0 then PWrite(v) else if s.tailBlock.Some? then PCheck(v, 0) else PRoom(v))
    case Produce(ch) => ProduceStep(s, ch)
    case Dequeue(t) => s.(tk := T.Next(s.tk, T.Begin(t, 1)))
    case Consume(t) => if s.tk.threads[t].Holding? then ConsumeStep(s, t) else TicketStep(s, t)
  }

  function Fails(s: State, ok: bool): State { if ok then s else s.(fault := true) }

  // ----- the producer -----

  function SetFlag(s: State, b: BlockId, i: nat, on: bool): State {
    if b < |s.blocks| && i < |s.blocks[b].flags| then
      s.(blocks := s.blocks[b := s.blocks[b].(flags := s.blocks[b].flags[i := on])])
    else s.(fault := true)
  }

  function SetSlot(s: State, b: BlockId, k: nat, v: Option<Elem>): State {
    if b < |s.blocks| && k < |s.blocks[b].slots| then
      s.(blocks := s.blocks[b := s.blocks[b].(slots := s.blocks[b].slots[k := v])])
    else s.(fault := true)
  }

  function ProduceStep(s: State, ch: Choice): State
    requires Shaped(s) && Enabled(s, Produce(ch))
  {
    match s.prod
    case PCheck(v, i) => CheckStep(s, v, i)
    case PReset(v, i) =>
      if s.tailBlock == None then s.(fault := true)
      else SetFlag(s, s.tailBlock.value, i, false).(prod := if i + 1 < s.bs then PReset(v, i + 1) else PBase(v))
    case PRoom(v) => RoomStep(s, v)
    case PGrow(v) => if !ch.grow then s.(prod := PIdle) else GrowStep(s, v, ch.junk)
    case PAlloc(v) => AllocStep(s, v, ch.block)
    case PClear(v, b, i) => SetFlag(s, b, i, false).(prod := if i + 1 < s.bs then PClear(v, b, i + 1) else PLink(v, b))
    case PLink(v, b) => LinkStep(s, v, b)
    case PBase(v) => BaseStep(s, v)
    case PEntry(v) => EntryStep(s, v)
    case PFront(v) => FrontStep(s, v)
    case PWrite(v) =>
      if s.tailBlock == None || s.tailBlock.value >= |s.blocks| then s.(fault := true)
      else
        SetSlot(Fails(s, s.blocks[s.tailBlock.value].slots[I.Off(s.bs, s.tk.tail)] == None), s.tailBlock.value, I.Off(s.bs, s.tk.tail), Some(v))
          .(prod := PPublish(v))
    case PPublish(v) =>
      s.(tk := s.tk.(tail := s.tk.tail + 1), prod := PIdle,
         log := s.log.(enq := s.log.enq + [v], stage := s.log.stage + [I.Fresh]))
  }

  /** is_empty on the block after the tail block; once all its flags are seen set it becomes the tail block. */
  function CheckStep(s: State, v: Elem, i: nat): State {
    if s.tailBlock == None || s.tailBlock.value >= |s.blocks| then s.(fault := true)
    else
      var b := s.blocks[s.tailBlock.value].next;
      if b >= |s.blocks| || i >= |s.blocks[b].flags| then s.(fault := true)
      else if !s.blocks[b].flags[i] then s.(prod := PRoom(v))
      else if i + 1 < s.bs then s.(prod := PCheck(v, i + 1))
      else
        s.(tailBlock := Some(b), prod := PReset(v, 0),
           ring := if s.ring == [] then [] else s.ring[1..] + [s.ring[0]], last := s.last + 1)
  }

  /** The room tests; the source asserts that the head has not passed the tail. */
  function RoomStep(s: State, v: Elem): State {
    var full := s.limit.Some? && (s.limit.value == 0 || s.limit.value - s.bs < s.tk.tail - s.tk.head);
    Fails(s, s.tk.head <= s.tk.tail)
      .(prod := if full then PIdle else if s.headers == [] || s.used == s.size then PGrow(v) else PAlloc(v))
  }

  /** The entries of the window, oldest first, then uninitialised ones. */
  function GrownEntries(prev: seq<Entry>, start: int, used: nat, size: nat, junk: Entry): (r: seq<Entry>)
    requires used == 0 || |prev| > 0
    ensures |r| == size
  {
    seq(size, i requires 0 <= i < size => if i < used && |prev| > 0 then prev[(start + i) % |prev|] else junk)
  }

  /** new_block_index. */
  function GrowStep(s: State, v: Elem, junk: Entry): State
    requires Shaped(s)
  {
    if s.used > 0 && s.headers == [] then s.(fault := true)
    else
      var prev := if s.headers == [] then [] else s.headers[|s.headers| - 1].entries;
      var entries := GrownEntries(prev, s.front - s.used, s.used, 2 * s.size, junk);
      s.(headers := s.headers + [Header(2 * s.size, s.used - 1, entries, s.used - 1 - s.last, s.last, s.last)],
         size := 2 * s.size, front := s.used, prod := PAlloc(v))
  }

  function AllocStep(s: State, v: Elem, block: Option<BlockId>): State {
    match block
    case None => s.(prod := PIdle)
    case Some(b) =>
      if b < |s.blocks| then s.(pool := s.pool - {b}, prod := PClear(v, b, 0))
      else s.(blocks := s.blocks + [Block(seq(s.bs, _ => None), seq(s.bs, _ => true), 0)], prod := PClear(v, b, 0))
  }

  /** Insert the new block into the circular list, after the tail block. */
  function LinkStep(s: State, v: Elem, b: BlockId): State {
    if b >= |s.blocks| || (s.tailBlock.Some? && s.tailBlock.value >= |s.blocks|) then s.(fault := true)
    else
      var blocks :=
        match s.tailBlock
        case None => s.blocks[b := s.blocks[b].(next := b)]
        case Some(t) => s.blocks[b := s.blocks[b].(next := s.blocks[t].next)][t := s.blocks[t].(next := b)];
      s.(blocks := blocks, tailBlock := Some(b), used := s.used + 1, prod := PBase(v), ring := s.ring + [b], last := s.last + 1)
  }

  function Current(s: State): Header
    requires s.headers != []
  {
    s.headers[|s.headers| - 1]
  }

  function WithCurrent(s: State, hd: Header): State
    requires s.headers != []
  {
    s.(headers := s.headers[|s.headers| - 1 := hd])
  }

  function BaseStep(s: State, v: Elem): State {
    if s.headers == [] || s.front >= |Current(s).entries| then s.(fault := true)
    else
      var hd := Current(s);
      WithCurrent(s, hd.(entries := hd.entries[s.front := hd.entries[s.front].(base := I.Blk(s.bs, s.tk.tail))])).(prod := PEntry(v))
  }

  function EntryStep(s: State, v: Elem): State {
    if s.headers == [] || s.front >= |Current(s).entries| || s.tailBlock == None then s.(fault := true)
    else
      var hd := Current(s);
      WithCurrent(s, hd.(entries := hd.entries[s.front := hd.entries[s.front].(block := s.tailBlock.value)], high := s.last)).(prod := PFront(v))
  }

  function FrontStep(s: State, v: Elem): State {
    if s.headers == [] || s.size == 0 then s.(fault := true)
    else WithCurrent(s, Current(s).(front := s.front, top := s.last)).(front := (s.front + 1) % s.size, prod := PWrite(v))
  }

  // ----- the consumers -----

  function TicketStep(s: State, t: Tid): State
    requires Shaped(s) && Enabled(s, Consume(t)) && !s.tk.threads[t].Holding?
  {
    var tk := T.Next(s.tk, T.Go(t));
    if tk.threads[t].Holding? then
      s.(tk := tk, cons := s.cons[t := CIndex(tk.threads[t].first)],
         log := s.log.(owner := s.log.owner + seq(tk.threads[t].count, _ => t)))
    else s.(tk := tk)
  }

  function SetCon(s: State, t: Tid, c: Con): State
    requires t < |s.cons|
  {
    s.(cons := s.cons[t := c])
  }

  function ConsumeStep(s: State, t: Tid): State
    requires Shaped(s) && t < |s.cons| && s.tk.threads[t].Holding?
  {
    match s.cons[t]
    case CIdle => s.(fault := true)
    case CIndex(i) => if s.headers == [] then s.(fault := true) else SetCon(s, t, CFront(i, |s.headers| - 1))
    case CFront(i, h) =>
      if h < |s.headers| then SetCon(s, t, CBase(i, h, s.headers[h].front, s.headers[h].top)) else s.(fault := true)
    case CBase(i, h, f, _) =>
      if h < |s.headers| && 0 <= f < |s.headers[h].entries| then SetCon(s, t, CBlock(i, h, f, s.headers[h].entries[f].base))
      else s.(fault := true)
    case CBlock(i, h, f, base) =>
      if h < |s.headers| && s.headers[h].size > 0 && |s.headers[h].entries| == s.headers[h].size then
        SetCon(s, t, CMove(i, s.headers[h].entries[(f + (I.Blk(s.bs, i) - base)) % s.headers[h].size].block))
      else s.(fault := true)
    case CMove(i, b) => MoveStep(s, t, i, b)
    case CMark(i, b) => MarkStep(s, t, i, b)
  }

  function MoveStep(s: State, t: Tid, i: nat, b: BlockId): State
    requires Shaped(s) && t < |s.cons|
  {
    if b >= |s.blocks| || s.blocks[b].slots[I.Off(s.bs, i)] == None || i >= |s.log.stage| then s.(fault := true)
    else
      SetCon(SetSlot(s, b, I.Off(s.bs, i), None)
               .(log := s.log.(stage := s.log.stage[i := I.Taken], out := s.log.out[i := s.blocks[b].slots[I.Off(s.bs, i)].value])),
             t, CMark(i, b))
  }

  /** The flag of index i; flags are kept in reverse order. */
  function FlagOf(bs: nat, i: int): int { bs - 1 - I.Off(bs, i) }

  /** set_empty; the source asserts that the flag was not set. */
  function MarkStep(s: State, t: Tid, i: nat, b: BlockId): State
    requires Shaped(s) && t < |s.cons|
  {
    if b >= |s.blocks| || i >= |s.log.stage| || FlagOf(s.bs, i) < 0 || FlagOf(s.bs, i) >= |s.blocks[b].flags| then s.(fault := true)
    else
      SetCon(SetFlag(Fails(s, !s.blocks[b].flags[FlagOf(s.bs, i)]), b, FlagOf(s.bs, i), true)
               .(log := s.log.(stage := s.log.stage[i := I.Marked]), tk := T.At(s.tk, t, T.Idle)),
             t, CIdle)
  }
}
