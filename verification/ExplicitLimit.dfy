// The size limit of the explicit producer. MAX_SUBQUEUE_SIZE is documented as the most elements a
// sub-queue can hold, but enqueue tests it only when it takes a new block, not when it takes over
// the block ahead: so the limit can be exceeded. Here is a run that does so, and exactly which
// take-overs allow it: those made with less than a block's room left.

module ExplicitLimit {
  import opened Wrappers
  import opened ModArith
  import opened ExplicitProducer
  import opened ExplicitInvariant
  import opened ExplicitEnqueue
  import opened ExplicitQueue
  import T = Tickets
  import I = ImplicitProducer
  import V = ImplicitInvariant

  /** The step sees the last flag of the block ahead set, and takes the block over. */
  predicate Reuses(s: State, a: Action) {
    a.Produce? && s.prod.PCheck? && CheckStep(s, s.prod.v, s.prod.i).prod.PReset?
  }

  /** The test that the code makes before it takes a new block. */
  predicate HasRoom(s: State, limit: nat) { s.tk.tail - s.tk.head <= limit - s.bs }

  /** Every block taken over in the run was taken over with room for it. */
  ghost predicate ReusesWithRoom(c: Config, run: seq<Action>, limit: nat)
    requires ConfigOk(c) && Run(c, run).Some?
    decreases |run|
  {
    run == [] ||
    (ReusesWithRoom(c, run[..|run| - 1], limit) &&
     (Reuses(Run(c, run[..|run| - 1]).value, run[|run| - 1]) ==> HasRoom(Run(c, run[..|run| - 1]).value, limit)))
  }

  /** One past the last index of the newest block. */
  function End(s: State): int { BlockEnd(s.bs, s.last) }

  function BlockEnd(bs: nat, n: int): int { bs * (n + 1) }

  /** The producer has passed the room test and not yet linked its new block. */
  predicate PastTest(p: Prod) { p.PGrow? || p.PAlloc? || p.PClear? || p.PLink? }

  predicate Within(s: State, limit: nat) {
    && s.limit == Some(limit)
    && End(s) - s.tk.head <= limit
    && (PastTest(s.prod) ==> HasRoom(s, limit))
  }

  // ----- the limit holds while blocks are taken over with room -----

  /** Where the tail is in the newest block. */
  lemma TailInBlock(s: State)
    requires Inv(s)
    ensures s.tk.tail <= End(s)
    ensures PastTest(s.prod) || s.prod.PCheck? || s.prod.PRoom? ==> End(s) == s.tk.tail
    ensures !s.prod.PIdle? && !(PastTest(s.prod) || s.prod.PCheck? || s.prod.PRoom?) ==> s.tk.tail < End(s)
    ensures s.prod.PIdle? && s.tk.tail < End(s) ==> I.Off(s.bs, s.tk.tail) != 0
    ensures s.prod.PReset? || s.prod.PBase? ==> End(s) == s.tk.tail + s.bs
    ensures s.prod.PIdle? && I.Off(s.bs, s.tk.tail) == 0 ==> End(s) == s.tk.tail
  {
    hide T.Inv, Singles, RingOk, FlagsOk, SlotsOk, HeadersOk, CurrentOk, ElementsOk, ConsOk, I.Blk, I.Off;
    EndIs(s.bs, s.last, s.tk.tail);
  }

  lemma EndIs(bs: nat, last: int, tail: nat)
    requires bs >= 2
    ensures last == I.Blk(bs, tail - 1) ==> tail <= bs * (last + 1) < tail + bs
    ensures last == I.Blk(bs, tail) ==> tail < bs * (last + 1) <= tail + bs
    ensures last == I.Blk(bs, tail - 1) && I.Off(bs, tail) == 0 ==> bs * (last + 1) == tail
    ensures last == I.Blk(bs, tail) && I.Off(bs, tail) == 0 ==> bs * (last + 1) == tail + bs
    ensures last == I.Blk(bs, tail - 1) && tail < bs * (last + 1) ==> I.Off(bs, tail) != 0
  {
    V.BlkOff(bs, tail);
    V.BlkOff(bs, tail - 1);
    V.BlkNext(bs, tail - 1);
    hide I.Blk, I.Off;
    OneMore(bs, last);
    OneMore(bs, I.Blk(bs, tail - 1));
  }

  lemma NextEnd(bs: nat, n: int)
    ensures BlockEnd(bs, n + 1) == BlockEnd(bs, n) + bs
  {
    OneMore(bs, n + 1);
  }

  lemma OneMore(bs: nat, n: int)
    ensures bs * (n + 1) == bs * n + bs
  {
  }

  /** What a step of the producer does to the newest block, and when it is past the room test. */
  predicate Moves(s: State, u: State, reuses: bool) {
    && u.bs == s.bs && u.limit == s.limit && u.tk.head == s.tk.head
    && u.last == s.last + (if reuses || s.prod.PLink? then 1 else 0)
    && (reuses ==> s.prod.PCheck?)
    && (PastTest(u.prod) ==> u.tk.tail == s.tk.tail && (PastTest(s.prod) || (s.prod.PRoom? && (s.limit.Some? ==> HasRoom(s, s.limit.value)))))
    && (PastTest(u.prod) ==> !s.prod.PLink?)
  }

  lemma CheckMoves(s: State, ch: Choice)
    requires Shaped(s) && Enabled(s, Produce(ch)) && s.prod.PCheck? && !ProduceStep(s, ch).fault
    ensures Moves(s, ProduceStep(s, ch), Reuses(s, Produce(ch)))
  {
    hide Shaped;
  }

  lemma GrowMoves(s: State, ch: Choice)
    requires Shaped(s) && Enabled(s, Produce(ch)) && s.prod.PGrow? && !ProduceStep(s, ch).fault
    ensures Moves(s, ProduceStep(s, ch), false)
  {
    hide GrownEntries, Shaped;
  }

  lemma BlockMoves(s: State, ch: Choice)
    requires Shaped(s) && Enabled(s, Produce(ch)) && !ProduceStep(s, ch).fault
    requires s.prod.PRoom? || s.prod.PAlloc? || s.prod.PClear? || s.prod.PLink?
    ensures Moves(s, ProduceStep(s, ch), false)
  {
    hide I.Blk, I.Off, Shaped;
  }

  lemma FillMoves(s: State, ch: Choice)
    requires Shaped(s) && Enabled(s, Produce(ch)) && !ProduceStep(s, ch).fault
    requires s.prod.PReset? || s.prod.PBase? || s.prod.PEntry? || s.prod.PFront? || s.prod.PWrite? || s.prod.PPublish?
    ensures Moves(s, ProduceStep(s, ch), false)
  {
    hide I.Blk, I.Off, Shaped;
  }

  lemma ProduceWithin(s: State, ch: Choice, limit: nat)
    requires Inv(s) && Shaped(s) && Enabled(s, Produce(ch)) && Within(s, limit)
    requires Reuses(s, Produce(ch)) ==> HasRoom(s, limit)
    requires !ProduceStep(s, ch).fault
    ensures Within(ProduceStep(s, ch), limit)
  {
    hide Inv, Shaped, ProduceStep, Reuses, BlockEnd;
    TailInBlock(s);
    NextEnd(s.bs, s.last);
    ProduceMoves(s, ch);
  }

  lemma ProduceMoves(s: State, ch: Choice)
    requires Shaped(s) && Enabled(s, Produce(ch)) && !ProduceStep(s, ch).fault
    ensures Moves(s, ProduceStep(s, ch), Reuses(s, Produce(ch)))
  {
    hide Shaped, ProduceStep, Moves, CheckStep;
    match s.prod {
      case PCheck(_, _) => CheckMoves(s, ch);
      case PGrow(_) => GrowMoves(s, ch);
      case PRoom(_) => BlockMoves(s, ch);
      case PAlloc(_) => BlockMoves(s, ch);
      case PClear(_, _, _) => BlockMoves(s, ch);
      case PLink(_, _) => BlockMoves(s, ch);
      case _ => FillMoves(s, ch);
    }
  }

  /** The consumers only move the head on. */
  lemma ConsumeWithin(s: State, t: Tid)
    requires Shaped(s) && Enabled(s, Consume(t))
    ensures s.tk.threads[t].Holding? ==> Leaves(s, ConsumeStep(s, t))
    ensures !s.tk.threads[t].Holding? ==> Leaves(s, TicketStep(s, t))
  {
    hide I.Blk, I.Off;
  }

  predicate Leaves(s: State, u: State) {
    && u.bs == s.bs && u.limit == s.limit && u.last == s.last && u.prod == s.prod
    && u.tk.tail == s.tk.tail && u.tk.head >= s.tk.head
  }

  lemma NextWithin(s: State, a: Action, limit: nat)
    requires Inv(s) && Shaped(s) && Enabled(s, a) && Within(s, limit)
    requires Reuses(s, a) ==> HasRoom(s, limit)
    ensures Within(Next(s, a), limit)
  {
    NextKeepsInv(s, a);
    assert !Next(s, a).fault;
    hide Inv, Shaped, ProduceStep, ConsumeStep, TicketStep, Reuses, BlockEnd;
    match a {
      case Enqueue(v) =>
      case Produce(ch) => ProduceWithin(s, ch, limit);
      case Dequeue(t) =>
      case Consume(t) => ConsumeWithin(s, t);
    }
  }

  lemma {:induction false} ReachableWithin(c: Config, run: seq<Action>, limit: nat)
    requires ConfigOk(c) && Run(c, run).Some? && c.limit == Some(limit) && ReusesWithRoom(c, run, limit)
    ensures Within(Run(c, run).value, limit)
    decreases |run|
  {
    hide Inv, Shaped, Next, Enabled, Reuses;
    if run != [] {
      ReachableWithin(c, run[..|run| - 1], limit);
      ReachableInv(c, run[..|run| - 1]);
      NextWithin(Run(c, run[..|run| - 1]).value, run[|run| - 1], limit);
    }
  }

  /** As long as blocks are taken over only when there is room for one, the limit holds. */
  lemma LimitWhileRoom(c: Config, run: seq<Action>, limit: nat)
    requires ConfigOk(c) && Run(c, run).Some? && c.limit == Some(limit) && ReusesWithRoom(c, run, limit)
    ensures Run(c, run).value.tk.tail - Run(c, run).value.tk.head <= limit
  {
    ReachableWithin(c, run, limit);
    ReachableInv(c, run);
    TailInBlock(Run(c, run).value);
    hide Run, Inv, ReusesWithRoom;
  }

  // ----- what threads can do by themselves -----

  lemma Do(c: Config, run: seq<Action>, a: Action) returns (more: seq<Action>)
    requires ConfigOk(c) && Run(c, run).Some? && Enabled(Run(c, run).value, a)
    ensures Inv(Run(c, run).value) && Shaped(Run(c, run).value)
    ensures more == run + [a] && Run(c, more) == Some(Next(Run(c, run).value, a))
    ensures Inv(Run(c, more).value) && Shaped(Run(c, more).value) && !Run(c, more).value.fault
  {
    hide Inv, Shaped, Next, Enabled;
    ReachableInv(c, run);
    more := run + [a];
    assert more[..|more| - 1] == run;
    ReachableInv(c, more);
    NeverFaults(c, more);
  }

  const ANY: Choice := Choice(true, None, Entry(0, 0))

  /** In the middle of filling a block. */
  predicate Fills(s: State) {
    s.prod.PReset? || s.prod.PBase? || s.prod.PEntry? || s.prod.PFront? || s.prod.PWrite? || s.prod.PPublish? ||
    (s.prod.PIdle? && I.Off(s.bs, s.tk.tail) != 0)
  }

  function Stage(s: State): nat {
    match s.prod
    case PReset(_, i) => if i < s.bs then s.bs - i + 5 else 5
    case PBase(_) => 5
    case PEntry(_) => 4
    case PFront(_) => 3
    case PWrite(_) => 2
    case PPublish(_) => 1
    case _ => 3
  }

  function Onward(s: State): Action { if s.prod.PIdle? then Enqueue(0) else Produce(ANY) }

  /** A step that fills: steady, and closer to the end of the block. */
  predicate Fuller(s: State, u: State) {
    && (u.prod.PIdle? || Fills(u)) && Steady(s, u) && u.last == s.last
    && (if u.prod.PIdle? then u.tk.tail == s.tk.tail + 1 else u.tk.tail == s.tk.tail && Stage(u) < Stage(s))
  }

  lemma ResetFills(s: State)
    requires Inv(s) && Shaped(s) && s.prod.PReset?
    ensures !ProduceStep(s, ANY).fault ==> Fuller(s, ProduceStep(s, ANY))
  {
    assert s.prod.i < s.bs;
    hide Inv, Shaped, I.Off, I.Blk;
  }

  lemma EntryFills(s: State)
    requires Shaped(s) && (s.prod.PBase? || s.prod.PEntry? || s.prod.PFront?)
    ensures !ProduceStep(s, ANY).fault ==> Fuller(s, ProduceStep(s, ANY))
  {
    hide Shaped, I.Off, I.Blk;
  }

  lemma WriteFills(s: State)
    requires Shaped(s) && (s.prod.PWrite? || s.prod.PPublish?)
    ensures !ProduceStep(s, ANY).fault ==> Fuller(s, ProduceStep(s, ANY))
  {
    hide Shaped, I.Off, I.Blk;
  }

  /** One step of a producer that is filling a block. */
  lemma FillStep(s: State)
    requires Inv(s) && Shaped(s) && Fills(s)
    ensures Enabled(s, Onward(s)) && (!Next(s, Onward(s)).fault ==> Fuller(s, Next(s, Onward(s))))
  {
    hide Inv, Shaped, I.Blk, ProduceStep;
    if s.prod.PReset? {
      hide Fuller;
      ResetFills(s);
    } else if s.prod.PWrite? || s.prod.PPublish? {
      hide Fuller;
      WriteFills(s);
    } else if !s.prod.PIdle? {
      hide Fuller;
      EntryFills(s);
    }
  }

  /** Only the producer's part has changed. */
  predicate Steady(s: State, u: State) {
    && u.bs == s.bs && u.limit == s.limit && u.cons == s.cons
    && u.tk == s.tk.(tail := u.tk.tail) && |u.ring| == |s.ring|
    && u.used == s.used && u.size == s.size && (u.headers == [] <==> s.headers == [])
    && |s.log.stage| <= |u.log.stage| && u.log.stage[..|s.log.stage|] == s.log.stage
  }

  lemma SteadyTwice(s: State, u: State, w: State)
    requires Steady(s, u) && Steady(u, w)
    ensures Steady(s, w)
  {
    assert w.log.stage[..|s.log.stage|] == w.log.stage[..|u.log.stage|][..|s.log.stage|];
  }

  /** By itself the producer can fill the block it has begun: nothing is tested any more. */
  lemma FillBlock(c: Config, run: seq<Action>) returns (more: seq<Action>)
    requires ConfigOk(c) && Run(c, run).Some? && Fills(Run(c, run).value)
    ensures run <= more && Run(c, more).Some?
    ensures var s, u := Run(c, run).value, Run(c, more).value;
      u.prod.PIdle? && u.tk.tail == End(s) && Steady(s, u) && u.last == s.last
    decreases End(Run(c, run).value) - Run(c, run).value.tk.tail, Stage(Run(c, run).value)
  {
    var s := Run(c, run).value;
    ReachableInv(c, run);
    hide Run, Inv, Shaped, Next, Onward, Enabled, Fills, BlockEnd, Stage, I.Off;
    FillStep(s);
    FillsBelowEnd(s);
    var next := Do(c, run, Onward(s));
    var u := Run(c, next).value;
    FillsOrEnds(u);
    hide Fuller;
    assert Steady(s, u) && u.last == s.last && End(u) == End(s) by { FullerIs(s, u); }
    if u.prod.PIdle? && u.tk.tail == End(u) {
      more := next;
    } else {
      FullerIs(s, u);
      more := FillBlock(c, next);
      SteadyTwice(s, u, Run(c, more).value);
    }
  }

  lemma FullerIs(s: State, u: State)
    requires Fuller(s, u)
    ensures Steady(s, u) && u.last == s.last && End(u) == End(s) && (u.prod.PIdle? || Fills(u))
    ensures u.tk.tail == s.tk.tail + 1 || (u.tk.tail == s.tk.tail && Stage(u) < Stage(s))
  {
  }

  lemma FillsBelowEnd(s: State)
    requires Inv(s) && Fills(s)
    ensures s.tk.tail < End(s)
  {
    TailInBlock(s);
    hide Inv, BlockEnd;
    if s.prod.PIdle? && s.tk.tail == End(s) { EndAligned(s.bs, s.last); }
  }

  lemma EndAligned(bs: nat, n: int)
    requires bs > 0
    ensures I.Off(bs, BlockEnd(bs, n)) == 0
  {
    ModAddMultiple(0, n + 1, bs);
    ModSmall(0, bs);
  }

  lemma FillsOrEnds(s: State)
    requires Inv(s) && (s.prod.PIdle? || Fills(s))
    ensures Fills(s) || s.tk.tail == End(s)
    ensures s.bs > 0
  {
    TailInBlock(s);
    hide Inv, BlockEnd;
  }

  /** Taking a block over without room for it lets the producer exceed the limit. */
  lemma TakeOverExceeds(c: Config, run: seq<Action>, a: Action, limit: nat)
    requires ConfigOk(c) && Run(c, run).Some? && Enabled(Run(c, run).value, a)
    requires Reuses(Run(c, run).value, a) && !HasRoom(Run(c, run).value, limit)
    ensures exists more :: run + [a] <= more && Run(c, more).Some? && Run(c, more).value.tk.tail - Run(c, more).value.tk.head > limit
  {
    var s := Run(c, run).value;
    var next := Do(c, run, a);
    var u := Run(c, next).value;
    TakenOver(s, a);
    hide Run, Inv, Shaped, Next, Reuses, Enabled, BlockEnd;
    TailInBlock(u);
    var more := FillBlock(c, next);
  }

  lemma TakenOver(s: State, a: Action)
    requires Shaped(s) && Enabled(s, a) && Reuses(s, a)
    ensures var u := Next(s, a);
      u.prod.PReset? && u.tk == s.tk && u.bs == s.bs && u.log == s.log && u.cons == s.cons
  {
    hide Shaped;
  }

  // ----- a run that exceeds the limit -----

  /** Nothing but the producer's position, flags and unlinked blocks may have changed. */
  predicate Keeps(s: State, u: State) { Steady(s, u) && u.tk == s.tk && u.log == s.log && u.last == s.last }

  /** The block ahead still has elements: the scan of its flags ends at the room test. */
  lemma ScanToRoom(c: Config, run: seq<Action>) returns (more: seq<Action>)
    requires ConfigOk(c) && Run(c, run).Some? && Run(c, run).value.prod.PCheck?
    requires var s := Run(c, run).value; !AllMarked(s.log.stage, s.bs, Low(s.ring, s.last))
    ensures Run(c, more).Some? && Run(c, more).value.prod.PRoom? && Keeps(Run(c, run).value, Run(c, more).value)
    decreases Run(c, run).value.bs - Run(c, run).value.prod.i
  {
    var s := Run(c, run).value;
    ReachableInv(c, run);
    AheadIsOldest(s, s.prod.v, s.prod.i);
    ScanStep(s);
    hide Run, Inv, Shaped, Next, AllMarked, Low, Keeps;
    more := Do(c, run, Produce(ANY));
    if Run(c, more).value.prod.PCheck? {
      var next := more;
      more := ScanToRoom(c, next);
      KeepsTwice(s, Run(c, next).value, Run(c, more).value);
    }
  }

  lemma KeepsTwice(s: State, u: State, w: State)
    requires Keeps(s, u) && Keeps(u, w)
    ensures Keeps(s, w)
  {
    SteadyTwice(s, u, w);
  }

  lemma ScanStep(s: State)
    requires Inv(s) && Shaped(s) && s.prod.PCheck? && !AllMarked(s.log.stage, s.bs, Low(s.ring, s.last))
    ensures var u := Next(s, Produce(ANY));
      && Keeps(s, u) && Low(u.ring, u.last) == Low(s.ring, s.last)
      && (u.prod.PRoom? || (u.prod.PCheck? && s.prod.i < u.prod.i <= s.bs))
  {
    AheadIsOldest(s, s.prod.v, s.prod.i);
    if CheckStep(s, s.prod.v, s.prod.i).prod.PReset? {
      AllFlagsSet(s, s.prod.v, s.prod.i);
      assert false;
    }
    hide Inv, AllMarked, I.Blk, I.Off;
  }

  lemma ClearBlock(c: Config, run: seq<Action>) returns (more: seq<Action>)
    requires ConfigOk(c) && Run(c, run).Some? && Run(c, run).value.prod.PClear?
    ensures Run(c, more).Some? && Run(c, more).value.prod.PLink? && Keeps(Run(c, run).value, Run(c, more).value)
    decreases Run(c, run).value.bs - Run(c, run).value.prod.i
  {
    var s := Run(c, run).value;
    more := Do(c, run, Produce(ANY));
    ClearStep(s);
    hide Run, Inv, Shaped, Next, Keeps;
    if Run(c, more).value.prod.PClear? {
      var next := more;
      more := ClearBlock(c, next);
      KeepsTwice(s, Run(c, next).value, Run(c, more).value);
    }
  }

  lemma ClearStep(s: State)
    requires Inv(s) && Shaped(s) && s.prod.PClear?
    ensures var u := Next(s, Produce(ANY));
      !u.fault ==> Keeps(s, u) && (u.prod.PLink? || (u.prod.PClear? && s.prod.i < u.prod.i <= s.bs))
  {
    assert s.prod.i < s.bs;
    hide Inv, Shaped, I.Blk, I.Off;
  }

  /** One more block in the list, and nothing else changed. */
  predicate OneBlockMore(s: State, u: State) {
    && u.tk == s.tk && u.log == s.log && u.cons == s.cons && u.bs == s.bs && u.limit == s.limit
    && u.last == s.last + 1 && |u.ring| == |s.ring| + 1 && u.used == s.used + 1 && u.size == s.size && u.headers != []
  }

  predicate MayLink(s: State, limit: nat) {
    s.limit == Some(limit) && limit > 0 && HasRoom(s, limit) && s.used < s.size && s.headers != []
  }

  lemma LinkNew(c: Config, run: seq<Action>, limit: nat) returns (more: seq<Action>)
    requires ConfigOk(c) && Run(c, run).Some? && Run(c, run).value.prod.PRoom? && MayLink(Run(c, run).value, limit)
    ensures Run(c, more).Some? && Run(c, more).value.prod.PBase? && OneBlockMore(Run(c, run).value, Run(c, more).value)
  {
    var s0 := Run(c, run).value;
    var r1 := Do(c, run, Produce(ANY));
    var s1 := Run(c, r1).value;
    RoomToAlloc(s0, limit);
    var r2 := Do(c, r1, Produce(ANY.(block := Some(|s1.blocks|))));
    var s2 := Run(c, r2).value;
    AllocToClear(s1);
    hide Next;
    var r3 := ClearBlock(c, r2);
    var s3 := Run(c, r3).value;
    more := Do(c, r3, Produce(ANY));
    LinkToBase(s3);
    hide Run, Inv, Shaped;
  }

  lemma RoomToAlloc(s: State, limit: nat)
    requires Shaped(s) && s.prod.PRoom? && MayLink(s, limit)
    ensures var u := Next(s, Produce(ANY)); !u.fault ==> u == s.(prod := PAlloc(s.prod.v))
  {
    hide Shaped;
  }

  lemma AllocToClear(s: State)
    requires Shaped(s) && s.prod.PAlloc? && s.headers != []
    ensures var u := Next(s, Produce(ANY.(block := Some(|s.blocks|)))); u.prod.PClear? && Keeps(s, u)
  {
    hide Shaped;
  }

  lemma LinkToBase(s: State)
    requires Shaped(s) && s.prod.PLink? && s.headers != []
    ensures var u := Next(s, Produce(ANY)); !u.fault ==> u.prod.PBase? && OneBlockMore(s, u)
  {
    hide Shaped;
  }

  /** A whole new block, filled: what its first enqueue needs, and what it leaves. */
  predicate Appended(s: State, u: State) {
    && u.prod.PIdle? && u.tk == s.tk.(tail := s.tk.tail + s.bs) && u.cons == s.cons && u.bs == s.bs && u.limit == s.limit
    && u.last == s.last + 1 && |u.ring| == |s.ring| + 1 && u.used == s.used + 1 && u.size == s.size && u.headers != []
    && |s.log.stage| <= |u.log.stage| && u.log.stage[..|s.log.stage|] == s.log.stage
  }

  /** The block ahead still has elements, if there is one: an enqueue gets to the room test. */
  lemma BeginBlock(c: Config, run: seq<Action>) returns (more: seq<Action>)
    requires ConfigOk(c) && Run(c, run).Some? && Run(c, run).value.prod.PIdle?
    requires I.Off(Run(c, run).value.bs, Run(c, run).value.tk.tail) == 0
    requires var s := Run(c, run).value; s.ring != [] ==> !AllMarked(s.log.stage, s.bs, Low(s.ring, s.last))
    ensures Run(c, more).Some? && Run(c, more).value.prod.PRoom? && Keeps(Run(c, run).value, Run(c, more).value)
  {
    var s := Run(c, run).value;
    more := Do(c, run, Enqueue(0));
    ReachableInv(c, run);
    StartsBlock(s);
    hide Run, Inv, Shaped, Next, AllMarked, Low, I.Off;
    if Run(c, more).value.prod.PCheck? {
      more := ScanToRoom(c, more);
    }
  }

  lemma AppendBlock(c: Config, run: seq<Action>, limit: nat) returns (more: seq<Action>)
    requires ConfigOk(c) && Run(c, run).Some? && Run(c, run).value.prod.PIdle? && MayLink(Run(c, run).value, limit)
    requires I.Off(Run(c, run).value.bs, Run(c, run).value.tk.tail) == 0
    requires var s := Run(c, run).value; s.ring != [] ==> !AllMarked(s.log.stage, s.bs, Low(s.ring, s.last))
    ensures Run(c, more).Some? && Appended(Run(c, run).value, Run(c, more).value)
  {
    var s := Run(c, run).value;
    hide Run, Inv, Shaped, Next, AllMarked, Low, I.Off, BlockEnd;
    var r2 := BeginBlock(c, run);
    var r3 := LinkNew(c, r2, limit);
    var s3 := Run(c, r3).value;
    more := FillBlock(c, r3);
    ReachableInv(c, r3);
    TailInBlock(s3);
  }

  lemma StartsBlock(s: State)
    requires Inv(s) && Shaped(s) && s.prod.PIdle? && I.Off(s.bs, s.tk.tail) == 0
    ensures var u := Next(s, Enqueue(0));
      u == s.(prod := u.prod) && if s.ring == [] then u.prod.PRoom? else u.prod.PCheck?
  {
    hide Shaped, I.Blk, T.Inv, FlagsOk, SlotsOk, HeadersOk, ElementsOk, ConsOk;
  }

  /** The producer and the list are as they were; consumer t may have moved. */
  predicate Aside(s: State, u: State, t: Tid) {
    && u.prod == s.prod && u.bs == s.bs && u.limit == s.limit && u.last == s.last && u.ring == s.ring
    && u.used == s.used && u.size == s.size && u.headers == s.headers
    && u.tk.tail == s.tk.tail && u.tk.overcommit == s.tk.overcommit
    && t < |s.cons| == |s.tk.threads| == |u.tk.threads| == |u.cons|
    && u.tk.threads == s.tk.threads[t := u.tk.threads[t]] && u.cons == s.cons[t := u.cons[t]]
  }

  lemma AsideTwice(s: State, u: State, w: State, t: Tid)
    requires Aside(s, u, t) && Aside(u, w, t)
    ensures Aside(s, w, t)
  {
  }

  /** Every dequeue that began has claimed, and there is something left to claim. */
  predicate Ready(s: State) { s.tk.optimistic == s.tk.head < s.tk.tail && s.tk.overcommit == 0 }

  /** Consumer t is on its way to the index at the head. */
  predicate Claims(s: State, t: Tid) {
    && t < |s.tk.threads| && s.tk.overcommit == 0 && s.tk.head < s.tk.tail
    && match s.tk.threads[t]
       case Start(max) => max == 1 && s.tk.optimistic == s.tk.head
       case HaveTail(max, tail) => max == 1 && tail == s.tk.tail && s.tk.optimistic == s.tk.head
       case HaveOver(max, tail, over) => max == 1 && tail == s.tk.tail && over == 0 && s.tk.optimistic == s.tk.head
       case Draw(want, over) => want == 1 && over == 0 && s.tk.optimistic == s.tk.head
       case Drawn(want, over, m) => want == 1 && over == 0 && m == s.tk.head && s.tk.optimistic == m + 1
       case Claiming(got) => got == 1 && s.tk.optimistic == s.tk.head + 1
       case _ => false
  }

  function Left(p: T.Pc): nat {
    match p case Start(_) => 5 case HaveTail(_, _) => 4 case HaveOver(_, _, _) => 3 case Draw(_, _) => 2 case Drawn(_, _, _) => 1 case _ => 0
  }

  predicate Claimed(s: State, u: State, t: Tid) {
    && Aside(s, u, t) && u.log.stage == s.log.stage
    && u.tk.head == s.tk.head + 1 == u.tk.optimistic && u.cons[t] == CIndex(s.tk.head)
    && u.tk.threads[t] == T.Holding(s.tk.head, 1)
  }

  lemma ClaimStep(s: State, t: Tid)
    requires Shaped(s) && Claims(s, t) && t < |s.cons| == |s.tk.threads|
    ensures Enabled(s, Consume(t))
    ensures var u := Next(s, Consume(t));
      if s.tk.threads[t].Claiming? then Claimed(s, u, t)
      else Claims(u, t) && Aside(s, u, t) && u.cons == s.cons && u.log == s.log && u.tk.head == s.tk.head && Left(u.tk.threads[t]) < Left(s.tk.threads[t])
  {
    hide Shaped;
  }

  lemma ClaimOn(c: Config, run: seq<Action>, t: Tid) returns (more: seq<Action>)
    requires ConfigOk(c) && Run(c, run).Some? && Claims(Run(c, run).value, t)
    ensures Run(c, more).Some? && Claimed(Run(c, run).value, Run(c, more).value, t)
    decreases Left(Run(c, run).value.tk.threads[t])
  {
    var s := Run(c, run).value;
    ReachableInv(c, run);
    hide Run, Inv, Next, Claims, Aside, Enabled;
    ClaimStep(s, t);
    more := Do(c, run, Consume(t));
    var u := Run(c, more).value;
    if !s.tk.threads[t].Claiming? {
      more := ClaimOn(c, more, t);
      AsideTwice(s, u, Run(c, more).value, t);
    }
  }

  /** A consumer claims the index at the head. */
  lemma Claim(c: Config, run: seq<Action>, t: Tid) returns (more: seq<Action>)
    requires ConfigOk(c) && Run(c, run).Some?
    requires var s := Run(c, run).value; Ready(s) && t < |s.tk.threads| && s.tk.threads[t].Idle?
    ensures Run(c, more).Some? && Claimed(Run(c, run).value, Run(c, more).value, t)
  {
    var s := Run(c, run).value;
    var next := Do(c, run, Dequeue(t));
    var u := Run(c, next).value;
    assert Claims(u, t) && Aside(s, u, t) && u.cons == s.cons && u.log == s.log && u.tk.head == s.tk.head;
    hide Run, Inv, Shaped, Next, Claims, Aside;
    more := ClaimOn(c, next, t);
    AsideTwice(s, u, Run(c, more).value, t);
  }

  function ToGo(c: Con): nat {
    match c case CIndex(_) => 5 case CFront(_, _) => 4 case CBase(_, _, _, _) => 3 case CBlock(_, _, _, _) => 2 case CMove(_, _) => 1 case _ => 0
  }

  /** Consumer t has delivered the index it held and marked it. */
  predicate Finished(s: State, u: State, t: Tid) {
    && Aside(s, u, t) && u.tk == s.tk.(threads := u.tk.threads) && u.tk.threads[t].Idle? && !s.cons[t].CIdle?
    && s.cons[t].i < |s.log.stage| && u.log.stage == s.log.stage[s.cons[t].i := I.Marked]
  }

  predicate Holds(s: State, t: Tid) { t < |s.cons| == |s.tk.threads| && s.tk.threads[t].Holding? && !s.cons[t].CIdle? && s.cons[t].i < |s.log.stage| }

  /** Consumer t is closer to having marked its index. */
  predicate Further(s: State, u: State, t: Tid) {
    && Holds(s, t) && Holds(u, t) && Aside(s, u, t) && u.tk == s.tk && u.cons[t].i == s.cons[t].i
    && (u.log.stage == s.log.stage || u.log.stage == s.log.stage[s.cons[t].i := I.Taken])
    && ToGo(u.cons[t]) < ToGo(s.cons[t])
  }

  lemma LookStep(s: State, t: Tid)
    requires Shaped(s) && Holds(s, t) && !s.cons[t].CMove? && !s.cons[t].CMark?
    ensures var u := ConsumeStep(s, t);
      !u.fault ==> Further(s, u, t)
  {
    hide Shaped, I.Blk;
  }

  lemma MoveStepOn(s: State, t: Tid)
    requires Shaped(s) && Holds(s, t) && s.cons[t].CMove?
    ensures var u := ConsumeStep(s, t);
      !u.fault ==> Further(s, u, t)
  {
    hide I.Blk, I.Off;
  }

  lemma MarkStepOn(s: State, t: Tid)
    requires Shaped(s) && Holds(s, t) && s.cons[t].CMark?
    ensures var u := ConsumeStep(s, t); !u.fault ==> Finished(s, u, t)
  {
    hide I.Blk, I.Off;
  }

  lemma FinishedTwice(s: State, u: State, w: State, t: Tid)
    requires Further(s, u, t) && Finished(u, w, t)
    ensures Finished(s, w, t)
  {
    AsideTwice(s, u, w, t);
  }

  lemma HeldStep(c: Config, run: seq<Action>, t: Tid) returns (more: seq<Action>)
    requires ConfigOk(c) && Run(c, run).Some? && Holds(Run(c, run).value, t)
    ensures Run(c, more).Some?
    ensures var s, u := Run(c, run).value, Run(c, more).value;
      if s.cons[t].CMark? then Finished(s, u, t) else Further(s, u, t)
  {
    var s := Run(c, run).value;
    ReachableInv(c, run);
    hide Run, Inv, Shaped, Finished, Further, ConsumeStep;
    more := Do(c, run, Consume(t));
    if s.cons[t].CMark? { MarkStepOn(s, t); } else if s.cons[t].CMove? { MoveStepOn(s, t); } else { LookStep(s, t); }
  }

  /** A consumer that has claimed an index delivers it and marks it by itself: nothing can stop it. */
  lemma FinishOff(c: Config, run: seq<Action>, t: Tid) returns (more: seq<Action>)
    requires ConfigOk(c) && Run(c, run).Some? && Holds(Run(c, run).value, t)
    ensures Run(c, more).Some? && Finished(Run(c, run).value, Run(c, more).value, t)
    decreases ToGo(Run(c, run).value.cons[t])
  {
    more := HeldStep(c, run, t);
    hide Run, Finished, Aside, ToGo;
    var s, u := Run(c, run).value, Run(c, more).value;
    if !s.cons[t].CMark? {
      more := FinishOff(c, more, t);
      FinishedTwice(s, u, Run(c, more).value, t);
    }
  }

  lemma AheadIsSet(s: State)
    requires Inv(s) && s.prod.PCheck? && AllMarked(s.log.stage, s.bs, Low(s.ring, s.last))
    ensures s.ring != [] && s.ring[0] < |s.blocks| && s.prod.i < s.bs
    ensures s.tailBlock.Some? && s.tailBlock.value < |s.blocks| && s.blocks[s.tailBlock.value].next == s.ring[0]
    ensures |s.blocks[s.ring[0]].flags| == s.bs && forall r :: 0 <= r < s.bs ==> s.blocks[s.ring[0]].flags[r]
  {
    AheadIsOldest(s, s.prod.v, s.prod.i);
    var b, n := s.blocks[s.ring[0]], Low(s.ring, s.last);
    assert BlockFlagsOk(b, n + 0, s.log.stage, s.bs, s.prod, 0 == |s.ring| - 1);
    hide Inv;
    forall r | 0 <= r < s.bs ensures b.flags[r] {
      assert V.IsMarked(s.log.stage, s.bs * n + (s.bs - 1 - r));
    }
  }

  /** The block ahead is empty: the scan of its flags ends by taking it over. */
  lemma ScanToEnd(c: Config, run: seq<Action>) returns (more: seq<Action>)
    requires ConfigOk(c) && Run(c, run).Some? && Run(c, run).value.prod.PCheck?
    requires var s := Run(c, run).value; AllMarked(s.log.stage, s.bs, Low(s.ring, s.last))
    ensures Run(c, more).Some? && Enabled(Run(c, more).value, Produce(ANY)) && Reuses(Run(c, more).value, Produce(ANY))
    ensures Run(c, more).value.tk == Run(c, run).value.tk && Run(c, more).value.bs == Run(c, run).value.bs
    decreases Run(c, run).value.bs - Run(c, run).value.prod.i
  {
    var s := Run(c, run).value;
    ReachableInv(c, run);
    hide Run, Inv, Shaped, AllMarked, Low;
    AheadIsSet(s);
    if s.prod.i + 1 < s.bs {
      more := Do(c, run, Produce(ANY));
      assert Run(c, more).value == s.(prod := PCheck(s.prod.v, s.prod.i + 1));
      more := ScanToEnd(c, more);
    } else {
      more := run;
    }
  }

  /** Blocks of two elements, a limit of two, two consumers. */
  const SMALL: Config := Config(2, Some(2), 1, true, Entry(0, 0), 2)

  /** Both elements of the first block are claimed, so there is room for a second block, which is
      filled; the claimed ones are still there, so the first block was not taken over. */
  lemma TwoBlocks() returns (run: seq<Action>)
    ensures Run(SMALL, run).Some?
    ensures var s := Run(SMALL, run).value;
      && s.prod.PIdle? && s.bs == 2 && s.last == 1 && |s.ring| == 2 && s.tk.tail == 4 && s.tk.head == 2
      && Holds(s, 0) && Holds(s, 1) && s.cons[0].i == 0 && s.cons[1].i == 1
  {
    run := AppendBlock(SMALL, [], 2);
    var s1 := Run(SMALL, run).value;
    ReachableInv(SMALL, run);
    Unclaimed(s1);
    hide Run, Inv;
    run := Claim(SMALL, run, 0);
    run := Claim(SMALL, run, 1);
    var s := Run(SMALL, run).value;
    assert !AllMarked(s.log.stage, 2, 0) by { assert !V.IsMarked(s.log.stage, 0); }
    run := AppendBlock(SMALL, run, 2);
    ReachableInv(SMALL, run);
    LogLength(Run(SMALL, run).value);
  }

  lemma LogLength(s: State)
    requires Inv(s)
    ensures |s.log.stage| == s.tk.tail && |s.cons| == |s.tk.threads|
  {
    hide T.Inv, RingOk, FlagsOk, SlotsOk, HeadersOk, CurrentOk, ProdOk, ElementsOk;
  }

  lemma Unclaimed(s: State)
    requires Inv(s) && s.tk.head == 0
    ensures forall j :: 0 <= j < |s.log.stage| ==> s.log.stage[j].Fresh?
    ensures |s.log.stage| == s.tk.tail
  {
    forall j | 0 <= j < |s.log.stage| ensures s.log.stage[j].Fresh? {
      assert ElementOk(s.blocks, s.ring, s.last, s.log, s.tk.threads, s.bs, j);
    }
  }

  /** The limit can be exceeded: the consumers finish, the first block is empty, and the producer
      takes it over although the second one is full. */
  lemma LimitExceeded()
    ensures exists run :: Run(SMALL, run).Some? && Run(SMALL, run).value.tk.tail - Run(SMALL, run).value.tk.head > SMALL.limit.value
  {
    var run := TwoBlocks();
    hide Run, Inv, Shaped, Next;
    run := FinishOff(SMALL, run, 0);
    run := FinishOff(SMALL, run, 1);
    var s := Run(SMALL, run).value;
    assert AllMarked(s.log.stage, 2, 0);
    ReachableInv(SMALL, run);
    StartsBlock(s);
    run := Do(SMALL, run, Enqueue(0));
    run := ScanToEnd(SMALL, run);
    TakeOverExceeds(SMALL, run, Produce(ANY), 2);
  }
}
