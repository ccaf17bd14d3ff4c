// The explicit producer's operations when they meet no other: a dequeue delivers the element at the
// head if there is one, and an enqueue publishes its element exactly when it needs no block, finds
// the block ahead empty, or has room for another block.

module ExplicitAlone {
  import opened Wrappers
  import opened ModArith
  import opened ExplicitProducer
  import opened ExplicitInvariant
  import opened ExplicitEnqueue
  import opened ExplicitTake
  import opened ExplicitQueue
  import T = Tickets
  import A = TicketsAlone
  import I = ImplicitProducer
  import L = ExplicitLimit

  // ----- dequeue -----

  ghost predicate Quiet(threads: seq<T.Pc>) { forall t :: 0 <= t < |threads| ==> threads[t].Idle? }

  /** The consumer's own steps. */
  function Own(t: Tid, k: nat): seq<Action> { seq(k, _ => Consume(t)) }

  lemma OneMoreStep(run: seq<Action>, t: Tid, k: nat)
    ensures run + [Consume(t)] + Own(t, k) == run + Own(t, k + 1)
  {
    assert [Consume(t)] + Own(t, k) == Own(t, k + 1);
  }

  lemma OwnSum(run: seq<Action>, t: Tid, j: nat, i: nat)
    ensures run + Own(t, j) + Own(t, i) == run + Own(t, j + i)
  {
    assert Own(t, j) + Own(t, i) == Own(t, j + i);
  }

  lemma Do(c: Config, run: seq<Action>, s: State, a: Action) returns (more: seq<Action>, u: State)
    requires ConfigOk(c) && Run(c, run) == Some(s) && Shaped(s) && Enabled(s, a)
    ensures more == run + [a] && Run(c, more) == Some(u) && u == Next(s, a)
    ensures Inv(u) && Shaped(u) && !u.fault
    ensures Deliveries(c, more) == match Delivery(s, a) case Some(d) => Deliveries(c, run) + [d] case None => Deliveries(c, run)
  {
    hide Inv, Shaped, Next, Enabled, Delivery;
    more := run + [a];
    assert more[..|more| - 1] == run;
    u := Next(s, a);
    ReachableInv(c, more);
    NeverFaults(c, more);
  }

  /** Only consumer t has moved; what is published and the producer are as they were. */
  predicate OnlyMoved(s: State, u: State, t: Tid) {
    && u.log.enq == s.log.enq && u.prod == s.prod && u.tk.tail == s.tk.tail && u.bs == s.bs
    && t < |s.cons| == |s.tk.threads| == |u.cons| == |u.tk.threads|
    && u.cons == s.cons[t := u.cons[t]] && u.tk.threads == s.tk.threads[t := u.tk.threads[t]]
  }

  lemma MovedTwice(s: State, u: State, w: State, t: Tid)
    requires OnlyMoved(s, u, t) && OnlyMoved(u, w, t)
    ensures OnlyMoved(s, w, t)
  {
  }

  /** One step of the search for an index: it is claimed, given up, or closer. */
  predicate Sought(s: State, u: State, t: Tid) {
    && OnlyMoved(s, u, t)
    && if s.tk.threads[t].Claiming? then
         u.tk.threads[t] == T.Holding(s.tk.head, 1) && u.tk.head == s.tk.head + 1 && u.cons[t] == CIndex(s.tk.head)
       else
         u.tk.head == s.tk.head && u.cons == s.cons &&
         if s.tk.threads[t].HaveOver? && s.tk.tail <= s.tk.head then u.tk.threads[t].Idle?
         else A.Seeking(u.tk, t, 1) && A.Left(u.tk.threads[t]) < A.Left(s.tk.threads[t])
  }

  lemma SeekOnce(s: State, t: Tid)
    requires Shaped(s) && t < |s.cons| && A.Seeking(s.tk, t, 1)
    ensures Enabled(s, Consume(t)) && Sought(s, Next(s, Consume(t)), t) && Delivery(s, Consume(t)) == None
  {
    A.SeekStep(s.tk, t, 1);
    hide Shaped, T.Next, T.Enabled;
  }

  predicate Found(s: State, u: State, t: Tid) {
    && OnlyMoved(s, u, t)
    && if s.tk.head < s.tk.tail then
         u.tk.threads[t] == T.Holding(s.tk.head, 1) && u.tk.head == s.tk.head + 1 && u.cons[t] == CIndex(s.tk.head)
       else u.tk.threads[t].Idle? && u.tk.head == s.tk.head
  }

  lemma Seek(c: Config, run: seq<Action>, s: State, t: Tid) returns (more: seq<Action>, k: nat, u: State)
    requires ConfigOk(c) && Run(c, run) == Some(s) && t < |s.cons| && A.Seeking(s.tk, t, 1)
    ensures more == run + Own(t, k) && Run(c, more) == Some(u) && Found(s, u, t) && Deliveries(c, more) == Deliveries(c, run)
    decreases A.Left(s.tk.threads[t])
  {
    ReachableInv(c, run);
    hide Run, Inv, Shaped, Next, Enabled, Delivery, Deliveries, A.Seeking;
    SeekOnce(s, t);
    var v;
    more, v := Do(c, run, s, Consume(t));
    SeekingPhase(s.tk, t);
    if v.tk.threads[t].Idle? || v.tk.threads[t].Holding? {
      k, u := 1, v;
      assert Own(t, 1) == [Consume(t)];
      SeekingLasts(v.tk, t);
    } else {
      var next, j := more, 0;
      more, j, u := Seek(c, next, v, t);
      k := j + 1;
      OneMoreStep(run, t, j);
      MovedTwice(s, v, u, t);
    }
  }

  lemma SeekingPhase(s: T.State, t: Tid)
    requires A.Seeking(s, t, 1)
    ensures t < |s.threads| && (s.threads[t].Claiming? ==> s.head < s.tail)
  {
  }

  lemma SeekingLasts(s: T.State, t: Tid)
    requires t < |s.threads| && (s.threads[t].Idle? || s.threads[t].Holding?)
    ensures !A.Seeking(s, t, 1)
  {
  }

  /** Consumer t holds index i, has yet to deliver it or only to mark it. */
  predicate Holds(s: State, t: Tid, i: nat) {
    t < |s.cons| == |s.tk.threads| && s.tk.threads[t] == T.Holding(i, 1) && !s.cons[t].CIdle? && s.cons[t].i == i && i < |s.log.stage|
  }

  /** One step of a consumer that holds index i: it is marked, or closer to being marked. */
  predicate Nearer(s: State, u: State, t: Tid, i: nat)
    requires Holds(s, t, i)
  {
    && OnlyMoved(s, u, t) && u.tk.head == s.tk.head
    && if s.cons[t].CMark? then u.tk.threads[t].Idle?
       else Holds(u, t, i) && L.ToGo(u.cons[t]) < L.ToGo(s.cons[t]) && (u.cons[t].CMark? <==> s.cons[t].CMove?)
  }

  lemma LookNearer(s: State, t: Tid, i: nat)
    requires Shaped(s) && Holds(s, t, i) && !s.cons[t].CMove? && !s.cons[t].CMark?
    ensures !ConsumeStep(s, t).fault ==> Nearer(s, ConsumeStep(s, t), t, i)
    ensures Delivery(s, Consume(t)) == None
  {
    hide Shaped, I.Blk;
  }

  lemma MoveNearer(s: State, t: Tid, i: nat)
    requires Shaped(s) && Holds(s, t, i) && s.cons[t].CMove?
    ensures !ConsumeStep(s, t).fault ==> Nearer(s, ConsumeStep(s, t), t, i)
  {
    hide I.Blk, I.Off;
  }

  lemma MarkNearer(s: State, t: Tid, i: nat)
    requires Shaped(s) && Holds(s, t, i) && s.cons[t].CMark?
    ensures !ConsumeStep(s, t).fault ==> Nearer(s, ConsumeStep(s, t), t, i)
    ensures Delivery(s, Consume(t)) == None
  {
    hide I.Blk, I.Off;
  }

  lemma HeldOnce(s: State, t: Tid, i: nat)
    requires Inv(s) && Shaped(s) && Holds(s, t, i) && !ConsumeStep(s, t).fault
    ensures Nearer(s, ConsumeStep(s, t), t, i)
    ensures if s.cons[t].CMove? then i < |s.log.enq| && Delivery(s, Consume(t)) == Some((i, s.log.enq[i])) else Delivery(s, Consume(t)) == None
  {
    hide Inv, Shaped, ConsumeStep, Nearer, Delivery;
    if s.cons[t].CMark? {
      MarkNearer(s, t, i);
    } else if s.cons[t].CMove? {
      MoveDelivers(s, t);
      MoveNearer(s, t, i);
    } else {
      LookNearer(s, t, i);
    }
  }

  lemma HeldRange(s: State, t: Tid)
    requires Inv(s) && t < |s.cons| == |s.tk.threads| && s.tk.threads[t].Holding?
    ensures s.tk.threads[t].count == 1 && Holds(s, t, s.tk.threads[t].first) && s.tk.threads[t].first < |s.log.enq|
  {
    hide Inv, Stored, I.Blk, Low, FoundBlock, AtFront;
    HeldFacts(s, t);
    HeldIsSingle(s, t);
  }

  lemma HeldIsSingle(s: State, t: Tid)
    requires Inv(s) && t < |s.tk.threads|
    ensures Single(s.tk.threads[t])
  {
    hide T.Inv, RingOk, FlagsOk, SlotsOk, HeadersOk, CurrentOk, ProdOk, ElementsOk, ConsOk;
  }

  /** What a consumer still delivers of the index it holds. */
  function Rest(s: State, t: Tid, i: nat): seq<(int, Elem)>
    requires t < |s.cons| && i < |s.log.enq|
  {
    if s.cons[t].CMark? then [] else [(i, s.log.enq[i])]
  }

  lemma Hold(c: Config, run: seq<Action>, s: State, t: Tid, i: nat) returns (more: seq<Action>, k: nat, u: State)
    requires ConfigOk(c) && Run(c, run) == Some(s) && Holds(s, t, i)
    ensures more == run + Own(t, k) && Run(c, more) == Some(u) && OnlyMoved(s, u, t) && u.tk.threads[t].Idle? && u.tk.head == s.tk.head
    ensures i < |s.log.enq| && Deliveries(c, more) == Deliveries(c, run) + Rest(s, t, i)
    decreases L.ToGo(s.cons[t])
  {
    ReachableInv(c, run);
    HeldRange(s, t);
    hide Run, Inv, Shaped, Deliveries, Delivery, ConsumeStep;
    assert Enabled(s, Consume(t)) && Next(s, Consume(t)) == ConsumeStep(s, t);
    hide Enabled, Next;
    var v;
    more, v := Do(c, run, s, Consume(t));
    HeldOnce(s, t, i);
    if s.cons[t].CMark? {
      k, u := 1, v;
      assert Own(t, 1) == [Consume(t)];
    } else {
      var next, j := more, 0;
      more, j, u := Hold(c, next, v, t, i);
      k := j + 1;
      OneMoreStep(run, t, j);
      MovedTwice(s, v, u, t);
    }
  }

  lemma QuietStart(s: State, t: Tid)
    requires Inv(s) && Shaped(s) && Quiet(s.tk.threads) && t < |s.tk.threads|
    ensures Enabled(s, Dequeue(t)) && s.tk.head <= s.tk.tail == |s.log.enq| && Delivery(s, Dequeue(t)) == None
    ensures var u := Next(s, Dequeue(t)); OnlyMoved(s, u, t) && A.Seeking(u.tk, t, 1) && u.tk.head == s.tk.head
  {
    T.QuietCounters(s.tk);
    T.HeadNeverPassesTail(s.tk);
    hide T.Inv, RingOk, FlagsOk, SlotsOk, HeadersOk, CurrentOk, ProdOk, ConsOk;
  }

  /** A dequeue that meets no other dequeue delivers the element at the head, and ends with nothing if
      and only if there is none. The producer may be in the middle of anything. */
  lemma LoneDequeueDelivers(c: Config, run: seq<Action>, s: State, t: Tid) returns (more: seq<Action>, k: nat, u: State)
    requires ConfigOk(c) && Run(c, run) == Some(s) && Quiet(s.tk.threads) && t < |s.tk.threads|
    ensures more == run + [Dequeue(t)] + Own(t, k) && Run(c, more) == Some(u) && Quiet(u.tk.threads)
    ensures s.tk.head <= s.tk.tail == |Published(c, run)|
    ensures if s.tk.head < s.tk.tail then
              u.tk.head == s.tk.head + 1 && Deliveries(c, more) == Deliveries(c, run) + [(s.tk.head, Published(c, run)[s.tk.head])]
            else u.tk.head == s.tk.head && Deliveries(c, more) == Deliveries(c, run)
  {
    hide Run, Deliveries, Published, A.Seeking, Own, OnlyMoved, Found, Quiet;
    var r1, s1 := BeginAlone(c, run, s, t);
    var j;
    more, j, u := Seek(c, r1, s1, t);
    FoundIs(s1, u, t);
    MovedTwice(s, s1, u, t);
    k := j;
    if s.tk.head < s.tk.tail {
      var w, r2 := u, more;
      more, k, u := HoldAll(c, r2, w, t);
      OwnSum(r1, t, j, k);
      k := j + k;
      MovedTwice(s, w, u, t);
    }
    StaysQuiet(s, u, t);
  }

  lemma FoundIs(s: State, u: State, t: Tid)
    requires Found(s, u, t)
    ensures t < |u.tk.threads| && OnlyMoved(s, u, t)
    ensures if s.tk.head < s.tk.tail then u.tk.threads[t] == T.Holding(s.tk.head, 1) && u.tk.head == s.tk.head + 1 && t < |u.cons| && u.cons[t].CIndex? else u.tk.threads[t].Idle? && u.tk.head == s.tk.head
  {
  }

  lemma BeginAlone(c: Config, run: seq<Action>, s: State, t: Tid) returns (more: seq<Action>, u: State)
    requires ConfigOk(c) && Run(c, run) == Some(s) && Quiet(s.tk.threads) && t < |s.tk.threads|
    ensures more == run + [Dequeue(t)] && Run(c, more) == Some(u) && Deliveries(c, more) == Deliveries(c, run)
    ensures s.tk.head <= s.tk.tail == |s.log.enq| && Published(c, run) == s.log.enq
    ensures OnlyMoved(s, u, t) && u.tk.tail == s.tk.tail && u.log.enq == s.log.enq && t < |u.cons| && A.Seeking(u.tk, t, 1) && u.tk.head == s.tk.head
  {
    ReachableInv(c, run);
    DeliveriesSound(c, run);
    QuietStart(s, t);
    hide Run, Inv, Shaped, Deliveries, Published, Next, Enabled, Delivery;
    more, u := Do(c, run, s, Dequeue(t));
    assert OnlyMoved(s, u, t);
  }

  /** The index that a consumer has claimed is delivered. */
  lemma HoldAll(c: Config, run: seq<Action>, s: State, t: Tid) returns (more: seq<Action>, k: nat, u: State)
    requires ConfigOk(c) && Run(c, run) == Some(s) && t < |s.tk.threads| && s.tk.threads[t].Holding? && t < |s.cons| && s.cons[t].CIndex?
    ensures more == run + Own(t, k) && Run(c, more) == Some(u) && OnlyMoved(s, u, t) && t < |u.tk.threads| && u.tk.threads[t].Idle? && u.tk.head == s.tk.head
    ensures var i := s.tk.threads[t].first; i < |s.log.enq| && Deliveries(c, more) == Deliveries(c, run) + [(i, s.log.enq[i])]
  {
    ReachableInv(c, run);
    hide Run, Inv, Deliveries;
    SameConsumers(s);
    HeldRange(s, t);
    more, k, u := Hold(c, run, s, t, s.tk.threads[t].first);
  }

  lemma SameConsumers(s: State)
    requires Shaped(s)
    ensures |s.cons| == |s.tk.threads|
  {
  }

  lemma StaysQuiet(s: State, u: State, t: Tid)
    requires Quiet(s.tk.threads) && OnlyMoved(s, u, t) && t < |u.tk.threads| && u.tk.threads[t].Idle?
    ensures Quiet(u.tk.threads)
  {
  }

  // ----- enqueue -----

  /** The index and the pool get the memory they ask for. */
  predicate Granted(s: State, ch: Choice) { ch.grow && (s.prod.PAlloc? ==> ch.block.Some?) }

  /** The oldest block of the list has been dequeued completely. */
  predicate EmptyAhead(s: State) { s.ring != [] && AllMarked(s.log.stage, s.bs, Low(s.ring, s.last)) }

  /** The next element falls into the tail block; or the block ahead is empty; or one more block ends
      within the limit. */
  predicate Accepts(s: State) {
    || I.Off(s.bs, s.tk.tail) != 0
    || EmptyAhead(s)
    || (s.limit.Some? ==> s.tk.tail + s.bs - s.tk.head <= s.limit.value)
  }

  /** No element has been published or dequeued. */
  predicate Unchanged(u: State, s: State) { s.tk == u.tk && s.log == u.log && s.bs == u.bs && s.limit == u.limit }

  predicate SameList(u: State, s: State) { s.ring == u.ring && s.last == u.last }

  predicate Published1(u: State, s: State, v: Elem) {
    s.tk == u.tk.(tail := u.tk.tail + 1) && s.log.enq == u.log.enq + [v] && s.log.out == u.log.out
  }

  /** What the enqueue begun in u has come to in s. */
  predicate Going(u: State, v: Elem, s: State) {
    match s.prod
    case PIdle => if Accepts(u) then Published1(u, s, v) else Unchanged(u, s) && SameList(u, s)
    case PCheck(w, _) => w == v && Unchanged(u, s) && SameList(u, s) && I.Off(u.bs, u.tk.tail) == 0
    case PRoom(w) => w == v && Unchanged(u, s) && SameList(u, s) && I.Off(u.bs, u.tk.tail) == 0 && !EmptyAhead(u)
    case _ => s.prod.v == v && Unchanged(u, s) && Accepts(u)
  }

  lemma Starts(s: State, v: Elem)
    requires Inv(s) && Shaped(s) && s.prod.PIdle?
    ensures Going(s, v, Next(s, Enqueue(v)))
  {
    hide Shaped, I.Blk, T.Inv, Singles, FlagsOk, SlotsOk, HeadersOk, CurrentOk, ProdOk, ElementsOk, ConsOk, AllMarked;
  }

  /** The scan of the flags goes on, takes the empty block over, or finds that there is none. */
  lemma ScanGoes(u: State, v: Elem, s: State, ch: Choice)
    requires Inv(s) && Shaped(s) && Enabled(s, Produce(ch)) && s.prod.PCheck? && Going(u, v, s)
    ensures Going(u, v, ProduceStep(s, ch))
  {
    var i := s.prod.i;
    hide Inv, Shaped, I.Off, AllMarked, Low;
    AheadIsOldest(s, v, i);
    if AllMarked(s.log.stage, s.bs, Low(s.ring, s.last)) {
      L.AheadIsSet(s);
    }
    if s.blocks[s.ring[0]].flags[i] && i + 1 == s.bs {
      AllFlagsSet(s, v, i);
    }
  }

  lemma RoomGoes(u: State, v: Elem, s: State, ch: Choice)
    requires Inv(s) && Shaped(s) && Enabled(s, Produce(ch)) && s.prod.PRoom? && Going(u, v, s)
    ensures Going(u, v, ProduceStep(s, ch))
  {
    T.HeadNeverPassesTail(s.tk);
    assert s.bs >= 2;
    hide Inv, Shaped, I.Off, EmptyAhead;
  }

  lemma AcquiringGoes(u: State, v: Elem, s: State, ch: Choice)
    requires Shaped(s) && Enabled(s, Produce(ch)) && Granted(s, ch) && !ProduceStep(s, ch).fault && Going(u, v, s)
    requires s.prod.PGrow? || s.prod.PAlloc? || s.prod.PClear? || s.prod.PLink?
    ensures Going(u, v, ProduceStep(s, ch))
  {
    hide Shaped, I.Off, I.Blk, Accepts, GrownEntries, EmptyAhead, SameList;
  }

  lemma IndexingGoes(u: State, v: Elem, s: State, ch: Choice)
    requires Shaped(s) && Enabled(s, Produce(ch)) && Granted(s, ch) && !ProduceStep(s, ch).fault && Going(u, v, s)
    requires s.prod.PReset? || s.prod.PBase? || s.prod.PEntry? || s.prod.PFront?
    ensures Going(u, v, ProduceStep(s, ch))
  {
    hide Shaped, I.Off, I.Blk, Accepts, GrownEntries, EmptyAhead, SameList;
  }

  lemma WritingGoes(u: State, v: Elem, s: State, ch: Choice)
    requires Shaped(s) && Enabled(s, Produce(ch)) && Granted(s, ch) && !ProduceStep(s, ch).fault && Going(u, v, s)
    requires s.prod.PWrite? || s.prod.PPublish?
    ensures Going(u, v, ProduceStep(s, ch))
  {
    hide Shaped, I.Off, I.Blk, Accepts, GrownEntries, EmptyAhead, SameList;
  }

  lemma GoesOn(u: State, v: Elem, s: State, ch: Choice)
    requires Inv(s) && Shaped(s) && Enabled(s, Produce(ch)) && Granted(s, ch) && Going(u, v, s)
    ensures Inv(ProduceStep(s, ch)) && Shaped(ProduceStep(s, ch)) && !ProduceStep(s, ch).fault
    ensures Going(u, v, ProduceStep(s, ch))
  {
    hide Inv, Shaped, Going, ProduceStep;
    StepsWell(s, ch);
    if s.prod.PCheck? {
      ScanGoes(u, v, s, ch);
    } else if s.prod.PRoom? {
      RoomGoes(u, v, s, ch);
    } else if s.prod.PWrite? || s.prod.PPublish? {
      WritingGoes(u, v, s, ch);
    } else if s.prod.PGrow? || s.prod.PAlloc? || s.prod.PClear? || s.prod.PLink? {
      AcquiringGoes(u, v, s, ch);
    } else {
      IndexingGoes(u, v, s, ch);
    }
  }

  lemma StepsWell(s: State, ch: Choice)
    requires Inv(s) && Shaped(s) && Enabled(s, Produce(ch))
    ensures Inv(ProduceStep(s, ch)) && Shaped(ProduceStep(s, ch)) && !ProduceStep(s, ch).fault
  {
    hide Shaped, ProduceStep, T.Inv, Singles, RingOk, FlagsOk, SlotsOk, HeadersOk, CurrentOk, ProdOk, ElementsOk, ConsOk;
    NextKeepsInv(s, Produce(ch));
  }

  /** The producer's own steps, with the memory they ask for, that lead from one state to another. */
  predicate ProducedBy(s: State, steps: seq<Choice>, u: State)
    decreases |steps|
  {
    if steps == [] then u == s
    else Shaped(s) && Enabled(s, Produce(steps[0])) && Granted(s, steps[0]) && ProducedBy(ProduceStep(s, steps[0]), steps[1..], u)
  }

  lemma {:induction false} ProducedGoesOn(u: State, v: Elem, s: State, steps: seq<Choice>, w: State)
    requires Inv(s) && Shaped(s) && Going(u, v, s) && ProducedBy(s, steps, w)
    ensures Going(u, v, w)
    decreases |steps|
  {
    if steps != [] {
      hide Inv, Shaped, ProduceStep, Going, Enabled;
      GoesOn(u, v, s, steps[0]);
      ProducedGoesOn(u, v, ProduceStep(s, steps[0]), steps[1..], w);
    }
  }

  /** An enqueue begun in any reachable state, whatever the consumers are in the middle of, that meets
      no step of theirs and gets the memory it asks for, publishes its element if and only if the
      element falls into the tail block, the block ahead is empty, or the limit has room for a block;
      else all is as it was. */
  lemma LoneEnqueue(c: Config, run: seq<Action>, s: State, v: Elem, steps: seq<Choice>, u: State)
    requires ConfigOk(c) && Run(c, run) == Some(s) && s.prod.PIdle?
    requires Shaped(s) && ProducedBy(Next(s, Enqueue(v)), steps, u) && u.prod.PIdle?
    ensures Accepts(s) ==> u.tk == s.tk.(tail := s.tk.tail + 1) && u.log.enq == s.log.enq + [v] && u.log.out == s.log.out
    ensures !Accepts(s) ==> u.tk == s.tk && u.log == s.log && SameList(s, u)
  {
    ReachableInv(c, run);
    Starts(s, v);
    hide Run, Inv, Shaped, Next, ProducedBy, Accepts;
    NextKeepsInv(s, Enqueue(v));
    ProducedGoesOn(s, v, Next(s, Enqueue(v)), steps, u);
  }

  // ----- and it ends -----

  function Rank(p: Prod): nat {
    match p
    case PCheck(_, _) => 12
    case PRoom(_) => 11
    case PGrow(_) => 10
    case PAlloc(_) => 9
    case PClear(_, _, _) => 8
    case PLink(_, _) => 7
    case PReset(_, _) => 6
    case PBase(_) => 5
    case PEntry(_) => 4
    case PFront(_) => 3
    case PWrite(_) => 2
    case PPublish(_) => 1
    case PIdle => 0
  }

  /** The flags still to look at, or to clear. */
  function Span(p: Prod, bs: nat): nat {
    if (p.PCheck? || p.PClear? || p.PReset?) && p.i < bs then bs - p.i else 0
  }

  predicate Closer(s: State, u: State) {
    u.bs == s.bs && (Rank(u.prod) < Rank(s.prod) || (Rank(u.prod) == Rank(s.prod) && Span(u.prod, s.bs) < Span(s.prod, s.bs)))
  }

  lemma ScansCloser(s: State, ch: Choice)
    requires Shaped(s) && Enabled(s, Produce(ch)) && Granted(s, ch) && !ProduceStep(s, ch).fault
    requires s.prod.PCheck? || s.prod.PRoom? || s.prod.PGrow? || s.prod.PAlloc? || s.prod.PClear? || s.prod.PLink?
    ensures Closer(s, ProduceStep(s, ch))
  {
    hide Shaped, I.Off, I.Blk, GrownEntries;
  }

  lemma StepsCloser(s: State, ch: Choice)
    requires Shaped(s) && Enabled(s, Produce(ch)) && Granted(s, ch) && !ProduceStep(s, ch).fault
    ensures Closer(s, ProduceStep(s, ch))
  {
    hide Shaped, I.Off, I.Blk, GrownEntries;
    if s.prod.PCheck? || s.prod.PRoom? || s.prod.PGrow? || s.prod.PAlloc? || s.prod.PClear? || s.prod.PLink? {
      hide Closer, ProduceStep;
      ScansCloser(s, ch);
    }
  }

  lemma Ends(s: State) returns (steps: seq<Choice>, u: State)
    requires Inv(s) && Shaped(s)
    ensures ProducedBy(s, steps, u) && u.prod.PIdle?
    decreases Rank(s.prod), Span(s.prod, s.bs)
  {
    if s.prod.PIdle? {
      steps, u := [], s;
    } else {
      var ch := Choice(true, Some(|s.blocks|), Entry(0, 0));
      hide Inv, Shaped, ProduceStep, Rank, Span;
      StepsWell(s, ch);
      StepsCloser(s, ch);
      steps, u := Ends(ProduceStep(s, ch));
      var all := [ch] + steps;
      assert all[1..] == steps;
      steps := all;
    }
  }

  lemma LoneEnqueueEnds(c: Config, run: seq<Action>, s: State, v: Elem) returns (steps: seq<Choice>, u: State)
    requires ConfigOk(c) && Run(c, run) == Some(s) && s.prod.PIdle?
    ensures Shaped(s) && ProducedBy(Next(s, Enqueue(v)), steps, u) && u.prod.PIdle?
  {
    ReachableInv(c, run);
    hide Run, Inv, Shaped, Next, ProducedBy;
    NextKeepsInv(s, Enqueue(v));
    steps, u := Ends(Next(s, Enqueue(v)));
  }
}
