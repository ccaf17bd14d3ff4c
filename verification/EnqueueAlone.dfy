// What an enqueue that meets no dequeue comes to: it ends, and it publishes its elements if and only
// if the size limit has room for the whole of the last block that they need.

module EnqueueAlone {
  import opened Wrappers
  import opened ModArith
  import opened ImplicitProducer
  import opened ImplicitInvariant
  import opened ImplicitEnqueue
  import opened ImplicitQueue
  import opened ImplicitRuns
  import T = Tickets
  import X = BlockIndex

  /** The index and the pool get the memory they ask for. */
  predicate Granted(s: State, ch: Choice) { ch.grow && (s.prod.PAlloc? ==> ch.block.Some?) }

  /** From the head to the end of the block that the last of the new elements falls into is within the limit. */
  predicate Fits(s: State, count: nat) {
    s.limit.Some? ==> First(s.bs, s.tk.tail + count) * s.bs - s.tk.head <= s.limit.value
  }

  // ----- the room test -----

  /** The source's test, with its two cases, asks whether the next block ends within the limit. */
  lemma NoRoomExact(s: State)
    requires Inv(s) && s.prod.PRoom?
    ensures NoRoom(s) <==> s.limit.Some? && (First(s.bs, s.tk.tail) + |s.prod.chain| + 1) * s.bs - s.tk.head > s.limit.value
  {
    HeadBelowNext(s, |s.prod.chain|);
    var f := First(s.bs, s.tk.tail) + |s.prod.chain|;
    assert (f + 1) * s.bs == f * s.bs + s.bs;
  }

  lemma HeadBelowNext(s: State, k: nat)
    requires Inv(s)
    ensures s.tk.head <= (First(s.bs, s.tk.tail) + k) * s.bs && s.bs >= 2
  {
    hide First, PlacesOk, SlotsOk, CountersOk, ElementsOk, ConsOk, ProdOk, TailBlockOk, T.Inv, X.Inv;
    HeadBelowBase(s, k);
  }

  /** A block for which there is no room is one the operation needs. */
  lemma NoRoomNoFit(s: State)
    requires Inv(s) && s.prod.PRoom? && NoRoom(s)
    ensures !Fits(s, |s.prod.vals|)
  {
    NoRoomExact(s);
    NeedsMore(s);
    hide Inv, First, Need, NoRoom;
    var f := First(s.bs, s.tk.tail);
    FirstAfter(s.bs, s.tk.tail, |s.prod.vals|);
    MulMonotone(f + |s.prod.chain| + 1, First(s.bs, s.tk.tail + |s.prod.vals|), s.bs);
  }

  lemma MulMonotone(a: int, b: int, c: nat)
    requires a <= b
    ensures a * c <= b * c
  {
  }

  lemma NeedsMore(s: State)
    requires Inv(s) && s.prod.PRoom?
    ensures |s.prod.chain| < Need(s.bs, s.tk.tail, |s.prod.vals|)
  {
    hide First, Need, PlacesOk, SlotsOk, CountersOk, ElementsOk, ConsOk, TailBlockOk, T.Inv, X.Inv;
  }

  /** Whoever has acquired all blocks has had room for all of them. */
  lemma WholeFits(s: State)
    requires Inv(s) && s.prod.PPublish? && WithinLimit(s)
    ensures Fits(s, |s.prod.vals|)
  {
    PublishIsWhole(s);
    hide Inv, First, Need;
    FirstAfter(s.bs, s.tk.tail, |s.prod.vals|);
  }

  // ----- every run of the producer alone -----

  /** What the operation started in u has come to in s. */
  predicate Going(u: State, vals: seq<Elem>, s: State) {
    && s.tk.head == u.tk.head && s.bs == u.bs && s.limit == u.limit
    && if s.prod.PIdle? then
         if Fits(u, |vals|) then s.log.enq == u.log.enq + vals && s.tk.tail == u.tk.tail + |vals| else Untouched(u, s)
       else Untouched(u, s) && s.prod.vals == vals && (RollingBack(s.prod) ==> !Fits(u, |vals|))
  }

  lemma SameFits(u: State, s: State, count: nat)
    requires s.tk.head == u.tk.head && s.bs == u.bs && s.limit == u.limit && s.tk.tail == u.tk.tail
    ensures Fits(u, count) == Fits(s, count)
  {
  }

  lemma GoesOn(u: State, vals: seq<Elem>, s: State, ch: Choice)
    requires Inv(s) && Shaped(s) && Enabled(s, Produce(ch)) && WithinLimit(s) && Granted(s, ch) && Going(u, vals, s)
    ensures Going(u, vals, ProduceStep(s, ch))
  {
    hide Inv, Shaped, ProduceStep, WithinLimit, NoRoom, Fits;
    SameFits(u, s, |vals|);
    ProduceKeepsHead(s, ch);
    ProduceKeepsParameters(s, ch);
    if s.prod.PPublish? {
      WholeFits(s);
      PublishIsPublish(s, ch);
    } else {
      ProduceLeavesRest(s, ch);
      ProduceMoves(s, ch);
      if s.prod.PRoom? && NoRoom(s) { NoRoomNoFit(s); }
    }
  }

  lemma Starts(s: State, vals: seq<Elem>)
    requires Shaped(s) && s.prod.PIdle?
    ensures Going(s, vals, Next(s, Enqueue(vals)))
  {
    hide X.HeadersOk, First, Need, Blk, Off;
  }

  /** The producer's own steps, with the memory they ask for, that lead from one state to another. */
  predicate ProducedBy(s: State, steps: seq<Choice>, v: State)
    decreases |steps|
  {
    if steps == [] then v == s
    else Shaped(s) && Enabled(s, Produce(steps[0])) && Granted(s, steps[0]) && ProducedBy(ProduceStep(s, steps[0]), steps[1..], v)
  }

  lemma {:induction false} ProducedGoesOn(u: State, vals: seq<Elem>, s: State, steps: seq<Choice>, v: State)
    requires Inv(s) && Shaped(s) && WithinLimit(s) && Going(u, vals, s) && ProducedBy(s, steps, v)
    ensures Going(u, vals, v)
    decreases |steps|
  {
    if steps != [] {
      var ch := steps[0];
      hide Inv, Shaped, ProduceStep, WithinLimit, Going, Enabled;
      GoesOn(u, vals, s, ch);
      StepsWell(s, ch);
      ProducedGoesOn(u, vals, ProduceStep(s, ch), steps[1..], v);
    }
  }

  lemma StepsWell(s: State, ch: Choice)
    requires Inv(s) && Shaped(s) && Enabled(s, Produce(ch)) && WithinLimit(s)
    ensures Inv(ProduceStep(s, ch)) && Shaped(ProduceStep(s, ch)) && WithinLimit(ProduceStep(s, ch)) && !ProduceStep(s, ch).fault
  {
    hide Inv, Shaped, ProduceStep, WithinLimit;
    NotFaulty(s, ch);
    ProduceKeepsLimit(s, ch);
    NextKeepsInv(s, Produce(ch));
  }

  // ----- the end of it -----

  /** Acquiring blocks, writing, publishing; rolling back, giving back. */
  function Rank(p: Prod): nat {
    match p
    case PIdle => 0
    case PFree(_, _, _) => 1
    case PUnwind(_, _, _) => 2
    case PUnset(_, _, _) => 2
    case PUndo(_, _, _) => 2
    case PBack(_, _, _) => 2
    case PPublish(_, _) => 3
    case PWrite(_, _, _) => 4
    case _ => 5
  }

  function Upto(a: int, b: int): nat { if a <= b then b - a else 0 }

  /** The blocks or elements still to go. */
  function Span(p: Prod, need: int): nat {
    match p
    case PIdle => 0
    case PFree(_, chain, j) => Upto(j, |chain|)
    case PUnwind(_, chain, _) => |chain| + 1
    case PUnset(_, chain, _) => |chain| + 1
    case PUndo(_, chain, j) => Upto(j, |chain|)
    case PBack(_, chain, j) => Upto(j, |chain|)
    case PPublish(_, _) => 0
    case PWrite(vals, _, k) => Upto(k, |vals|)
    case _ => Upto(|p.chain|, need)
  }

  /** The steps before the next block or element. */
  function Stage(p: Prod): nat {
    match p
    case PRoom(_, _) => 8
    case PProbe(_, _) => 7
    case PGrow(_, _) => 6
    case PKey(_, _, _, _) => 5
    case PTail(_, _, _, _) => 4
    case PAlloc(_, _, _) => 3
    case PReset(_, _, _, _) => 2
    case PUnwind(_, _, _) => 2
    case PUndo(_, _, _) => 2
    case _ => 1
  }

  predicate Closer(p: Prod, q: Prod, need: int) {
    || Rank(q) < Rank(p)
    || (Rank(q) == Rank(p) && Span(q, need) < Span(p, need))
    || (Rank(q) == Rank(p) && Span(q, need) == Span(p, need) && Stage(q) < Stage(p))
  }

  lemma StepsCloser(s: State, ch: Choice)
    requires Shaped(s) && Enabled(s, Produce(ch)) && Granted(s, ch) && !ProduceStep(s, ch).fault
    requires s.prod.PValue? ==> |s.prod.chain| < Need(s.bs, s.tk.tail, |s.prod.vals|)
    requires s.prod.PFree? || s.prod.PBack? || s.prod.PUndo? ==> s.prod.j < |s.prod.chain|
    ensures Closer(s.prod, ProduceStep(s, ch).prod, Need(s.bs, s.tk.tail, |s.prod.vals|))
  {
    hide X.HeadersOk, First, Need, Blk, Off, X.Available, X.Grow, X.Locate, X.ClearValue, X.StoreValue, X.StoreKey, X.StoreTail, X.Rewind;
  }

  lemma ValueNeedsMore(s: State)
    requires Inv(s) && s.prod.PValue?
    ensures |s.prod.chain| < Need(s.bs, s.tk.tail, |s.prod.vals|)
  {
    hide First, Need, PlacesOk, SlotsOk, CountersOk, ElementsOk, ConsOk, TailBlockOk, T.Inv, X.Inv;
  }

  /** With the memory it asks for, the producer ends whatever it has begun. */
  lemma Ends(s: State) returns (steps: seq<Choice>, v: State)
    requires Inv(s) && Shaped(s) && WithinLimit(s)
    ensures ProducedBy(s, steps, v) && v.prod.PIdle?
    decreases Rank(s.prod), if s.prod.PIdle? then 0 else Span(s.prod, Need(s.bs, s.tk.tail, |s.prod.vals|)), Stage(s.prod)
  {
    if s.prod.PIdle? {
      steps, v := [], s;
    } else {
      var ch := Choice(true, Some(|s.mem.blocks|), []);
      hide Inv, Shaped, ProduceStep, WithinLimit, Need;
      StepsWell(s, ch);
      JInRange(s);
      if s.prod.PValue? { ValueNeedsMore(s); }
      StepsCloser(s, ch);
      if !s.prod.PPublish? {
        ProduceLeavesRest(s, ch);
        KeepsVals(s, ch);
      }
      steps, v := Ends(ProduceStep(s, ch));
      var all := [ch] + steps;
      assert all[1..] == steps;
      steps := all;
    }
  }

  lemma KeepsVals(s: State, ch: Choice)
    requires Shaped(s) && Enabled(s, Produce(ch)) && !s.prod.PPublish?
    ensures !ProduceStep(s, ch).prod.PIdle? ==> ProduceStep(s, ch).prod.vals == s.prod.vals
  {
    hide X.HeadersOk, First, Need, Blk, Off, X.Available, X.Grow, X.Locate, X.ClearValue, X.StoreValue, X.StoreKey, X.StoreTail, X.Rewind;
  }

  // ----- the answer -----

  /** An enqueue begun in any reachable state, whatever the consumers are in the middle of, that takes
      no step of theirs and gets the memory it asks for: if the last block it needs ends within the
      limit, it has published its elements, in order and after all others, when it ends; else nothing
      is published. The head is where it was. */
  lemma LoneEnqueue(c: Config, run: seq<Action>, s: State, vals: seq<Elem>, steps: seq<Choice>, v: State)
    requires ConfigOk(c) && Run(c, run) == Some(s) && s.prod.PIdle?
    requires Shaped(s) && ProducedBy(Next(s, Enqueue(vals)), steps, v) && v.prod.PIdle?
    ensures v.tk.head == s.tk.head
    ensures Fits(s, |vals|) ==> v.log.enq == s.log.enq + vals && v.tk.tail == s.tk.tail + |vals|
    ensures !Fits(s, |vals|) ==> Untouched(s, v)
  {
    EnqueueBegins(c, run, s, vals);
    Starts(s, vals);
    hide Run, Inv, Shaped, WithinLimit, Fits, Next, ProducedBy, Untouched;
    ProducedGoesOn(s, vals, Next(s, Enqueue(vals)), steps, v);
  }

  lemma EnqueueBegins(c: Config, run: seq<Action>, s: State, vals: seq<Elem>)
    requires ConfigOk(c) && Run(c, run) == Some(s) && s.prod.PIdle?
    ensures Inv(s) && Shaped(s) && WithinLimit(s)
    ensures Inv(Next(s, Enqueue(vals))) && Shaped(Next(s, Enqueue(vals))) && WithinLimit(Next(s, Enqueue(vals)))
  {
    ReachableInv(c, run);
    ReachableWithinLimit(c, run);
    hide Run, Inv, Shaped, WithinLimit, Next;
    NextKeepsInv(s, Enqueue(vals));
    NextKeepsLimit(s, Enqueue(vals));
  }

  /** And it does end. */
  lemma LoneEnqueueEnds(c: Config, run: seq<Action>, s: State, vals: seq<Elem>) returns (steps: seq<Choice>, v: State)
    requires ConfigOk(c) && Run(c, run) == Some(s) && s.prod.PIdle?
    ensures Shaped(s) && ProducedBy(Next(s, Enqueue(vals)), steps, v) && v.prod.PIdle?
  {
    EnqueueBegins(c, run, s, vals);
    hide Run, Inv, Shaped, WithinLimit, Next, ProducedBy;
    steps, v := Ends(Next(s, Enqueue(vals)));
  }
}
