// A dequeue that meets no other dequeue delivers what is there, whatever the producer is in the
// middle of.

module ImplicitAlone {
  import opened Wrappers
  import opened ModArith
  import opened ImplicitProducer
  import opened ImplicitInvariant
  import opened ImplicitQueue
  import T = Tickets
  import A = TicketsAlone
  import X = BlockIndex

  /** The consumer's own steps. */
  function Own(t: Tid, k: nat): seq<Action> { seq(k, _ => Consume(t)) }

  lemma OneMoreStep(run: seq<Action>, t: Tid, k: nat)
    ensures run + [Consume(t)] + Own(t, k) == run + Own(t, k + 1)
  {
    assert [Consume(t)] + Own(t, k) == Own(t, k + 1);
  }

  /** The elements of indices i up to e, with their indices, in order. */
  function Stretch(p: seq<Elem>, i: int, e: int): seq<(int, Elem)>
    requires 0 <= i <= e <= |p|
  {
    seq(e - i, k requires 0 <= k < e - i => (i + k, p[i + k]))
  }

  lemma StretchNext(p: seq<Elem>, i: int, e: int)
    requires 0 <= i < e <= |p|
    ensures Stretch(p, i, e) == [(i, p[i])] + Stretch(p, i + 1, e)
  {
  }

  lemma Do(c: Config, run: seq<Action>, a: Action) returns (more: seq<Action>)
    requires ConfigOk(c) && Run(c, run).Some? && Shaped(Run(c, run).value) && Enabled(Run(c, run).value, a)
    ensures more == run + [a] && Run(c, more) == Some(Next(Run(c, run).value, a))
    ensures Inv(Run(c, more).value) && Shaped(Run(c, more).value) && !Run(c, more).value.fault
    ensures Deliveries(c, more) == match Delivery(Run(c, run).value, a) case Some(d) => Deliveries(c, run) + [d] case None => Deliveries(c, run)
  {
    hide Inv, Shaped, Next, Enabled, Delivery;
    more := run + [a];
    assert more[..|more| - 1] == run;
    ReachableInv(c, more);
    NeverFaults(c, more);
  }

  /** Only consumer t has moved; what is published and the producer are as they were. */
  predicate OnlyMoved(s: State, u: State, t: Tid) {
    && u.log.enq == s.log.enq && u.prod == s.prod && u.tk.tail == s.tk.tail && u.bs == s.bs
    && t < |s.cons| == |s.tk.threads| == |u.cons| == |u.tk.threads|
    && u.cons == s.cons[t := u.cons[t]] && u.tk.threads == s.tk.threads[t := u.tk.threads[t]]
  }

  lemma MovedTwice(s: State, u: State, w: State, t: Tid)
    requires OnlyMoved(s, u, t) && OnlyMoved(u, w, t)
    ensures OnlyMoved(s, w, t)
  {
  }

  // ----- finding indices to claim -----

  lemma TicketMove(s: State, t: Tid, max: nat)
    requires Shaped(s) && t < |s.cons| && A.Seeking(s.tk, t, max) && s.cons[t].CIdle?
    ensures Enabled(s, Consume(t)) && !s.tk.threads[t].Holding?
    ensures var u := Next(s, Consume(t));
      && OnlyMoved(s, u, t) && u.tk == T.Next(s.tk, T.Go(t))
      && (u.tk.threads[t].Holding? ==> u.cons[t] == CHeader(u.tk.threads[t].first))
      && (!u.tk.threads[t].Holding? ==> u.cons[t].CIdle?)
      && Delivery(s, Consume(t)) == None
  {
    A.SeekStep(s.tk, t, max);
    hide X.HeadersOk, T.Next, T.Enabled;
  }

  /** The tickets are drawn and tested: the consumer holds what is due, or has given up if nothing is. */
  predicate Found(s: State, u: State, t: Tid, max: nat) {
    && OnlyMoved(s, u, t)
    && if A.Due(s.tk, max) == 0 then u.tk.threads[t].Idle? && u.tk.head == s.tk.head && u.cons[t].CIdle?
       else u.tk.threads[t] == T.Holding(s.tk.head, A.Due(s.tk, max)) && u.tk.head == s.tk.head + A.Due(s.tk, max) && u.cons[t] == CHeader(s.tk.head)
  }

  lemma SeekOn(c: Config, run: seq<Action>, t: Tid, max: nat) returns (more: seq<Action>, k: nat)
    requires ConfigOk(c) && Run(c, run).Some?
    requires var s := Run(c, run).value; t < |s.cons| && A.Seeking(s.tk, t, max) && s.cons[t].CIdle?
    ensures more == run + Own(t, k) && Run(c, more).Some? && Found(Run(c, run).value, Run(c, more).value, t, max)
    ensures Deliveries(c, more) == Deliveries(c, run)
    decreases A.Left(Run(c, run).value.tk.threads[t])
  {
    var s := Run(c, run).value;
    ReachableInv(c, run);
    hide Run, Inv, Shaped, Next, Enabled, Delivery, Deliveries, T.Next, A.Seeking;
    TicketMove(s, t, max);
    A.SeekStep(s.tk, t, max);
    more := Do(c, run, Consume(t));
    var u := Run(c, more).value;
    SeekingPhase(s.tk, t, max);
    if A.Seeking(u.tk, t, max) {
      SeekingPhase(u.tk, t, max);
      var next, j := more, 0;
      more, j := SeekOn(c, next, t, max);
      k := j + 1;
      OneMoreStep(run, t, j);
      FoundLater(s, u, Run(c, more).value, t, max);
    } else {
      k := 1;
      assert Own(t, 1) == [Consume(t)];
    }
  }

  lemma SeekingPhase(s: T.State, t: Tid, max: nat)
    requires A.Seeking(s, t, max)
    ensures t < |s.threads| && !s.threads[t].Holding? && !s.threads[t].Idle? && (s.threads[t].Claiming? ==> A.Due(s, max) > 0)
  {
  }

  lemma FoundLater(s: State, u: State, w: State, t: Tid, max: nat)
    requires OnlyMoved(s, u, t) && u.tk.head == s.tk.head && Found(u, w, t, max)
    ensures Found(s, w, t, max)
  {
    MovedTwice(s, u, w, t);
  }

  // ----- delivering what has been claimed -----

  function Stage(c: Con): nat {
    match c
    case CHeader(_) => 8
    case CTail(_, _) => 7
    case CKey(_, _, _, _) => 6
    case CMark(_, _, _, _, _) => 5
    case CClear(_, _, _, _) => 4
    case CRelease(_, _, _, _) => 3
    case CValue(_, _, _) => 2
    case _ => 1
  }

  predicate Holds(s: State, t: Tid) {
    t < |s.cons| == |s.tk.threads| && s.tk.threads[t].Holding? && !s.cons[t].CIdle? && s.cons[t].i <= End(s.tk.threads[t])
  }

  /** One step: an element taken, the range finished, or closer to the next element. */
  predicate Further(s: State, v: State, t: Tid)
    requires Holds(s, t)
  {
    && OnlyMoved(s, v, t) && v.tk.head == s.tk.head
    && if s.cons[t].CTake? then v.tk == s.tk && !v.cons[t].CIdle? && v.cons[t].i == s.cons[t].i + 1
       else if v.tk.threads[t].Idle? then s.cons[t].i == End(s.tk.threads[t]) && v.cons[t].CIdle?
       else v.tk == s.tk && !v.cons[t].CIdle? && v.cons[t].i == s.cons[t].i && Stage(v.cons[t]) < Stage(s.cons[t])
  }

  lemma TakeFurther(s: State, t: Tid)
    requires Shaped(s) && Holds(s, t) && s.cons[t].CTake?
    ensures !ConsumeStep(s, t).fault ==> Further(s, ConsumeStep(s, t), t)
  {
    hide X.HeadersOk, Blk, Off, SetSlot;
  }

  lemma MarkFurther(s: State, t: Tid)
    requires Shaped(s) && Holds(s, t) && s.cons[t].CMark?
    ensures !ConsumeStep(s, t).fault ==> Further(s, ConsumeStep(s, t), t)
  {
    hide X.HeadersOk, Blk, Off, SetPlace, MarkAll;
  }

  lemma FreeFurther(s: State, t: Tid)
    requires Shaped(s) && Holds(s, t) && (s.cons[t].CClear? || s.cons[t].CRelease?)
    ensures !ConsumeStep(s, t).fault ==> Further(s, ConsumeStep(s, t), t)
  {
    hide X.HeadersOk, Blk, Off, SetPlace, X.ClearValue;
  }

  lemma LookFurther(s: State, t: Tid)
    requires Shaped(s) && Holds(s, t) && (s.cons[t].CHeader? || s.cons[t].CTail? || s.cons[t].CKey? || s.cons[t].CValue?)
    ensures !ConsumeStep(s, t).fault ==> Further(s, ConsumeStep(s, t), t)
  {
    hide X.HeadersOk, Blk, Off, X.Locate;
  }

  lemma HoldFurther(s: State, t: Tid)
    requires Shaped(s) && Holds(s, t) && !ConsumeStep(s, t).fault
    ensures Further(s, ConsumeStep(s, t), t)
  {
    hide Shaped, ConsumeStep, Further;
    match s.cons[t] {
      case CTake(_, _, _, _, _) => TakeFurther(s, t);
      case CMark(_, _, _, _, _) => MarkFurther(s, t);
      case CClear(_, _, _, _) => FreeFurther(s, t);
      case CRelease(_, _, _, _) => FreeFurther(s, t);
      case _ => LookFurther(s, t);
    }
  }

  /** What the step delivers: the element that the consumer takes, if it takes one. */
  lemma HoldDelivers(s: State, t: Tid)
    requires Inv(s) && Shaped(s) && Holds(s, t)
    ensures s.cons[t].CTake? ==> s.cons[t].i < |s.log.enq| && Delivery(s, Consume(t)) == Some((s.cons[t].i, s.log.enq[s.cons[t].i]))
    ensures !s.cons[t].CTake? ==> Delivery(s, Consume(t)) == None
  {
    hide Inv, Shaped;
    if s.cons[t].CTake? {
      hide Delivery, ConsumeStep;
      TakeDelivers(s, t);
    }
  }

  /** Where the consumer is stays within its range, which is published. */
  lemma HeldRange(s: State, t: Tid)
    requires Inv(s) && Shaped(s) && t < |s.cons| && s.tk.threads[t].Holding?
    ensures Holds(s, t) && End(s.tk.threads[t]) <= |s.log.enq|
  {
    ConsumerFacts(s, t);
    T.HeadNeverPassesTail(s.tk);
    hide T.Inv, X.Inv, PlacesOk, CountersOk, ElementsOk, SlotsOk, ConsOk, ProdOk, TailBlockOk, ConsumeStep;
  }

  /** The whole of a claimed range is delivered and marked; the consumer is idle again. */
  predicate Done(s: State, u: State, t: Tid) {
    OnlyMoved(s, u, t) && u.tk.head == s.tk.head && u.tk.threads[t].Idle? && u.cons[t].CIdle?
  }

  /** One step, with what it delivers. */
  lemma HoldOnce(c: Config, run: seq<Action>, s: State, t: Tid) returns (more: seq<Action>, v: State)
    requires ConfigOk(c) && Run(c, run) == Some(s) && Holds(s, t)
    ensures more == run + [Consume(t)] && Run(c, more) == Some(v)
    ensures Further(s, v, t) && (v.tk.threads[t].Holding? ==> Holds(v, t)) && End(s.tk.threads[t]) <= |s.log.enq|
    ensures s.cons[t].CTake? ==> s.cons[t].i < |s.log.enq| && Deliveries(c, more) == Deliveries(c, run) + [(s.cons[t].i, s.log.enq[s.cons[t].i])]
    ensures !s.cons[t].CTake? ==> Deliveries(c, more) == Deliveries(c, run)
  {
    ReachableInv(c, run);
    hide Run, Inv, Shaped, Delivery, Deliveries, ConsumeStep, Further;
    HeldRange(s, t);
    HoldDelivers(s, t);
    assert Enabled(s, Consume(t)) && Next(s, Consume(t)) == ConsumeStep(s, t);
    hide Next, Enabled;
    more := Do(c, run, Consume(t));
    v := Run(c, more).value;
    HoldFurther(s, t);
    StillHolds(s, v, t);
  }

  lemma StillHolds(s: State, v: State, t: Tid)
    requires Inv(v) && Shaped(v) && Holds(s, t) && Further(s, v, t)
    ensures v.tk.threads[t].Holding? ==> Holds(v, t)
  {
    if v.tk.threads[t].Holding? {
      hide Inv, Shaped;
      HeldRange(v, t);
    }
  }

  lemma HoldOn(c: Config, run: seq<Action>, s: State, t: Tid) returns (more: seq<Action>, k: nat, u: State)
    requires ConfigOk(c) && Run(c, run) == Some(s) && Holds(s, t)
    ensures more == run + Own(t, k) && Run(c, more) == Some(u) && Done(s, u, t)
    ensures End(s.tk.threads[t]) <= |s.log.enq|
    ensures Deliveries(c, more) == Deliveries(c, run) + Stretch(s.log.enq, s.cons[t].i, End(s.tk.threads[t]))
    decreases End(s.tk.threads[t]) - s.cons[t].i, Stage(s.cons[t])
  {
    hide Run, Deliveries, Own, Stretch;
    var v;
    more, v := HoldOnce(c, run, s, t);
    if v.tk.threads[t].Idle? {
      k, u := 1, v;
      OneMoreStep(run, t, 0);
      NoSteps(run + [Consume(t)], t);
      NoStretch(Deliveries(c, run), s.log.enq, s.cons[t].i);
    } else {
      var next, j := more, 0;
      more, j, u := HoldOn(c, next, v, t);
      k := j + 1;
      OneMoreStep(run, t, j);
      MovedTwice(s, v, u, t);
      if s.cons[t].CTake? { StretchNext(s.log.enq, s.cons[t].i, End(s.tk.threads[t])); }
    }
  }

  lemma NoSteps(run: seq<Action>, t: Tid)
    ensures run + Own(t, 0) == run
  {
  }

  lemma NoStretch(d: seq<(int, Elem)>, p: seq<Elem>, i: int)
    requires 0 <= i <= |p|
    ensures d + Stretch(p, i, i) == d
  {
  }

  // ----- the whole dequeue -----

  lemma QuietStart(s: State, t: Tid, max: nat)
    requires Inv(s) && Shaped(s) && Quiet(s.tk.threads) && t < |s.tk.threads| && max > 0
    ensures Enabled(s, Dequeue(t, max)) && s.tk.head <= s.tk.tail == |s.log.enq| && Delivery(s, Dequeue(t, max)) == None
    ensures var u := Next(s, Dequeue(t, max));
      OnlyMoved(s, u, t) && A.Seeking(u.tk, t, max) && u.cons[t].CIdle? && u.tk.head == s.tk.head && A.Due(u.tk, max) == A.Due(s.tk, max)
  {
    assert ConOk(s.ix.headers, s.ix.live, s.mem.place, s.log, s.bs, t, s.tk.threads[t], s.cons[t]);
    T.QuietCounters(s.tk);
    T.HeadNeverPassesTail(s.tk);
    hide T.Inv, X.Inv, PlacesOk, CountersOk, ElementsOk, SlotsOk, ConsOk, ProdOk, TailBlockOk;
  }

  lemma HeldAt(c: Config, run: seq<Action>, s: State, t: Tid)
    requires ConfigOk(c) && Run(c, run) == Some(s) && t < |s.cons| == |s.tk.threads| && s.tk.threads[t].Holding?
    ensures Holds(s, t)
  {
    ReachableInv(c, run);
    hide Run, Inv;
    HeldRange(s, t);
  }

  /** From the first step to the last. */
  lemma SeekAndHold(c: Config, run: seq<Action>, s: State, t: Tid, max: nat) returns (more: seq<Action>, k: nat, u: State)
    requires ConfigOk(c) && Run(c, run) == Some(s)
    requires t < |s.cons| && A.Seeking(s.tk, t, max) && s.cons[t].CIdle? && s.tk.head + A.Due(s.tk, max) <= |s.log.enq|
    ensures more == run + Own(t, k) && Run(c, more) == Some(u)
    ensures OnlyMoved(s, u, t) && u.tk.threads[t].Idle? && u.tk.head == s.tk.head + A.Due(s.tk, max)
    ensures Deliveries(c, more) == Deliveries(c, run) + Stretch(s.log.enq, s.tk.head, s.tk.head + A.Due(s.tk, max))
  {
    hide Run, Deliveries, A.Seeking, A.Due, Own, Stretch;
    var j := 0;
    more, j := SeekOn(c, run, t, max);
    u := Run(c, more).value;
    k := j;
    if A.Due(s.tk, max) > 0 {
      HeldAt(c, more, u, t);
      var next, i, w := more, 0, u;
      more, i, u := HoldOn(c, next, w, t);
      k := j + i;
      OwnSum(run, t, j, i);
      MovedTwice(s, w, u, t);
    } else {
      NoStretch(Deliveries(c, run), s.log.enq, s.tk.head);
    }
  }

  lemma OwnSum(run: seq<Action>, t: Tid, j: nat, i: nat)
    ensures run + Own(t, j) + Own(t, i) == run + Own(t, j + i)
  {
    assert Own(t, j) + Own(t, i) == Own(t, j + i);
  }

  /** From s to u the dequeue has delivered the first elements there were, at most max, in order. */
  ghost predicate Delivers(c: Config, run: seq<Action>, s: State, more: seq<Action>, u: State, max: nat) {
    && ConfigOk(c) && Run(c, run) == Some(s) && Run(c, more) == Some(u)
    && s.tk.head <= s.tk.tail == |Published(c, run)|
    && var n := if s.tk.tail - s.tk.head < max then s.tk.tail - s.tk.head else max;
    && Deliveries(c, more) == Deliveries(c, run) + Stretch(Published(c, run), s.tk.head, s.tk.head + n)
    && u.tk.head == s.tk.head + n && Quiet(u.tk.threads)
  }

  /** A dequeue that meets no other dequeue delivers the elements at the head, at most max, in order,
      and all of them if there are fewer; it delivers nothing if and only if there is nothing. The
      producer may be in the middle of anything. */
  lemma LoneDequeueDelivers(c: Config, run: seq<Action>, s: State, t: Tid, max: nat) returns (more: seq<Action>, k: nat, u: State)
    requires ConfigOk(c) && Run(c, run) == Some(s) && Quiet(s.tk.threads) && t < |s.tk.threads| && max > 0
    ensures more == run + [Dequeue(t, max)] + Own(t, k) && Delivers(c, run, s, more, u, max)
    ensures Deliveries(c, more) == Deliveries(c, run) <==> s.tk.head == s.tk.tail
  {
    hide Run, Deliveries, Published, Quiet, OnlyMoved, A.Seeking, Own, Stretch, A.Due;
    var r1, s1 := BeginAlone(c, run, s, t, max);
    DueIs(s.tk, max);
    more, k, u := SeekAndHold(c, r1, s1, t, max);
    StaysQuiet(s, s1, u, t);
    StretchLength(s.log.enq, s.tk.head, s.tk.head + A.Due(s.tk, max));
  }

  lemma DueIs(s: T.State, max: nat)
    requires s.head <= s.tail
    ensures A.Due(s, max) == if s.tail - s.head < max then s.tail - s.head else max
  {
  }

  lemma BeginAlone(c: Config, run: seq<Action>, s: State, t: Tid, max: nat) returns (more: seq<Action>, u: State)
    requires ConfigOk(c) && Run(c, run) == Some(s) && Quiet(s.tk.threads) && t < |s.tk.threads| && max > 0
    ensures more == run + [Dequeue(t, max)] && Run(c, more) == Some(u) && Deliveries(c, more) == Deliveries(c, run)
    ensures s.tk.head <= s.tk.tail == |s.log.enq| && Published(c, run) == s.log.enq
    ensures OnlyMoved(s, u, t) && u.log.enq == s.log.enq && t < |u.cons| && A.Seeking(u.tk, t, max) && u.cons[t].CIdle?
    ensures u.tk.head == s.tk.head && A.Due(u.tk, max) == A.Due(s.tk, max)
  {
    ReachableInv(c, run);
    DeliveriesSound(c, run);
    QuietStart(s, t, max);
    hide Run, Inv, Shaped, Deliveries, Published, Next, Enabled, Delivery;
    more := Do(c, run, Dequeue(t, max));
    u := Run(c, more).value;
    assert OnlyMoved(s, u, t);
  }

  lemma StretchLength(p: seq<Elem>, i: int, e: int)
    requires 0 <= i <= e <= |p|
    ensures |Stretch(p, i, e)| == e - i
  {
  }

  lemma StaysQuiet(s: State, u: State, w: State, t: Tid)
    requires Quiet(s.tk.threads) && OnlyMoved(s, u, t) && OnlyMoved(u, w, t) && w.tk.threads[t].Idle?
    ensures Quiet(w.tk.threads)
  {
  }
}
