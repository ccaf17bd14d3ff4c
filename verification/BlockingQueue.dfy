// BlockingConcurrentQueue: a queue whose elements are announced by the permits of a lightweight
// semaphore. A consumer first acquires permits and then retries the inner queue until it has one
// element for each.
//
// The inner queue is modelled by its number of elements: an enqueue adds a whole batch at once,
// and a try_dequeue_bulk takes any number of elements up to what is asked for and there, none
// included. Single operations are bulk ones of one element.

module BlockingQueue {
  import opened Wrappers
  import opened Sums
  import S = Semaphore
  import T = Tickets

  type Tid = nat

  datatype Pc =
    | Idle
    | Published(n: nat)                   // inner.enqueue_bulk succeeded; about to signal
    | Signalling                          // in sema->signal
    | Waiting                             // in sema->waitMany or tryWaitMany
    | Redeeming(max: nat, got: nat)       // while (count != max) count += inner.try_dequeue_bulk(...)

  datatype State = State(
    sema: S.State,
    inner: nat,
    pcs: seq<Pc>,
    // auxiliary: elements dequeued from the inner queue so far
    redeemed: nat)

  datatype Action =
    | Enqueue(t: Tid, n: nat)             // inner.enqueue_bulk of n elements, successfully
    | Signal(t: Tid)
    | Dequeue(t: Tid, max: nat, wait: bool, timed: bool)
    | Sema(t: Tid, flag: bool)            // the next step inside the semaphore
    | Redeem(t: Tid, k: nat)              // one inner.try_dequeue_bulk, which yields k elements

  predicate Shaped(s: State) { |s.pcs| == |s.sema.pcs| }

  function SemaCall(a: Action): S.Action
    requires a.Dequeue?
  {
    if a.wait then S.WaitMany(a.t, a.max, a.timed) else S.TryWaitMany(a.t, a.max)
  }

  predicate Enabled(s: State, a: Action)
    requires Shaped(s)
  {
    match a
    case Enqueue(t, _) => t < |s.pcs| && s.pcs[t].Idle?
    case Signal(t) => t < |s.pcs| && s.pcs[t].Published? && S.Enabled(s.sema, S.Signal(t, s.pcs[t].n))
    case Dequeue(t, _, _, _) => t < |s.pcs| && s.pcs[t].Idle? && S.Enabled(s.sema, SemaCall(a))
    case Sema(t, flag) => t < |s.pcs| && (s.pcs[t].Signalling? || s.pcs[t].Waiting?) && S.Enabled(s.sema, S.Step(t, flag))
    case Redeem(t, k) => t < |s.pcs| && s.pcs[t].Redeeming? && s.pcs[t].got + k <= s.pcs[t].max && k <= s.inner
  }

  function At(s: State, t: Tid, p: Pc): State
    requires t < |s.pcs|
  {
    s.(pcs := s.pcs[t := p])
  }

  /** The loop ends when it has dequeued an element for every permit. */
  function Loop(max: nat, got: nat): Pc { if got == max then Idle else Redeeming(max, got) }

  function Next(s: State, a: Action): State
    requires Shaped(s) && Enabled(s, a)
  {
    match a
    case Enqueue(t, n) => At(s.(inner := s.inner + n), t, Published(n))
    case Signal(t) =>
      var sema := S.Next(s.sema, S.Signal(t, s.pcs[t].n));
      At(s.(sema := sema), t, if t < |sema.pcs| && sema.pcs[t].Idle? then Idle else Signalling)
    case Dequeue(t, _, _, _) => At(s.(sema := S.Next(s.sema, SemaCall(a))), t, Waiting)
    case Sema(t, flag) =>
      var sema := S.Next(s.sema, S.Step(t, flag));
      var u := s.(sema := sema);
      if t < |sema.pcs| && !sema.pcs[t].Idle? then u
      else At(u, t, if s.pcs[t].Waiting? then Loop(Granted(s, a), 0) else Idle)
    case Redeem(t, k) =>
      At(s.(inner := s.inner - k, redeemed := s.redeemed + k), t, Loop(s.pcs[t].max, s.pcs[t].got + k))
  }

  /** The permits that the semaphore grants in this step. */
  function Granted(s: State, a: Action): nat
    requires Shaped(s) && Enabled(s, a)
  {
    if a.Sema? then match S.Result(s.sema, S.Step(a.t, a.flag)) case Some(k) => k case None => 0 else 0
  }

  // ----- the invariant -----

  /** Elements published and not yet signalled; permits held and not yet redeemed. */
  function Unsignalled(p: Pc): nat { if p.Published? then p.n else 0 }
  function Owed(p: Pc): nat { if p.Redeeming? && p.got <= p.max then p.max - p.got else 0 }

  predicate InStep(p: Pc, q: S.Pc) {
    match p
    case Idle => q.Idle?
    case Published(_) => q.Idle?
    case Signalling => q.Post?
    case Waiting => !q.Idle? && !q.Post?
    case Redeeming(max, got) => q.Idle? && got < max
  }

  predicate Inv(s: State) {
    && Shaped(s) && S.Inv(s.sema) && s.sema.initial == 0
    && (forall t :: 0 <= t < |s.pcs| ==> InStep(s.pcs[t], s.sema.pcs[t]))
    && s.inner + s.redeemed == s.sema.signalled + Sum(s.pcs, Unsignalled)
    && s.sema.acquired == s.redeemed + Sum(s.pcs, Owed) + Sum(s.sema.pcs, S.Holds)
  }

  lemma SumsAfter(pcs: seq<Pc>, t: Tid, p: Pc)
    requires t < |pcs|
    ensures Sum(pcs[t := p], Unsignalled) == Sum(pcs, Unsignalled) - Unsignalled(pcs[t]) + Unsignalled(p)
    ensures Sum(pcs[t := p], Owed) == Sum(pcs, Owed) - Owed(pcs[t]) + Owed(p)
  {
    SumUpdate(pcs, Unsignalled, t, p);
    SumUpdate(pcs, Owed, t, p);
  }

  /** What a step of the semaphore does to the counts and to the thread. */
  lemma SemaStep(s: S.State, a: S.Action)
    requires S.Inv(s) && S.Enabled(s, a)
    ensures S.Inv(S.Next(s, a)) && S.Next(s, a).initial == s.initial
    ensures S.Next(s, a).pcs == s.pcs[a.t := S.Next(s, a).pcs[a.t]]
    ensures S.Next(s, a).signalled == s.signalled + if a.Signal? then a.n else 0
    ensures S.Next(s, a).acquired + Sum(s.pcs, S.Holds) ==
      s.acquired + (match S.Result(s, a) case Some(k) => k case None => 0) + Sum(S.Next(s, a).pcs, S.Holds)
  {
    S.NextKeepsInv(s, a);
    assert S.PcOk(s.pcs[a.t]);
    S.StepReturns(s, a);
    hide S.Next, S.Result, S.Inv, S.Holds;
    SumUpdate(s.pcs, S.Holds, a.t, S.Next(s, a).pcs[a.t]);
  }

  /** Posting threads go on posting, waiting threads never start to; only they have a result. */
  lemma SemaPhase(s: S.State, a: S.Action)
    requires S.Enabled(s, a)
    ensures var q, q' := s.pcs[a.t], S.Next(s, a).pcs[a.t];
      && (a.Signal? ==> (q'.Idle? || q'.Post?) && S.Result(s, a) == None)
      && (a.WaitMany? || a.TryWaitMany? ==> !q'.Idle? && !q'.Post? && S.Result(s, a) == None)
      && (a.Step? && q.Post? ==> (q'.Idle? || q'.Post?) && S.Result(s, a) == None)
      && (a.Step? && !q.Post? ==> !q'.Post? && (q'.Idle? <==> S.Result(s, a).Some?))
  {
  }

  lemma SignalKeepsInv(s: State, t: Tid)
    requires Inv(s) && Enabled(s, Signal(t))
    ensures Inv(Next(s, Signal(t)))
  {
    var a := S.Signal(t, s.pcs[t].n);
    SemaStep(s.sema, a);
    SemaPhase(s.sema, a);
    hide S.Next, S.Result, S.Inv, S.Enabled;
    SumsAfter(s.pcs, t, Next(s, Signal(t)).pcs[t]);
  }

  lemma DequeueKeepsInv(s: State, a: Action)
    requires Inv(s) && Enabled(s, a) && a.Dequeue?
    ensures Inv(Next(s, a))
  {
    SemaStep(s.sema, SemaCall(a));
    SemaPhase(s.sema, SemaCall(a));
    hide S.Next, S.Result, S.Inv, S.Enabled;
    SumsAfter(s.pcs, a.t, Waiting);
  }

  lemma SemaKeepsInv(s: State, t: Tid, flag: bool)
    requires Inv(s) && Enabled(s, Sema(t, flag))
    ensures Inv(Next(s, Sema(t, flag)))
  {
    var a := S.Step(t, flag);
    assert InStep(s.pcs[t], s.sema.pcs[t]);
    SemaStep(s.sema, a);
    SemaPhase(s.sema, a);
    hide S.Next, S.Result, S.Inv, S.Enabled;
    SumsAfter(s.pcs, t, Next(s, Sema(t, flag)).pcs[t]);
  }

  lemma NextKeepsInv(s: State, a: Action)
    requires Inv(s) && Enabled(s, a)
    ensures Inv(Next(s, a))
  {
    match a {
      case Signal(t) => SignalKeepsInv(s, t);
      case Dequeue(_, _, _, _) => DequeueKeepsInv(s, a);
      case Sema(t, flag) => SemaKeepsInv(s, t, flag);
      case _ =>
        hide S.Next, S.Result, S.Inv, S.Enabled;
        SumsAfter(s.pcs, a.t, Next(s, a).pcs[a.t]);
    }
  }

  // ----- whole runs -----

  function Start(n: nat): State { State(S.Start(0, n), 0, seq(n, _ => Idle), 0) }

  lemma StartInv(n: nat)
    ensures Inv(Start(n))
  {
    S.StartInv(0, n);
    SumZero(Start(n).pcs, Unsignalled);
    SumZero(Start(n).pcs, Owed);
    SumZero(Start(n).sema.pcs, S.Holds);
  }

  /** The state after a run, or None when some action of the run is not possible. */
  function Run(n: nat, run: seq<Action>): Option<State>
    decreases |run|
  {
    if run == [] then Some(Start(n))
    else match Run(n, run[..|run| - 1])
      case None => None
      case Some(u) => if Shaped(u) && Enabled(u, run[|run| - 1]) then Some(Next(u, run[|run| - 1])) else None
  }

  lemma {:induction false} ReachableInv(n: nat, run: seq<Action>)
    requires Run(n, run).Some?
    ensures Inv(Run(n, run).value)
    decreases |run|
  {
    hide Inv, Next, Enabled, Shaped;
    if run == [] {
      StartInv(n);
    } else {
      ReachableInv(n, run[..|run| - 1]);
      NextKeepsInv(Run(n, run[..|run| - 1]).value, run[|run| - 1]);
    }
  }

  /** In every reachable state the inner queue holds at least as many elements as permits have been
      acquired and not redeemed; so a consumer in its retry loop never faces an empty queue, and the
      elements still to be redeemed by others leave enough for it. */
  lemma PermitsAreBacked(n: nat, run: seq<Action>)
    requires Run(n, run).Some?
    ensures var s := Run(n, run).value;
      && Sum(s.pcs, Owed) + Sum(s.sema.pcs, S.Holds) <= s.inner
      && (forall t :: 0 <= t < |s.pcs| && s.pcs[t].Redeeming? ==> 0 < s.pcs[t].max - s.pcs[t].got <= s.inner)
  {
    ReachableInv(n, run);
    var s := Run(n, run).value;
    assert s.sema.acquired <= s.sema.signalled;
    forall t | 0 <= t < |s.pcs| && s.pcs[t].Redeeming? ensures 0 < s.pcs[t].max - s.pcs[t].got <= s.inner {
      assert InStep(s.pcs[t], s.sema.pcs[t]);
      SumAtLeast(s.pcs, Owed, t);
    }
  }

  /** With no operation in progress the permits available are the elements in the queue. */
  lemma QuietPermits(n: nat, run: seq<Action>)
    requires Run(n, run).Some?
    requires forall t :: 0 <= t < |Run(n, run).value.pcs| ==> Run(n, run).value.pcs[t].Idle?
    ensures Run(n, run).value.sema.count == Run(n, run).value.inner && Run(n, run).value.sema.kernel == 0
  {
    ReachableInv(n, run);
    var s := Run(n, run).value;
    assert forall t :: 0 <= t < |s.pcs| ==> InStep(s.pcs[t], s.sema.pcs[t]);
    SumZero(s.pcs, Unsignalled);
    SumZero(s.pcs, Owed);
    SumZero(s.sema.pcs, S.Holds);
    SumZero(s.sema.pcs, S.Waits);
    SumZero(s.sema.pcs, S.Posts);
  }

  // ----- a dequeue returns exactly its permits -----

  /** The permits granted to thread t's dequeues, and the elements that its dequeues returned. */
  function GrantedTo(n: nat, run: seq<Action>, t: Tid): seq<nat>
    requires Run(n, run).Some?
    decreases |run|
  {
    if run == [] then []
    else
      var u, a := Run(n, run[..|run| - 1]).value, run[|run| - 1];
      GrantedTo(n, run[..|run| - 1], t) +
      if a.t == t && a.Sema? && S.Result(u.sema, S.Step(t, a.flag)).Some? then [S.Result(u.sema, S.Step(t, a.flag)).value] else []
  }

  function ReturnedBy(n: nat, run: seq<Action>, t: Tid): seq<nat>
    requires Run(n, run).Some?
    decreases |run|
  {
    if run == [] then []
    else
      var u, a := Run(n, run[..|run| - 1]).value, run[|run| - 1];
      ReturnedBy(n, run[..|run| - 1], t) + if a.t == t then ReturnNow(u, a) else []
  }

  /** The number of elements dequeued by the call that ends with this action. */
  function ReturnNow(u: State, a: Action): seq<nat>
    requires Shaped(u) && Enabled(u, a)
  {
    if u.pcs[a.t].Waiting? && Next(u, a).pcs[a.t].Idle? then [0]
    else if u.pcs[a.t].Redeeming? && Next(u, a).pcs[a.t].Idle? then [u.pcs[a.t].got + a.k]
    else []
  }

  lemma ReturnsStep(u: State, a: Action, t: Tid)
    requires Inv(u) && Enabled(u, a) && t < |u.pcs|
    ensures |Next(u, a).pcs| == |u.pcs|
    ensures a.t != t ==> Next(u, a).pcs[t] == u.pcs[t]
    ensures a.t == t ==>
      (if u.pcs[t].Redeeming? then [u.pcs[t].max] else []) +
      (if a.Sema? && S.Result(u.sema, S.Step(t, a.flag)).Some? then [S.Result(u.sema, S.Step(t, a.flag)).value] else [])
      == ReturnNow(u, a) + if Next(u, a).pcs[t].Redeeming? then [Next(u, a).pcs[t].max] else []
  {
    assert InStep(u.pcs[a.t], u.sema.pcs[a.t]);
    match a {
      case Signal(_) => SemaPhase(u.sema, S.Signal(a.t, u.pcs[a.t].n));
      case Dequeue(_, _, _, _) => SemaPhase(u.sema, SemaCall(a));
      case Sema(_, flag) => SemaPhase(u.sema, S.Step(a.t, flag)); SemaStep(u.sema, S.Step(a.t, flag));
      case _ =>
    }
    hide S.Next, S.Result, S.Inv, S.Enabled;
  }

  /** Every dequeue, single or bulk, that returns yields exactly as many elements as its wait
      granted permits; only a call still in its retry loop has a grant without a return. */
  lemma {:induction false} DequeueReturnsItsPermits(n: nat, run: seq<Action>, t: Tid)
    requires Run(n, run).Some? && t < n
    ensures var s := Run(n, run).value;
      |s.pcs| == n && GrantedTo(n, run, t) == ReturnedBy(n, run, t) + if s.pcs[t].Redeeming? then [s.pcs[t].max] else []
    decreases |run|
  {
    if run != [] {
      var before, a := run[..|run| - 1], run[|run| - 1];
      DequeueReturnsItsPermits(n, before, t);
      ReachableInv(n, before);
      hide Inv, Next, Enabled, Shaped, S.Result, ReturnNow;
      ReturnsStep(Run(n, before).value, a, t);
      AppendBoth(GrantedTo(n, before, t), ReturnedBy(n, before, t), Tail(Run(n, before).value, t), Tail(Run(n, run).value, t),
                 GrantedTo(n, run, t), ReturnedBy(n, run, t));
    }
  }

  /** The grant without a return, if the thread is in its retry loop. */
  function Tail(s: State, t: Tid): seq<nat> { if t < |s.pcs| && s.pcs[t].Redeeming? then [s.pcs[t].max] else [] }

  lemma AppendBoth(g: seq<nat>, r: seq<nat>, x: seq<nat>, x': seq<nat>, g': seq<nat>, r': seq<nat>)
    requires g == r + x && |g'| >= |g| && g'[..|g|] == g && |r'| >= |r| && r'[..|r|] == r
    requires x + g'[|g|..] == r'[|r|..] + x'
    ensures g' == r' + x'
  {
    var dg, dr := g'[|g|..], r'[|r|..];
    assert g' == g + dg == r + (x + dg) && r' + x' == r + (dr + x') by { assert g' == g + dg && r' == r + dr; }
  }

  /** A permit holder whose retry meets no other dequeue is done with it: if the inner queue is one
      producer's, in the state q, then asking it for the rest of its permits claims all of them. */
  lemma LoneRetrySucceeds(n: nat, run: seq<Action>, t: Tid, rest: nat, q0: T.State, work: seq<T.Action>, q: T.State, u: T.Tid)
    requires Run(n, run).Some? && t < |Run(n, run).value.pcs| && Run(n, run).value.pcs[t].Redeeming?
    requires rest == Run(n, run).value.pcs[t].max - Run(n, run).value.pcs[t].got
    requires T.Initial(q0) && T.Run(q0, work) == Some(q) && q.tail - q.head == Run(n, run).value.inner
    requires u < |q.threads| && forall v :: 0 <= v < |q.threads| ==> q.threads[v].Idle?
    ensures rest > 0 && T.ClaimsAlone(q, u, rest, q.head, rest)
  {
    PermitsAreBacked(n, run);
    hide Run, T.Run, T.Initial, T.Alone, Sum;
    T.LoneDequeue(q0, work, q, u, rest);
  }
}
