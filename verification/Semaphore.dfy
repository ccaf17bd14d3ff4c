// LightweightSemaphore: a count in user space in front of a kernel semaphore, for any number of
// threads that wait for one or many permits, with or without timeout, and signal.
//
// Each step is one atomic access or one call of the kernel semaphore, which is a natural number
// with post, blocking wait, timed wait and try-wait. wait and tryWait are waitMany and
// tryWaitMany with max == 1: they make the same accesses.

module Semaphore {
  import opened Wrappers
  import opened Sums

  type Tid = nat

  /** What a tryWaitMany serves: it is called on its own, first thing in waitMany, or for the
      other permits after the first one. */
  datatype Purpose = Alone | First(timed: bool) | More

  datatype Pc =
    | Idle
    | TryLoad(max: nat, why: Purpose)                       // load m_count
    | TrySwap(max: nat, why: Purpose, seen: int)             // compare_exchange_weak
    | Spin(max: nat, timed: bool, spins: nat)               // load m_count, spins rounds left
    | SpinSwap(max: nat, timed: bool, spins: nat, seen: int) // compare_exchange_strong
    | Take(max: nat, timed: bool)                           // fetch_sub
    | Block(max: nat, timed: bool)                          // m_sema.wait or timed_wait
    | Mend(max: nat)                                        // timed out: load m_count
    | MendTry(max: nat)                                     // m_sema.try_wait
    | MendSwap(max: nat, seen: int)                          // compare_exchange_strong
    | Post(posts: nat)                                      // m_sema.signal: one post

  datatype State = State(
    count: int,
    kernel: nat,
    pcs: seq<Pc>,
    // auxiliary: permits there were at first, signalled since, and acquired by operations
    initial: nat,
    signalled: nat,
    acquired: nat)

  /** A thread may start an operation or make its next access. `flag`: a weak compare_exchange does
      not fail spuriously; a timed wait ends with a permit rather than by timeout. */
  datatype Action =
    | TryWaitMany(t: Tid, max: nat)
    | WaitMany(t: Tid, max: nat, timed: bool)
    | Signal(t: Tid, n: nat)
    | Step(t: Tid, flag: bool)

  const SPINS: nat := 10000

  predicate Enabled(s: State, a: Action) {
    match a
    case TryWaitMany(t, _) => t < |s.pcs| && s.pcs[t].Idle?
    case WaitMany(t, _, _) => t < |s.pcs| && s.pcs[t].Idle?
    case Signal(t, _) => t < |s.pcs| && s.pcs[t].Idle?
    case Step(t, flag) =>
      t < |s.pcs| && !s.pcs[t].Idle? && (s.pcs[t].Block? && (flag || !s.pcs[t].timed) ==> s.kernel > 0)
  }

  function At(s: State, t: Tid, p: Pc): State
    requires t < |s.pcs|
  {
    s.(pcs := s.pcs[t := p])
  }

  /** How many permits a compare_exchange from `seen` takes: as many as there are, at most max. */
  function Greedy(seen: int, max: nat): nat { if seen <= 0 then 0 else if seen > max then max else seen }

  /** Where a thread goes that has just acquired its first permit in the slow path. */
  function GotOne(max: nat): Pc { if max > 1 then TryLoad(max - 1, More) else Idle }

  /** tryWaitMany found no permit. */
  function GotNone(max: nat, why: Purpose): Pc {
    if why.First? && max > 0 then Spin(max, why.timed, SPINS) else Idle
  }

  function Next(s: State, a: Action): State
    requires Enabled(s, a)
  {
    match a
    case TryWaitMany(t, max) => At(s, t, TryLoad(max, Alone))
    case WaitMany(t, max, timed) => At(s, t, TryLoad(max, First(timed)))
    case Signal(t, n) =>
      var release := if -s.count < n then -s.count else n;
      At(s.(count := s.count + n, signalled := s.signalled + n), t, if release > 0 then Post(release) else Idle)
    case Step(t, flag) =>
      match s.pcs[t]
      case TryLoad(max, why) => At(s, t, if s.count > 0 then TrySwap(max, why, s.count) else GotNone(max, why))
      case TrySwap(max, why, seen) =>
        if s.count == seen && flag then
          At(Acquire(s, Greedy(seen, max)), t, if Greedy(seen, max) == 0 then GotNone(max, why) else Idle)
        else At(s, t, if s.count > 0 then TrySwap(max, why, s.count) else GotNone(max, why))
      case Spin(max, timed, spins) =>
        At(s, t, if spins == 0 then Take(max, timed)
                 else if s.count > 0 then SpinSwap(max, timed, spins - 1, s.count)
                 else Spin(max, timed, spins - 1))
      case SpinSwap(max, timed, spins, seen) =>
        if s.count == seen then At(Acquire(s, Greedy(seen, max)), t, Idle) else At(s, t, Spin(max, timed, spins))
      case Take(max, timed) =>
        if s.count > 0 then At(Acquire(s, 1), t, GotOne(max)) else At(s.(count := s.count - 1), t, Block(max, timed))
      case Block(max, timed) => if flag || !timed then FromKernel(s, t, max) else At(s, t, Mend(max))
      case Mend(max) => At(s, t, if s.count >= 0 then MendTry(max) else MendSwap(max, s.count))
      case MendTry(max) => if s.kernel > 0 then FromKernel(s, t, max) else At(s, t, Mend(max))
      case MendSwap(max, seen) => if s.count == seen then At(s.(count := seen + 1), t, Idle) else At(s, t, Mend(max))
      case Post(posts) => At(s.(kernel := s.kernel + 1), t, if posts > 1 then Post(posts - 1) else Idle)
  }

  function Acquire(s: State, n: nat): State { s.(count := s.count - n, acquired := s.acquired + n) }

  /** A thread passes the kernel semaphore: that is its permit. */
  function FromKernel(s: State, t: Tid, max: nat): State
    requires t < |s.pcs|
  {
    At(s.(kernel := if s.kernel > 0 then s.kernel - 1 else 0, acquired := s.acquired + 1), t, GotOne(max))
  }

  /** What an operation returns, when an action ends it (a signal returns no permits). */
  function Result(s: State, a: Action): Option<nat>
    requires Enabled(s, a)
  {
    if a.Step? && Next(s, a).pcs[a.t].Idle? then
      match s.pcs[a.t]
      case TryLoad(_, why) => Some(if why.More? then 1 else 0)
      case TrySwap(max, why, seen) =>
        Some((if why.More? then 1 else 0) + if s.count == seen && a.flag then Greedy(seen, max) else 0)
      case SpinSwap(max, _, _, seen) => Some(Greedy(seen, max))
      case Take(_, _) => Some(1)
      case Block(_, _) => Some(1)
      case MendTry(_) => Some(1)
      case MendSwap(_, _) => Some(0)
      case _ => None
    else None
  }

  // ----- the invariant -----

  /** A thread that has decremented the count below zero and still waits, or repairs it. */
  function Waits(p: Pc): nat { if p.Block? || p.Mend? || p.MendTry? || p.MendSwap? then 1 else 0 }

  function Posts(p: Pc): nat { if p.Post? then p.posts else 0 }

  /** The first permit of a thread that is looking for more. */
  function Holds(p: Pc): nat { if (p.TryLoad? || p.TrySwap?) && p.why.More? then 1 else 0 }

  predicate PcOk(p: Pc) {
    match p
    case TrySwap(_, _, seen) => seen > 0
    case Spin(max, _, _) => max > 0
    case SpinSwap(max, _, _, seen) => max > 0 && seen > 0
    case Take(max, _) => max > 0
    case Block(max, _) => max > 0
    case Mend(max) => max > 0
    case MendTry(max) => max > 0
    case MendSwap(max, seen) => max > 0 && seen < 0
    case Post(posts) => posts > 0
    case _ => true
  }

  function Waiters(s: State): nat { Sum(s.pcs, Waits) }
  function Pending(s: State): nat { Sum(s.pcs, Posts) }

  predicate Inv(s: State) {
    && (forall t :: 0 <= t < |s.pcs| ==> PcOk(s.pcs[t]))
    && Waiters(s) == Below(s.count) + s.kernel + Pending(s)
    && s.initial + s.signalled == s.count + s.acquired + Waiters(s)
  }

  lemma SumsAfter(pcs: seq<Pc>, t: Tid, p: Pc)
    requires t < |pcs|
    ensures Sum(pcs[t := p], Waits) == Sum(pcs, Waits) - Waits(pcs[t]) + Waits(p)
    ensures Sum(pcs[t := p], Posts) == Sum(pcs, Posts) - Posts(pcs[t]) + Posts(p)
  {
    SumUpdate(pcs, Waits, t, p);
    SumUpdate(pcs, Posts, t, p);
  }

  function Below(count: int): nat { if count < 0 then -count else 0 }

  /** What one step adds to each side of the two equations of the invariant. */
  lemma StepBalances(s: State, a: Action)
    requires Enabled(s, a) && PcOk(s.pcs[a.t])
    ensures var s', p, p' := Next(s, a), s.pcs[a.t], Next(s, a).pcs[a.t];
      && s'.pcs == s.pcs[a.t := p'] && PcOk(p')
      && Waits(p') - Waits(p) == Below(s'.count) - Below(s.count) + s'.kernel - s.kernel + Posts(p') - Posts(p)
      && s'.signalled - s.signalled == s'.count - s.count + s'.acquired - s.acquired + Waits(p') - Waits(p)
      && s'.initial == s.initial
  {
  }

  lemma NextKeepsInv(s: State, a: Action)
    requires Inv(s) && Enabled(s, a)
    ensures Inv(Next(s, a))
  {
    StepBalances(s, a);
    hide Next, PcOk, Waits, Posts;
    SumsAfter(s.pcs, a.t, Next(s, a).pcs[a.t]);
  }

  // ----- whole runs -----

  function Start(initial: nat, n: nat): State { State(initial, 0, seq(n, _ => Idle), initial, 0, 0) }

  lemma StartInv(initial: nat, n: nat)
    ensures Inv(Start(initial, n))
  {
    SumZero(Start(initial, n).pcs, Waits);
    SumZero(Start(initial, n).pcs, Posts);
  }

  /** The state after a run, or None when some action of the run is not possible. */
  function Run(initial: nat, n: nat, run: seq<Action>): Option<State>
    decreases |run|
  {
    if run == [] then Some(Start(initial, n))
    else match Run(initial, n, run[..|run| - 1])
      case None => None
      case Some(u) => if Enabled(u, run[|run| - 1]) then Some(Next(u, run[|run| - 1])) else None
  }

  lemma {:induction false} ReachableInv(initial: nat, n: nat, run: seq<Action>)
    requires Run(initial, n, run).Some?
    ensures Inv(Run(initial, n, run).value)
    decreases |run|
  {
    if run == [] {
      StartInv(initial, n);
    } else {
      ReachableInv(initial, n, run[..|run| - 1]);
      NextKeepsInv(Run(initial, n, run[..|run| - 1]).value, run[|run| - 1]);
    }
  }

  /** The permits that the operations of a run have returned, and those it has signalled. */
  function Returned(initial: nat, n: nat, run: seq<Action>): nat
    requires Run(initial, n, run).Some?
    decreases |run|
  {
    if run == [] then 0
    else
      var u := Run(initial, n, run[..|run| - 1]).value;
      Returned(initial, n, run[..|run| - 1]) + match Result(u, run[|run| - 1]) case Some(k) => k case None => 0
  }

  function SignalledIn(run: seq<Action>): nat
    decreases |run|
  {
    if run == [] then 0
    else SignalledIn(run[..|run| - 1]) + if run[|run| - 1].Signal? then run[|run| - 1].n else 0
  }

  /** Every permit acquired has been returned to a caller, or is the first one of a thread looking for more. */
  lemma StepReturns(s: State, a: Action)
    requires Enabled(s, a) && PcOk(s.pcs[a.t])
    ensures var s', p, p' := Next(s, a), s.pcs[a.t], Next(s, a).pcs[a.t];
      && s'.pcs == s.pcs[a.t := p'] && s'.initial == s.initial
      && s'.acquired - s.acquired == (match Result(s, a) case Some(k) => k case None => 0) + Holds(p') - Holds(p)
      && s'.signalled - s.signalled == if a.Signal? then a.n else 0
  {
  }

  lemma {:induction false} AcquiredIsReturned(initial: nat, n: nat, run: seq<Action>)
    requires Run(initial, n, run).Some?
    ensures var s := Run(initial, n, run).value;
      s.acquired == Returned(initial, n, run) + Sum(s.pcs, Holds) && s.signalled == SignalledIn(run) && s.initial == initial
    decreases |run|
  {
    if run == [] {
      SumZero(Start(initial, n).pcs, Holds);
    } else {
      var before, a := run[..|run| - 1], run[|run| - 1];
      var u := Run(initial, n, before).value;
      AcquiredIsReturned(initial, n, before);
      ReachableInv(initial, n, before);
      StepReturns(u, a);
      hide Next, Result, Holds;
      SumUpdate(u.pcs, Holds, a.t, Next(u, a).pcs[a.t]);
    }
  }

  /** Safety, with timeouts and multi-permit waits under every interleaving: the permits handed out
      never exceed the initial and the signalled ones. */
  lemma NeverTooManyPermits(initial: nat, n: nat, run: seq<Action>)
    requires Run(initial, n, run).Some?
    ensures Returned(initial, n, run) <= initial + SignalledIn(run)
  {
    AcquiredIsReturned(initial, n, run);
    ReachableInv(initial, n, run);
  }

  /** No lost wakeup: when no post is under way, the kernel count equals the number of waiters if
      the count is not negative, and is positive whenever somebody waits and some permit is left;
      so a waiter can then go on. */
  lemma NoLostWakeup(initial: nat, n: nat, run: seq<Action>)
    requires Run(initial, n, run).Some? && Pending(Run(initial, n, run).value) == 0
    ensures var s := Run(initial, n, run).value;
      && (s.count >= 0 ==> s.kernel == Waiters(s))
      && (Waiters(s) > 0 && Returned(initial, n, run) + Sum(s.pcs, Holds) < initial + SignalledIn(run) ==> s.kernel > 0)
  {
    AcquiredIsReturned(initial, n, run);
    ReachableInv(initial, n, run);
  }

  /** With every thread idle all signalled permits are there: as the count, or handed out. */
  lemma QuietCount(initial: nat, n: nat, run: seq<Action>)
    requires Run(initial, n, run).Some?
    requires forall t :: 0 <= t < |Run(initial, n, run).value.pcs| ==> Run(initial, n, run).value.pcs[t].Idle?
    ensures var s := Run(initial, n, run).value;
      s.kernel == 0 && s.count >= 0 && s.count == initial + SignalledIn(run) - Returned(initial, n, run)
  {
    var s := Run(initial, n, run).value;
    AcquiredIsReturned(initial, n, run);
    ReachableInv(initial, n, run);
    SumZero(s.pcs, Waits);
    SumZero(s.pcs, Posts);
    SumZero(s.pcs, Holds);
  }

  // ----- what one operation returns -----

  /** The operation thread t is in, or last was in. */
  function LastCall(run: seq<Action>, t: Tid): Option<Action>
    decreases |run|
  {
    if run == [] then None
    else if !run[|run| - 1].Step? && run[|run| - 1].t == t then Some(run[|run| - 1])
    else LastCall(run[..|run| - 1], t)
  }

  /** A thread at p is serving the call c. */
  predicate Serves(p: Pc, c: Action) {
    match p
    case Idle => true
    case TryLoad(max, why) => ServesTry(max, why, c)
    case TrySwap(max, why, _) => ServesTry(max, why, c)
    case Spin(max, timed, _) => c.WaitMany? && max == c.max && timed == c.timed
    case SpinSwap(max, timed, _, _) => c.WaitMany? && max == c.max && timed == c.timed
    case Take(max, timed) => c.WaitMany? && max == c.max && timed == c.timed
    case Block(max, timed) => c.WaitMany? && max == c.max && timed == c.timed
    case Mend(max) => c.WaitMany? && max == c.max && c.timed
    case MendTry(max) => c.WaitMany? && max == c.max && c.timed
    case MendSwap(max, _) => c.WaitMany? && max == c.max && c.timed
    case Post(_) => c.Signal?
  }

  predicate ServesTry(max: nat, why: Purpose, c: Action) {
    match why
    case Alone => c.TryWaitMany? && max == c.max
    case First(timed) => c.WaitMany? && max == c.max && timed == c.timed
    case More => c.WaitMany? && max + 1 == c.max
  }

  lemma {:induction false} ServesLastCall(initial: nat, n: nat, run: seq<Action>, t: Tid)
    requires Run(initial, n, run).Some? && t < n
    ensures var s := Run(initial, n, run).value;
      |s.pcs| == n && (!s.pcs[t].Idle? ==> LastCall(run, t).Some? && Serves(s.pcs[t], LastCall(run, t).value))
    decreases |run|
  {
    if run != [] {
      var before, a := run[..|run| - 1], run[|run| - 1];
      ServesLastCall(initial, n, before, t);
      ReachableInv(initial, n, before);
      var u := Run(initial, n, before).value;
      hide Inv, Run;
      ServesNext(u, a, t, LastCall(before, t));
    }
  }

  lemma ServesNext(u: State, a: Action, t: Tid, c: Option<Action>)
    requires Enabled(u, a) && t < |u.pcs| && (!u.pcs[t].Idle? ==> c.Some? && Serves(u.pcs[t], c.value))
    ensures var c' := if !a.Step? && a.t == t then Some(a) else c;
      |Next(u, a).pcs| == |u.pcs| && (!Next(u, a).pcs[t].Idle? ==> c'.Some? && Serves(Next(u, a).pcs[t], c'.value))
  {
    if a.t != t { StepMovesOne(u, a, t); hide Next; }
  }

  lemma StepMovesOne(u: State, a: Action, t: Tid)
    requires Enabled(u, a) && t < |u.pcs| && a.t != t
    ensures |Next(u, a).pcs| == |u.pcs| && Next(u, a).pcs[t] == u.pcs[t]
  {
  }

  /** An operation acquires at most max permits; a wait without timeout, for at least one permit,
      acquires at least one. (waitMany without timeout asserts that its result is positive.) */
  lemma ResultWithinBounds(initial: nat, n: nat, run: seq<Action>, a: Action)
    requires Run(initial, n, run).Some? && Enabled(Run(initial, n, run).value, a) && a.t < n
    requires Result(Run(initial, n, run).value, a).Some?
    ensures var k, c := Result(Run(initial, n, run).value, a).value, LastCall(run, a.t);
      && c.Some? && (c.value.TryWaitMany? || c.value.WaitMany?)
      && k <= c.value.max
      && (c.value.WaitMany? && !c.value.timed ==> (k > 0 <==> c.value.max > 0))
  {
    ServesLastCall(initial, n, run, a.t);
    ReachableInv(initial, n, run);
    assert PcOk(Run(initial, n, run).value.pcs[a.t]);
    hide Run, Inv;
  }

  /** The call is ended by the action, after the run, with k permits. */
  predicate Yields(initial: nat, n: nat, run: seq<Action>, a: Action, call: Action, k: nat) {
    && Run(initial, n, run).Some? && Enabled(Run(initial, n, run).value, a)
    && LastCall(run, a.t) == Some(call) && Result(Run(initial, n, run).value, a) == Some(k)
  }

  /** A waitMany without timeout for no permits at all ends with none, against its assertion, whether
      or not there are any; a bulk wait for at most nought elements makes that call. */
  lemma WaitManyForNone(initial: nat)
    ensures var call, load := WaitMany(0, 0, false), Step(0, true);
      Yields(initial, 1, if initial > 0 then [call, load] else [call], Step(0, true), call, 0)
  {
    var call, load := WaitMany(0, 0, false), Step(0, true);
    assert [call][..0] == [] && [call, load][..1] == [call];
    assert Run(initial, 1, []) == Some(Start(initial, 1));
    assert Run(initial, 1, [call]) == Some(Next(Start(initial, 1), call));
    if initial > 0 {
      assert Run(initial, 1, [call, load]) == Some(Next(Run(initial, 1, [call]).value, load));
      assert LastCall([call, load], 0) == LastCall([call], 0);
    }
  }
}
