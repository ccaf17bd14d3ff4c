// The dequeue ticket protocol of one producer's sub-queue.
//
// Consumers share four counters with the producer. A consumer reads the overcommit, draws
// tickets from the optimistic count, and only if its tickets lie below the tail does it
// advance the head; otherwise it repays the overcommit. A single dequeue is the bulk one
// with max == 1: both make the same atomic accesses.

module Tickets {
  import opened Wrappers
  import opened Sums

  type Tid = nat

  datatype Pc =
    | Idle
    | Start(max: nat)                                  // about to load tailIndex
    | HaveTail(max: nat, tail: nat)                    // about to load dequeueOvercommit
    | HaveOver(max: nat, tail: nat, over: nat)         // about to load dequeueOptimisticCount and test
    | Draw(want: nat, over: nat)                       // about to fetch_add dequeueOptimisticCount
    | Drawn(want: nat, over: nat, ticket: nat)         // about to reload tailIndex and test
    | Repay(want: nat, got: nat)                       // about to fetch_add dequeueOvercommit
    | Claiming(got: nat)                               // about to fetch_add headIndex
    | Holding(first: nat, count: nat)                  // owns the indices first .. first + count

  /** What became of one drawn ticket. Auxiliary: no step of the protocol reads it. */
  datatype Ticket = Undecided(tid: Tid) | Passed | Failed

  datatype State = State(
    tail: nat,
    head: nat,
    optimistic: nat,
    overcommit: nat,
    threads: seq<Pc>,
    // auxiliary
    tickets: seq<Ticket>)

  datatype Action =
    | Publish(count: nat)            // the producer stores tailIndex + count
    | Begin(t: Tid, max: nat)        // a consumer starts a dequeue of at most max elements
    | Go(t: Tid)                     // a consumer's next atomic access
    | Finish(t: Tid)                 // a consumer is done with the indices it holds

  predicate Enabled(s: State, a: Action) {
    match a
    case Publish(_) => true
    case Begin(t, max) => t < |s.threads| && s.threads[t].Idle? && max > 0
    case Go(t) => t < |s.threads| && !s.threads[t].Idle? && !s.threads[t].Holding?
    case Finish(t) => t < |s.threads| && s.threads[t].Holding?
  }

  function Min(a: int, b: int): int { if a < b then a else b }

  function At(s: State, t: Tid, p: Pc): State
    requires t < |s.threads|
  {
    s.(threads := s.threads[t := p])
  }

  function Next(s: State, a: Action): State
    requires Enabled(s, a)
  {
    match a
    case Publish(count) => s.(tail := s.tail + count)
    case Begin(t, max) => At(s, t, Start(max))
    case Go(t) => Step(s, t)
    case Finish(t) => At(s, t, Idle)
  }

  function Step(s: State, t: Tid): State
    requires Enabled(s, Go(t))
  {
    match s.threads[t]
    case Start(max) => At(s, t, HaveTail(max, s.tail))
    case HaveTail(max, tail) => At(s, t, HaveOver(max, tail, s.overcommit))
    case HaveOver(max, tail, over) =>
      var desired := tail - (s.optimistic - over);
      if desired > 0 then At(s, t, Draw(Min(desired, max), over)) else At(s, t, Idle)
    case Draw(want, over) =>
      At(s.(optimistic := s.optimistic + want,
            tickets := s.tickets + seq(want, _ => Undecided(t))), t, Drawn(want, over, s.optimistic))
    case Drawn(want, over, m) => StepTest(s, t, want, over, m)
    case Repay(want, got) =>
      At(s.(overcommit := s.overcommit + Sub(want, got)), t, if got > 0 then Claiming(got) else Idle)
    case Claiming(got) => At(s.(head := s.head + got), t, Holding(s.head, got))
  }

  function Sub(a: nat, b: nat): nat { if a < b then 0 else a - b }

  /** Reload the tail and compare: the first `got` of the drawn tickets pass, the others fail. */
  function StepTest(s: State, t: Tid, want: nat, over: nat, m: nat): State
    requires t < |s.threads|
  {
    var actual := s.tail - (m - over);
    var got: nat := if actual > 0 then Min(want, actual) else 0;
    At(s.(tickets := Settle(s.tickets, m, got, want)), t, if got < want then Repay(want, got) else Claiming(got))
  }

  function Settle(u: seq<Ticket>, m: nat, got: nat, want: nat): (r: seq<Ticket>)
    ensures |r| == |u|
  {
    seq(|u|, i requires 0 <= i < |u| => if m <= i < m + got then Passed else if m + got <= i < m + want then Failed else u[i])
  }

  // ----- counting tickets -----

  function PassedIn(u: seq<Ticket>, k: nat): nat
    requires k <= |u|
  {
    if k == 0 then 0 else PassedIn(u, k - 1) + if u[k - 1].Passed? then 1 else 0
  }

  function FailedIn(u: seq<Ticket>, k: nat): nat
    requires k <= |u|
  {
    if k == 0 then 0 else FailedIn(u, k - 1) + if u[k - 1].Failed? then 1 else 0
  }

  lemma {:induction false} CountsFit(u: seq<Ticket>, k: nat)
    requires k <= |u|
    ensures PassedIn(u, k) + FailedIn(u, k) <= k
    ensures (forall i :: 0 <= i < k ==> !u[i].Undecided?) ==> PassedIn(u, k) + FailedIn(u, k) == k
  {
    if k > 0 {
      CountsFit(u, k - 1);
    }
  }

  lemma {:induction false} CountsOfPrefix(u: seq<Ticket>, w: seq<Ticket>, k: nat)
    requires k <= |u| <= |w| && forall i :: 0 <= i < k ==> u[i] == w[i]
    ensures PassedIn(u, k) == PassedIn(w, k) && FailedIn(u, k) == FailedIn(w, k)
  {
    if k > 0 {
      CountsOfPrefix(u, w, k - 1);
    }
  }

  lemma {:induction false} CountsOfUndecided(u: seq<Ticket>, from: nat, k: nat)
    requires from <= k <= |u| && forall i :: from <= i < k ==> u[i].Undecided?
    ensures PassedIn(u, k) == PassedIn(u, from) && FailedIn(u, k) == FailedIn(u, from)
  {
    if from < k {
      CountsOfUndecided(u, from, k - 1);
    }
  }

  function Clamp(x: int, hi: nat): nat { if x <= 0 then 0 else if x < hi then x else hi }

  /** Settling undecided tickets adds exactly the passed and failed ones to the counts. */
  lemma {:induction false} CountsOfSettle(u: seq<Ticket>, m: nat, got: nat, want: nat, k: nat)
    requires k <= |u| && got <= want && m + want <= |u|
    requires forall i :: m <= i < m + want ==> u[i].Undecided?
    ensures PassedIn(Settle(u, m, got, want), k) == PassedIn(u, k) + Clamp(k - m, got)
    ensures FailedIn(Settle(u, m, got, want), k) == FailedIn(u, k) + Clamp(k - (m + got), want - got)
  {
    if k > 0 {
      CountsOfSettle(u, m, got, want, k - 1);
    }
  }

  // ----- the invariant -----

  /** Failed tickets whose overcommit a thread still has to repay. */
  function Debt(p: Pc): nat { if p.Repay? then Sub(p.want, p.got) else 0 }

  /** Passed tickets for which a thread still has to advance the head. */
  function Unclaimed(p: Pc): nat { if p.Repay? || p.Claiming? then p.got else 0 }

  predicate PcOk(s: State, t: Tid)
    requires t < |s.threads|
  {
    match s.threads[t]
    case Idle => true
    case Start(max) => max > 0
    case HaveTail(max, _) => max > 0
    case HaveOver(max, _, over) => max > 0 && over <= s.overcommit
    case Draw(want, over) => want > 0 && over <= s.overcommit
    case Drawn(want, over, m) =>
      want > 0 && m + want <= |s.tickets| && over <= FailedIn(s.tickets, m) &&
      forall i :: m <= i < m + want ==> s.tickets[i] == Undecided(t)
    case Repay(want, got) => got < want
    case Claiming(got) => got > 0
    case Holding(first, count) => count > 0 && first + count <= s.head
  }

  /** A ticket is undecided only while its drawer is about to test it. */
  predicate DrawersOk(s: State) {
    forall i :: 0 <= i < |s.tickets| && s.tickets[i].Undecided? ==>
      var t := s.tickets[i].tid;
      t < |s.threads| && s.threads[t].Drawn? && s.threads[t].ticket <= i < s.threads[t].ticket + s.threads[t].want
  }

  /** A passed ticket, less the failed tickets below it, lies below the tail. */
  predicate PassedBelowTail(s: State) {
    forall i :: 0 <= i < |s.tickets| && s.tickets[i].Passed? ==> i + 1 - FailedIn(s.tickets, i) <= s.tail
  }

  predicate ClaimsDisjoint(s: State) {
    forall t, u :: 0 <= t < u < |s.threads| && s.threads[t].Holding? && s.threads[u].Holding? ==>
      Apart(s.threads[t], s.threads[u])
  }

  predicate Apart(p: Pc, q: Pc) {
    p.Holding? && q.Holding? ==> p.first + p.count <= q.first || q.first + q.count <= p.first
  }

  predicate Inv(s: State) {
    && |s.tickets| == s.optimistic
    && s.overcommit + Sum(s.threads, Debt) == FailedIn(s.tickets, |s.tickets|)
    && s.head + Sum(s.threads, Unclaimed) == PassedIn(s.tickets, |s.tickets|)
    && (forall t :: 0 <= t < |s.threads| ==> PcOk(s, t))
    && DrawersOk(s)
    && PassedBelowTail(s)
    && ClaimsDisjoint(s)
  }

  /** The passer with the largest ticket bounds the number of all passers by the tail. */
  lemma {:induction false} PassersFit(s: State, k: nat)
    requires PassedBelowTail(s) && k <= |s.tickets|
    ensures PassedIn(s.tickets, k) <= s.tail
  {
    if k > 0 {
      PassersFit(s, k - 1);
      CountsFit(s.tickets, k - 1);
    }
  }

  lemma HeadNeverPassesTail(s: State)
    requires Inv(s)
    ensures s.head <= s.tail
  {
    PassersFit(s, |s.tickets|);
  }

  /** With no consumer in the middle of an operation the two dequeue counters differ by the head. */
  lemma QuietCounters(s: State)
    requires Inv(s) && forall t :: 0 <= t < |s.threads| ==> s.threads[t].Idle?
    ensures s.optimistic - s.overcommit == s.head
  {
    CountsFit(s.tickets, |s.tickets|);
    SumZero(s.threads, Debt);
    SumZero(s.threads, Unclaimed);
  }

  // ----- every step keeps the invariant -----

  lemma SumsAfter(s: State, t: Tid, p: Pc)
    requires t < |s.threads|
    ensures Sum(s.threads[t := p], Debt) == Sum(s.threads, Debt) - Debt(s.threads[t]) + Debt(p)
    ensures Sum(s.threads[t := p], Unclaimed) == Sum(s.threads, Unclaimed) - Unclaimed(s.threads[t]) + Unclaimed(p)
    ensures Debt(s.threads[t]) <= Sum(s.threads, Debt)
  {
    SumUpdate(s.threads, Debt, t, p);
    SumUpdate(s.threads, Unclaimed, t, p);
    SumAtLeast(s.threads, Debt, t);
  }

  /** Moves that change no shared word. */
  lemma LocalKeepsInv(s: State, t: Tid, p: Pc)
    requires Inv(s) && t < |s.threads|
    requires !s.threads[t].Drawn? && !s.threads[t].Repay? && !s.threads[t].Claiming?
    requires p.Idle? || p.Start? || p.HaveTail? || p.HaveOver? || p.Draw?
    requires PcOk(At(s, t, p), t)
    ensures Inv(At(s, t, p))
  {
    SumsAfter(s, t, p);
    forall u | 0 <= u < |s.threads| ensures PcOk(At(s, t, p), u) {
      assert PcOk(s, u);
    }
  }

  lemma DrawKeepsInv(s: State, t: Tid, want: nat, over: nat)
    requires Inv(s) && t < |s.threads| && s.threads[t] == Draw(want, over)
    ensures Inv(Step(s, t))
  {
    var s' := Step(s, t);
    SumsAfter(s, t, s'.threads[t]);
    CountsOfPrefix(s.tickets, s'.tickets, |s.tickets|);
    CountsOfUndecided(s'.tickets, |s.tickets|, |s'.tickets|);
    forall u | 0 <= u < |s'.threads| ensures PcOk(s', u) {
      assert PcOk(s, u);
      if s'.threads[u].Drawn? {
        CountsOfPrefix(s.tickets, s'.tickets, s'.threads[u].ticket);
      }
    }
    forall i | 0 <= i < |s'.tickets| && s'.tickets[i].Passed? ensures i + 1 - FailedIn(s'.tickets, i) <= s'.tail {
      CountsOfPrefix(s.tickets, s'.tickets, i);
    }
  }

  /** The number of tickets that pass the test: the pcs and the passed tickets stay in order. */
  lemma TestKeepsPcs(s: State, s': State, t: Tid, p: Pc, m: nat, got: nat, want: nat)
    requires t < |s.threads| && s.threads[t].Drawn? && m + want <= |s.tickets| && got <= want
    requires forall u :: 0 <= u < |s.threads| ==> PcOk(s, u)
    requires forall i :: m <= i < m + want ==> s.tickets[i] == Undecided(t)
    requires s' == At(s.(tickets := Settle(s.tickets, m, got, want)), t, p)
    requires PcOk(s', t)
    ensures forall u :: 0 <= u < |s'.threads| ==> PcOk(s', u)
  {
    forall u | 0 <= u < |s'.threads| ensures PcOk(s', u) {
      assert PcOk(s, u);
      if u != t && s'.threads[u].Drawn? {
        var q := s'.threads[u];
        CountsOfSettle(s.tickets, m, got, want, q.ticket);
        forall i | q.ticket <= i < q.ticket + q.want ensures s'.tickets[i] == Undecided(u) {
          assert s.tickets[i] == Undecided(u);
        }
      }
    }
  }

  lemma TestKeepsPassers(s: State, over: nat, m: nat, got: nat, want: nat)
    requires m + want <= |s.tickets| && got <= want && PassedBelowTail(s)
    requires forall i :: m <= i < m + want ==> s.tickets[i].Undecided?
    requires over <= FailedIn(s.tickets, m) && (got > 0 ==> got <= s.tail - (m - over))
    ensures PassedBelowTail(s.(tickets := Settle(s.tickets, m, got, want)))
  {
    var w := Settle(s.tickets, m, got, want);
    forall i | 0 <= i < |w| && w[i].Passed? ensures i + 1 - FailedIn(w, i) <= s.tail {
      CountsOfSettle(s.tickets, m, got, want, i);
      if m <= i < m + want {
        CountsOfUndecided(s.tickets, m, i);
      }
    }
  }

  lemma TestKeepsDrawers(s: State, t: Tid, want: nat, over: nat, m: nat, got: nat)
    requires DrawersOk(s) && ClaimsDisjoint(s) && t < |s.threads| && s.threads[t] == Drawn(want, over, m)
    requires m + want <= |s.tickets| && got <= want
    ensures var s' := At(s.(tickets := Settle(s.tickets, m, got, want)), t, if got < want then Repay(want, got) else Claiming(got));
      DrawersOk(s') && ClaimsDisjoint(s')
  {
  }

  lemma TestKeepsCounts(s: State, t: Tid, want: nat, over: nat, m: nat, got: nat)
    requires t < |s.threads| && s.threads[t] == Drawn(want, over, m) && |s.tickets| == s.optimistic
    requires s.overcommit + Sum(s.threads, Debt) == FailedIn(s.tickets, |s.tickets|)
    requires s.head + Sum(s.threads, Unclaimed) == PassedIn(s.tickets, |s.tickets|)
    requires m + want <= |s.tickets| && got <= want
    requires forall i :: m <= i < m + want ==> s.tickets[i].Undecided?
    ensures var s' := At(s.(tickets := Settle(s.tickets, m, got, want)), t, if got < want then Repay(want, got) else Claiming(got));
      && |s'.tickets| == s'.optimistic
      && s'.overcommit + Sum(s'.threads, Debt) == FailedIn(s'.tickets, |s'.tickets|)
      && s'.head + Sum(s'.threads, Unclaimed) == PassedIn(s'.tickets, |s'.tickets|)
  {
    SumsAfter(s, t, if got < want then Repay(want, got) else Claiming(got));
    CountsOfSettle(s.tickets, m, got, want, |s.tickets|);
  }

  lemma TestKeepsInv(s: State, t: Tid, want: nat, over: nat, m: nat)
    requires Inv(s) && t < |s.threads| && s.threads[t] == Drawn(want, over, m)
    ensures Inv(StepTest(s, t, want, over, m))
  {
    var s' := StepTest(s, t, want, over, m);
    assert PcOk(s, t);
    var actual := s.tail - (m - over);
    var got: nat := if actual > 0 then Min(want, actual) else 0;
    TestKeepsPcs(s, s', t, s'.threads[t], m, got, want);
    hide DrawersOk, ClaimsDisjoint, PassedBelowTail, PcOk, Settle;
    TestKeepsCounts(s, t, want, over, m, got);
    TestKeepsDrawers(s, t, want, over, m, got);
    TestKeepsPassers(s, over, m, got, want);
  }

  lemma RepayKeepsInv(s: State, t: Tid, want: nat, got: nat)
    requires Inv(s) && t < |s.threads| && s.threads[t] == Repay(want, got)
    ensures Inv(Step(s, t))
  {
    var s' := Step(s, t);
    SumsAfter(s, t, s'.threads[t]);
    forall u | 0 <= u < |s'.threads| ensures PcOk(s', u) {
      assert PcOk(s, u);
    }
  }

  lemma ClaimKeepsInv(s: State, t: Tid, got: nat)
    requires Inv(s) && t < |s.threads| && s.threads[t] == Claiming(got)
    ensures Inv(Step(s, t))
  {
    var s' := Step(s, t);
    assert PcOk(s, t);
    SumsAfter(s, t, s'.threads[t]);
    forall u | 0 <= u < |s'.threads| ensures PcOk(s', u) && (u != t ==> Apart(s'.threads[u], s'.threads[t])) {
      assert PcOk(s, u);
    }
  }

  lemma StepKeepsInv(s: State, t: Tid)
    requires Inv(s) && Enabled(s, Go(t))
    ensures Inv(Step(s, t))
  {
    assert PcOk(s, t);
    match s.threads[t]
    case Start(max) => LocalKeepsInv(s, t, HaveTail(max, s.tail));
    case HaveTail(max, tail) => LocalKeepsInv(s, t, HaveOver(max, tail, s.overcommit));
    case HaveOver(max, tail, over) => LocalKeepsInv(s, t, Step(s, t).threads[t]);
    case Draw(want, over) => DrawKeepsInv(s, t, want, over);
    case Drawn(want, over, m) => TestKeepsInv(s, t, want, over, m);
    case Repay(want, got) => RepayKeepsInv(s, t, want, got);
    case Claiming(got) => ClaimKeepsInv(s, t, got);
  }

  lemma PublishKeepsInv(s: State, count: nat)
    requires Inv(s)
    ensures Inv(Next(s, Publish(count)))
  {
    forall u | 0 <= u < |s.threads| ensures PcOk(Next(s, Publish(count)), u) {
      assert PcOk(s, u);
    }
  }

  lemma NextKeepsInv(s: State, a: Action)
    requires Inv(s) && Enabled(s, a)
    ensures Inv(Next(s, a))
  {
    match a
    case Publish(count) => PublishKeepsInv(s, count);
    case Begin(t, max) => LocalKeepsInv(s, t, Start(max));
    case Go(t) => StepKeepsInv(s, t);
    case Finish(t) => LocalKeepsInv(s, t, Idle);
  }

  // ----- whole runs -----

  predicate Initial(s: State) {
    && s.tail == 0 && s.head == 0 && s.optimistic == 0 && s.overcommit == 0 && s.tickets == []
    && forall t :: 0 <= t < |s.threads| ==> s.threads[t].Idle?
  }

  lemma InitInv(s: State)
    requires Initial(s)
    ensures Inv(s)
  {
    SumZero(s.threads, Debt);
    SumZero(s.threads, Unclaimed);
  }

  /** The state after a run, or None when some action of the run is not possible. */
  function Run(s: State, run: seq<Action>): Option<State>
    decreases |run|
  {
    if run == [] then Some(s)
    else match Run(s, run[..|run| - 1])
      case None => None
      case Some(u) => if Enabled(u, run[|run| - 1]) then Some(Next(u, run[|run| - 1])) else None
  }

  lemma {:induction false} ReachableInv(s: State, run: seq<Action>)
    requires Initial(s) && Run(s, run).Some?
    ensures Inv(Run(s, run).value)
    decreases |run|
  {
    if run == [] {
      InitInv(s);
    } else {
      ReachableInv(s, run[..|run| - 1]);
      NextKeepsInv(Run(s, run[..|run| - 1]).value, run[|run| - 1]);
    }
  }

  /** The index range that a step claims, if it is a claiming fetch_add. */
  function Claim(s: State, a: Action): Option<(nat, nat)> {
    if a.Go? && a.t < |s.threads| && s.threads[a.t].Claiming? then
      var p := Step(s, a.t).threads[a.t];
      if p.Holding? then Some((p.first, p.count)) else None
    else None
  }

  lemma ClaimAdvancesHead(s: State, a: Action)
    requires Inv(s) && Enabled(s, a)
    ensures match Claim(s, a)
      case Some(c) => c.0 == s.head && c.1 > 0 && Next(s, a).head == s.head + c.1
      case None => Next(s, a).head == s.head
  {
    if a.Go? {
      assert PcOk(s, a.t);
    }
  }

  /** The index ranges claimed during a run, in the order of the claims. */
  function Claims(s: State, run: seq<Action>): seq<(nat, nat)>
    requires Run(s, run).Some?
    decreases |run|
  {
    if run == [] then []
    else
      var before := Claims(s, run[..|run| - 1]);
      match Claim(Run(s, run[..|run| - 1]).value, run[|run| - 1])
      case Some(c) => before + [c]
      case None => before
  }

  function EndOf(c: seq<(nat, nat)>): nat { if c == [] then 0 else c[|c| - 1].0 + c[|c| - 1].1 }

  /** For any number of consumers, single and bulk, and one producer: the claimed ranges are
      non-empty and follow each other without gap or overlap from 0 up to the head, and the head
      never passes the tail. */
  lemma {:induction false} ClaimsContiguous(s: State, run: seq<Action>)
    requires Initial(s) && Run(s, run).Some?
    ensures var c := Claims(s, run);
      && (forall i :: 0 <= i < |c| ==> c[i].1 > 0 && c[i].0 == EndOf(c[..i]))
      && Run(s, run).value.head == EndOf(c)
      && Run(s, run).value.head <= Run(s, run).value.tail
    decreases |run|
  {
    ReachableInv(s, run);
    HeadNeverPassesTail(Run(s, run).value);
    if run != [] {
      var before := run[..|run| - 1];
      ClaimsContiguous(s, before);
      ReachableInv(s, before);
      hide Inv, Next, Claim;
      ClaimAdvancesHead(Run(s, before).value, run[|run| - 1]);
      var c, d := Claims(s, run), Claims(s, before);
      forall i | 0 <= i < |c| ensures c[i].1 > 0 && c[i].0 == EndOf(c[..i]) {
        if i < |d| { assert c[..i] == d[..i]; } else { assert c[..i] == d; }
      }
    }
  }

  /** With no consumer in the middle of an operation, in any reachable state. */
  lemma QuietCountersDifferByHead(s: State, run: seq<Action>)
    requires Initial(s) && Run(s, run).Some?
    requires forall t :: 0 <= t < |Run(s, run).value.threads| ==> Run(s, run).value.threads[t].Idle?
    ensures Run(s, run).value.optimistic - Run(s, run).value.overcommit == Run(s, run).value.head
  {
    ReachableInv(s, run);
    QuietCounters(Run(s, run).value);
  }

  /** The steps of one consumer that runs alone, from start to claim or give-up. */
  function Alone(s: State, t: Tid, n: nat): (r: State)
    requires t < |s.threads|
    ensures |r.threads| == |s.threads|
    decreases n
  {
    if n == 0 || !Enabled(s, Go(t)) then s else Alone(Step(s, t), t, n - 1)
  }

  /** A dequeue that meets no other is exact: it claims min(max, tail - head) elements from the
      head on, and gives up exactly when there are none, leaving the counters balanced. */
  lemma LoneDequeue(s0: State, run: seq<Action>, s: State, t: Tid, max: nat)
    requires Initial(s0) && Run(s0, run) == Some(s)
    requires (forall u :: 0 <= u < |s.threads| ==> s.threads[u].Idle?) && t < |s.threads| && max > 0
    ensures var r := Alone(Next(s, Begin(t, max)), t, 6);
      if s.head < s.tail then
        r.threads[t] == Holding(s.head, Min(max, s.tail - s.head)) && r.head == s.head + Min(max, s.tail - s.head)
      else r.threads[t].Idle? && r.head == s.head
  {
    ReachableInv(s0, run);
    QuietCounters(s);
    HeadNeverPassesTail(s);
    var s1 := Next(s, Begin(t, max));
    var s2 := Step(s1, t);
    var s3 := Step(s2, t);
    var s4 := Step(s3, t);
    assert Alone(s1, t, 6) == Alone(s2, t, 5) == Alone(s3, t, 4) == Alone(s4, t, 3);
    if s.head < s.tail {
      var s5 := Step(s4, t);
      var s6 := Step(s5, t);
      var s7 := Step(s6, t);
      assert Alone(s4, t, 3) == Alone(s5, t, 2) == Alone(s6, t, 1) == Alone(s7, t, 0);
    }
  }

  /** A dequeue that consumer t makes by itself, from the state s on, claims count elements from first on. */
  predicate ClaimsAlone(s: State, t: Tid, max: nat, first: nat, count: nat) {
    Enabled(s, Begin(t, max)) && Alone(Next(s, Begin(t, max)), t, 6).threads[t] == Holding(first, count)
  }
}
