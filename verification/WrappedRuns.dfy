// Whole runs of the dequeue ticket protocol on words: a run in which they go wrong, for every word
// size, and a condition under which they never do, in terms of what happens while one consumer is
// busy with its operation.

module WrappedRuns {
  import opened Wrappers
  import opened ModArith
  import opened Sums
  import opened WrappedIndices
  import opened WrappedTickets
  import T = Tickets

  // ----- too many overlapping operations -----

  /** One consumer more than there are words, with nothing to do. */
  function Crowd(half: nat): Words
    requires half > 0
  {
    Words(0, 0, 0, 0, seq(2 * half + 1, _ => T.Idle))
  }

  lemma Do(half: nat, run: seq<T.Action>, a: T.Action) returns (more: seq<T.Action>)
    requires half > 0 && Run(Crowd(half), run, half).Some? && Enabled(Run(Crowd(half), run, half).value, a)
    ensures more == run + [a] && Run(Crowd(half), more, half) == Some(Next(Run(Crowd(half), run, half).value, a, half))
  {
    more := run + [a];
    assert more[..|more| - 1] == run;
  }

  /** One element has been published; the first k consumers have seen it, the first j of them have drawn a ticket. */
  predicate Rush(w: Words, half: nat, k: nat, j: nat)
    requires half > 0
  {
    && w.tail == 1 && w.head == 0 && w.overcommit == 0 && w.optimistic == Word(j, half)
    && |w.threads| == 2 * half + 1
    && (forall u :: 0 <= u < |w.threads| ==>
          w.threads[u] == if u < j then T.Drawn(1, 0, Word(u, half)) else if u < k then T.Draw(1, 0) else T.Idle)
  }

  lemma {:induction false} AllSeeIt(half: nat, k: nat) returns (run: seq<T.Action>)
    requires half >= 2 && k <= 2 * half + 1
    ensures Run(Crowd(half), run, half).Some? && Rush(Run(Crowd(half), run, half).value, half, k, 0)
    decreases k
  {
    ModSmall(0, 2 * half);
    ModSmall(1, 2 * half);
    if k == 0 {
      run := Do(half, [], T.Publish(1));
    } else {
      run := AllSeeIt(half, k - 1);
      SeesIt(Run(Crowd(half), run, half).value, half, k - 1);
      hide Rush, Next, Word;
      run := Do(half, run, T.Begin(k - 1, 1));
      run := Do(half, run, T.Go(k - 1));
      run := Do(half, run, T.Go(k - 1));
      run := Do(half, run, T.Go(k - 1));
    }
  }

  /** The four steps of one more consumer. */
  lemma SeesIt(w: Words, half: nat, t: nat)
    requires half >= 2 && t < 2 * half + 1 && Rush(w, half, t, 0)
    ensures Enabled(w, T.Begin(t, 1))
    ensures var w1 := Next(w, T.Begin(t, 1), half);
      && Enabled(w1, T.Go(t)) && var w2 := Next(w1, T.Go(t), half);
      && Enabled(w2, T.Go(t)) && var w3 := Next(w2, T.Go(t), half);
      && Enabled(w3, T.Go(t)) && Rush(Next(w3, T.Go(t), half), half, t + 1, 0)
  {
    ModSmall(0, 2 * half);
    ModSmall(1, 2 * half);
    DivModUnique(-1, 2 * half, -1, 2 * half - 1);
  }

  lemma {:induction false} AllDraw(half: nat, j: nat) returns (run: seq<T.Action>)
    requires half >= 2 && j <= 2 * half + 1
    ensures Run(Crowd(half), run, half).Some? && Rush(Run(Crowd(half), run, half).value, half, 2 * half + 1, j)
    decreases j
  {
    if j == 0 {
      run := AllSeeIt(half, 2 * half + 1);
    } else {
      run := AllDraw(half, j - 1);
      var w := Run(Crowd(half), run, half).value;
      WordOfWords(j - 1, 1, half);
      run := Do(half, run, T.Go(j - 1));
    }
  }

  /** A consumer whose ticket is nought passes the test and claims. */
  lemma Passes(w: Words, half: nat, t: nat)
    requires half >= 2 && t < |w.threads| && w.threads[t] == T.Drawn(1, 0, 0) && w.tail == 1 && w.head < 2
    ensures Enabled(w, T.Go(t))
    ensures var w1 := Next(w, T.Go(t), half);
      && Enabled(w1, T.Go(t)) && Next(w1, T.Go(t), half) == At(w.(head := w.head + 1), t, T.Holding(w.head, 1))
  {
    ModSmall(0, 2 * half);
    ModSmall(1, 2 * half);
    ModSmall(w.head + 1, 2 * half);
    DivModUnique(-1, 2 * half, -1, 2 * half - 1);
  }

  /** For every word size of two bits and more there is a run in which two consumers claim the only
      element: with as many operations in progress as there are words, the last of them draws the
      first one's ticket again. The index that the second one claims was never published. */
  lemma CrowdBreaksWords(half: nat)
    requires half >= 2
    ensures exists run :: TwoClaimOne(Run(Crowd(half), run, half))
  {
    var run := AllDraw(half, 2 * half + 1);
    var w := Run(Crowd(half), run, half).value;
    ModSmall(0, 2 * half);
    DivModUnique(2 * half, 2 * half, 1, 0);
    hide Run, Crowd, Next, Word, Enabled;
    assert w.threads[0] == T.Drawn(1, 0, 0) && w.threads[2 * half] == T.Drawn(1, 0, 0);
    run := ClaimsFirst(half, run, 0);
    run := ClaimsFirst(half, run, 2 * half);
    assert TwoClaimOne(Run(Crowd(half), run, half));
  }

  lemma ClaimsFirst(half: nat, run: seq<T.Action>, t: nat) returns (more: seq<T.Action>)
    requires half >= 2 && Run(Crowd(half), run, half).Some?
    requires var w := Run(Crowd(half), run, half).value; t < |w.threads| && w.threads[t] == T.Drawn(1, 0, 0) && w.tail == 1 && w.head < 2
    ensures var w := Run(Crowd(half), run, half).value;
      Run(Crowd(half), more, half) == Some(At(w.(head := w.head + 1), t, T.Holding(w.head, 1)))
  {
    var w := Run(Crowd(half), run, half).value;
    Passes(w, half, t);
    hide Run, Crowd, Next, Enabled;
    more := Do(half, run, T.Go(t));
    more := Do(half, more, T.Go(t));
  }

  /** The crowd is what the counters are at first. */
  lemma CrowdIsInitial(half: nat)
    requires half > 0
    ensures var s := T.State(0, 0, 0, 0, seq(2 * half + 1, _ => T.Idle), []); T.Initial(s) && Crowd(half) == ToWords(s, half)
  {
    ModSmall(0, 2 * half);
  }

  /** One element was published and two were claimed. */
  predicate TwoClaimOne(w: Option<Words>) {
    && w.Some? && w.value.tail == 1 && w.value.head == 2 && |w.value.threads| > 1
    && w.value.threads[0] == T.Holding(0, 1) && w.value.threads[|w.value.threads| - 1] == T.Holding(1, 1)
  }

  // ----- a condition under which words are right -----

  /** The shared counters when a consumer began its operation. */
  datatype Mark = Mark(tail: nat, head: nat, optimistic: nat, overcommit: nat)

  /** From the beginning of an operation until it holds indices or has given up. */
  predicate Busy(p: T.Pc) { !p.Idle? && !p.Holding? }

  /** For each consumer, the counters when it last began an operation. */
  function Marks(s: T.State, run: seq<T.Action>): seq<Mark>
    requires T.Run(s, run).Some?
    decreases |run|
  {
    if run == [] then seq(|s.threads|, _ => Mark(0, 0, 0, 0))
    else MarkNext(T.Run(s, run[..|run| - 1]).value, run[|run| - 1], Marks(s, run[..|run| - 1]))
  }

  function MarkNext(u: T.State, a: T.Action, marks: seq<Mark>): seq<Mark> {
    if a.Begin? && a.t < |marks| then marks[a.t := Mark(u.tail, u.head, u.optimistic, u.overcommit)] else marks
  }

  /** While a consumer has been busy, no more than a quarter of the range of tickets has been drawn,
      and what was there when it began and what was published since is less than half the range. */
  predicate BriskNow(s: T.State, marks: seq<Mark>, half: nat) {
    && |marks| == |s.threads|
    && forall t :: 0 <= t < |marks| && Busy(s.threads[t]) ==>
         2 * (s.optimistic - marks[t].optimistic) <= half && s.tail - marks[t].head < half
  }

  /** It was so before every step of the run. */
  predicate Brisk(s: T.State, run: seq<T.Action>, half: nat)
    requires T.Run(s, run).Some?
    decreases |run|
  {
    run != [] ==>
      var before := run[..|run| - 1];
      Brisk(s, before, half) && BriskNow(T.Run(s, before).value, Marks(s, before), half)
  }

  /** Tickets drawn and not yet settled: to be tested, or failed and to be repaid. */
  function Own(p: T.Pc): nat { T.Debt(p) + if p.Drawn? then p.want else 0 }

  /** The unsettled tickets of the consumers whose operation began at count x or later. */
  function Recent(threads: seq<T.Pc>, marks: seq<Mark>, x: nat): nat
    requires |threads| == |marks|
  {
    if threads == [] then 0 else RecentOf(threads[0], marks[0], x) + Recent(threads[1..], marks[1..], x)
  }

  function RecentOf(p: T.Pc, m: Mark, x: nat): nat { if Busy(p) && m.optimistic >= x then Own(p) else 0 }

  lemma {:induction false} RecentAfter(threads: seq<T.Pc>, marks: seq<Mark>, x: nat, t: T.Tid, p: T.Pc, m: Mark)
    requires t < |threads| == |marks|
    ensures Recent(threads[t := p], marks[t := m], x) == Recent(threads, marks, x) - RecentOf(threads[t], marks[t], x) + RecentOf(p, m, x)
    ensures RecentOf(threads[t], marks[t], x) <= Recent(threads, marks, x)
  {
    if t == 0 {
      assert threads[0 := p][1..] == threads[1..] && marks[0 := m][1..] == marks[1..];
    } else {
      assert threads[t := p][1..] == threads[1..][t - 1 := p] && marks[t := m][1..] == marks[1..][t - 1 := m];
      RecentAfter(threads[1..], marks[1..], x, t - 1, p, m);
    }
  }

  /** If every busy consumer began at count x or later, these are all unsettled tickets. */
  lemma {:induction false} RecentIsAll(threads: seq<T.Pc>, marks: seq<Mark>, x: nat)
    requires |threads| == |marks|
    requires forall t :: 0 <= t < |threads| && Busy(threads[t]) ==> marks[t].optimistic >= x
    ensures Recent(threads, marks, x) == Sum(threads, Own)
  {
    if threads != [] { RecentIsAll(threads[1..], marks[1..], x); }
  }

  // ----- what a busy consumer's locals have to do with the counters when it began -----

  predicate MarkOk(s: T.State, m: Mark, half: nat) {
    && m.tail <= s.tail && m.head <= s.head && m.optimistic <= s.optimistic && m.overcommit <= s.overcommit
    && 2 * (m.optimistic - m.overcommit - m.tail) <= half
  }

  predicate LocalsOk(s: T.State, p: T.Pc, m: Mark) {
    match p
    case HaveTail(_, tail) => m.tail <= tail <= s.tail
    case HaveOver(_, tail, over) => m.tail <= tail <= s.tail && m.overcommit <= over <= s.overcommit
    case Draw(_, over) => m.overcommit <= over <= s.overcommit
    case Drawn(_, over, ticket) => m.overcommit <= over && m.optimistic <= ticket <= s.optimistic && ticket - over >= m.head
    case _ => true
  }

  /** Every ticket drawn is claimed, passed and about to be claimed, repaid or unsettled. */
  predicate Balanced(s: T.State) {
    s.optimistic == s.head + s.overcommit + Sum(s.threads, T.Unclaimed) + Sum(s.threads, Own)
  }

  function Above(n: nat, x: nat): nat { if x <= n then n - x else 0 }

  ghost predicate RecentOk(s: T.State, marks: seq<Mark>) {
    |marks| == |s.threads| && forall x: nat :: Recent(s.threads, marks, x) <= Above(s.optimistic, x)
  }

  ghost predicate WatchOk(s: T.State, marks: seq<Mark>, half: nat) {
    && |marks| == |s.threads| && Balanced(s) && RecentOk(s, marks)
    && forall t :: 0 <= t < |marks| && Busy(s.threads[t]) ==> MarkOk(s, marks[t], half) && LocalsOk(s, s.threads[t], marks[t])
  }

  lemma WatchStart(s: T.State, half: nat)
    requires T.Initial(s)
    ensures WatchOk(s, seq(|s.threads|, _ => Mark(0, 0, 0, 0)), half)
  {
    var marks := seq(|s.threads|, _ => Mark(0, 0, 0, 0));
    SumZero(s.threads, T.Unclaimed);
    SumZero(s.threads, Own);
    forall x: nat ensures Recent(s.threads, marks, x) <= Above(s.optimistic, x) {
      RecentIsAll(s.threads, marks, x);
    }
  }

  /** A brisk consumer's tests are near. */
  lemma BriskTestIsNear(s: T.State, marks: seq<Mark>, a: T.Action, half: nat)
    requires half > 0 && T.Enabled(s, a) && WatchOk(s, marks, half) && BriskNow(s, marks, half)
    ensures Near(s, a, half)
  {
    hide RecentOk;
    if a.Go? {
      assert Busy(s.threads[a.t]);
    }
  }

  /** What a step of thread t does to the sums. */
  lemma SumsMove(s: T.State, t: T.Tid, p: T.Pc)
    requires t < |s.threads|
    ensures Sum(s.threads[t := p], T.Unclaimed) == Sum(s.threads, T.Unclaimed) - T.Unclaimed(s.threads[t]) + T.Unclaimed(p)
    ensures Sum(s.threads[t := p], Own) == Sum(s.threads, Own) - Own(s.threads[t]) + Own(p)
  {
    SumUpdate(s.threads, T.Unclaimed, t, p);
    SumUpdate(s.threads, Own, t, p);
  }

  lemma GoBalanced(s: T.State, t: T.Tid)
    requires T.Enabled(s, T.Go(t)) && Balanced(s) && T.PcOk(s, t)
    ensures Balanced(T.Step(s, t))
  {
    SumsMove(s, t, T.Step(s, t).threads[t]);
    hide Sum, T.Settle;
  }

  lemma NextBalanced(s: T.State, a: T.Action)
    requires T.Inv(s) && T.Enabled(s, a) && Balanced(s)
    ensures Balanced(T.Next(s, a))
  {
    match a {
      case Publish(_) =>
      case Begin(t, max) => SumsMove(s, t, T.Start(max));
      case Finish(t) => SumsMove(s, t, T.Idle);
      case Go(t) => assert T.PcOk(s, t); hide T.Inv; GoBalanced(s, t);
    }
  }

  /** Drawing gives new tickets to an operation that began before; all other steps at most settle some. */
  lemma NextRecent(s: T.State, a: T.Action, marks: seq<Mark>)
    requires T.Enabled(s, a) && RecentOk(s, marks) && (a.Go? ==> T.PcOk(s, a.t))
    requires a.Go? ==> marks[a.t].optimistic <= s.optimistic
    ensures RecentOk(T.Next(s, a), MarkNext(s, a, marks))
  {
    var u, marks' := T.Next(s, a), MarkNext(s, a, marks);
    if !a.Publish? {
      var t := a.t;
      assert u.threads == s.threads[t := u.threads[t]] && marks' == marks[t := marks'[t]];
      OwnMoves(s, a, t);
      forall x: nat ensures Recent(u.threads, marks', x) <= Above(u.optimistic, x) {
        RecentAfter(s.threads, marks, x, t, u.threads[t], marks'[t]);
        hide Recent, Own, T.Next;
      }
    }
  }

  lemma OwnMoves(s: T.State, a: T.Action, t: T.Tid)
    requires T.Enabled(s, a) && !a.Publish? && t == a.t && (a.Go? ==> T.PcOk(s, t))
    ensures var u := T.Next(s, a);
      && t < |u.threads| == |s.threads| && u.optimistic >= s.optimistic
      && (a.Go? ==> Own(u.threads[t]) <= Own(s.threads[t]) + u.optimistic - s.optimistic && Busy(s.threads[t]))
      && (!a.Go? ==> Own(u.threads[t]) == 0 && u.optimistic == s.optimistic)
  {
    hide T.Settle, T.FailedIn;
  }

  /** An operation begins: the unsettled tickets belong to busy consumers, so they are few. */
  lemma BeginMark(s: T.State, marks: seq<Mark>, half: nat)
    requires T.Inv(s) && WatchOk(s, marks, half) && BriskNow(s, marks, half)
    ensures MarkOk(s, Mark(s.tail, s.head, s.optimistic, s.overcommit), half)
  {
    var x := if s.optimistic >= half / 2 then s.optimistic - half / 2 else 0;
    RecentIsAll(s.threads, marks, x);
    T.PassersFit(s, |s.tickets|);
    hide T.Inv;
  }

  /** The counters only grow, and the locals a step sets are read from them. */
  lemma GoLocals(s: T.State, t: T.Tid, m: Mark, half: nat)
    requires T.Enabled(s, T.Go(t)) && T.PcOk(s, t) && Balanced(s)
    requires MarkOk(s, m, half) && LocalsOk(s, s.threads[t], m)
    ensures var u := T.Step(s, t); MarkOk(u, m, half) && LocalsOk(u, u.threads[t], m)
  {
    hide T.Settle, T.FailedIn, Sum;
  }

  lemma NextGrows(s: T.State, a: T.Action)
    requires T.Enabled(s, a)
    ensures var u := T.Next(s, a);
      && u.tail >= s.tail && u.head >= s.head && u.optimistic >= s.optimistic && u.overcommit >= s.overcommit
      && |u.threads| == |s.threads|
      && (a.Publish? ==> u.threads == s.threads) && (!a.Publish? ==> u.threads == s.threads[a.t := u.threads[a.t]])
  {
    hide T.Settle;
  }

  lemma NextWatch(s: T.State, a: T.Action, marks: seq<Mark>, half: nat)
    requires T.Inv(s) && T.Enabled(s, a) && WatchOk(s, marks, half) && BriskNow(s, marks, half)
    ensures WatchOk(T.Next(s, a), MarkNext(s, a, marks), half)
  {
    var u, marks' := T.Next(s, a), MarkNext(s, a, marks);
    if a.Go? { assert T.PcOk(s, a.t) && Busy(s.threads[a.t]); }
    NextBalanced(s, a);
    NextRecent(s, a, marks);
    NextGrows(s, a);
    if a.Begin? { BeginMark(s, marks, half); }
    if a.Go? { GoLocals(s, a.t, marks[a.t], half); }
    assert a.Begin? ==> u.threads[a.t] == T.Start(a.max) && u == T.At(s, a.t, T.Start(a.max));
    assert a.Finish? ==> u.threads[a.t] == T.Idle;
    assert a.Go? ==> u == T.Step(s, a.t);
    hide T.Inv, Balanced, RecentOk, T.Next;
    forall t | 0 <= t < |marks'| && Busy(u.threads[t]) ensures MarkOk(u, marks'[t], half) && LocalsOk(u, u.threads[t], marks'[t]) {
    }
  }

  lemma {:induction false} BriskIsNear(s: T.State, run: seq<T.Action>, half: nat)
    requires half > 0 && T.Initial(s) && T.Run(s, run).Some? && Brisk(s, run, half)
    ensures WatchOk(T.Run(s, run).value, Marks(s, run), half) && AllNear(s, run, half)
    decreases |run|
  {
    if run == [] {
      WatchStart(s, half);
    } else {
      var before, a := run[..|run| - 1], run[|run| - 1];
      BriskIsNear(s, before, half);
      T.ReachableInv(s, before);
      hide T.Inv, WatchOk, BriskNow, Near, T.Next, T.Enabled, MarkNext;
      BriskTestIsNear(T.Run(s, before).value, Marks(s, before), a, half);
      NextWatch(T.Run(s, before).value, a, Marks(s, before), half);
    }
  }

  /** If, while any one consumer is busy with its operation, no more than a quarter of the range of
      tickets is drawn and the elements there at its beginning and those published since are fewer
      than half the range, then the protocol on words does exactly what it does on counters: every
      consumer takes the same branch and claims the same range, and the head never passes the tail. */
  lemma BriskWordsAreRight(s: T.State, run: seq<T.Action>, half: nat)
    requires half > 0 && T.Initial(s) && T.Run(s, run).Some? && Brisk(s, run, half)
    ensures Run(ToWords(s, half), run, half) == Some(ToWords(T.Run(s, run).value, half))
    ensures var c := T.Claims(s, run);
      && (forall i :: 0 <= i < |c| ==> c[i].1 > 0 && c[i].0 == T.EndOf(c[..i]))
      && T.Run(s, run).value.head == T.EndOf(c) <= T.Run(s, run).value.tail
  {
    BriskIsNear(s, run, half);
    WordsRefineCounters(s, run, half);
    T.ClaimsContiguous(s, run);
  }

  // ----- exactly when -----

  /** Every distance that a test of the run compares with nought is less than the range, either way. */
  predicate Ranged(s: T.State, run: seq<T.Action>, half: nat)
    requires T.Run(s, run).Some?
    decreases |run|
  {
    run != [] ==>
      Ranged(s, run[..|run| - 1], half) && -2 * half < Distance(T.Run(s, run[..|run| - 1]).value, run[|run| - 1]) < 2 * half
  }

  /** After every step of the run the words are those of the counters. */
  predicate Tracks(s: T.State, run: seq<T.Action>, half: nat)
    requires half > 0 && T.Run(s, run).Some?
    decreases |run|
  {
    && Run(ToWords(s, half), run, half) == Some(ToWords(T.Run(s, run).value, half))
    && (run != [] ==> Tracks(s, run[..|run| - 1], half))
  }

  /** The words follow the counters through a run if and only if every test of it is near. */
  lemma {:induction false} WordsTrackExactly(s: T.State, run: seq<T.Action>, half: nat)
    requires half > 0 && T.Initial(s) && T.Run(s, run).Some? && Ranged(s, run, half)
    ensures Tracks(s, run, half) <==> AllNear(s, run, half)
    decreases |run|
  {
    hide ToWords, Near, Next, Enabled, T.Next, T.Enabled, T.Inv, Distance;
    if run != [] {
      var before, a := run[..|run| - 1], run[|run| - 1];
      WordsTrackExactly(s, before, half);
      T.ReachableInv(s, before);
      StepRefinesExactly(T.Run(s, before).value, a, half);
    }
  }
}
