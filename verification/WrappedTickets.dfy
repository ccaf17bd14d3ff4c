// The dequeue ticket protocol on words: what the source computes, with every counter wrapping
// round, takes the same decisions as the protocol on unbounded counters.

module WrappedTickets {
  import opened Wrappers
  import opened ModArith
  import opened WrappedIndices
  import T = Tickets

  datatype Words = Words(tail: nat, head: nat, optimistic: nat, overcommit: nat, threads: seq<T.Pc>)

  /** A consumer's locals as words; wanted and granted counts are counts, not counters. */
  function WordPc(p: T.Pc, half: nat): T.Pc
    requires half > 0
  {
    match p
    case HaveTail(max, tail) => T.HaveTail(max, Word(tail, half))
    case HaveOver(max, tail, over) => T.HaveOver(max, Word(tail, half), Word(over, half))
    case Draw(want, over) => T.Draw(want, Word(over, half))
    case Drawn(want, over, m) => T.Drawn(want, Word(over, half), Word(m, half))
    case Holding(first, count) => T.Holding(Word(first, half), count)
    case _ => p
  }

  function ToWords(s: T.State, half: nat): Words
    requires half > 0
  {
    Words(Word(s.tail, half), Word(s.head, half), Word(s.optimistic, half), Word(s.overcommit, half),
          seq(|s.threads|, t requires 0 <= t < |s.threads| => WordPc(s.threads[t], half)))
  }

  predicate Enabled(w: Words, a: T.Action) {
    match a
    case Publish(_) => true
    case Begin(t, max) => t < |w.threads| && w.threads[t].Idle? && max > 0
    case Go(t) => t < |w.threads| && !w.threads[t].Idle? && !w.threads[t].Holding?
    case Finish(t) => t < |w.threads| && w.threads[t].Holding?
  }

  function At(w: Words, t: T.Tid, p: T.Pc): Words
    requires t < |w.threads|
  {
    w.(threads := w.threads[t := p])
  }

  /** The atomic accesses of the source on words; circular_less_than(0, count) guards the claims. */
  function Next(w: Words, a: T.Action, half: nat): Words
    requires Enabled(w, a) && half > 0
  {
    match a
    case Publish(count) => w.(tail := Word(w.tail + count, half))
    case Begin(t, max) => At(w, t, T.Start(max))
    case Finish(t) => At(w, t, T.Idle)
    case Go(t) =>
      match w.threads[t]
      case Start(max) => At(w, t, T.HaveTail(max, w.tail))
      case HaveTail(max, tail) => At(w, t, T.HaveOver(max, tail, w.overcommit))
      case HaveOver(max, tail, over) =>
        var desired := Word(tail - Word(w.optimistic - over, half), half);
        if CircularLess(0, desired, half) then At(w, t, T.Draw(T.Min(desired, max), over)) else At(w, t, T.Idle)
      case Draw(want, over) => At(w.(optimistic := Word(w.optimistic + want, half)), t, T.Drawn(want, over, w.optimistic))
      case Drawn(want, over, m) =>
        var actual := Word(w.tail - Word(m - over, half), half);
        var got: nat := if CircularLess(0, actual, half) then T.Min(want, actual) else 0;
        At(w, t, if got < want then T.Repay(want, got) else T.Claiming(got))
      case Repay(want, got) =>
        At(w.(overcommit := Word(w.overcommit + T.Sub(want, got), half)), t, if got > 0 then T.Claiming(got) else T.Idle)
      case Claiming(got) => At(w.(head := Word(w.head + got, half)), t, T.Holding(w.head, got))
  }

  /** The distance that the consumer's next test compares with zero, if its next step is a test. */
  function Distance(s: T.State, a: T.Action): int {
    if a.Go? && a.t < |s.threads| then
      match s.threads[a.t]
      case HaveOver(_, tail, over) => tail - (s.optimistic - over)
      case Drawn(_, over, m) => s.tail - (m - over)
      case _ => 0
    else 0
  }

  /** Distances in a test stay below half the range. */
  predicate Near(s: T.State, a: T.Action, half: nat) { Distance(s, a) + half >= 0 && Distance(s, a) < half }

  /** circular_less_than(0, ·) tests the sign of a distance that is near, and the word is the distance when positive. */
  lemma SignOfWord(d: int, half: nat)
    requires half > 0 && d + half >= 0 && d < half
    ensures CircularLess(0, Word(d, half), half) <==> d > 0
    ensures d >= 0 ==> Word(d, half) == d
  {
    WordOfWords(0, d, half);
    ModSmall(0, 2 * half);
    CircularLessExact(0, d, half);
    if d >= 0 { ModSmall(d, 2 * half); }
  }

  lemma DistanceOfWords(a: int, b: int, c: int, half: nat)
    requires half > 0
    ensures Word(Word(a, half) - Word(Word(b, half) - Word(c, half), half), half) == Word(a - (b - c), half)
  {
    WordOfWords(b, c, half);
    WordOfWords(a, b - c, half);
  }

  lemma SetThread(s: T.State, t: T.Tid, p: T.Pc, half: nat)
    requires half > 0 && t < |s.threads|
    ensures ToWords(T.At(s, t, p), half) == At(ToWords(s, half), t, WordPc(p, half))
  {
  }

  /** One step on words is the wrapped image of the same step on counters. */
  lemma StepRefines(s: T.State, a: T.Action, half: nat)
    requires half > 0 && T.Enabled(s, a) && Near(s, a, half)
    ensures Enabled(ToWords(s, half), a) && Next(ToWords(s, half), a, half) == ToWords(T.Next(s, a), half)
  {
    match a {
      case Publish(count) => WordOfWords(s.tail, count, half);
      case Begin(t, max) => SetThread(s, t, T.Start(max), half);
      case Finish(t) => SetThread(s, t, T.Idle, half);
      case Go(t) => GoRefines(s, t, half);
    }
  }

  lemma GoRefines(s: T.State, t: T.Tid, half: nat)
    requires half > 0 && T.Enabled(s, T.Go(t)) && Near(s, T.Go(t), half)
    ensures Next(ToWords(s, half), T.Go(t), half) == ToWords(T.Step(s, t), half)
  {
    hide Word, CircularLess;
    var s' := T.Step(s, t);
    match s.threads[t] {
      case Start(max) => SetThread(s, t, s'.threads[t], half);
      case HaveTail(max, tail) => SetThread(s, t, s'.threads[t], half);
      case HaveOver(max, tail, over) =>
        DistanceOfWords(tail, s.optimistic, over, half);
        SignOfWord(tail - (s.optimistic - over), half);
        SetThread(s, t, s'.threads[t], half);
      case Draw(want, over) => WordOfWords(s.optimistic, want, half);
      case Drawn(want, over, m) =>
        DistanceOfWords(s.tail, m, over, half);
        SignOfWord(s.tail - (m - over), half);
      case Repay(want, got) => WordOfWords(s.overcommit, T.Sub(want, got), half);
      case Claiming(got) => WordOfWords(s.head, got, half);
    }
  }

  // ----- and only then -----

  /** For distances less than the range either way, the test on words tells the sign of the distance
      exactly when it is near. */
  lemma TestTellsSign(d: int, half: nat)
    requires half > 0 && -2 * half < d < 2 * half
    ensures (CircularLess(0, Word(d, half), half) <==> d > 0) <==> d + half >= 0 && d < half
  {
    ModSmall(0, 2 * half);
    CircularLessExact(0, d, half);
  }

  /** The step on words is the image of the step on counters if and only if the distance that it
      tests, taken to be less than the range, is less than half the range ahead and at most half the
      range behind: otherwise the two take different branches. */
  lemma StepRefinesExactly(s: T.State, a: T.Action, half: nat)
    requires half > 0 && T.Inv(s) && T.Enabled(s, a) && -2 * half < Distance(s, a) < 2 * half
    ensures Enabled(ToWords(s, half), a)
    ensures Next(ToWords(s, half), a, half) == ToWords(T.Next(s, a), half) <==> Near(s, a, half)
  {
    if Near(s, a, half) {
      hide T.Inv, T.Next, Next, Distance, Near, ToWords;
      StepRefines(s, a, half);
    } else {
      assert T.PcOk(s, a.t);
      hide T.Inv;
      TestGoesWrong(s, a.t, half);
    }
  }

  lemma TestGoesWrong(s: T.State, t: T.Tid, half: nat)
    requires half > 0 && T.Enabled(s, T.Go(t)) && T.PcOk(s, t) && -2 * half < Distance(s, T.Go(t)) < 2 * half && !Near(s, T.Go(t), half)
    ensures Next(ToWords(s, half), T.Go(t), half) != ToWords(T.Step(s, t), half)
  {
    match s.threads[t] {
      case HaveOver(max, tail, over) => FirstTestGoesWrong(s, t, half, max, tail, over);
      case Drawn(want, over, m) => SecondTestGoesWrong(s, t, half, want, over, m);
      case _ =>
    }
    assert ToWords(T.Step(s, t), half).threads[t] == WordPc(T.Step(s, t).threads[t], half);
    hide Next, T.Step;
  }

  lemma FirstTestGoesWrong(s: T.State, t: T.Tid, half: nat, max: nat, tail: nat, over: nat)
    requires half > 0 && t < |s.threads| && s.threads[t] == T.HaveOver(max, tail, over)
    requires var d := tail - (s.optimistic - over); -2 * half < d < 2 * half && !(d + half >= 0 && d < half)
    ensures Next(ToWords(s, half), T.Go(t), half).threads[t] != WordPc(T.Step(s, t).threads[t], half)
  {
    var d := tail - (s.optimistic - over);
    TestTellsSign(d, half);
    DistanceOfWords(tail, s.optimistic, over, half);
    hide Word, CircularLess;
    assert ToWords(s, half).threads[t] == T.HaveOver(max, Word(tail, half), Word(over, half));
  }

  lemma SecondTestGoesWrong(s: T.State, t: T.Tid, half: nat, want: nat, over: nat, m: nat)
    requires half > 0 && t < |s.threads| && s.threads[t] == T.Drawn(want, over, m) && want > 0
    requires var d := s.tail - (m - over); -2 * half < d < 2 * half && !(d + half >= 0 && d < half)
    ensures Next(ToWords(s, half), T.Go(t), half).threads[t] != WordPc(T.Step(s, t).threads[t], half)
  {
    var d := s.tail - (m - over);
    DistanceOfWords(s.tail, m, over, half);
    GrantsDiffer(d, want, half);
    hide Word, CircularLess, T.Settle;
    assert ToWords(s, half).threads[t] == T.Drawn(want, Word(over, half), Word(m, half));
  }

  /** Of the count granted on words and the count granted on counters one is nought, the other not. */
  lemma GrantsDiffer(d: int, want: nat, half: nat)
    requires half > 0 && want > 0 && -2 * half < d < 2 * half && !(d + half >= 0 && d < half)
    ensures var got: nat := if CircularLess(0, Word(d, half), half) then T.Min(want, Word(d, half)) else 0;
      var due: nat := if d > 0 then T.Min(want, d) else 0;
      (got == 0) != (due == 0)
  {
    TestTellsSign(d, half);
    ModSmall(0, 2 * half);
  }

  // ----- whole runs -----

  function Run(w: Words, run: seq<T.Action>, half: nat): Option<Words>
    requires half > 0
    decreases |run|
  {
    if run == [] then Some(w)
    else match Run(w, run[..|run| - 1], half)
      case None => None
      case Some(u) => if Enabled(u, run[|run| - 1]) then Some(Next(u, run[|run| - 1], half)) else None
  }

  /** Every test of the run compares counters less than half the range apart. */
  predicate AllNear(s: T.State, run: seq<T.Action>, half: nat)
    requires T.Run(s, run).Some?
    decreases |run|
  {
    run != [] ==> AllNear(s, run[..|run| - 1], half) && Near(T.Run(s, run[..|run| - 1]).value, run[|run| - 1], half)
  }

  /** The protocol on words refines the one on unbounded counters: whatever happens to the counters
      modulo the word size, every consumer takes the same branch and claims the same count, as
      long as the counters compared are less than half the range apart. */
  lemma {:induction false} WordsRefineCounters(s: T.State, run: seq<T.Action>, half: nat)
    requires half > 0 && T.Run(s, run).Some? && AllNear(s, run, half)
    ensures Run(ToWords(s, half), run, half) == Some(ToWords(T.Run(s, run).value, half))
    decreases |run|
  {
    hide Near, Next, Enabled, ToWords, T.Next, T.Enabled;
    if run != [] {
      var before, a := run[..|run| - 1], run[|run| - 1];
      WordsRefineCounters(s, before, half);
      StepRefines(T.Run(s, before).value, a, half);
    }
  }
}
