// The ticket protocol for one consumer that meets no other: step by step, what it has read agrees
// with the counters, so that it is granted exactly what is there.

module TicketsAlone {
  import opened Tickets

  /** What a dequeue of at most max elements is due. */
  function Due(s: State, max: nat): nat { if s.head < s.tail then Min(max, s.tail - s.head) else 0 }

  /** Consumer t is looking for at most max elements, and nobody else has come between. */
  predicate Seeking(s: State, t: Tid, max: nat) {
    && t < |s.threads| && max > 0
    && match s.threads[t]
       case Start(m) => m == max && s.optimistic - s.overcommit == s.head
       case HaveTail(m, tail) => m == max && tail == s.tail && s.optimistic - s.overcommit == s.head
       case HaveOver(m, tail, over) => m == max && tail == s.tail && over == s.overcommit && s.optimistic - s.overcommit == s.head
       case Draw(want, over) => want == Due(s, max) > 0 && over == s.overcommit && s.optimistic - s.overcommit == s.head
       case Drawn(want, over, m) => want == Due(s, max) > 0 && over == s.overcommit && m - over == s.head
       case Claiming(got) => got == Due(s, max) > 0
       case _ => false
  }

  function Left(p: Pc): nat {
    match p
    case Start(_) => 6
    case HaveTail(_, _) => 5
    case HaveOver(_, _, _) => 4
    case Draw(_, _) => 3
    case Drawn(_, _, _) => 2
    case _ => 1
  }

  lemma SeekStep(s: State, t: Tid, max: nat)
    requires Seeking(s, t, max)
    ensures Enabled(s, Go(t))
    ensures var u := Next(s, Go(t));
      && u.tail == s.tail && u.threads == s.threads[t := u.threads[t]]
      && (if s.threads[t].Claiming? then u.threads[t] == Holding(s.head, Due(s, max)) && u.head == s.head + Due(s, max)
          else u.head == s.head && if s.threads[t].HaveOver? && Due(s, max) == 0 then u.threads[t].Idle?
               else Seeking(u, t, max) && Left(u.threads[t]) < Left(s.threads[t]))
  {
    hide Settle;
  }
}
