// What get_or_add_implicit_producer answers: null exactly if the call ran out of memory, and
// otherwise a producer; and that a call which meets no other ends.

module ProducerHashAnswers {
  import opened Wrappers
  import opened ProducerHash

  /** The thread's next step allocates: a bigger table, or its producer. */
  predicate Allocates(s: State, t: Tid) {
    t < |s.pcs| &&
    match s.pcs[t]
    case Resize(_, _) => true
    case Fit(main, n) => main < |s.tables| && n < Room(s.tables[main].capacity)
    case _ => false
  }

  /** Since thread t last began a call, an allocation of its own has failed. */
  predicate RanOut(capacity: nat, hash: seq<nat>, run: seq<Action>, t: Tid)
    requires capacity > 0 && Trace(capacity, hash, run).Some?
    decreases |run|
  {
    && run != [] && run[|run| - 1] != Begin(t)
    && ((run[|run| - 1] == Step(t, false) && Allocates(Trace(capacity, hash, run[..|run| - 1]).value, t))
        || RanOut(capacity, hash, run[..|run| - 1], t))
  }

  /** On the way to returning null. */
  predicate Nulling(p: Pc) { p.Uncount? || p.GiveUp? || p.Cancel? }

  lemma OthersStay(s: State, a: Action, t: Tid)
    requires Shaped(s) && Enabled(s, a) && t < |s.pcs| && a.t != t
    ensures |Next(s, a).pcs| == |s.pcs| && Next(s, a).pcs[t] == s.pcs[t]
  {
    hide Shaped, Pos, Insert, Fill, Enlarge, Room;
  }

  lemma OwnMoves(s: State, t: Tid, alloc: bool)
    requires Shaped(s) && Enabled(s, Step(t, alloc))
    ensures |Next(s, Step(t, alloc)).pcs| == |s.pcs|
    ensures var p := Next(s, Step(t, alloc)).pcs[t];
      !p.Idle? ==> (Nulling(p) <==> Nulling(s.pcs[t]) || (Allocates(s, t) && !alloc))
  {
    hide Pos, Insert, Fill, Enlarge, Room;
  }

  /** In the middle of a call, a thread is on its way to null exactly if an allocation of the call has failed. */
  lemma {:induction false} NullingRanOut(capacity: nat, hash: seq<nat>, run: seq<Action>, t: Tid)
    requires capacity > 0 && Trace(capacity, hash, run).Some? && t < |hash|
    ensures var s := Trace(capacity, hash, run).value;
      |s.pcs| == |hash| && (!s.pcs[t].Idle? ==> (Nulling(s.pcs[t]) <==> RanOut(capacity, hash, run, t)))
    decreases |run|
  {
    if run != [] {
      var before, a := run[..|run| - 1], run[|run| - 1];
      NullingRanOut(capacity, hash, before, t);
      ReachableInv(capacity, hash, before);
      var s := Trace(capacity, hash, before).value;
      hide Inv, Shaped, Allocates, Nulling;
      if a.t != t {
        hide Next;
        OthersStay(s, a, t);
      } else if a.Begin? {
        assert Next(s, a).pcs[t] == Enter && !Nulling(Enter);
      } else {
        hide Next;
        OwnMoves(s, t, a.alloc);
      }
    }
  }

  /** A call returns null if and only if an allocation of the call failed. */
  lemma NullMeansNoMemory(capacity: nat, hash: seq<nat>, run: seq<Action>, a: Action)
    requires capacity > 0 && Trace(capacity, hash, run).Some? && Shaped(Trace(capacity, hash, run).value)
    requires Enabled(Trace(capacity, hash, run).value, a) && Result(Trace(capacity, hash, run).value, a).Some?
    ensures var r := Result(Trace(capacity, hash, run).value, a).value;
      r.0 == a.t && (r.1 == None <==> RanOut(capacity, hash, run, a.t))
  {
    var s := Trace(capacity, hash, run).value;
    ReachableInv(capacity, hash, run);
    HashLength(capacity, hash, run);
    NullingRanOut(capacity, hash, run, a.t);
    hide Trace, RanOut;
    if s.pcs[a.t].Probe? {
      hide Inv;
      ProbeResult(s, a.t, s.pcs[a.t].main, s.pcs[a.t].h, s.pcs[a.t].d, a);
    }
    hide Inv, Shaped, ResultOk;
  }

  lemma {:induction false} HashLength(capacity: nat, hash: seq<nat>, run: seq<Action>)
    requires capacity > 0 && Trace(capacity, hash, run).Some?
    ensures |Trace(capacity, hash, run).value.pcs| == |hash|
    decreases |run|
  {
    if run != [] {
      var before, a := run[..|run| - 1], run[|run| - 1];
      HashLength(capacity, hash, before);
      hide Shaped;
      NextLength(Trace(capacity, hash, before).value, a);
    }
  }

  lemma NextLength(s: State, a: Action)
    requires Shaped(s) && Enabled(s, a)
    ensures |Next(s, a).pcs| == |s.pcs|
  {
    hide Shaped, Pos, Insert, Fill, Enlarge, Room;
  }

  /** A producer is made only in a step whose allocation succeeds. */
  lemma MadeByAllocation(s: State, a: Action)
    requires Shaped(s) && Enabled(s, a) && (Next(s, a).created != s.created || Next(s, a).made != s.made)
    ensures a.Step? && a.alloc && Allocates(s, a.t) && s.pcs[a.t].Fit?
    ensures Next(s, a).created == s.created + 1 && Next(s, a).made == s.made[a.t := Some(s.created)]
  {
    hide Pos, Insert, Fill, Enlarge, Room;
  }

  // ----- a call that meets no other -----

  /** Thread t is in the middle of a call that neither waits for the resize flag nor is out of memory. */
  predicate OnWay(s: State, t: Tid) {
    t < |s.pcs| &&
    match s.pcs[t]
    case Enter => !s.locked
    case Probe(main, _, _) => !s.locked && main == |s.tables| - 1
    case Count(main) => !s.locked && main == |s.tables| - 1
    case Check(main, _) => !s.locked && main == |s.tables| - 1
    case Reload(_) => true
    case Resize(_, _) => true
    case Unlock(main, n) => main < |s.tables| && n < Room(s.tables[main].capacity)
    case Fit(main, n) => main < |s.tables| && n < Room(s.tables[main].capacity)
    case Look(_, _, _) => true
    case Swap(_, _, _) => true
    case Store(_, _, _) => true
    case _ => false
  }

  function Phase(p: Pc): nat {
    match p
    case Enter => 12
    case Probe(_, _, _) => 11
    case Count(_) => 10
    case Check(_, _) => 9
    case Reload(_) => 8
    case Resize(_, _) => 7
    case Unlock(_, _) => 6
    case Fit(_, _) => 5
    case Look(_, _, _) => 4
    case Swap(_, _, _) => 4
    case Store(_, _, _) => 3
    case _ => 0
  }

  /** Tables to go, and slots to go in the table that is probed. */
  function Tables(p: Pc): nat { if p.Probe? then p.h else 0 }

  function Slots(tables: seq<Table>, p: Pc): nat {
    match p
    case Probe(_, h, d) => if h < |tables| && d <= tables[h].capacity then tables[h].capacity - d else 0
    case Look(main, d, _) => if main < |tables| && d <= tables[main].capacity then 2 * (tables[main].capacity - d) + 1 else 0
    case Swap(main, d, _) => if main < |tables| && d <= tables[main].capacity then 2 * (tables[main].capacity - d) else 0
    case _ => 0
  }

  /** A step brings the call closer to its end. */
  predicate Closer(s: State, v: State, t: Tid)
    requires t < |s.pcs|
  {
    t < |v.pcs| &&
    var p, q := s.pcs[t], v.pcs[t];
    Phase(q) < Phase(p) || (Phase(q) == Phase(p) && (Tables(q) < Tables(p) || (Tables(q) == Tables(p) && Slots(v.tables, q) < Slots(s.tables, p))))
  }

  lemma StepOn(s: State, t: Tid)
    requires Shaped(s) && OnWay(s, t) && WithinLap(s.tables, s.pcs[t])
    ensures Enabled(s, Step(t, true))
    ensures var v := Next(s, Step(t, true)); t < |v.pcs| && (WithinLap(v.tables, v.pcs[t]) && !v.pcs[t].Idle? ==> OnWay(v, t) && Closer(s, v, t))
  {
    hide Pos, Insert, Fill, Enlarge;
    match s.pcs[t] {
      case Probe(main, h, d) => ProbeOn(s, t);
      case Look(_, _, _) => InsertOn(s, t);
      case Swap(_, _, _) => InsertOn(s, t);
      case Resize(_, _) => LateOn(s, t);
      case Unlock(_, _) => LateOn(s, t);
      case Fit(_, _) => LateOn(s, t);
      case Store(_, _, _) => LateOn(s, t);
      case _ => EarlyOn(s, t);
    }
  }

  lemma EarlyOn(s: State, t: Tid)
    requires Shaped(s) && OnWay(s, t) && Phase(s.pcs[t]) in {12, 10, 9, 8}
    ensures var v := Next(s, Step(t, true)); t < |v.pcs| && OnWay(v, t) && Closer(s, v, t)
  {
    hide Pos, Insert, Fill, Enlarge;
  }

  lemma LateOn(s: State, t: Tid)
    requires Shaped(s) && OnWay(s, t) && Phase(s.pcs[t]) in {7, 6, 5, 3}
    ensures var v := Next(s, Step(t, true)); t < |v.pcs| && (!v.pcs[t].Idle? ==> OnWay(v, t) && Closer(s, v, t))
  {
    hide Pos, Insert;
  }

  lemma ProbeOn(s: State, t: Tid)
    requires Shaped(s) && OnWay(s, t) && s.pcs[t].Probe?
    ensures var v := Next(s, Step(t, true)); t < |v.pcs| && (WithinLap(v.tables, v.pcs[t]) && !v.pcs[t].Idle? ==> OnWay(v, t) && Closer(s, v, t))
  {
    hide Pos, Insert, Fill, Room;
  }

  lemma InsertOn(s: State, t: Tid)
    requires Shaped(s) && OnWay(s, t) && (s.pcs[t].Look? || s.pcs[t].Swap?) && WithinLap(s.tables, s.pcs[t])
    ensures var v := Next(s, Step(t, true)); t < |v.pcs| && (WithinLap(v.tables, v.pcs[t]) && !v.pcs[t].Idle? ==> OnWay(v, t) && Closer(s, v, t))
  {
    hide Pos, Fill, Room;
  }

  lemma Do(capacity: nat, hash: seq<nat>, run: seq<Action>, a: Action) returns (more: seq<Action>)
    requires capacity > 0 && Trace(capacity, hash, run).Some? && Shaped(Trace(capacity, hash, run).value)
    requires Enabled(Trace(capacity, hash, run).value, a)
    ensures more == run + [a] && Trace(capacity, hash, more) == Some(Next(Trace(capacity, hash, run).value, a))
    ensures Inv(Trace(capacity, hash, more).value) && Shaped(Trace(capacity, hash, more).value)
    ensures Results(capacity, hash, more) ==
      match Result(Trace(capacity, hash, run).value, a) case Some(r) => Results(capacity, hash, run) + [r] case None => Results(capacity, hash, run)
  {
    more := run + [a];
    assert more[..|more| - 1] == run;
    hide Inv, Shaped, Next, Enabled, Result;
    ReachableInv(capacity, hash, more);
  }

  function Steps(t: Tid, k: nat): seq<Action> { seq(k, _ => Step(t, true)) }

  /** In the step that ends a call without failed allocations, the call returns a producer. */
  lemma EndsWithProducer(capacity: nat, hash: seq<nat>, run: seq<Action>, t: Tid)
    requires capacity > 0 && Trace(capacity, hash, run).Some? && Shaped(Trace(capacity, hash, run).value)
    requires OnWay(Trace(capacity, hash, run).value, t) && !RanOut(capacity, hash, run, t)
    requires Enabled(Trace(capacity, hash, run).value, Step(t, true))
    requires var v := Next(Trace(capacity, hash, run).value, Step(t, true)); t < |v.pcs| && v.pcs[t].Idle?
    ensures var r := Result(Trace(capacity, hash, run).value, Step(t, true)); r.Some? && r.value.0 == t && r.value.1.Some?
  {
    var s := Trace(capacity, hash, run).value;
    ReachableInv(capacity, hash, run);
    if s.pcs[t].Probe? {
      ProbeEnds(s, t, s.pcs[t].main, s.pcs[t].h, s.pcs[t].d);
    } else {
      hide Inv, Pos, Insert, Fill, Enlarge, Trace, RanOut;
    }
    if Result(s, Step(t, true)).Some? { NullMeansNoMemory(capacity, hash, run, Step(t, true)); }
  }

  lemma ProbeEnds(s: State, t: Tid, main: nat, h: nat, d: nat)
    requires Inv(s) && Shaped(s) && t < |s.pcs| && s.pcs[t] == Probe(main, h, d)
    requires ProbeStep(s, t, main, h, d).pcs[t].Idle?
    ensures Result(s, Step(t, true)).Some?
  {
    ThreadFacts(s, t);
    hide Inv;
    if s.tables[h].entries[Pos(s.tables[h], s.hash, t, d)].key == Some(t) {
      FoundIsResult(s, t, main, h, d);
    }
  }

  lemma OnlyEndsAnswer(s: State, t: Tid)
    requires Shaped(s) && Enabled(s, Step(t, true)) && t < |Next(s, Step(t, true)).pcs| && !Next(s, Step(t, true)).pcs[t].Idle?
    ensures Result(s, Step(t, true)) == None
  {
    hide Pos, Insert, Fill, Enlarge, Room, Shaped;
  }

  /** The results of one more call, which returned a producer. */
  predicate OneMore(q: seq<(Tid, Option<ProducerId>)>, r: seq<(Tid, Option<ProducerId>)>, t: Tid) {
    |r| == |q| + 1 && r[..|q|] == q && r[|q|].0 == t && r[|q|].1.Some?
  }

  /** One step of the call. */
  lemma CallOnce(capacity: nat, hash: seq<nat>, run: seq<Action>, t: Tid) returns (next: seq<Action>)
    requires capacity > 0 && Trace(capacity, hash, run).Some? && Shaped(Trace(capacity, hash, run).value)
    requires OnWay(Trace(capacity, hash, run).value, t) && run != [] && !RanOut(capacity, hash, run, t)
    ensures next == run + [Step(t, true)] && Trace(capacity, hash, next).Some? && Shaped(Trace(capacity, hash, next).value)
    ensures !RanOut(capacity, hash, next, t)
    ensures var s, v := Trace(capacity, hash, run).value, Trace(capacity, hash, next).value;
      && t < |s.pcs| && t < |v.pcs|
      && if v.pcs[t].Idle? then OneMore(Results(capacity, hash, run), Results(capacity, hash, next), t)
         else OnWay(v, t) && Closer(s, v, t) && Results(capacity, hash, next) == Results(capacity, hash, run)
  {
    var s := Trace(capacity, hash, run).value;
    ReachableInv(capacity, hash, run);
    ProbeWithinLap(s, t);
    StepOn(s, t);
    hide Trace, Inv, Shaped, Next, Enabled, OnWay, WithinLap, Results, Result, Closer;
    next := Do(capacity, hash, run, Step(t, true));
    assert next[..|next| - 1] == run;
    var v := Trace(capacity, hash, next).value;
    if v.pcs[t].Idle? {
      EndsWithProducer(capacity, hash, run, t);
    } else {
      ProbeWithinLap(v, t);
      OnlyEndsAnswer(s, t);
    }
  }

  lemma CallOn(capacity: nat, hash: seq<nat>, run: seq<Action>, t: Tid) returns (more: seq<Action>, k: nat)
    requires capacity > 0 && Trace(capacity, hash, run).Some? && Shaped(Trace(capacity, hash, run).value)
    requires OnWay(Trace(capacity, hash, run).value, t) && run != [] && !RanOut(capacity, hash, run, t)
    ensures more == run + Steps(t, k) && Trace(capacity, hash, more).Some?
    ensures t < |Trace(capacity, hash, more).value.pcs| && Trace(capacity, hash, more).value.pcs[t].Idle?
    ensures OneMore(Results(capacity, hash, run), Results(capacity, hash, more), t)
    decreases Phase(Trace(capacity, hash, run).value.pcs[t]), Tables(Trace(capacity, hash, run).value.pcs[t]),
      Slots(Trace(capacity, hash, run).value.tables, Trace(capacity, hash, run).value.pcs[t])
  {
    hide Trace, Shaped, OnWay, Results, RanOut, Phase, Tables, Slots, OneMore;
    var next := CallOnce(capacity, hash, run, t);
    if Trace(capacity, hash, next).value.pcs[t].Idle? {
      more, k := next, 1;
      assert Steps(t, 1) == [Step(t, true)];
    } else {
      var j;
      more, j := CallOn(capacity, hash, next, t);
      k := j + 1;
      assert [Step(t, true)] + Steps(t, j) == Steps(t, k);
    }
  }

  /** A call that meets no other, with no resize in progress and enough memory, ends, and returns a producer. */
  lemma LoneCall(capacity: nat, hash: seq<nat>, run: seq<Action>, t: Tid) returns (more: seq<Action>, k: nat)
    requires capacity > 0 && Trace(capacity, hash, run).Some? && t < |Trace(capacity, hash, run).value.pcs|
    requires Trace(capacity, hash, run).value.pcs[t].Idle? && !Trace(capacity, hash, run).value.locked
    ensures more == run + [Begin(t)] + Steps(t, k) && Trace(capacity, hash, more).Some?
    ensures t < |Trace(capacity, hash, more).value.pcs| && Trace(capacity, hash, more).value.pcs[t].Idle?
    ensures OneMore(Results(capacity, hash, run), Results(capacity, hash, more), t)
  {
    ReachableInv(capacity, hash, run);
    hide Trace, Inv, Shaped;
    var next := Do(capacity, hash, run, Begin(t));
    more, k := CallOn(capacity, hash, next, t);
  }
}
