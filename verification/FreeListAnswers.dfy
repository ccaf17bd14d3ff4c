// What the operations of the free list answer: try_get finds a node that is there, add puts one
// there, and null means that the list was empty while the call was going on.

module FreeListAnswers {
  import opened Wrappers
  import opened FiniteSets
  import opened FreeList

  ghost predicate Quiet(s: State) { forall t :: 0 <= t < |s.threads| ==> s.threads[t] == Idle }

  /** What try_get returns, when an action ends it. */
  function Answer(s: State, a: Action): Option<Option<Node>> {
    if a.Go? && a.t < |s.threads| then
      match s.threads[a.t]
      case Popped(h) => Some(Some(h))
      case Loop(None) => Some(None)
      case _ => None
    else None
  }

  // ----- operations that meet no other -----

  lemma Do(n: nat, m: nat, run: seq<Action>, a: Action) returns (more: seq<Action>)
    requires m + 2 < SHOULD_BE_ON_FREELIST && Run(Init(n, m), run).Some? && Enabled(Run(Init(n, m), run).value, a)
    ensures Inv(Run(Init(n, m), run).value)
    ensures more == run + [a] && Run(Init(n, m), more) == Some(Next(Run(Init(n, m), run).value, a)) && Inv(Run(Init(n, m), more).value)
  {
    ReachableInv(n, m, run);
    more := run + [a];
    assert more[..|more| - 1] == run;
    hide Inv, Next, Enabled;
    ReachableInv(n, m, more);
  }

  function Steps(t: Tid, k: nat): seq<Action> { seq(k, _ => Go(t)) }

  /** With every thread idle the first node of the list has only the reference of the list. */
  lemma FirstNode(s: State)
    requires Inv(s) && Quiet(s) && s.list != []
    ensures var h := s.list[0];
      h < |s.refs| == |s.next| == |s.place| && s.head == Some(h) && s.refs[h] == 1 && s.next[h] == First(s.list[1..]) && s.place[h].OnList?
  {
    var h := s.list[0];
    assert CountOk(s, h);
    HoldersBounds(s.threads, h);
    assert s.list[0 + 1..] == s.list[1..];
  }

  /** On its way from the state s, with everybody idle, thread t is taking h off the list. */
  predicate Getting(s: State, u: State, t: Tid, h: Node)
    requires t < |s.threads| && h < |s.refs| == |s.place|
  {
    t < |u.threads| &&
    match u.threads[t]
    case Reload => u == At(s, t, Reload)
    case Loop(_) => u == At(s, t, Loop(Some(h)))
    case HaveRefs(_, _) => u == At(s, t, HaveRefs(h, 1))
    case Holding(_) => u == At(s.(refs := s.refs[h := 2]), t, Holding(h))
    case HaveNext(_, _) => u == At(s.(refs := s.refs[h := 2]), t, HaveNext(h, First(Rest(s.list))))
    case Popped(_) =>
      u == At(s.(refs := s.refs[h := 2], head := First(Rest(s.list)), list := Rest(s.list), place := s.place[h := Unlinking(t)]), t, Popped(h))
    case _ => false
  }

  function Rest(q: seq<Node>): seq<Node> { if q == [] then [] else q[1..] }

  function ToGo(p: Pc): nat {
    match p case Reload => 6 case Loop(_) => 5 case HaveRefs(_, _) => 4 case Holding(_) => 3 case HaveNext(_, _) => 2 case _ => 1
  }

  predicate Alone(s: State, t: Tid, h: Node) {
    && Shape(s) && t < |s.threads| && s.threads[t] == Idle
    && s.list != [] && s.list[0] == h && h < |s.refs| && s.head == Some(h) && s.refs[h] == 1 && s.next[h] == First(s.list[1..])
  }

  /** What the next step makes of it: h is taken, or one step less to go. */
  predicate Nearer(s: State, u: State, v: State, t: Tid, h: Node)
    requires t < |s.threads| && h < |s.refs| == |s.place| && t < |u.threads|
  {
    if ToGo(u.threads[t]) == 1 then
      v == s.(refs := s.refs[h := 0], head := First(Rest(s.list)), list := Rest(s.list), place := s.place[h := Taken])
    else Getting(s, v, t, h) && t < |v.threads| && ToGo(v.threads[t]) == ToGo(u.threads[t]) - 1
  }

  lemma AtTwice(s: State, t: Tid, p: Pc, q: Pc)
    requires t < |s.threads|
    ensures At(At(s, t, p), t, q) == At(s, t, q)
  {
  }

  lemma GetStep(s: State, u: State, t: Tid, h: Node)
    requires Alone(s, t, h) && Shape(u) && Getting(s, u, t, h)
    ensures Enabled(u, Go(t)) && Nearer(s, u, Step(u, t), t, h)
  {
    match u.threads[t] {
      case HaveNext(_, _) => PopStep(s, u, t, h);
      case Popped(_) => LastStep(s, u, t, h);
      case _ => EarlyStep(s, u, t, h);
    }
  }

  lemma EarlyStep(s: State, u: State, t: Tid, h: Node)
    requires Alone(s, t, h) && Shape(u) && Getting(s, u, t, h) && ToGo(u.threads[t]) > 2
    ensures Nearer(s, u, Step(u, t), t, h)
  {
    AtTwice(s, t, u.threads[t], Step(u, t).threads[t]);
    AtTwice(s.(refs := s.refs[h := 2]), t, u.threads[t], Step(u, t).threads[t]);
    hide First, AfterInRange;
  }

  lemma PopStep(s: State, u: State, t: Tid, h: Node)
    requires Alone(s, t, h) && Shape(u) && Getting(s, u, t, h) && u.threads[t].HaveNext?
    ensures Nearer(s, u, Step(u, t), t, h)
  {
    hide Shape, First;
    assert Step(u, t).threads == s.threads[t := Popped(h)];
  }

  lemma LastStep(s: State, u: State, t: Tid, h: Node)
    requires Alone(s, t, h) && Shape(u) && Getting(s, u, t, h) && u.threads[t].Popped?
    ensures Nearer(s, u, Step(u, t), t, h)
  {
    hide First, PcInRange, InRange;
    var v := Step(u, t);
    assert v.threads == s.threads && v.place == s.place[h := Taken] && v.refs == s.refs[h := 0];
  }

  lemma OneMoreStep(run: seq<Action>, t: Tid, k: nat)
    requires k > 0
    ensures run + [Go(t)] + Steps(t, k - 1) == run + Steps(t, k)
  {
    assert [Go(t)] + Steps(t, k - 1) == Steps(t, k);
  }

  lemma GetOn(n: nat, m: nat, run: seq<Action>, t: Tid, s: State, h: Node) returns (more: seq<Action>)
    requires m + 2 < SHOULD_BE_ON_FREELIST && Run(Init(n, m), run).Some? && Alone(s, t, h) && Getting(s, Run(Init(n, m), run).value, t, h)
    ensures more == run + Steps(t, ToGo(Run(Init(n, m), run).value.threads[t])) && Run(Init(n, m), more).Some?
    ensures Run(Init(n, m), more).value ==
      s.(refs := s.refs[h := 0], head := First(Rest(s.list)), list := Rest(s.list), place := s.place[h := Taken])
    ensures Run(Init(n, m), more[..|more| - 1]).Some?
    ensures Answer(Run(Init(n, m), more[..|more| - 1]).value, Go(t)) == Some(Some(h))
    decreases ToGo(Run(Init(n, m), run).value.threads[t])
  {
    var u := Run(Init(n, m), run).value;
    hide Run, Init, Alone, Getting, First, Rest, Answer;
    var next := GetOnce(n, m, run, t, s, h);
    if ToGo(u.threads[t]) > 1 {
      more := GetOn(n, m, next, t, s, h);
      OneMoreStep(run, t, ToGo(u.threads[t]));
    } else {
      more := next;
      assert more[..|more| - 1] == run && Steps(t, 1) == [Go(t)];
      LastAnswer(s, u, t, h);
    }
  }

  lemma LastAnswer(s: State, u: State, t: Tid, h: Node)
    requires t < |s.threads| && h < |s.refs| == |s.place| && Getting(s, u, t, h) && ToGo(u.threads[t]) == 1
    ensures Answer(u, Go(t)) == Some(Some(h))
  {
  }

  lemma GetOnce(n: nat, m: nat, run: seq<Action>, t: Tid, s: State, h: Node) returns (more: seq<Action>)
    requires m + 2 < SHOULD_BE_ON_FREELIST && Run(Init(n, m), run).Some? && Alone(s, t, h) && Getting(s, Run(Init(n, m), run).value, t, h)
    ensures more == run + [Go(t)] && Run(Init(n, m), more).Some?
    ensures Nearer(s, Run(Init(n, m), run).value, Run(Init(n, m), more).value, t, h)
  {
    var u := Run(Init(n, m), run).value;
    ReachableInv(n, m, run);
    GetStep(s, u, t, h);
    assert Next(u, Go(t)) == Step(u, t);
    hide Run, Inv, Step, Next, Enabled, Alone, Getting, First, Nearer;
    more := Do(n, m, run, Go(t));
  }

  /** A try_get that meets no other operation returns the first node of the list and leaves the rest,
      and returns null if and only if the list is empty. */
  lemma LoneGet(n: nat, m: nat, run: seq<Action>, t: Tid) returns (more: seq<Action>)
    requires m + 2 < SHOULD_BE_ON_FREELIST && Run(Init(n, m), run).Some? && t < m && Quiet(Run(Init(n, m), run).value)
    ensures var s := Run(Init(n, m), run).value;
      more == run + [StartGet(t)] + Steps(t, if s.list == [] then 2 else 6)
    ensures Run(Init(n, m), more).Some? && Run(Init(n, m), more[..|more| - 1]).Some?
    ensures var s, u := Run(Init(n, m), run).value, Run(Init(n, m), more).value;
      && Quiet(u) && u.list == Rest(s.list)
      && Answer(Run(Init(n, m), more[..|more| - 1]).value, Go(t)) == Some(First(s.list))
  {
    var s := Run(Init(n, m), run).value;
    ReachableInv(n, m, run);
    hide Run, Init;
    if s.list == [] {
      more := GetNothing(n, m, run, t);
    } else {
      more := GetFirst(n, m, run, t);
    }
    hide Inv, Shape, Answer, Steps;
  }

  lemma GetFirst(n: nat, m: nat, run: seq<Action>, t: Tid) returns (more: seq<Action>)
    requires m + 2 < SHOULD_BE_ON_FREELIST && Run(Init(n, m), run).Some? && t < m && Quiet(Run(Init(n, m), run).value)
    requires t < |Run(Init(n, m), run).value.threads| && Run(Init(n, m), run).value.list != []
    ensures more == run + [StartGet(t)] + Steps(t, 6) && Run(Init(n, m), more).Some? && Run(Init(n, m), more[..|more| - 1]).Some?
    ensures var s, u := Run(Init(n, m), run).value, Run(Init(n, m), more).value;
      && u.threads == s.threads && u.list == s.list[1..]
      && Answer(Run(Init(n, m), more[..|more| - 1]).value, Go(t)) == Some(First(s.list))
  {
    var s := Run(Init(n, m), run).value;
    ReachableInv(n, m, run);
    FirstNode(s);
    hide Run, Init, Inv;
    var next := Do(n, m, run, StartGet(t));
    more := GetOn(n, m, next, t, s, s.list[0]);
  }

  lemma GetNothing(n: nat, m: nat, run: seq<Action>, t: Tid) returns (more: seq<Action>)
    requires m + 2 < SHOULD_BE_ON_FREELIST && Run(Init(n, m), run).Some? && t < m && Quiet(Run(Init(n, m), run).value)
    requires t < |Run(Init(n, m), run).value.threads| && Run(Init(n, m), run).value.list == []
    ensures more == run + [StartGet(t)] + Steps(t, 2)
    ensures Run(Init(n, m), more) == Run(Init(n, m), run) && Run(Init(n, m), more[..|more| - 1]).Some?
    ensures Answer(Run(Init(n, m), more[..|more| - 1]).value, Go(t)) == Some(None)
  {
    var s := Run(Init(n, m), run).value;
    ReachableInv(n, m, run);
    var next := Do(n, m, run, StartGet(t));
    var next2 := Do(n, m, next, Go(t));
    more := Do(n, m, next2, Go(t));
    hide Run, Init, Inv;
    assert more[..|more| - 1] == next2 && Steps(t, 2) == [Go(t), Go(t)];
    assert Run(Init(n, m), more).value.threads == s.threads;
  }

  /** An add that meets no other operation puts its node first on the list. */
  lemma LoneAdd(n: nat, m: nat, run: seq<Action>, t: Tid, k: Node) returns (more: seq<Action>)
    requires m + 2 < SHOULD_BE_ON_FREELIST && Run(Init(n, m), run).Some? && Quiet(Run(Init(n, m), run).value)
    requires Enabled(Run(Init(n, m), run).value, StartAdd(t, k))
    ensures more == run + [StartAdd(t, k)] + Steps(t, 4) && Run(Init(n, m), more).Some?
    ensures var s, u := Run(Init(n, m), run).value, Run(Init(n, m), more).value;
      u.threads == s.threads && u.list == [k] + s.list
  {
    var s := Run(Init(n, m), run).value;
    ReachableInv(n, m, run);
    Unreferenced(s, k);
    StartsAdding(s, t, k);
    hide Run, Init, Inv, Next, Enabled, Shape;
    var r1 := Do(n, m, run, StartAdd(t, k));
    more := AddRest(n, m, r1, t, k);
  }

  lemma StartsAdding(s: State, t: Tid, k: Node)
    requires Shape(s) && Enabled(s, StartAdd(t, k)) && s.refs[k] == 0
    ensures var u := Next(s, StartAdd(t, k)); u.threads == s.threads[t := AddLoad(k, Return)] && u.threads[t := Idle] == s.threads && u.list == s.list
  {
    hide Shape;
  }

  lemma AddRest(n: nat, m: nat, run: seq<Action>, t: Tid, k: Node) returns (more: seq<Action>)
    requires m + 2 < SHOULD_BE_ON_FREELIST && Run(Init(n, m), run).Some?
    requires t < |Run(Init(n, m), run).value.threads| && Run(Init(n, m), run).value.threads[t] == AddLoad(k, Return)
    ensures more == run + Steps(t, 4) && Run(Init(n, m), more).Some?
    ensures var s, u := Run(Init(n, m), run).value, Run(Init(n, m), more).value;
      u.threads == s.threads[t := Idle] && u.list == [k] + s.list
  {
    ReachableInv(n, m, run);
    AddSteps(Run(Init(n, m), run).value, t, k);
    hide Run, Init, Inv, Next, Enabled, Shape;
    var r2 := Do(n, m, run, Go(t));
    var r3 := Do(n, m, r2, Go(t));
    var r4 := Do(n, m, r3, Go(t));
    more := Do(n, m, r4, Go(t));
    assert Steps(t, 4) == [Go(t), Go(t), Go(t), Go(t)];
  }

  lemma Unreferenced(s: State, k: Node)
    requires Inv(s) && Quiet(s) && k < |s.place| && s.place[k].Taken?
    ensures k < |s.refs| && s.refs[k] == 0
  {
    assert CountOk(s, k);
    HoldersBounds(s.threads, k);
  }

  lemma AddSteps(s: State, t: Tid, k: Node)
    requires Shape(s) && t < |s.threads| && s.threads[t] == AddLoad(k, Return)
    ensures Enabled(s, Go(t))
    ensures var a := Next(s, Go(t)); Shape(a) && Enabled(a, Go(t))
    ensures var b := Next(Next(s, Go(t)), Go(t)); Shape(b) && Enabled(b, Go(t))
    ensures var c := Next(Next(Next(s, Go(t)), Go(t)), Go(t)); Shape(c) && Enabled(c, Go(t))
    ensures var d := Next(Next(Next(Next(s, Go(t)), Go(t)), Go(t)), Go(t)); d.threads == s.threads[t := Idle] && d.list == [k] + s.list
  {
    var a := Step(s, t);
    assert Next(s, Go(t)) == a && a.threads == s.threads[t := AddStoreNext(k, s.head, Return)];
    var b := Step(a, t);
    assert Next(a, Go(t)) == b && b.threads == s.threads[t := AddStoreRefs(k, s.head, Return)];
    var c := Step(b, t);
    assert Next(b, Go(t)) == c && c.threads == s.threads[t := AddCas(k, s.head, Return)];
    assert Next(c, Go(t)) == Step(c, t);
  }

  // ----- what null means -----

  /** The list was empty in some state since thread t last started a try_get. */
  predicate SawEmpty(n: nat, m: nat, run: seq<Action>, t: Tid)
    requires Run(Init(n, m), run).Some?
    decreases |run|
  {
    && run != []
    && (Run(Init(n, m), run).value.list == [] || (run[|run| - 1] != StartGet(t) && SawEmpty(n, m, run[..|run| - 1], t)))
  }

  /** The thread has read a null head, and will end with it or look again. */
  predicate SeesNull(p: Pc) {
    match p
    case Loop(h) => h == None
    case Dropping(_, seen) => seen == None
    case AddLoad(_, k) => k == Resume(None)
    case AddStoreNext(_, _, k) => k == Resume(None)
    case AddStoreRefs(_, _, k) => k == Resume(None)
    case AddCas(_, _, k) => k == Resume(None)
    case AddUndo(_, _, k) => k == Resume(None)
    case _ => false
  }

  lemma NullIsRead(s: State, a: Action, t: Tid)
    requires Inv(s) && Enabled(s, a) && t < |s.threads|
    ensures var u := Next(s, a);
      |u.threads| == |s.threads| && (SeesNull(u.threads[t]) ==> a != StartGet(t) && (s.list == [] || SeesNull(s.threads[t])))
  {
    assert s.head == None ==> s.list == [];
    hide Inv, ListOk, Shape;
    match a {
      case StartGet(u) =>
      case StartAdd(u, n) =>
      case Go(u) => if u == t { OwnNull(s, t); } else { OtherNull(s, u, t); }
    }
  }

  lemma OwnNull(s: State, t: Tid)
    requires Shape(s) && Enabled(s, Go(t)) && t < |s.threads|
    ensures |Step(s, t).threads| == |s.threads| && (SeesNull(Step(s, t).threads[t]) ==> s.head == None || SeesNull(s.threads[t]))
  {
    hide Shape;
  }

  lemma OtherNull(s: State, u: Tid, t: Tid)
    requires Shape(s) && Enabled(s, Go(u)) && t < |s.threads| && u != t
    ensures |Step(s, u).threads| == |s.threads| && Step(s, u).threads[t] == s.threads[t]
  {
    hide Shape;
  }

  lemma {:induction false} NullWasSeen(n: nat, m: nat, run: seq<Action>, t: Tid)
    requires m + 2 < SHOULD_BE_ON_FREELIST && Run(Init(n, m), run).Some? && t < m
    ensures var s := Run(Init(n, m), run).value; |s.threads| == m && (SeesNull(s.threads[t]) ==> SawEmpty(n, m, run, t))
    decreases |run|
  {
    ReachableInv(n, m, run);
    if run != [] {
      var before, a := run[..|run| - 1], run[|run| - 1];
      NullWasSeen(n, m, before, t);
      ReachableInv(n, m, before);
      hide Inv, Next, Enabled, SeesNull;
      NullIsRead(Run(Init(n, m), before).value, a, t);
      if before == [] {
        assert Run(Init(n, m), before).value == Init(n, m);
      }
    }
  }

  /** A try_get returns null only if the list was empty at some moment of the call, whatever the other
      threads were doing. */
  lemma NullMeansEmpty(n: nat, m: nat, run: seq<Action>, a: Action)
    requires m + 2 < SHOULD_BE_ON_FREELIST && Run(Init(n, m), run).Some? && a.Go? && a.t < m
    requires Answer(Run(Init(n, m), run).value, a) == Some(None)
    ensures SawEmpty(n, m, run, a.t)
  {
    NullWasSeen(n, m, run, a.t);
  }
}
