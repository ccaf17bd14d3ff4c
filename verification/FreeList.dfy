// The lock-free free list of blocks: a stack of nodes updated by compare-and-swap,
// protected against ABA by a per-node reference count whose top bit says that the
// node is waiting to be put back on the list.
//
// Any number of threads run try_get and add. Each step below is one atomic access of
// the shared words; a thread's program counter holds its local variables.

module FreeList {
  import opened Wrappers
  import opened FiniteSets

  type Node = nat
  type Tid = nat

  /** The top bit of the reference word; the other 31 bits count references. */
  const SHOULD_BE_ON_FREELIST: int := 0x8000_0000
  const WORD: int := 0x1_0000_0000

  /** What a thread does after add_knowing_refcount_is_zero: try_get resumes its loop, add returns. */
  datatype After = Return | Resume(head: Option<Node>)

  datatype Pc =
    | Idle
    | Reload                                              // about to load freeListHead
    | Loop(head: Option<Node>)                            // at the loop test of try_get
    | HaveRefs(node: Node, refs: int)                     // about to CAS the reference count up
    | Holding(node: Node)                                 // reference taken, about to load next
    | HaveNext(node: Node, next: Option<Node>)            // about to CAS the head away
    | Popped(node: Node)                                  // node unlinked, about to drop two references
    | Dropping(node: Node, seen: Option<Node>)            // lost the race, about to drop one reference
    | AddLoad(node: Node, after: After)                   // add_knowing_refcount_is_zero: load head
    | AddStoreNext(node: Node, head: Option<Node>, after: After)
    | AddStoreRefs(node: Node, head: Option<Node>, after: After)
    | AddCas(node: Node, head: Option<Node>, after: After)
    | AddUndo(node: Node, seen: Option<Node>, after: After)

  /** Where a node is. Auxiliary: no step of the protocol reads it. */
  datatype Place =
    | Taken                    // outside: handed out by try_get, or never yet added
    | OnList
    | Unlinking(tid: Tid)       // popped by a thread that has not yet dropped its two references
    | Pending                  // handed back, but somebody still holds a reference
    | Adding(tid: Tid)          // being prepared by its one adder; reference count zero
    | Publishing(tid: Tid)      // reference count restored, list CAS not yet won or undone

  datatype State = State(
    head: Option<Node>,
    refs: seq<int>,
    next: seq<Option<Node>>,
    threads: seq<Pc>,
    // auxiliary
    list: seq<Node>,
    place: seq<Place>)

  datatype Action =
    | StartGet(t: Tid)
    | StartAdd(t: Tid, n: Node)
    | Go(t: Tid)

  predicate Enabled(s: State, a: Action) {
    match a
    case StartGet(t) => t < |s.threads| && s.threads[t].Idle?
    case StartAdd(t, n) => t < |s.threads| && s.threads[t].Idle? && n < |s.place| && s.place[n].Taken?
    case Go(t) => t < |s.threads| && !s.threads[t].Idle?
  }

  predicate Shape(s: State) {
    && |s.refs| == |s.next| == |s.place|
    && (forall t :: 0 <= t < |s.threads| ==> PcInRange(s.threads[t], |s.refs|))
    && (forall n :: 0 <= n < |s.next| ==> InRange(s.next[n], |s.refs|))
    && InRange(s.head, |s.refs|)
  }

  predicate InRange(o: Option<Node>, n: nat) { o.Some? ==> o.value < n }

  predicate PcInRange(p: Pc, n: nat) {
    match p
    case Idle => true
    case Reload => true
    case Loop(h) => InRange(h, n)
    case HaveRefs(m, _) => m < n
    case Holding(m) => m < n
    case HaveNext(m, h) => m < n && InRange(h, n)
    case Popped(m) => m < n
    case Dropping(m, h) => m < n && InRange(h, n)
    case AddLoad(m, k) => m < n && AfterInRange(k, n)
    case AddStoreNext(m, h, k) => m < n && InRange(h, n) && AfterInRange(k, n)
    case AddStoreRefs(m, h, k) => m < n && InRange(h, n) && AfterInRange(k, n)
    case AddCas(m, h, k) => m < n && InRange(h, n) && AfterInRange(k, n)
    case AddUndo(m, h, k) => m < n && InRange(h, n) && AfterInRange(k, n)
  }

  predicate AfterInRange(k: After, n: nat) { k.Resume? ==> InRange(k.head, n) }

  function Continue(k: After): Pc {
    match k case Return => Idle case Resume(h) => Loop(h)
  }

  // ----- the atomic steps -----

  function At(s: State, t: Tid, p: Pc): State
    requires t < |s.threads|
  {
    s.(threads := s.threads[t := p])
  }

  /** fetch_add on the 32-bit reference word. */
  function AddRefs(s: State, n: Node, k: int): State
    requires n < |s.refs|
  {
    s.(refs := s.refs[n := (s.refs[n] + k) % WORD])
  }

  function Put(s: State, n: Node, p: Place): State
    requires n < |s.place|
  {
    s.(place := s.place[n := p])
  }

  function Next(s: State, a: Action): State
    requires Shape(s) && Enabled(s, a)
  {
    match a
    case StartGet(t) => At(s, t, Reload)
    case StartAdd(t, n) => StepAdd(s, t, n)
    case Go(t) => Step(s, t)
  }

  /** add: one fetch_add; the thread that finds the count at zero becomes the adder. */
  function StepAdd(s: State, t: Tid, n: Node): State
    requires Shape(s) && Enabled(s, StartAdd(t, n))
  {
    if s.refs[n] == 0 then
      At(Put(AddRefs(s, n, SHOULD_BE_ON_FREELIST), n, Adding(t)), t, AddLoad(n, Return))
    else
      Put(AddRefs(s, n, SHOULD_BE_ON_FREELIST), n, Pending)
  }

  function Step(s: State, t: Tid): State
    requires Shape(s) && Enabled(s, Go(t))
  {
    match s.threads[t]
    case Reload => At(s, t, Loop(s.head))
    case Loop(None) => At(s, t, Idle)
    case Loop(Some(h)) => StepLoop(s, t, h)
    case HaveRefs(h, r) => StepTakeRef(s, t, h, r)
    case Holding(h) => At(s, t, HaveNext(h, s.next[h]))
    case HaveNext(h, nx) => StepPop(s, t, h, nx)
    case Popped(h) => At(Put(AddRefs(s, h, -2), h, Taken), t, Idle)
    case Dropping(h, seen) => StepDrop(s, t, h, seen)
    case AddLoad(n, k) => At(s, t, AddStoreNext(n, s.head, k))
    case AddStoreNext(n, h, k) => At(s.(next := s.next[n := h]), t, AddStoreRefs(n, h, k))
    case AddStoreRefs(n, h, k) => At(Put(s.(refs := s.refs[n := 1]), n, Publishing(t)), t, AddCas(n, h, k))
    case AddCas(n, h, k) => StepPublish(s, t, n, h, k)
    case AddUndo(n, seen, k) => StepUndo(s, t, n, seen, k)
  }

  /** Load the reference word of the head; a zero count sends the loop back to the head. */
  function StepLoop(s: State, t: Tid, h: Node): State
    requires Shape(s) && t < |s.threads| && h < |s.refs|
  {
    if s.refs[h] % SHOULD_BE_ON_FREELIST == 0 then At(s, t, Reload) else At(s, t, HaveRefs(h, s.refs[h]))
  }

  function StepTakeRef(s: State, t: Tid, h: Node, r: int): State
    requires Shape(s) && t < |s.threads| && h < |s.refs|
  {
    if s.refs[h] == r then At(s.(refs := s.refs[h := (r + 1) % WORD]), t, Holding(h)) else At(s, t, Reload)
  }

  function StepPop(s: State, t: Tid, h: Node, nx: Option<Node>): State
    requires Shape(s) && t < |s.threads| && h < |s.refs|
  {
    if s.head == Some(h) then
      At(Put(s.(head := nx, list := if |s.list| > 0 then s.list[1..] else []), h, Unlinking(t)), t, Popped(h))
    else
      At(s, t, Dropping(h, s.head))
  }

  function StepDrop(s: State, t: Tid, h: Node, seen: Option<Node>): State
    requires Shape(s) && t < |s.threads| && h < |s.refs|
  {
    if s.refs[h] == SHOULD_BE_ON_FREELIST + 1 then
      At(Put(AddRefs(s, h, -1), h, Adding(t)), t, AddLoad(h, Resume(seen)))
    else
      At(AddRefs(s, h, -1), t, Loop(seen))
  }

  function StepPublish(s: State, t: Tid, n: Node, h: Option<Node>, k: After): State
    requires Shape(s) && t < |s.threads| && n < |s.refs|
  {
    if s.head == h then
      At(Put(s.(head := Some(n), list := [n] + s.list), n, OnList), t, Continue(k))
    else
      At(s, t, AddUndo(n, s.head, k))
  }

  function StepUndo(s: State, t: Tid, n: Node, seen: Option<Node>, k: After): State
    requires Shape(s) && t < |s.threads| && n < |s.refs|
  {
    var u := AddRefs(s, n, SHOULD_BE_ON_FREELIST - 1);
    if s.refs[n] == 1 then
      At(Put(u, n, Adding(t)), t, AddStoreNext(n, seen, k))
    else
      At(Put(u, n, Pending), t, Continue(k))
  }

  // ----- counting references -----

  /** The node a thread holds a counted reference on. */
  function Held(p: Pc): Option<Node> {
    match p
    case Holding(h) => Some(h)
    case HaveNext(h, _) => Some(h)
    case Popped(h) => Some(h)
    case Dropping(h, _) => Some(h)
    case _ => None
  }

  function Holds(p: Pc, n: Node): nat { if Held(p) == Some(n) then 1 else 0 }

  function Holders(threads: seq<Pc>, n: Node): nat {
    if threads == [] then 0 else Holds(threads[0], n) + Holders(threads[1..], n)
  }

  lemma {:induction false} HoldersUpdate(ts: seq<Pc>, t: Tid, p: Pc, n: Node)
    requires t < |ts|
    ensures Holders(ts[t := p], n) == Holders(ts, n) - Holds(ts[t], n) + Holds(p, n)
  {
    if t == 0 {
      assert ts[0 := p][1..] == ts[1..];
    } else {
      assert ts[t := p][1..] == ts[1..][t - 1 := p];
      HoldersUpdate(ts[1..], t - 1, p, n);
    }
  }

  lemma {:induction false} HoldersBounds(ts: seq<Pc>, n: Node)
    ensures Holders(ts, n) <= |ts|
    ensures Holders(ts, n) == 0 <==> forall t :: 0 <= t < |ts| ==> Held(ts[t]) != Some(n)
  {
    if ts != [] {
      HoldersBounds(ts[1..], n);
      assert ts == [ts[0]] + ts[1..];
    }
  }

  // ----- the invariant -----

  /** References a node has besides those of the threads that hold it. */
  function Base(p: Place): nat {
    if p.OnList? || p.Unlinking? || p.Publishing? then 1 else 0
  }

  function Flag(p: Place): int {
    if p.Pending? || p.Adding? then SHOULD_BE_ON_FREELIST else 0
  }

  /** The place that a thread's program counter answers for. */
  function Claim(p: Pc, t: Tid): Option<(Node, Place)> {
    match p
    case Popped(n) => Some((n, Unlinking(t)))
    case AddLoad(n, _) => Some((n, Adding(t)))
    case AddStoreNext(n, _, _) => Some((n, Adding(t)))
    case AddStoreRefs(n, _, _) => Some((n, Adding(t)))
    case AddCas(n, _, _) => Some((n, Publishing(t)))
    case AddUndo(n, _, _) => Some((n, Publishing(t)))
    case _ => None
  }

  function By(p: Place): Option<Tid> {
    match p
    case Unlinking(t) => Some(t)
    case Adding(t) => Some(t)
    case Publishing(t) => Some(t)
    case _ => None
  }

  predicate ListOk(s: State)
    requires Shape(s)
  {
    && (forall i, j :: 0 <= i < j < |s.list| ==> s.list[i] != s.list[j])
    && (forall n :: 0 <= n < |s.place| ==> (n in s.list <==> s.place[n].OnList?))
    && (forall i :: 0 <= i < |s.list| ==> s.list[i] < |s.next|)
    && s.head == First(s.list)
    && (forall i :: 0 <= i < |s.list| ==> s.next[s.list[i]] == First(s.list[i + 1..]))
  }

  function First(q: seq<Node>): Option<Node> { if q == [] then None else Some(q[0]) }

  predicate ClaimsOk(s: State)
    requires Shape(s)
  {
    && (forall t :: 0 <= t < |s.threads| && Claim(s.threads[t], t).Some? ==>
          Claim(s.threads[t], t).value.0 < |s.place| &&
          s.place[Claim(s.threads[t], t).value.0] == Claim(s.threads[t], t).value.1)
    && (forall n :: 0 <= n < |s.place| && By(s.place[n]).Some? ==>
          By(s.place[n]).value < |s.threads| &&
          Claim(s.threads[By(s.place[n]).value], By(s.place[n]).value) == Some((n, s.place[n])))
  }

  predicate CountOk(s: State, n: Node)
    requires Shape(s) && n < |s.place|
  {
    && s.refs[n] == Base(s.place[n]) + Holders(s.threads, n) + Flag(s.place[n])
    && (s.place[n].Adding? ==> Holders(s.threads, n) == 0)
    && (s.place[n].Pending? ==> Holders(s.threads, n) >= 1)
  }

  predicate LocalOk(s: State, p: Pc)
    requires Shape(s)
  {
    match p
    case HaveRefs(_, r) => 0 <= r < WORD && r % SHOULD_BE_ON_FREELIST != 0
    case HaveNext(h, nx) => h < |s.next| && s.next[h] == nx
    case AddStoreRefs(n, h, _) => n < |s.next| && s.next[n] == h
    case AddCas(n, h, _) => n < |s.next| && s.next[n] == h
    case _ => true
  }

  predicate Inv(s: State) {
    && Shape(s)
    && |s.threads| + 2 < SHOULD_BE_ON_FREELIST
    && ListOk(s)
    && ClaimsOk(s)
    && (forall n :: 0 <= n < |s.place| ==> CountOk(s, n))
    && (forall t :: 0 <= t < |s.threads| ==> LocalOk(s, s.threads[t]))
  }

  // ----- every step keeps the invariant -----

  /** When only thread t moves and no node changes hands, all counts stay right. */
  lemma CountsAfterMove(s: State, s': State, t: Tid, p: Pc)
    requires Inv(s) && t < |s.threads| && Shape(s')
    requires s'.threads == s.threads[t := p] && s'.refs == s.refs && s'.place == s.place
    requires Held(p) == Held(s.threads[t])
    ensures forall n :: 0 <= n < |s'.place| ==> CountOk(s', n)
  {
    forall n | 0 <= n < |s'.place| ensures CountOk(s', n) {
      assert CountOk(s, n);
      HoldersUpdate(s.threads, t, p, n);
    }
  }

  /** A step that moves only its own thread, with no claim and no reference changed. */
  lemma LocalMove(s: State, t: Tid, p: Pc)
    requires Inv(s) && t < |s.threads|
    requires PcInRange(p, |s.refs|) && LocalOk(s, p)
    requires Held(p) == Held(s.threads[t]) && Claim(p, t) == Claim(s.threads[t], t)
    ensures Inv(At(s, t, p))
  {
    CountsAfterMove(s, At(s, t, p), t, p);
  }

  /** The reference word splits into the flag and a count that never reaches the flag. */
  lemma RefWord(s: State, n: Node)
    requires Inv(s) && n < |s.refs|
    ensures CountOk(s, n)
    ensures 0 <= Base(s.place[n]) + Holders(s.threads, n) < SHOULD_BE_ON_FREELIST - 1
    ensures s.refs[n] % SHOULD_BE_ON_FREELIST == Base(s.place[n]) + Holders(s.threads, n)
    ensures s.refs[n] >= SHOULD_BE_ON_FREELIST <==> s.place[n].Pending? || s.place[n].Adding?
  {
    HoldersBounds(s.threads, n);
    assert CountOk(s, n);
  }

  /** Counts of the nodes a step does not touch stay right. */
  lemma CountsElsewhere(s: State, s': State, t: Tid, p: Pc, m: Node)
    requires Inv(s) && Shape(s') && t < |s.threads| && m < |s.place| == |s'.place|
    requires s'.threads == s.threads[t := p]
    requires forall n :: 0 <= n < |s.place| && n != m ==> s'.refs[n] == s.refs[n] && s'.place[n] == s.place[n]
    requires Held(s.threads[t]) == None || Held(s.threads[t]) == Some(m)
    requires Held(p) == None || Held(p) == Some(m)
    requires CountOk(s', m)
    ensures forall n :: 0 <= n < |s'.place| ==> CountOk(s', n)
  {
    forall n | 0 <= n < |s'.place| && n != m ensures CountOk(s', n) {
      assert CountOk(s, n);
      HoldersUpdate(s.threads, t, p, n);
    }
  }

  /** A step that changes one reference word and moves a thread without changing its claim. */
  lemma RefMove(s: State, s': State, t: Tid, p: Pc, m: Node)
    requires Inv(s) && Shape(s') && t < |s.threads| && m < |s.refs| == |s'.refs|
    requires s' == s.(threads := s.threads[t := p], refs := s.refs[m := s'.refs[m]])
    requires Held(s.threads[t]) == None || Held(s.threads[t]) == Some(m)
    requires Held(p) == None || Held(p) == Some(m)
    requires Claim(p, t) == Claim(s.threads[t], t) && LocalOk(s', p) && CountOk(s', m)
    ensures Inv(s')
  {
    CountsElsewhere(s, s', t, p, m);
    hide CountOk;
  }

  lemma TakeRefKeepsInv(s: State, t: Tid, h: Node, r: int)
    requires Inv(s) && t < |s.threads| && s.threads[t] == HaveRefs(h, r)
    ensures Inv(StepTakeRef(s, t, h, r))
  {
    var s' := StepTakeRef(s, t, h, r);
    if s.refs[h] == r {
      assert CountOk(s', h) by {
        RefWord(s, h);
        assert LocalOk(s, s.threads[t]);
        HoldersUpdate(s.threads, t, Holding(h), h);
      }
      hide CountOk, ListOk, ClaimsOk;
      RefMove(s, s', t, Holding(h), h);
    } else {
      LocalMove(s, t, Reload);
    }
  }

  /** Claims of the threads a step does not move stay right. */
  lemma ClaimsElsewhere(s: State, s': State, t: Tid, p: Pc, m: Node)
    requires Shape(s) && ClaimsOk(s) && Shape(s') && t < |s.threads| && m < |s.place| == |s'.place|
    requires s'.threads == s.threads[t := p] && s'.place == s.place[m := s'.place[m]]
    requires By(s.place[m]) == None || By(s.place[m]) == Some(t)
    requires Claim(s.threads[t], t) == None || Claim(s.threads[t], t).value.0 == m
    requires Claim(p, t) == if By(s'.place[m]).Some? then Some((m, s'.place[m])) else None
    requires By(s'.place[m]) == None || By(s'.place[m]) == Some(t)
    ensures ClaimsOk(s')
  {
  }

  /** A list that a step neither changes nor relinks stays right. */
  lemma ListElsewhere(s: State, s': State, m: Node)
    requires Shape(s) && ListOk(s) && Shape(s') && m < |s.place| == |s'.place|
    requires s'.list == s.list && s'.head == s.head
    requires s'.place == s.place[m := s'.place[m]] && !s.place[m].OnList? && !s'.place[m].OnList?
    requires s'.next == s.next[m := s'.next[m]]
    ensures ListOk(s')
  {
    assert m !in s.list;
  }

  /** A thread that holds a reference on a node keeps every adder away from it. */
  lemma HeldIsNotAdded(s: State, t: Tid, n: Node)
    requires Inv(s) && t < |s.threads| && n < |s.place| && Held(s.threads[t]) == Some(n)
    ensures !s.place[n].Adding?
    ensures Holders(s.threads, n) >= 1
  {
    assert CountOk(s, n);
    HoldersBounds(s.threads, n);
  }

  /** Winning the head CAS after reading next: next still is the successor, so the rest of the list becomes the list. */
  lemma PopKeepsInv(s: State, t: Tid, h: Node, nx: Option<Node>)
    requires Inv(s) && t < |s.threads| && s.threads[t] == HaveNext(h, nx)
    ensures Inv(StepPop(s, t, h, nx))
  {
    var s' := StepPop(s, t, h, nx);
    assert LocalOk(s, s.threads[t]);
    if s.head == Some(h) {
      assert s.list[0] == h && s.list != [];
      assert s'.list == s.list[1..];
      assert nx == First(s'.list);
      assert CountOk(s', h) by {
        RefWord(s, h);
        HoldersUpdate(s.threads, t, Popped(h), h);
      }
      CountsElsewhere(s, s', t, Popped(h), h);
      ClaimsElsewhere(s, s', t, Popped(h), h);
      PopList(s, s', h);
    } else {
      LocalMove(s, t, Dropping(h, s.head));
    }
  }

  lemma PopList(s: State, s': State, h: Node)
    requires Shape(s) && ListOk(s) && Shape(s') && s.head == Some(h) && h < |s.place|
    requires s'.list == s.list[1..] && s'.head == First(s'.list) && s'.next == s.next
    requires s'.place == s.place[h := s'.place[h]] && !s'.place[h].OnList?
    ensures ListOk(s')
  {
    assert s.list == [h] + s'.list;
    forall i | 0 <= i < |s'.list| ensures s'.next[s'.list[i]] == First(s'.list[i + 1..]) {
      assert s'.list[i] == s.list[i + 1];
      assert s'.list[i + 1..] == s.list[i + 2..];
    }
    forall n | 0 <= n < |s'.place| ensures n in s'.list <==> s'.place[n].OnList? {
      assert n in s.list <==> s.place[n].OnList?;
    }
  }

  /** Dropping both references of a node just unlinked; its flag is clear, as the source asserts. */
  lemma UnlinkedKeepsInv(s: State, t: Tid, h: Node)
    requires Inv(s) && t < |s.threads| && s.threads[t] == Popped(h)
    ensures 0 <= s.refs[h] < SHOULD_BE_ON_FREELIST
    ensures Inv(Step(s, t))
  {
    var s' := Step(s, t);
    assert CountOk(s', h) && 0 <= s.refs[h] < SHOULD_BE_ON_FREELIST by {
      RefWord(s, h);
      HeldIsNotAdded(s, t, h);
      HoldersUpdate(s.threads, t, Idle, h);
    }
    CountsElsewhere(s, s', t, Idle, h);
    ClaimsElsewhere(s, s', t, Idle, h);
    ListElsewhere(s, s', h);
  }

  /** Dropping a reference after losing the race; the last one out of a pending node becomes its adder. */
  lemma DropKeepsInv(s: State, t: Tid, h: Node, seen: Option<Node>)
    requires Inv(s) && t < |s.threads| && s.threads[t] == Dropping(h, seen)
    ensures Inv(StepDrop(s, t, h, seen))
  {
    RefWord(s, h);
    HeldIsNotAdded(s, t, h);
    if s.refs[h] == SHOULD_BE_ON_FREELIST + 1 {
      LastDropKeepsInv(s, t, h, seen);
    } else {
      PlainDropKeepsInv(s, t, h, seen);
    }
  }

  lemma LastDropKeepsInv(s: State, t: Tid, h: Node, seen: Option<Node>)
    requires Inv(s) && t < |s.threads| && s.threads[t] == Dropping(h, seen)
    requires s.refs[h] == SHOULD_BE_ON_FREELIST + 1 && s.place[h].Pending?
    ensures Inv(StepDrop(s, t, h, seen))
  {
    var s' := StepDrop(s, t, h, seen);
    var p := AddLoad(h, Resume(seen));
    assert CountOk(s', h) by {
      RefWord(s, h);
      HoldersUpdate(s.threads, t, p, h);
    }
    CountsElsewhere(s, s', t, p, h);
    hide CountOk;
    ClaimsElsewhere(s, s', t, p, h);
    ListElsewhere(s, s', h);
  }

  lemma PlainDropKeepsInv(s: State, t: Tid, h: Node, seen: Option<Node>)
    requires Inv(s) && t < |s.threads| && s.threads[t] == Dropping(h, seen)
    requires s.refs[h] != SHOULD_BE_ON_FREELIST + 1 && !s.place[h].Adding?
    ensures Inv(StepDrop(s, t, h, seen))
  {
    var s' := StepDrop(s, t, h, seen);
    assert CountOk(s', h) by {
      RefWord(s, h);
      HeldIsNotAdded(s, t, h);
      HoldersUpdate(s.threads, t, Loop(seen), h);
    }
    hide CountOk, ListOk, ClaimsOk;
    RefMove(s, s', t, Loop(seen), h);
  }

  /** Writing next: the node's count is zero, so no other thread can be reading it. */
  lemma StoreNextKeepsInv(s: State, t: Tid, n: Node, h: Option<Node>, k: After)
    requires Inv(s) && t < |s.threads| && s.threads[t] == AddStoreNext(n, h, k)
    ensures Inv(Step(s, t))
  {
    var s' := Step(s, t);
    CountsAfterMove(s, s', t, AddStoreRefs(n, h, k));
    ClaimsElsewhere(s, s', t, AddStoreRefs(n, h, k), n);
    ListElsewhere(s, s', n);
    forall u | 0 <= u < |s'.threads| ensures LocalOk(s', s'.threads[u]) {
      assert LocalOk(s, s.threads[u]);
      if u != t && Held(s.threads[u]) == Some(n) {
        HeldIsNotAdded(s, u, n);
        assert false;
      }
    }
  }

  lemma StoreRefsKeepsInv(s: State, t: Tid, n: Node, h: Option<Node>, k: After)
    requires Inv(s) && t < |s.threads| && s.threads[t] == AddStoreRefs(n, h, k)
    ensures Inv(Step(s, t))
  {
    var s' := Step(s, t);
    assert CountOk(s', n) by {
      RefWord(s, n);
      HoldersUpdate(s.threads, t, AddCas(n, h, k), n);
    }
    CountsElsewhere(s, s', t, AddCas(n, h, k), n);
    ClaimsElsewhere(s, s', t, AddCas(n, h, k), n);
    ListElsewhere(s, s', n);
    assert LocalOk(s, s.threads[t]);
  }

  lemma PublishKeepsInv(s: State, t: Tid, n: Node, h: Option<Node>, k: After)
    requires Inv(s) && t < |s.threads| && s.threads[t] == AddCas(n, h, k)
    ensures Inv(StepPublish(s, t, n, h, k))
  {
    if s.head == h {
      PushKeepsInv(s, t, n, h, k);
    } else {
      LocalMove(s, t, AddUndo(n, s.head, k));
    }
  }

  lemma PushKeepsInv(s: State, t: Tid, n: Node, h: Option<Node>, k: After)
    requires Inv(s) && t < |s.threads| && s.threads[t] == AddCas(n, h, k) && s.head == h
    ensures Inv(StepPublish(s, t, n, h, k))
  {
    var s' := StepPublish(s, t, n, h, k);
    assert CountOk(s', n) by {
      RefWord(s, n);
      HoldersUpdate(s.threads, t, Continue(k), n);
    }
    CountsElsewhere(s, s', t, Continue(k), n);
    ClaimsElsewhere(s, s', t, Continue(k), n);
    assert LocalOk(s, s.threads[t]);
    PushList(s, s', n);
  }

  lemma PushList(s: State, s': State, n: Node)
    requires Shape(s) && ListOk(s) && Shape(s') && n < |s.place| && !s.place[n].OnList?
    requires s'.list == [n] + s.list && s'.head == Some(n) && s'.next == s.next && s.next[n] == s.head
    requires s'.place == s.place[n := OnList]
    ensures ListOk(s')
  {
    assert n !in s.list;
    assert s'.list[1..] == s.list;
    forall i | 0 <= i < |s'.list| ensures s'.next[s'.list[i]] == First(s'.list[i + 1..]) {
      if i > 0 {
        assert s'.list[i] == s.list[i - 1];
        assert s'.list[i + 1..] == s.list[i..];
      }
    }
  }

  /** Undoing a failed publication: the adder retries alone, or leaves the node to the last holder. */
  lemma UndoKeepsInv(s: State, t: Tid, n: Node, seen: Option<Node>, k: After)
    requires Inv(s) && t < |s.threads| && s.threads[t] == AddUndo(n, seen, k)
    ensures Inv(StepUndo(s, t, n, seen, k))
  {
    var s' := StepUndo(s, t, n, seen, k);
    var p := s'.threads[t];
    RefWord(s, n);
    HoldersUpdate(s.threads, t, p, n);
    OffListFrame(s, s', t, n, p);
  }

  lemma OffListFrame(s: State, s': State, t: Tid, n: Node, p: Pc)
    requires Inv(s) && t < |s.threads| && Shape(s') && n < |s.place| == |s'.place|
    requires Held(s.threads[t]) == None == Held(p)
    requires By(s.place[n]) == Some(t) || s.place[n] == Taken
    requires !s.place[n].OnList? && !s'.place[n].OnList?
    requires Claim(s.threads[t], t) == if By(s.place[n]).Some? then Some((n, s.place[n])) else None
    requires Claim(p, t) == if By(s'.place[n]).Some? then Some((n, s'.place[n])) else None
    requires By(s'.place[n]) == None || By(s'.place[n]) == Some(t)
    requires s' == s.(threads := s.threads[t := p], place := s.place[n := s'.place[n]], refs := s.refs[n := s'.refs[n]])
    requires LocalOk(s', p) && CountOk(s', n)
    ensures Inv(s')
  {
    CountsElsewhere(s, s', t, p, n);
    ClaimsElsewhere(s, s', t, p, n);
    ListElsewhere(s, s', n);
  }

  /** Handing a node back: its caller owns it, so the flag is clear and the top bit can be added. */
  lemma AddKeepsInv(s: State, t: Tid, n: Node)
    requires Inv(s) && Enabled(s, StartAdd(t, n))
    ensures Inv(StepAdd(s, t, n))
  {
    var s' := StepAdd(s, t, n);
    var p := s'.threads[t];
    RefWord(s, n);
    HoldersUpdate(s.threads, t, p, n);
    OffListFrame(s, s', t, n, p);
  }

  lemma StepKeepsInv(s: State, t: Tid)
    requires Inv(s) && Enabled(s, Go(t))
    ensures Inv(Step(s, t))
  {
    match s.threads[t]
    case Reload => LocalMove(s, t, Loop(s.head));
    case Loop(None) => LocalMove(s, t, Idle);
    case Loop(Some(h)) =>
      RefWord(s, h);
      LocalMove(s, t, StepLoop(s, t, h).threads[t]);
    case HaveRefs(h, r) => TakeRefKeepsInv(s, t, h, r);
    case Holding(h) => LocalMove(s, t, HaveNext(h, s.next[h]));
    case HaveNext(h, nx) => PopKeepsInv(s, t, h, nx);
    case Popped(h) => UnlinkedKeepsInv(s, t, h);
    case Dropping(h, seen) => DropKeepsInv(s, t, h, seen);
    case AddLoad(n, k) => LocalMove(s, t, AddStoreNext(n, s.head, k));
    case AddStoreNext(n, h, k) => StoreNextKeepsInv(s, t, n, h, k);
    case AddStoreRefs(n, h, k) => StoreRefsKeepsInv(s, t, n, h, k);
    case AddCas(n, h, k) => PublishKeepsInv(s, t, n, h, k);
    case AddUndo(n, seen, k) => UndoKeepsInv(s, t, n, seen, k);
  }

  // ----- whole runs -----

  /** n nodes that nobody has added yet, m threads with nothing to do. */
  function Init(n: nat, m: nat): State {
    State(None, seq(n, _ => 0), seq(n, _ => None), seq(m, _ => Idle), [], seq(n, _ => Taken))
  }

  lemma InitInv(n: nat, m: nat)
    requires m + 2 < SHOULD_BE_ON_FREELIST
    ensures Inv(Init(n, m))
  {
    var s := Init(n, m);
    forall k | 0 <= k < n ensures CountOk(s, k) {
      HoldersBounds(s.threads, k);
    }
  }

  /** The state after a run, or None when some action of the run is not possible. */
  function Run(s: State, run: seq<Action>): Option<State>
    decreases |run|
  {
    if run == [] then Some(s)
    else match Run(s, run[..|run| - 1])
      case None => None
      case Some(u) =>
        if Shape(u) && Enabled(u, run[|run| - 1]) then Some(Next(u, run[|run| - 1])) else None
  }

  lemma StepKeepsSizes(s: State, t: Tid)
    requires Shape(s) && Enabled(s, Go(t))
    ensures |Step(s, t).place| == |s.place| && |Step(s, t).threads| == |s.threads|
  {
  }

  lemma NextKeepsInv(s: State, a: Action)
    requires Inv(s) && Enabled(s, a)
    ensures Inv(Next(s, a))
    ensures |Next(s, a).place| == |s.place| && |Next(s, a).threads| == |s.threads|
  {
    hide ListOk, ClaimsOk, CountOk, LocalOk;
    match a {
      case StartGet(t) => LocalMove(s, t, Reload);
      case StartAdd(t, n) => AddKeepsInv(s, t, n);
      case Go(t) => StepKeepsInv(s, t); StepKeepsSizes(s, t);
    }
  }

  lemma {:induction false} ReachableInv(n: nat, m: nat, run: seq<Action>)
    requires m + 2 < SHOULD_BE_ON_FREELIST && Run(Init(n, m), run).Some?
    ensures Inv(Run(Init(n, m), run).value)
    ensures |Run(Init(n, m), run).value.place| == n && |Run(Init(n, m), run).value.threads| == m
    decreases |run|
  {
    if run == [] {
      InitInv(n, m);
    } else {
      ReachableInv(n, m, run[..|run| - 1]);
      NextKeepsInv(Run(Init(n, m), run[..|run| - 1]).value, run[|run| - 1]);
    }
  }

  /** The nodes met by following next from a starting word, at most fuel of them. */
  function Chain(s: State, from: Option<Node>, fuel: nat): seq<Node>
    requires Shape(s) && InRange(from, |s.next|)
    decreases fuel
  {
    if from == None || fuel == 0 then [] else [from.value] + Chain(s, s.next[from.value], fuel - 1)
  }

  lemma {:induction false} ChainIsList(s: State, i: nat, fuel: nat)
    requires Inv(s) && i <= |s.list| && |s.list| - i <= fuel
    ensures InRange(First(s.list[i..]), |s.next|)
    ensures Chain(s, First(s.list[i..]), fuel) == s.list[i..]
    decreases |s.list| - i
  {
    if i < |s.list| {
      assert s.next[s.list[i]] == First(s.list[i + 1..]);
      ChainIsList(s, i + 1, fuel - 1);
      assert s.list[i..] == [s.list[i]] + s.list[i + 1..];
    }
  }

  /** In every reachable state the list is acyclic and duplicate-free: following next from the
      head meets distinct nodes and reaches null after at most as many links as there are nodes. */
  lemma ListIsAcyclic(n: nat, m: nat, run: seq<Action>)
    requires m + 2 < SHOULD_BE_ON_FREELIST && Run(Init(n, m), run).Some?
    ensures var s := Run(Init(n, m), run).value;
      && Shape(s)
      && (forall fuel: nat :: n <= fuel ==> Chain(s, s.head, fuel) == s.list)
      && |s.list| <= n
      && (forall i, j :: 0 <= i < j < |s.list| ==> s.list[i] != s.list[j])
  {
    ReachableInv(n, m, run);
    var s := Run(Init(n, m), run).value;
    DistinctFit(s.list, n);
    forall fuel: nat | n <= fuel ensures Chain(s, s.head, fuel) == s.list {
      assert s.list[0..] == s.list;
      ChainIsList(s, 0, fuel);
    }
  }

  // ----- one taker per node -----

  /** The node an action hands to its caller: try_get returns it right after its last fetch_sub. */
  function Gets(s: State, a: Action): Option<Node> {
    if a.Go? && a.t < |s.threads| && s.threads[a.t].Popped? then Some(s.threads[a.t].node) else None
  }

  /** How often a run handed node k out, and how often it was handed back. */
  function GetCount(s: State, run: seq<Action>, k: Node): nat
    requires Run(s, run).Some?
    decreases |run|
  {
    if run == [] then 0
    else
      GetCount(s, run[..|run| - 1], k) +
      if Gets(Run(s, run[..|run| - 1]).value, run[|run| - 1]) == Some(k) then 1 else 0
  }

  function AddCount(run: seq<Action>, k: Node): nat
    decreases |run|
  {
    if run == [] then 0
    else
      AddCount(run[..|run| - 1], k) +
      if run[|run| - 1].StartAdd? && run[|run| - 1].n == k then 1 else 0
  }

  lemma {:induction false} PlaceTellsBalance(n: nat, m: nat, run: seq<Action>, k: Node)
    requires m + 2 < SHOULD_BE_ON_FREELIST && k < n && Run(Init(n, m), run).Some?
    ensures var s := Run(Init(n, m), run).value;
      && Inv(s) && |s.place| == n
      && AddCount(run, k) - GetCount(Init(n, m), run, k) == if s.place[k] == Taken then 0 else 1
    decreases |run|
  {
    ReachableInv(n, m, run);
    if run != [] {
      var u := Run(Init(n, m), run[..|run| - 1]).value;
      PlaceTellsBalance(n, m, run[..|run| - 1], k);
      PlaceMoves(u, run[|run| - 1], k);
    }
  }

  /** A node leaves the outside only through add and comes back only through try_get. */
  lemma PlaceMoves(s: State, a: Action, k: Node)
    requires Inv(s) && Enabled(s, a) && k < |s.place|
    ensures var s' := Next(s, a);
      && |s'.place| == |s.place|
      && ((a.StartAdd? && a.n == k) <==> (s.place[k] == Taken && s'.place[k] != Taken))
      && (Gets(s, a) == Some(k) <==> (s.place[k] != Taken && s'.place[k] == Taken))
  {
    if a.Go? && s.threads[a.t].HaveNext? && s.head == Some(s.threads[a.t].node) {
      assert s.list[0] == s.threads[a.t].node;
    }
    if a.Go? && s.threads[a.t].Dropping? {
      HeldIsNotAdded(s, a.t, s.threads[a.t].node);
      RefWord(s, s.threads[a.t].node);
    }
  }

  /** No node goes to two takers: between two hand-outs of a node there is exactly one add of it.
      In any run the adds of a node lead its hand-outs by nought or one, and by one exactly when
      the node is not outside. */
  lemma OneTakerPerNode(n: nat, m: nat, run: seq<Action>, k: Node)
    requires m + 2 < SHOULD_BE_ON_FREELIST && k < n && Run(Init(n, m), run).Some?
    ensures 0 <= AddCount(run, k) - GetCount(Init(n, m), run, k) <= 1
  {
    PlaceTellsBalance(n, m, run, k);
  }

  /** A node being put back has exactly one adder, and a node left pending has a reference holder
      who will put it back. */
  lemma OneAdderPerNode(n: nat, m: nat, run: seq<Action>, k: Node)
    requires m + 2 < SHOULD_BE_ON_FREELIST && k < n && Run(Init(n, m), run).Some?
    ensures var s := Run(Init(n, m), run).value;
      && |s.place| == n
      && (forall t, u :: 0 <= t < u < m && |s.threads| == m ==>
            !(AddsNode(s.threads[t], k) && AddsNode(s.threads[u], k)))
      && (s.place[k] == Pending ==> exists t :: 0 <= t < |s.threads| && Held(s.threads[t]) == Some(k))
  {
    ReachableInv(n, m, run);
    var s := Run(Init(n, m), run).value;
    assert CountOk(s, k);
    HoldersBounds(s.threads, k);
    forall t | 0 <= t < m && AddsNode(s.threads[t], k) ensures By(s.place[k]) == Some(t) {
      assert Claim(s.threads[t], t).Some?;
    }
  }

  predicate AddsNode(p: Pc, k: Node) {
    (p.AddLoad? || p.AddStoreNext? || p.AddStoreRefs? || p.AddCas? || p.AddUndo?) && p.node == k
  }

  /** The assertion after a successful pop: the flag of the node just unlinked is clear. */
  lemma FlagClearAfterPop(n: nat, m: nat, run: seq<Action>, t: Tid)
    requires m + 2 < SHOULD_BE_ON_FREELIST && Run(Init(n, m), run).Some?
    requires t < |Run(Init(n, m), run).value.threads| && Run(Init(n, m), run).value.threads[t].Popped?
    ensures var s := Run(Init(n, m), run).value;
      s.threads[t].node < |s.refs| && 2 <= s.refs[s.threads[t].node] < SHOULD_BE_ON_FREELIST
  {
    ReachableInv(n, m, run);
    var s := Run(Init(n, m), run).value;
    UnlinkedKeepsInv(s, t, s.threads[t].node);
    HeldIsNotAdded(s, t, s.threads[t].node);
    RefWord(s, s.threads[t].node);
  }

  /** No ABA: when the compare-and-swap of try_get finds the head still equal to the node it read,
      the next pointer it read earlier is still the node's successor, so it removes exactly the
      first node; the one of the adder pushes exactly its node; and no other step touches the list. */
  lemma HeadCasPopsOrPushes(n: nat, m: nat, run: seq<Action>, t: Tid)
    requires m + 2 < SHOULD_BE_ON_FREELIST && Run(Init(n, m), run).Some? && Enabled(Run(Init(n, m), run).value, Go(t))
    ensures var s := Run(Init(n, m), run).value;
      && Shape(s)
      && var s' := Step(s, t);
      match s.threads[t]
      case HaveNext(h, next) =>
        if s.head == Some(h) then s.list != [] && s.list[0] == h && s'.list == s.list[1..] && s'.head == next == First(s'.list)
        else s'.list == s.list && s'.head == s.head
      case AddCas(h, head, _) =>
        if s.head == head then s'.list == [h] + s.list && s'.head == Some(h) && s'.next[h] == First(s.list)
        else s'.list == s.list && s'.head == s.head
      case _ => s'.list == s.list && s'.head == s.head
  {
    ReachableInv(n, m, run);
    var s := Run(Init(n, m), run).value;
    hide Run;
    StepAndList(s, t);
  }

  lemma StepAndList(s: State, t: Tid)
    requires Inv(s) && Enabled(s, Go(t))
    ensures var s' := Step(s, t);
      match s.threads[t]
      case HaveNext(h, next) =>
        if s.head == Some(h) then s.list != [] && s.list[0] == h && s'.list == s.list[1..] && s'.head == next == First(s'.list)
        else s'.list == s.list && s'.head == s.head
      case AddCas(h, head, _) =>
        if s.head == head then s'.list == [h] + s.list && s'.head == Some(h) && s'.next[h] == First(s.list)
        else s'.list == s.list && s'.head == s.head
      case _ => s'.list == s.list && s'.head == s.head
  {
    assert LocalOk(s, s.threads[t]);
    hide CountOk, ClaimsOk;
  }

  /** Nothing is lost: once every thread is idle each node is on the list or outside. */
  lemma QuietListLosesNothing(n: nat, m: nat, run: seq<Action>, k: Node)
    requires m + 2 < SHOULD_BE_ON_FREELIST && k < n && Run(Init(n, m), run).Some?
    requires forall t :: 0 <= t < |Run(Init(n, m), run).value.threads| ==> Run(Init(n, m), run).value.threads[t] == Idle
    ensures k in Run(Init(n, m), run).value.list <==> AddCount(run, k) == GetCount(Init(n, m), run, k) + 1
  {
    PlaceTellsBalance(n, m, run, k);
    var s := Run(Init(n, m), run).value;
    assert CountOk(s, k);
    HoldersBounds(s.threads, k);
  }
}
