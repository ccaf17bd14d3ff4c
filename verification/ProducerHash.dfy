// The hash of implicit producers: a chain of open-addressing tables, keyed by thread, in which
// each thread finds its own producer or registers a new one, while the tables are resized under
// a try-lock.
//
// Tables are numbered from the oldest; tables[i].prev is tables[i - 1] and the published one is
// the last. Keys are never removed. Each step is one atomic access. `index &= capacity - 1` is
// the remainder by the capacity, a power of two (see module Masks).

module ProducerHash {
  import opened Wrappers
  import opened FiniteSets
  import M = ModArith
  import opened Masks

  type Tid = nat
  type ProducerId = nat

  datatype Slot = Slot(key: Option<Tid>, value: Option<ProducerId>)

  /** The map `place` is auxiliary: how many slots after its hash each key lies. */
  datatype Table = Table(capacity: nat, entries: seq<Slot>, place: map<Tid, nat>)

  datatype Pc =
    | Idle
    | Enter                                              // load implicitProducerHash
    | Probe(main: nat, h: nat, d: nat)                   // load the d-th key after the hash in table h
    | Count(main: nat)                                   // fetch_add implicitProducerHashCount
    | Check(main: nat, n: nat)                           // too full? then test_and_set the resize flag
    | Reload(n: nat)                                     // flag held: load implicitProducerHash, test again
    | Resize(main: nat, n: nat)                          // flag held: allocate and publish a bigger table
    | Uncount                                            // flag held: allocation failed, fetch_sub
    | GiveUp                                             // flag held: clear it and return null
    | Unlock(main: nat, n: nat)                          // flag held: clear it
    | Fit(main: nat, n: nat)                             // room? then create a producer, else load the hash again
    | Cancel                                             // no producer: fetch_sub and return null
    | Look(main: nat, d: nat, v: ProducerId)             // insert v: load the d-th key after the hash
    | Swap(main: nat, d: nat, v: ProducerId)             // compare_exchange it with the thread's own
    | Store(main: nat, d: nat, v: ProducerId)            // store the value and return it

  datatype State = State(
    tables: seq<Table>,
    count: nat,
    locked: bool,
    created: nat,                    // producers created so far: 0, 1, ... created - 1
    hash: seq<nat>,                  // hash_thread_id of each thread
    pcs: seq<Pc>,
    // auxiliary, per thread: the count it drew, the producer made for it, the table it registered in
    rank: seq<Option<nat>>,
    made: seq<Option<ProducerId>>,
    home: seq<Option<nat>>)

  datatype Action =
    | Begin(t: Tid)
    | Step(t: Tid, alloc: bool)      // alloc: whether an allocation in this step succeeds

  predicate Shaped(s: State) {
    && |s.tables| > 0
    && (forall h :: 0 <= h < |s.tables| ==> s.tables[h].capacity > 0 && |s.tables[h].entries| == s.tables[h].capacity)
    && |s.hash| == |s.pcs| == |s.rank| == |s.made| == |s.home|
    && (forall t :: 0 <= t < |s.pcs| ==> InTables(s.pcs[t], |s.tables|))
  }

  /** The tables a thread points to exist. */
  predicate InTables(p: Pc, n: nat) {
    match p
    case Probe(main, h, _) => h <= main < n
    case Count(main) => main < n
    case Check(main, _) => main < n
    case Resize(main, _) => main < n
    case Unlock(main, _) => main < n
    case Fit(main, _) => main < n
    case Look(main, _, _) => main < n
    case Swap(main, _, _) => main < n
    case Store(main, _, _) => main < n
    case _ => true
  }

  predicate Enabled(s: State, a: Action) {
    match a
    case Begin(t) => t < |s.pcs| && s.pcs[t].Idle?
    case Step(t, _) => t < |s.pcs| && !s.pcs[t].Idle?
  }

  function At(s: State, t: Tid, p: Pc): State
    requires t < |s.pcs|
  {
    s.(pcs := s.pcs[t := p])
  }

  function Pos(tb: Table, hash: seq<nat>, t: Tid, d: nat): nat {
    if tb.capacity > 0 && t < |hash| then (hash[t] + d) % tb.capacity else 0
  }

  /** Below this count a table may take new keys: three quarters of its capacity. */
  function Room(capacity: nat): nat { capacity / 2 + capacity / 4 }

  /** The capacity of the next table: doubled until the count is below half of it. */
  function Enlarge(capacity: nat, n: nat): (r: nat)
    requires capacity > 0
    ensures n < r / 2 && 2 * capacity <= r
    decreases n - capacity
  {
    if n >= (2 * capacity) / 2 then Enlarge(2 * capacity, n) else 2 * capacity
  }

  function NewTable(capacity: nat): Table { Table(capacity, seq(capacity, _ => Slot(None, None)), map[]) }

  function Next(s: State, a: Action): State
    requires Shaped(s) && Enabled(s, a)
  {
    match a
    case Begin(t) => At(s, t, Enter)
    case Step(t, alloc) =>
      match s.pcs[t]
      case Enter => At(s, t, Probe(|s.tables| - 1, |s.tables| - 1, 0))
      case Probe(main, h, d) => ProbeStep(s, t, main, h, d)
      case Count(main) => At(s.(count := s.count + 1, rank := s.rank[t := Some(s.count + 1)]), t, Check(main, s.count + 1))
      case Check(main, n) =>
        if n >= s.tables[main].capacity / 2 && !s.locked then At(s.(locked := true), t, Reload(n)) else At(s, t, Fit(main, n))
      case Reload(n) =>
        var main := |s.tables| - 1;
        At(s, t, if n >= s.tables[main].capacity / 2 then Resize(main, n) else Unlock(main, n))
      case Resize(main, n) =>
        if !alloc then At(s, t, Uncount)
        else At(s.(tables := s.tables + [NewTable(Enlarge(s.tables[main].capacity, n))]), t, Unlock(|s.tables|, n))
      case Uncount => At(s.(count := Less(s.count), rank := s.rank[t := None]), t, GiveUp)
      case GiveUp => At(s.(locked := false), t, Idle)
      case Unlock(main, n) => At(s.(locked := false), t, Fit(main, n))
      case Fit(main, n) =>
        if n < Room(s.tables[main].capacity) then
          if alloc then At(s.(created := s.created + 1, made := s.made[t := Some(s.created)]), t, Look(main, 0, s.created))
          else At(s, t, Cancel)
        else At(s, t, Check(|s.tables| - 1, n))
      case Cancel => At(s.(count := Less(s.count), rank := s.rank[t := None]), t, Idle)
      case Look(main, d, v) =>
        At(s, t, if s.tables[main].entries[Pos(s.tables[main], s.hash, t, d)].key == None then Swap(main, d, v) else Look(main, d + 1, v))
      case Swap(main, d, v) =>
        if s.tables[main].entries[Pos(s.tables[main], s.hash, t, d)].key == None then
          At(s.(tables := s.tables[main := Insert(s.tables[main], s.hash, t, d)],
                home := if s.home[t] == None then s.home[t := Some(main)] else s.home), t, Store(main, d, v))
        else At(s, t, Look(main, d + 1, v))
      case Store(main, d, v) => At(s.(tables := s.tables[main := Fill(s.tables[main], s.hash, t, d, v)]), t, Idle)
  }

  function Less(n: nat): nat { if n == 0 then 0 else n - 1 }

  /** Look at one slot: found in the newest table, found in an older one, not in this table, or go on. */
  function ProbeStep(s: State, t: Tid, main: nat, h: nat, d: nat): State
    requires Shaped(s) && t < |s.pcs| && h <= main < |s.tables|
  {
    var slot := s.tables[h].entries[Pos(s.tables[h], s.hash, t, d)];
    At(s, t,
       if slot.key == Some(t) then
         if h == main || slot.value == None then Idle else Look(main, 0, slot.value.value)
       else if slot.key == None then
         if h > 0 then Probe(main, h - 1, 0) else Count(main)
       else Probe(main, h, d + 1))
  }

  function Insert(tb: Table, hash: seq<nat>, t: Tid, d: nat): Table
    requires tb.capacity > 0 && |tb.entries| == tb.capacity
  {
    var i := Pos(tb, hash, t, d);
    tb.(entries := tb.entries[i := tb.entries[i].(key := Some(t))], place := tb.place[t := d])
  }

  function Fill(tb: Table, hash: seq<nat>, t: Tid, d: nat, v: ProducerId): Table
    requires tb.capacity > 0 && |tb.entries| == tb.capacity
  {
    var i := Pos(tb, hash, t, d);
    tb.(entries := tb.entries[i := tb.entries[i].(value := Some(v))])
  }

  /** What a call of get_or_add_implicit_producer returns, when an action ends it. */
  function Result(s: State, a: Action): Option<(Tid, Option<ProducerId>)>
    requires Shaped(s)
  {
    if a.Step? && a.t < |s.pcs| then
      var t := a.t;
      match s.pcs[t]
      case Probe(main, h, d) =>
        var slot := s.tables[h].entries[Pos(s.tables[h], s.hash, t, d)];
        if slot.key == Some(t) && h == main then Some((t, slot.value)) else None
      case GiveUp => Some((t, None))
      case Cancel => Some((t, None))
      case Store(_, _, v) => Some((t, Some(v)))
      case _ => None
    else None
  }

  // ----- the counts that threads drew -----

  /** How many threads are counted at all, and how many of them drew a count of at most y. */
  function Active(rank: seq<Option<nat>>): nat {
    if rank == [] then 0 else Active(rank[..|rank| - 1]) + if rank[|rank| - 1].Some? then 1 else 0
  }

  function Upto(rank: seq<Option<nat>>, y: nat): nat {
    if rank == [] then 0 else Upto(rank[..|rank| - 1], y) + Weight(rank[|rank| - 1], y)
  }

  function Weight(r: Option<nat>, y: nat): nat { if r.Some? && r.value <= y then 1 else 0 }

  lemma {:induction false} CountsAfter(rank: seq<Option<nat>>, t: Tid, r: Option<nat>, y: nat)
    requires t < |rank|
    ensures Active(rank[t := r]) == Active(rank) - (if rank[t].Some? then 1 else 0) + if r.Some? then 1 else 0
    ensures Upto(rank[t := r], y) == Upto(rank, y) - Weight(rank[t], y) + Weight(r, y)
    decreases |rank|
  {
    var m := |rank| - 1;
    if t == m {
      assert rank[t := r][..m] == rank[..m];
    } else {
      assert rank[t := r][..m] == rank[..m][t := r];
      CountsAfter(rank[..m], t, r, y);
    }
  }

  lemma {:induction false} UptoAtMostActive(rank: seq<Option<nat>>, y: nat)
    ensures Upto(rank, y) <= Active(rank)
    decreases |rank|
  {
    if rank != [] { UptoAtMostActive(rank[..|rank| - 1], y); }
  }

  /** The threads that drew at most y. */
  function Early(rank: seq<Option<nat>>, y: nat): set<Tid> {
    set t | 0 <= t < |rank| && rank[t].Some? && rank[t].value <= y
  }

  lemma {:induction false} EarlyCounted(rank: seq<Option<nat>>, y: nat)
    ensures |Early(rank, y)| == Upto(rank, y)
    decreases |rank|
  {
    if rank != [] {
      var m := |rank| - 1;
      EarlyCounted(rank[..m], y);
      if Weight(rank[m], y) == 1 {
        assert Early(rank, y) == Early(rank[..m], y) + {m};
      } else {
        assert Early(rank, y) == Early(rank[..m], y);
      }
    }
  }

  /** At most y of the counted threads drew y or less. */
  ghost predicate RanksOk(rank: seq<Option<nat>>, count: nat) {
    && count == Active(rank)
    && (forall y: nat :: Upto(rank, y) <= y)
  }

  lemma DrawKeepsRanks(rank: seq<Option<nat>>, count: nat, t: Tid)
    requires RanksOk(rank, count) && t < |rank| && rank[t] == None
    ensures RanksOk(rank[t := Some(count + 1)], count + 1)
  {
    var r := rank[t := Some(count + 1)];
    CountsAfter(rank, t, Some(count + 1), 0);
    forall y: nat ensures Upto(r, y) <= y {
      CountsAfter(rank, t, Some(count + 1), y);
      UptoAtMostActive(r, y);
    }
  }

  lemma ReturnKeepsRanks(rank: seq<Option<nat>>, count: nat, t: Tid)
    requires RanksOk(rank, count) && t < |rank| && rank[t].Some?
    ensures count > 0 && RanksOk(rank[t := None], count - 1)
  {
    CountsAfter(rank, t, None, 0);
    var r := rank[t := None];
    forall y: nat ensures Upto(r, y) <= y {
      CountsAfter(rank, t, None, y);
    }
  }

  // ----- the invariant -----

  predicate Taken(tb: Table, hash: seq<nat>, t: Tid, d: nat) {
    Pos(tb, hash, t, d) < |tb.entries| && tb.entries[Pos(tb, hash, t, d)].key.Some?
  }

  /** The d slots from a thread's hash on are all taken. */
  predicate Run(tb: Table, hash: seq<nat>, t: Tid, d: nat) { forall e :: 0 <= e < d ==> Taken(tb, hash, t, e) }

  predicate KeyOk(tb: Table, hash: seq<nat>, t: Tid)
    requires t in tb.place
  {
    && t < |hash| && tb.place[t] < tb.capacity && Run(tb, hash, t, tb.place[t])
    && Pos(tb, hash, t, tb.place[t]) < |tb.entries| && tb.entries[Pos(tb, hash, t, tb.place[t])].key == Some(t)
  }

  predicate SlotOk(tb: Table, hash: seq<nat>, i: nat)
    requires i < |tb.entries|
  {
    tb.entries[i].key.Some? ==> tb.entries[i].key.value in tb.place && i == Pos(tb, hash, tb.entries[i].key.value, tb.place[tb.entries[i].key.value])
  }

  predicate TableOk(tb: Table, hash: seq<nat>) {
    && tb.capacity > 0 && |tb.entries| == tb.capacity
    && (forall t :: t in tb.place ==> KeyOk(tb, hash, t))
    && (forall i :: 0 <= i < |tb.entries| ==> SlotOk(tb, hash, i))
  }

  /** Every key in a table belongs to a counted thread whose count the table has room for. */
  predicate RoomOk(tb: Table, rank: seq<Option<nat>>) {
    forall t :: t in tb.place ==> t < |rank| && rank[t].Some? && rank[t].value < Room(tb.capacity)
  }

  /** The value beside a key is its thread's producer, unless the thread is about to store it. */
  predicate ValueOk(tb: Table, hash: seq<nat>, h: nat, t: Tid, p: Pc, made: Option<ProducerId>)
    requires t in tb.place
  {
    (p.Store? && p.main == h) ||
    (Pos(tb, hash, t, tb.place[t]) < |tb.entries| && made.Some? && tb.entries[Pos(tb, hash, t, tb.place[t])].value == made)
  }

  predicate TablesOk(tables: seq<Table>, hash: seq<nat>, rank: seq<Option<nat>>) {
    && |tables| > 0
    && (forall h :: 0 <= h < |tables| ==> TableOk(tables[h], hash) && RoomOk(tables[h], rank))
    && (forall g, h :: 0 <= g < h < |tables| ==> tables[g].capacity < tables[h].capacity)
  }

  predicate ValuesOk(tables: seq<Table>, hash: seq<nat>, pcs: seq<Pc>, made: seq<Option<ProducerId>>) {
    |made| == |pcs| && forall h :: 0 <= h < |tables| ==> TableValuesOk(tables[h], hash, h, pcs, made)
  }

  predicate TableValuesOk(tb: Table, hash: seq<nat>, h: nat, pcs: seq<Pc>, made: seq<Option<ProducerId>>) {
    |made| == |pcs| && forall t :: t in tb.place ==> t < |pcs| && ValueOk(tb, hash, h, t, pcs[t], made[t])
  }

  /** A thread is registered once its key is in some table; home is the first such table. */
  predicate HomeOk(tables: seq<Table>, t: Tid, home: Option<nat>) {
    match home
    case None => forall h :: 0 <= h < |tables| ==> t !in tables[h].place
    case Some(x) => x < |tables| && t in tables[x].place
  }

  predicate MadeOk(made: seq<Option<ProducerId>>, created: nat) {
    && (forall t :: 0 <= t < |made| && made[t].Some? ==> made[t].value < created)
    && (forall t, u :: 0 <= t < u < |made| && made[t].Some? && made[u].Some? ==> made[t] != made[u])
  }

  /** Either registered, with a count and a producer, or nothing of the kind. */
  predicate Settled(home: Option<nat>, rank: Option<nat>, made: Option<ProducerId>) {
    (home.Some? <==> rank.Some?) && (home.Some? <==> made.Some?)
  }

  predicate Counted(home: Option<nat>, rank: Option<nat>, made: Option<ProducerId>, n: nat) {
    home == None && rank == Some(n) && made == None
  }

  predicate PcOk(tables: seq<Table>, hash: seq<nat>, t: Tid, p: Pc, home: Option<nat>, rank: Option<nat>, made: Option<ProducerId>) {
    && InTables(p, |tables|)
    && match p
       case Idle => Settled(home, rank, made)
       case Enter => Settled(home, rank, made)
       case Probe(main, h, d) => Settled(home, rank, made) && Probing(tables, hash, t, main, h, d, home)
       case Count(main) => Settled(home, rank, made) && home == None
       case Check(main, n) => Counted(home, rank, made, n)
       case Reload(n) => Counted(home, rank, made, n)
       case Resize(main, n) => Counted(home, rank, made, n)
       case Uncount => home == None && rank.Some? && made == None
       case GiveUp => Settled(home, rank, made) && home == None
       case Unlock(main, n) => Counted(home, rank, made, n)
       case Fit(main, n) => Counted(home, rank, made, n)
       case Cancel => home == None && rank.Some? && made == None
       case Look(main, d, v) => Inserting(tables[main], hash, t, d, v, rank, made)
       case Swap(main, d, v) => Inserting(tables[main], hash, t, d, v, rank, made)
       case Store(main, d, v) => home.Some? && rank.Some? && made == Some(v) && t in tables[main].place && tables[main].place[t] == d
  }

  predicate Probing(tables: seq<Table>, hash: seq<nat>, t: Tid, main: nat, h: nat, d: nat, home: Option<nat>) {
    && h <= main < |tables| && (home.Some? ==> home.value <= h)
    && (forall g :: h < g <= main ==> t !in tables[g].place)
    && d < tables[h].capacity && Run(tables[h], hash, t, d) && (t in tables[h].place ==> d <= tables[h].place[t])
  }

  predicate Inserting(tb: Table, hash: seq<nat>, t: Tid, d: nat, v: ProducerId, rank: Option<nat>, made: Option<ProducerId>) {
    && t !in tb.place && d < tb.capacity && Run(tb, hash, t, d)
    && rank.Some? && rank.value < Room(tb.capacity) && made == Some(v)
  }

  /** The thread holds the resize flag. */
  predicate Locks(p: Pc) { p.Reload? || p.Resize? || p.Uncount? || p.GiveUp? || p.Unlock? }

  /** At most one thread holds the flag; one about to publish a table has seen the newest one. */
  predicate LockOk(pcs: seq<Pc>, locked: bool, n: nat) {
    && (!locked ==> forall t :: 0 <= t < |pcs| ==> !Locks(pcs[t]))
    && (forall t, u :: 0 <= t < u < |pcs| ==> !(Locks(pcs[t]) && Locks(pcs[u])))
    && (forall t :: 0 <= t < |pcs| && pcs[t].Resize? ==> pcs[t].main == n - 1)
  }

  predicate ThreadsOk(tables: seq<Table>, hash: seq<nat>, pcs: seq<Pc>, home: seq<Option<nat>>, rank: seq<Option<nat>>, made: seq<Option<ProducerId>>) {
    && |hash| == |pcs| == |home| == |rank| == |made|
    && (forall t :: 0 <= t < |pcs| ==> HomeOk(tables, t, home[t]) && PcOk(tables, hash, t, pcs[t], home[t], rank[t], made[t]))
  }

  ghost predicate Inv(s: State) {
    && TablesOk(s.tables, s.hash, s.rank)
    && ValuesOk(s.tables, s.hash, s.pcs, s.made)
    && RanksOk(s.rank, s.count)
    && MadeOk(s.made, s.created)
    && LockOk(s.pcs, s.locked, |s.tables|)
    && ThreadsOk(s.tables, s.hash, s.pcs, s.home, s.rank, s.made)
  }

  lemma InvShaped(s: State)
    requires Inv(s)
    ensures Shaped(s)
  {
    forall h | 0 <= h < |s.tables| ensures s.tables[h].capacity > 0 && |s.tables[h].entries| == s.tables[h].capacity {
      assert TableOk(s.tables[h], s.hash);
    }
    forall t | 0 <= t < |s.pcs| ensures InTables(s.pcs[t], |s.tables|) {
      assert PcOk(s.tables, s.hash, t, s.pcs[t], s.home[t], s.rank[t], s.made[t]);
    }
  }

  // ----- no table fills up -----

  /** How many slots of a table are taken. */
  function Filled(entries: seq<Slot>): nat {
    if entries == [] then 0 else Filled(entries[..|entries| - 1]) + if entries[|entries| - 1].key.Some? then 1 else 0
  }

  function KeysIn(entries: seq<Slot>): set<Tid> {
    set i | 0 <= i < |entries| && entries[i].key.Some? :: entries[i].key.value
  }

  lemma KeysWithLast(entries: seq<Slot>)
    requires entries != []
    ensures var m := |entries| - 1;
      KeysIn(entries) == KeysIn(entries[..m]) + if entries[m].key.Some? then {entries[m].key.value} else {}
  {
    var m := |entries| - 1;
    var rest := entries[..m];
    forall x | x in KeysIn(entries) ensures x in KeysIn(rest) || entries[m].key == Some(x) {
      var i :| 0 <= i < |entries| && entries[i].key.Some? && entries[i].key.value == x;
      assert i < m ==> rest[i] == entries[i];
    }
    forall x | x in KeysIn(rest) ensures x in KeysIn(entries) {
      var i :| 0 <= i < |rest| && rest[i].key.Some? && rest[i].key.value == x;
      assert entries[i] == rest[i];
    }
  }

  /** Different slots hold different keys, so there are as many keys as taken slots. */
  lemma {:induction false} FilledIsKeys(entries: seq<Slot>)
    requires forall i, j :: 0 <= i < j < |entries| && entries[i].key.Some? && entries[j].key.Some? ==> entries[i].key != entries[j].key
    ensures |KeysIn(entries)| == Filled(entries)
    decreases |entries|
  {
    if entries != [] {
      var m := |entries| - 1;
      FilledIsKeys(entries[..m]);
      KeysWithLast(entries);
      assert entries[m].key.Some? ==> entries[m].key.value !in KeysIn(entries[..m]);
    }
  }

  lemma {:induction false} FilledAll(entries: seq<Slot>)
    requires forall i :: 0 <= i < |entries| ==> entries[i].key.Some?
    ensures Filled(entries) == |entries|
    decreases |entries|
  {
    if entries != [] { FilledAll(entries[..|entries| - 1]); }
  }

  /** A table keeps more than a quarter of its slots empty. */
  lemma QuarterEmpty(tb: Table, hash: seq<nat>, rank: seq<Option<nat>>, count: nat)
    requires TableOk(tb, hash) && RoomOk(tb, rank) && RanksOk(rank, count)
    ensures 4 * Filled(tb.entries) < 3 * tb.capacity
  {
    forall i, j | 0 <= i < j < |tb.entries| && tb.entries[i].key.Some? && tb.entries[j].key.Some? ensures tb.entries[i].key != tb.entries[j].key {
      assert SlotOk(tb, hash, i) && SlotOk(tb, hash, j);
    }
    FilledIsKeys(tb.entries);
    if Filled(tb.entries) > 0 {
      var k :| k in KeysIn(tb.entries);
      var y := Room(tb.capacity) - 1;
      forall x | x in KeysIn(tb.entries) ensures x in tb.place {
        var i :| 0 <= i < |tb.entries| && tb.entries[i].key.Some? && tb.entries[i].key.value == x;
        assert SlotOk(tb, hash, i);
      }
      assert k in tb.place;
      SubsetSize(KeysIn(tb.entries), Early(rank, y));
      EarlyCounted(rank, y);
    }
  }

  /** A run of taken slots ends before it has gone round the table. */
  lemma RunEnds(tb: Table, hash: seq<nat>, rank: seq<Option<nat>>, count: nat, t: Tid, d: nat)
    requires TableOk(tb, hash) && RoomOk(tb, rank) && RanksOk(rank, count) && t < |hash| && Run(tb, hash, t, d)
    ensures d < tb.capacity
  {
    QuarterEmpty(tb, hash, rank, count);
    if d >= tb.capacity {
      forall i | 0 <= i < |tb.entries| ensures tb.entries[i].key.Some? {
        var e := (i - hash[t]) % tb.capacity;
        M.ModAdd(i - hash[t], hash[t], tb.capacity);
        M.ModSmall(i, tb.capacity);
        assert Taken(tb, hash, t, e);
      }
      FilledAll(tb.entries);
    }
  }

  // ----- every step keeps the invariant -----

  lemma LockMove(pcs: seq<Pc>, locked: bool, n: nat, t: Tid, p: Pc, locked': bool)
    requires LockOk(pcs, locked, n) && t < |pcs|
    requires Locks(p) ==> locked' && (Locks(pcs[t]) || !locked)
    requires !Locks(p) ==> Locks(pcs[t]) || locked' == locked
    requires p.Resize? ==> p.main == n - 1
    ensures LockOk(pcs[t := p], locked', n)
  {
  }

  /** The tables grow: slots stay taken, and only thread t's keys are added. */
  predicate Extends(tables: seq<Table>, tables': seq<Table>, t: Tid) {
    && |tables| <= |tables'|
    && (forall h :: 0 <= h < |tables| ==> ExtendsTable(tables[h], tables'[h], t))
    && (forall h :: |tables| <= h < |tables'| ==> tables'[h].place == map[])
  }

  predicate ExtendsTable(a: Table, b: Table, t: Tid) {
    && a.capacity == b.capacity && |a.entries| == |b.entries|
    && (forall i :: 0 <= i < |a.entries| && a.entries[i].key.Some? ==> b.entries[i].key.Some?)
    && (forall u :: u in a.place && u != t ==> u in b.place && a.place[u] == b.place[u])
    && (forall u :: u in b.place && u != t ==> u in a.place)
    && (t in a.place ==> t in b.place)
  }

  /** What is known of another thread survives a step of thread t. */
  lemma OtherThread(tables: seq<Table>, tables': seq<Table>, hash: seq<nat>, t: Tid, u: Tid, p: Pc, home: Option<nat>, rank: Option<nat>, made: Option<ProducerId>)
    requires Extends(tables, tables', t) && u != t
    requires HomeOk(tables, u, home) && PcOk(tables, hash, u, p, home, rank, made)
    ensures HomeOk(tables', u, home) && PcOk(tables', hash, u, p, home, rank, made)
  {
    forall h | 0 <= h < |tables| ensures u in tables[h].place <==> u in tables'[h].place {
      assert ExtendsTable(tables[h], tables'[h], t);
    }
    match p {
      case Probe(main, h, d) => RunExtends(tables[h], tables'[h], hash, t, u, d);
      case Look(main, d, v) => RunExtends(tables[main], tables'[main], hash, t, u, d);
      case Swap(main, d, v) => RunExtends(tables[main], tables'[main], hash, t, u, d);
      case Store(main, d, v) => assert ExtendsTable(tables[main], tables'[main], t);
      case _ =>
    }
  }

  lemma RunExtends(a: Table, b: Table, hash: seq<nat>, t: Tid, u: Tid, d: nat)
    requires ExtendsTable(a, b, t) && Run(a, hash, u, d)
    ensures Run(b, hash, u, d)
  {
    forall e | 0 <= e < d ensures Taken(b, hash, u, e) {
      assert Taken(a, hash, u, e);
    }
  }

  lemma ThreadsStep(tables: seq<Table>, tables': seq<Table>, hash: seq<nat>, pcs: seq<Pc>, home: seq<Option<nat>>, rank: seq<Option<nat>>,
                    made: seq<Option<ProducerId>>, t: Tid, p: Pc, h': Option<nat>, r': Option<nat>, m': Option<ProducerId>)
    requires ThreadsOk(tables, hash, pcs, home, rank, made) && t < |pcs| && Extends(tables, tables', t)
    requires HomeOk(tables', t, h') && PcOk(tables', hash, t, p, h', r', m')
    ensures ThreadsOk(tables', hash, pcs[t := p], home[t := h'], rank[t := r'], made[t := m'])
  {
    var pcs1, home1, rank1, made1 := pcs[t := p], home[t := h'], rank[t := r'], made[t := m'];
    forall u | 0 <= u < |pcs1| ensures HomeOk(tables', u, home1[u]) && PcOk(tables', hash, u, pcs1[u], home1[u], rank1[u], made1[u]) {
      if u != t {
        OtherThread(tables, tables', hash, t, u, pcs[u], home[u], rank[u], made[u]);
      }
    }
  }

  lemma Unchanged(tables: seq<Table>, t: Tid)
    ensures Extends(tables, tables, t)
  {
  }

  lemma ValuesMove(tables: seq<Table>, hash: seq<nat>, pcs: seq<Pc>, made: seq<Option<ProducerId>>, t: Tid, p: Pc)
    requires ValuesOk(tables, hash, pcs, made) && t < |pcs| && !pcs[t].Store?
    ensures ValuesOk(tables, hash, pcs[t := p], made)
  {
    forall h | 0 <= h < |tables| ensures TableValuesOk(tables[h], hash, h, pcs[t := p], made) {
      assert TableValuesOk(tables[h], hash, h, pcs, made);
    }
  }

  /** A step that changes nothing but the thread's position and the flag. */
  lemma MoveKeepsInv(s: State, t: Tid, p: Pc, locked: bool)
    requires Inv(s) && t < |s.pcs| && !s.pcs[t].Store?
    requires PcOk(s.tables, s.hash, t, p, s.home[t], s.rank[t], s.made[t])
    requires Locks(p) ==> locked && (Locks(s.pcs[t]) || !s.locked)
    requires !Locks(p) ==> Locks(s.pcs[t]) || locked == s.locked
    requires p.Resize? ==> p.main == |s.tables| - 1
    ensures Inv(At(s.(locked := locked), t, p))
  {
    assert HomeOk(s.tables, t, s.home[t]);
    hide TablesOk, RanksOk, MadeOk, HomeOk, PcOk;
    LockMove(s.pcs, s.locked, |s.tables|, t, p, locked);
    Unchanged(s.tables, t);
    ThreadsStep(s.tables, s.tables, s.hash, s.pcs, s.home, s.rank, s.made, t, p, s.home[t], s.rank[t], s.made[t]);
    ValuesMove(s.tables, s.hash, s.pcs, s.made, t, p);
    hide ThreadsOk, ValuesOk, LockOk;
    assert s.home[t := s.home[t]] == s.home && s.rank[t := s.rank[t]] == s.rank && s.made[t := s.made[t]] == s.made;
  }

  /** A step that changes the thread's rank or producer. */
  lemma RankMove(s: State, t: Tid, p: Pc, rank: Option<nat>, count: nat, made: Option<ProducerId>, created: nat)
    requires Inv(s) && t < |s.pcs| && !s.pcs[t].Store? && s.home[t] == None
    requires PcOk(s.tables, s.hash, t, p, s.home[t], rank, made)
    requires RanksOk(s.rank[t := rank], count) && MadeOk(s.made[t := made], created)
    requires Locks(p) <==> Locks(s.pcs[t])
    requires p.Resize? ==> p.main == |s.tables| - 1
    ensures Inv(At(s.(count := count, rank := s.rank[t := rank], made := s.made[t := made], created := created), t, p))
  {
    assert HomeOk(s.tables, t, s.home[t]);
    RankTables(s.tables, s.hash, s.rank, t, rank);
    RankValues(s.tables, s.hash, s.pcs, s.made, t, p, made);
    hide TablesOk, RanksOk, MadeOk, HomeOk, PcOk, ValuesOk;
    LockMove(s.pcs, s.locked, |s.tables|, t, p, s.locked);
    Unchanged(s.tables, t);
    ThreadsStep(s.tables, s.tables, s.hash, s.pcs, s.home, s.rank, s.made, t, p, s.home[t], rank, made);
    hide ThreadsOk, LockOk;
    assert s.home[t := s.home[t]] == s.home;
  }

  lemma RankTables(tables: seq<Table>, hash: seq<nat>, rank: seq<Option<nat>>, t: Tid, r: Option<nat>)
    requires TablesOk(tables, hash, rank) && t < |rank| && HomeOk(tables, t, None)
    ensures TablesOk(tables, hash, rank[t := r])
  {
    hide TableOk;
    forall h | 0 <= h < |tables| ensures RoomOk(tables[h], rank[t := r]) {
      assert RoomOk(tables[h], rank);
    }
  }

  lemma RankValues(tables: seq<Table>, hash: seq<nat>, pcs: seq<Pc>, made: seq<Option<ProducerId>>, t: Tid, p: Pc, m: Option<ProducerId>)
    requires ValuesOk(tables, hash, pcs, made) && t < |pcs| && HomeOk(tables, t, None)
    ensures ValuesOk(tables, hash, pcs[t := p], made[t := m])
  {
    forall h | 0 <= h < |tables| ensures TableValuesOk(tables[h], hash, h, pcs[t := p], made[t := m]) {
      assert TableValuesOk(tables[h], hash, h, pcs, made) && t !in tables[h].place;
    }
  }

  /** Everything the invariant says about one thread. */
  lemma ThreadFacts(s: State, t: Tid)
    requires Inv(s) && t < |s.pcs|
    ensures t < |s.hash| == |s.home| == |s.rank| == |s.made| == |s.pcs|
    ensures HomeOk(s.tables, t, s.home[t]) && PcOk(s.tables, s.hash, t, s.pcs[t], s.home[t], s.rank[t], s.made[t])
  {
    hide TablesOk, ValuesOk, RanksOk, MadeOk, LockOk, HomeOk, PcOk;
  }

  lemma TableFacts(s: State, h: nat)
    requires Inv(s) && h < |s.tables|
    ensures TableOk(s.tables[h], s.hash) && RoomOk(s.tables[h], s.rank) && TableValuesOk(s.tables[h], s.hash, h, s.pcs, s.made)
  {
    hide TableOk, RoomOk, TableValuesOk, RanksOk, MadeOk, LockOk, ThreadsOk;
  }

  /** Looking at one slot after a run of taken ones: an empty slot means that the key is not in the table. */
  lemma SlotSays(tb: Table, hash: seq<nat>, t: Tid, d: nat)
    requires TableOk(tb, hash) && t < |hash| && d < tb.capacity && Run(tb, hash, t, d)
    requires t in tb.place ==> d <= tb.place[t]
    ensures var i := Pos(tb, hash, t, d);
      && i < |tb.entries|
      && (tb.entries[i].key == None ==> t !in tb.place)
      && (tb.entries[i].key == Some(t) <==> t in tb.place && tb.place[t] == d)
      && (tb.entries[i].key.Some? ==> Run(tb, hash, t, d + 1))
  {
    var i := Pos(tb, hash, t, d);
    if t in tb.place {
      assert KeyOk(tb, hash, t);
      if d < tb.place[t] { assert Taken(tb, hash, t, d); }
    }
    assert SlotOk(tb, hash, i);
    if tb.entries[i].key == Some(t) {
      // two distances less than a lap apart would be two slots
      var e := tb.place[t];
      if d < e { M.ModDistinct(hash[t] + d, hash[t] + e, tb.capacity); }
    }
    if tb.entries[i].key.Some? { assert Taken(tb, hash, t, d); }
  }

  lemma PcIsProbe(tables: seq<Table>, hash: seq<nat>, t: Tid, main: nat, h: nat, d: nat, home: Option<nat>, rank: Option<nat>, made: Option<ProducerId>)
    ensures PcOk(tables, hash, t, Probe(main, h, d), home, rank, made) <==> Settled(home, rank, made) && Probing(tables, hash, t, main, h, d, home)
  {
  }

  lemma PcIsLook(tables: seq<Table>, hash: seq<nat>, t: Tid, main: nat, d: nat, v: ProducerId, home: Option<nat>, rank: Option<nat>, made: Option<ProducerId>)
    ensures PcOk(tables, hash, t, Look(main, d, v), home, rank, made) <==> main < |tables| && Inserting(tables[main], hash, t, d, v, rank, made)
    ensures PcOk(tables, hash, t, Swap(main, d, v), home, rank, made) <==> main < |tables| && Inserting(tables[main], hash, t, d, v, rank, made)
  {
  }

  lemma PcIsSettled(tables: seq<Table>, hash: seq<nat>, t: Tid, main: nat, home: Option<nat>, rank: Option<nat>, made: Option<ProducerId>)
    requires Settled(home, rank, made)
    ensures PcOk(tables, hash, t, Idle, home, rank, made)
    ensures home == None && main < |tables| ==> PcOk(tables, hash, t, Count(main), home, rank, made)
  {
  }

  /** The key was found; in an older table, so it is not in the newer ones. */
  lemma FoundOk(s: State, t: Tid, main: nat, h: nat, d: nat)
    requires Inv(s) && t < |s.pcs| && s.pcs[t] == Probe(main, h, d) && h < main < |s.tables| && t in s.tables[h].place
    ensures var v := s.tables[h].entries[Pos(s.tables[h], s.hash, t, s.tables[h].place[t])].value;
      v.Some? && PcOk(s.tables, s.hash, t, Look(main, 0, v.value), s.home[t], s.rank[t], s.made[t])
  {
    hide Inv, Run, HomeOk, PcOk;
    ThreadFacts(s, t);
    PcIsProbe(s.tables, s.hash, t, main, h, d, s.home[t], s.rank[t], s.made[t]);
    FoundIsMade(s, t, h);
    OlderHasLessRoom(s, h, main);
    RunZero(s.tables[main], s.hash, t);
    PcIsLook(s.tables, s.hash, t, main, 0, s.made[t].value, s.home[t], s.rank[t], s.made[t]);
  }

  /** The key is not in table h: go on to the next older one, or find that the thread is not registered. */
  lemma NotHereOk(s: State, t: Tid, main: nat, h: nat, d: nat)
    requires Inv(s) && t < |s.pcs| && s.pcs[t] == Probe(main, h, d) && h <= main < |s.tables| && t !in s.tables[h].place
    ensures PcOk(s.tables, s.hash, t, if h > 0 then Probe(main, h - 1, 0) else Count(main), s.home[t], s.rank[t], s.made[t])
  {
    hide Inv, Run, PcOk;
    ThreadFacts(s, t);
    PcIsProbe(s.tables, s.hash, t, main, h, d, s.home[t], s.rank[t], s.made[t]);
    if h > 0 {
      RunZero(s.tables[h - 1], s.hash, t);
      OlderHasLessRoom(s, h - 1, h - 1);
      PcIsProbe(s.tables, s.hash, t, main, h - 1, 0, s.home[t], s.rank[t], s.made[t]);
    } else {
      PcIsSettled(s.tables, s.hash, t, main, s.home[t], s.rank[t], s.made[t]);
    }
  }

  lemma GoOnOk(s: State, t: Tid, main: nat, h: nat, d: nat)
    requires Inv(s) && t < |s.pcs| && s.pcs[t] == Probe(main, h, d) && h <= main < |s.tables|
    requires Run(s.tables[h], s.hash, t, d + 1) && (t in s.tables[h].place ==> d < s.tables[h].place[t])
    ensures PcOk(s.tables, s.hash, t, Probe(main, h, d + 1), s.home[t], s.rank[t], s.made[t])
  {
    hide Inv, Run, PcOk, HomeOk;
    ThreadFacts(s, t);
    PcIsProbe(s.tables, s.hash, t, main, h, d, s.home[t], s.rank[t], s.made[t]);
    RunEndsHere(s, t, h, d + 1);
    PcIsProbe(s.tables, s.hash, t, main, h, d + 1, s.home[t], s.rank[t], s.made[t]);
  }

  lemma ProbeKeepsInv(s: State, t: Tid, main: nat, h: nat, d: nat)
    requires Inv(s) && Shaped(s) && t < |s.pcs| && s.pcs[t] == Probe(main, h, d) && h <= main < |s.tables|
    ensures Inv(ProbeStep(s, t, main, h, d))
  {
    hide Inv, PcOk, HomeOk, TableOk, RoomOk, TableValuesOk, Run;
    ThreadFacts(s, t);
    TableFacts(s, h);
    PcIsProbe(s.tables, s.hash, t, main, h, d, s.home[t], s.rank[t], s.made[t]);
    var tb := s.tables[h];
    SlotSays(tb, s.hash, t, d);
    var slot := tb.entries[Pos(tb, s.hash, t, d)];
    hide Probing;
    if slot.key == Some(t) {
      if h < main { FoundOk(s, t, main, h, d); }
      PcIsSettled(s.tables, s.hash, t, main, s.home[t], s.rank[t], s.made[t]);
    } else if slot.key == None {
      NotHereOk(s, t, main, h, d);
    } else {
      GoOnOk(s, t, main, h, d);
    }
    MoveKeepsInv(s, t, ProbeStep(s, t, main, h, d).pcs[t], s.locked);
  }

  lemma RunZero(tb: Table, hash: seq<nat>, t: Tid)
    ensures Run(tb, hash, t, 0)
  {
  }

  /** A registered thread that is not storing finds its own producer beside its key. */
  lemma FoundIsMade(s: State, t: Tid, h: nat)
    requires Inv(s) && t < |s.pcs| && h < |s.tables| && t in s.tables[h].place && !s.pcs[t].Store?
    ensures s.made[t].Some? && s.rank[t].Some? && s.rank[t].value < Room(s.tables[h].capacity)
    ensures Pos(s.tables[h], s.hash, t, s.tables[h].place[t]) < |s.tables[h].entries|
    ensures s.tables[h].entries[Pos(s.tables[h], s.hash, t, s.tables[h].place[t])].value == s.made[t]
  {
    TableFacts(s, h);
    hide Inv, TableOk, Run;
  }

  lemma OlderHasLessRoom(s: State, h: nat, main: nat)
    requires Inv(s) && h <= main < |s.tables|
    ensures Room(s.tables[h].capacity) <= Room(s.tables[main].capacity) && s.tables[main].capacity > 0
  {
    assert TableOk(s.tables[main], s.hash);
  }

  lemma RunEndsHere(s: State, t: Tid, h: nat, d: nat)
    requires Inv(s) && h < |s.tables| && t < |s.hash| && Run(s.tables[h], s.hash, t, d)
    ensures d < s.tables[h].capacity
  {
    TableFacts(s, h);
    assert RanksOk(s.rank, s.count);
    hide Inv, TableOk, RoomOk, Run, RanksOk, TableValuesOk;
    RunEnds(s.tables[h], s.hash, s.rank, s.count, t, d);
  }

  lemma LookKeepsInv(s: State, t: Tid, main: nat, d: nat, v: ProducerId, alloc: bool)
    requires Inv(s) && Shaped(s) && t < |s.pcs| && s.pcs[t] == Look(main, d, v) && main < |s.tables|
    ensures Inv(Next(s, Step(t, alloc)))
  {
    hide Inv, PcOk, HomeOk, TableOk, RoomOk, TableValuesOk, Run;
    ThreadFacts(s, t);
    TableFacts(s, main);
    var tb := s.tables[main];
    PcIsLook(s.tables, s.hash, t, main, d, v, s.home[t], s.rank[t], s.made[t]);
    SlotSays(tb, s.hash, t, d);
    if tb.entries[Pos(tb, s.hash, t, d)].key == None {
      MoveKeepsInv(s, t, Swap(main, d, v), s.locked);
    } else {
      RunEndsHere(s, t, main, d + 1);
      PcIsLook(s.tables, s.hash, t, main, d + 1, v, s.home[t], s.rank[t], s.made[t]);
      MoveKeepsInv(s, t, Look(main, d + 1, v), s.locked);
    }
  }

  lemma InsertKeepsTable(tb: Table, hash: seq<nat>, t: Tid, d: nat)
    requires TableOk(tb, hash) && t < |hash| && t !in tb.place && d < tb.capacity && Run(tb, hash, t, d)
    requires tb.entries[Pos(tb, hash, t, d)].key == None
    ensures TableOk(Insert(tb, hash, t, d), hash) && ExtendsTable(tb, Insert(tb, hash, t, d), t)
  {
    var i, b := Pos(tb, hash, t, d), Insert(tb, hash, t, d);
    assert ExtendsTable(tb, b, t);
    forall u | u in b.place ensures KeyOk(b, hash, u) {
      if u != t { assert KeyOk(tb, hash, u); }
      RunExtends(tb, b, hash, t, u, b.place[u]);
    }
    forall j | 0 <= j < |b.entries| ensures SlotOk(b, hash, j) {
      assert SlotOk(tb, hash, j);
    }
  }

  lemma InsertKeepsTables(tables: seq<Table>, hash: seq<nat>, rank: seq<Option<nat>>, main: nat, t: Tid, b: Table)
    requires TablesOk(tables, hash, rank) && main < |tables| && TableOk(b, hash) && ExtendsTable(tables[main], b, t)
    requires t < |rank| && rank[t].Some? && rank[t].value < Room(b.capacity)
    ensures TablesOk(tables[main := b], hash, rank) && Extends(tables, tables[main := b], t)
  {
    hide TableOk;
    assert RoomOk(tables[main], rank);
  }

  lemma InsertKeepsValues(tables: seq<Table>, hash: seq<nat>, pcs: seq<Pc>, made: seq<Option<ProducerId>>, main: nat, t: Tid, d: nat, v: ProducerId)
    requires ValuesOk(tables, hash, pcs, made) && main < |tables| && t < |pcs| && !pcs[t].Store? && TableOk(tables[main], hash)
    requires t !in tables[main].place
    ensures ValuesOk(tables[main := Insert(tables[main], hash, t, d)], hash, pcs[t := Store(main, d, v)], made)
  {
    var a, pcs1 := tables[main], pcs[t := Store(main, d, v)];
    var b := Insert(a, hash, t, d);
    hide TableOk;
    assert TableValuesOk(a, hash, main, pcs, made);
    assert TableValuesOk(b, hash, main, pcs1, made);
    var tables1 := tables[main := b];
    forall h | 0 <= h < |tables1| ensures TableValuesOk(tables1[h], hash, h, pcs1, made) {
      assert TableValuesOk(tables[h], hash, h, pcs, made);
    }
  }

  lemma InsertKeepsInv(s: State, t: Tid, main: nat, d: nat, v: ProducerId)
    requires Inv(s) && t < |s.pcs| && s.pcs[t] == Swap(main, d, v) && main < |s.tables|
    requires TableOk(s.tables[main], s.hash) && s.tables[main].entries[Pos(s.tables[main], s.hash, t, d)].key == None
    ensures Inv(At(s.(tables := s.tables[main := Insert(s.tables[main], s.hash, t, d)],
                      home := if s.home[t] == None then s.home[t := Some(main)] else s.home), t, Store(main, d, v)))
  {
    var tb, p := s.tables[main], Store(main, d, v);
    ThreadFacts(s, t);
    var home := if s.home[t] == None then Some(main) else s.home[t];
    hide TablesOk, ValuesOk, RanksOk, MadeOk, LockOk, TableOk, Run;
    InsertKeepsTable(tb, s.hash, t, d);
    var tables := s.tables[main := Insert(tb, s.hash, t, d)];
    assert PcOk(tables, s.hash, t, p, home, s.rank[t], s.made[t]) && Locks(p) == Locks(s.pcs[t]);
    InsertKeepsTables(s.tables, s.hash, s.rank, main, t, Insert(tb, s.hash, t, d));
    InsertKeepsValues(s.tables, s.hash, s.pcs, s.made, main, t, d, v);
    assert HomeOk(tables, t, home) by {
      if s.home[t].Some? && s.home[t].value != main { assert tables[s.home[t].value] == s.tables[s.home[t].value]; }
    }
    hide PcOk, HomeOk, Extends;
    ThreadsStep(s.tables, tables, s.hash, s.pcs, s.home, s.rank, s.made, t, p, home, s.rank[t], s.made[t]);
    LockMove(s.pcs, s.locked, |s.tables|, t, p, s.locked);
    hide ThreadsOk;
    assert s.home[t := s.home[t]] == s.home && s.rank[t := s.rank[t]] == s.rank && s.made[t := s.made[t]] == s.made;
  }

  lemma SwapKeepsInv(s: State, t: Tid, main: nat, d: nat, v: ProducerId, alloc: bool)
    requires Inv(s) && Shaped(s) && t < |s.pcs| && s.pcs[t] == Swap(main, d, v) && main < |s.tables|
    ensures Inv(Next(s, Step(t, alloc)))
  {
    hide Inv, PcOk, HomeOk, TableOk, RoomOk, TableValuesOk, Run;
    ThreadFacts(s, t);
    TableFacts(s, main);
    var tb := s.tables[main];
    PcIsLook(s.tables, s.hash, t, main, d, v, s.home[t], s.rank[t], s.made[t]);
    SlotSays(tb, s.hash, t, d);
    if tb.entries[Pos(tb, s.hash, t, d)].key == None {
      InsertKeepsInv(s, t, main, d, v);
    } else {
      RunEndsHere(s, t, main, d + 1);
      PcIsLook(s.tables, s.hash, t, main, d + 1, v, s.home[t], s.rank[t], s.made[t]);
      MoveKeepsInv(s, t, Look(main, d + 1, v), s.locked);
    }
  }

  lemma FillKeepsTable(tb: Table, hash: seq<nat>, t: Tid, d: nat, v: ProducerId)
    requires TableOk(tb, hash) && t < |hash| && t in tb.place && tb.place[t] == d
    ensures TableOk(Fill(tb, hash, t, d, v), hash) && ExtendsTable(tb, Fill(tb, hash, t, d, v), t)
    ensures Fill(tb, hash, t, d, v).place == tb.place
  {
    var b := Fill(tb, hash, t, d, v);
    assert ExtendsTable(tb, b, t);
    forall u | u in b.place ensures KeyOk(b, hash, u) {
      assert KeyOk(tb, hash, u);
      RunExtends(tb, b, hash, t, u, b.place[u]);
    }
    forall j | 0 <= j < |b.entries| ensures SlotOk(b, hash, j) {
      assert SlotOk(tb, hash, j);
    }
  }

  lemma FillKeepsValues(tables: seq<Table>, hash: seq<nat>, pcs: seq<Pc>, made: seq<Option<ProducerId>>, main: nat, t: Tid, d: nat, v: ProducerId)
    requires ValuesOk(tables, hash, pcs, made) && main < |tables| && t < |pcs| && pcs[t] == Store(main, d, v) && TableOk(tables[main], hash)
    requires t in tables[main].place && tables[main].place[t] == d && made[t] == Some(v)
    ensures ValuesOk(tables[main := Fill(tables[main], hash, t, d, v)], hash, pcs[t := Idle], made)
  {
    var a, pcs1 := tables[main], pcs[t := Idle];
    var b := Fill(a, hash, t, d, v);
    assert TableValuesOk(a, hash, main, pcs, made);
    forall u | u in b.place ensures ValueOk(b, hash, main, u, pcs1[u], made[u]) {
      assert ValueOk(a, hash, main, u, pcs[u], made[u]) && KeyOk(a, hash, u) && KeyOk(a, hash, t);
    }
    var tables1 := tables[main := b];
    forall h | 0 <= h < |tables1| ensures TableValuesOk(tables1[h], hash, h, pcs1, made) {
      assert TableValuesOk(tables[h], hash, h, pcs, made);
    }
  }

  lemma StoreFacts(s: State, t: Tid, main: nat, d: nat, v: ProducerId)
    requires Inv(s) && t < |s.pcs| && s.pcs[t] == Store(main, d, v)
    ensures main < |s.tables| && t in s.tables[main].place && s.tables[main].place[t] == d
    ensures t < |s.hash| == |s.made| == |s.home| == |s.rank| == |s.pcs|
    ensures s.home[t].Some? && s.home[t].value < |s.tables| && t in s.tables[s.home[t].value].place
    ensures s.made[t] == Some(v) && s.rank[t].Some? && s.rank[t].value < Room(s.tables[main].capacity)
  {
    ThreadFacts(s, t);
    TableFacts(s, main);
    hide Inv, TableOk, TableValuesOk;
  }

  lemma StoreKeepsInv(s: State, t: Tid, main: nat, d: nat, v: ProducerId)
    requires Inv(s) && t < |s.pcs| && s.pcs[t] == Store(main, d, v) && main < |s.tables| && TableOk(s.tables[main], s.hash)
    ensures Inv(At(s.(tables := s.tables[main := Fill(s.tables[main], s.hash, t, d, v)]), t, Idle))
  {
    hide TablesOk, ValuesOk, RanksOk, MadeOk, LockOk, TableOk, ThreadsOk, Run, TableValuesOk, PcOk, Extends, Fill, RoomOk, ExtendsTable;
    var tb := s.tables[main];
    StoreFacts(s, t, main, d, v);
    FillKeepsTable(tb, s.hash, t, d, v);
    var tables := s.tables[main := Fill(tb, s.hash, t, d, v)];
    PcIsSettled(tables, s.hash, t, main, s.home[t], s.rank[t], s.made[t]);
    assert Fill(tb, s.hash, t, d, v).capacity == tb.capacity by { FillCapacity(tb, s.hash, t, d, v); }
    InsertKeepsTables(s.tables, s.hash, s.rank, main, t, Fill(tb, s.hash, t, d, v));
    FillKeepsValues(s.tables, s.hash, s.pcs, s.made, main, t, d, v);
    assert HomeOk(tables, t, s.home[t]) by {
      if s.home[t].value != main { assert tables[s.home[t].value] == s.tables[s.home[t].value]; }
    }
    hide HomeOk;
    ThreadsStep(s.tables, tables, s.hash, s.pcs, s.home, s.rank, s.made, t, Idle, s.home[t], s.rank[t], s.made[t]);
    LockMove(s.pcs, s.locked, |s.tables|, t, Idle, s.locked);
    assert s.home[t := s.home[t]] == s.home && s.rank[t := s.rank[t]] == s.rank && s.made[t := s.made[t]] == s.made;
  }

  lemma FillCapacity(tb: Table, hash: seq<nat>, t: Tid, d: nat, v: ProducerId)
    requires TableOk(tb, hash)
    ensures Fill(tb, hash, t, d, v).capacity == tb.capacity
  {
    hide KeyOk, SlotOk;
  }

  // ----- counting, resizing and creating -----

  lemma NewTableOk(capacity: nat, hash: seq<nat>, rank: seq<Option<nat>>)
    requires capacity > 0
    ensures TableOk(NewTable(capacity), hash) && RoomOk(NewTable(capacity), rank)
  {
  }

  lemma GrowTables(tables: seq<Table>, hash: seq<nat>, rank: seq<Option<nat>>, t: Tid, b: Table)
    requires TablesOk(tables, hash, rank) && TableOk(b, hash) && RoomOk(b, rank) && b.place == map[]
    requires tables[|tables| - 1].capacity < b.capacity
    ensures TablesOk(tables + [b], hash, rank) && Extends(tables, tables + [b], t)
  {
    hide TableOk, RoomOk;
  }

  lemma GrowValues(tables: seq<Table>, hash: seq<nat>, pcs: seq<Pc>, made: seq<Option<ProducerId>>, t: Tid, p: Pc, b: Table)
    requires ValuesOk(tables, hash, pcs, made) && t < |pcs| && !pcs[t].Store? && b.place == map[]
    ensures ValuesOk(tables + [b], hash, pcs[t := p], made)
  {
    ValuesMove(tables, hash, pcs, made, t, p);
    var more := tables + [b];
    forall h | 0 <= h < |more| ensures TableValuesOk(more[h], hash, h, pcs[t := p], made) {
      if h < |tables| { assert TableValuesOk(tables[h], hash, h, pcs[t := p], made); }
    }
  }

  lemma ResizeKeepsInv(s: State, t: Tid, main: nat, n: nat)
    requires Inv(s) && Shaped(s) && t < |s.pcs| && s.pcs[t] == Resize(main, n) && main < |s.tables|
    ensures Inv(At(s.(tables := s.tables + [NewTable(Enlarge(s.tables[main].capacity, n))]), t, Unlock(|s.tables|, n)))
  {
    var b, p := NewTable(Enlarge(s.tables[main].capacity, n)), Unlock(|s.tables|, n);
    ThreadFacts(s, t);
    assert main == |s.tables| - 1;
    hide TablesOk, ValuesOk, RanksOk, MadeOk, TableOk, Run, RoomOk;
    NewTableOk(b.capacity, s.hash, s.rank);
    GrowTables(s.tables, s.hash, s.rank, t, b);
    GrowValues(s.tables, s.hash, s.pcs, s.made, t, p, b);
    assert HomeOk(s.tables + [b], t, s.home[t]);
    assert PcOk(s.tables + [b], s.hash, t, p, s.home[t], s.rank[t], s.made[t]);
    hide PcOk, HomeOk, Extends;
    ThreadsStep(s.tables, s.tables + [b], s.hash, s.pcs, s.home, s.rank, s.made, t, p, s.home[t], s.rank[t], s.made[t]);
    ResizeLock(s.pcs, s.locked, |s.tables|, t, p);
    hide ThreadsOk, LockOk;
    assert s.home[t := s.home[t]] == s.home && s.rank[t := s.rank[t]] == s.rank && s.made[t := s.made[t]] == s.made;
  }

  /** No other thread is about to publish a table: it would hold the flag too. */
  lemma ResizeLock(pcs: seq<Pc>, locked: bool, n: nat, t: Tid, p: Pc)
    requires LockOk(pcs, locked, n) && t < |pcs| && pcs[t].Resize? && p.Unlock?
    ensures LockOk(pcs[t := p], locked, n + 1)
  {
  }

  lemma CountKeepsInv(s: State, t: Tid, main: nat)
    requires Inv(s) && t < |s.pcs| && s.pcs[t] == Count(main)
    ensures Inv(At(s.(count := s.count + 1, rank := s.rank[t := Some(s.count + 1)]), t, Check(main, s.count + 1)))
  {
    ThreadFacts(s, t);
    assert RanksOk(s.rank, s.count) && MadeOk(s.made, s.created);
    assert s.made[t := s.made[t]] == s.made;
    hide Inv, RanksOk, MadeOk, Run;
    DrawKeepsRanks(s.rank, s.count, t);
    RankMove(s, t, Check(main, s.count + 1), Some(s.count + 1), s.count + 1, s.made[t], s.created);
  }

  lemma UncountKeepsInv(s: State, t: Tid)
    requires Inv(s) && t < |s.pcs| && (s.pcs[t].Uncount? || s.pcs[t].Cancel?)
    ensures Inv(At(s.(count := Less(s.count), rank := s.rank[t := None]), t, if s.pcs[t].Uncount? then GiveUp else Idle))
  {
    ThreadFacts(s, t);
    assert RanksOk(s.rank, s.count) && MadeOk(s.made, s.created);
    assert s.made[t := s.made[t]] == s.made;
    hide Inv, RanksOk, MadeOk, Run;
    ReturnKeepsRanks(s.rank, s.count, t);
    RankMove(s, t, if s.pcs[t].Uncount? then GiveUp else Idle, None, Less(s.count), s.made[t], s.created);
  }

  lemma CreateKeepsInv(s: State, t: Tid, main: nat, n: nat)
    requires Inv(s) && t < |s.pcs| && s.pcs[t] == Fit(main, n) && main < |s.tables| && n < Room(s.tables[main].capacity)
    ensures Inv(At(s.(created := s.created + 1, made := s.made[t := Some(s.created)]), t, Look(main, 0, s.created)))
  {
    ThreadFacts(s, t);
    assert RanksOk(s.rank, s.count) && MadeOk(s.made, s.created);
    assert s.rank[t := s.rank[t]] == s.rank;
    OlderHasLessRoom(s, main, main);
    hide Inv, RanksOk, Run;
    RunZero(s.tables[main], s.hash, t);
    PcIsLook(s.tables, s.hash, t, main, 0, s.created, s.home[t], s.rank[t], Some(s.created));
    hide PcOk;
    RankMove(s, t, Look(main, 0, s.created), s.rank[t], s.count, Some(s.created), s.created + 1);
  }

  /** The steps that change only the thread's position and the flag. */
  lemma PlainKeepsInv(s: State, t: Tid, alloc: bool)
    requires Inv(s) && Shaped(s) && Enabled(s, Step(t, alloc))
    requires match s.pcs[t]
      case Enter => true
      case Check(_, _) => true
      case Reload(_) => true
      case Resize(_, _) => !alloc
      case GiveUp => true
      case Unlock(_, _) => true
      case Fit(main, n) => !alloc || n >= Room(s.tables[main].capacity)
      case _ => false
    ensures Inv(Next(s, Step(t, alloc)))
  {
    ThreadFacts(s, t);
    OlderHasLessRoom(s, |s.tables| - 1, |s.tables| - 1);
    var u := Next(s, Step(t, alloc));
    RunZero(s.tables[|s.tables| - 1], s.hash, t);
    hide Inv, Run;
    assert PcOk(s.tables, s.hash, t, u.pcs[t], s.home[t], s.rank[t], s.made[t]);
    assert u == At(s.(locked := u.locked), t, u.pcs[t]);
    hide PcOk, HomeOk;
    MoveKeepsInv(s, t, u.pcs[t], u.locked);
  }

  lemma NextKeepsInv(s: State, a: Action)
    requires Inv(s) && Shaped(s) && Enabled(s, a)
    ensures Inv(Next(s, a)) && Shaped(Next(s, a))
  {
    hide Inv, TableOk;
    match a {
      case Begin(t) =>
        ThreadFacts(s, t);
        MoveKeepsInv(s, t, Enter, s.locked);
      case Step(t, alloc) =>
        match s.pcs[t] {
          case Probe(main, h, d) => ProbeKeepsInv(s, t, main, h, d);
          case Count(main) => CountKeepsInv(s, t, main);
          case Uncount => UncountKeepsInv(s, t);
          case Cancel => UncountKeepsInv(s, t);
          case Resize(main, n) => if alloc { ResizeKeepsInv(s, t, main, n); } else { PlainKeepsInv(s, t, alloc); }
          case Fit(main, n) => if alloc && n < Room(s.tables[main].capacity) { CreateKeepsInv(s, t, main, n); } else { PlainKeepsInv(s, t, alloc); }
          case Look(main, d, v) => LookKeepsInv(s, t, main, d, v, alloc);
          case Swap(main, d, v) => SwapKeepsInv(s, t, main, d, v, alloc);
          case Store(main, d, v) => TableFacts(s, main); StoreKeepsInv(s, t, main, d, v);
          case _ => PlainKeepsInv(s, t, alloc);
        }
    }
    InvShaped(Next(s, a));
  }

  // ----- whole runs -----

  /** One empty table, and threads with any hashes. */
  function Start(capacity: nat, hash: seq<nat>): State {
    var n := |hash|;
    State([NewTable(capacity)], 0, false, 0, hash, seq(n, _ => Idle), seq(n, _ => None), seq(n, _ => None), seq(n, _ => None))
  }

  lemma {:induction false} NobodyCounted(q: seq<Option<nat>>, y: nat)
    requires forall i :: 0 <= i < |q| ==> q[i] == None
    ensures Active(q) == 0 && Upto(q, y) == 0
    decreases |q|
  {
    if q != [] { NobodyCounted(q[..|q| - 1], y); }
  }

  lemma StartInv(capacity: nat, hash: seq<nat>)
    requires capacity > 0
    ensures Inv(Start(capacity, hash)) && Shaped(Start(capacity, hash))
  {
    var s := Start(capacity, hash);
    NewTableOk(capacity, hash, s.rank);
    NobodyCounted(s.rank, 0);
    forall y: nat ensures Upto(s.rank, y) <= y { NobodyCounted(s.rank, y); }
    hide TableOk, RoomOk;
    InvShaped(s);
  }

  /** The state after a run, or None when some action of the run is not possible. */
  function Trace(capacity: nat, hash: seq<nat>, run: seq<Action>): Option<State>
    requires capacity > 0
    decreases |run|
  {
    if run == [] then Some(Start(capacity, hash))
    else match Trace(capacity, hash, run[..|run| - 1])
      case None => None
      case Some(u) => if Shaped(u) && Enabled(u, run[|run| - 1]) then Some(Next(u, run[|run| - 1])) else None
  }

  lemma {:induction false} ReachableInv(capacity: nat, hash: seq<nat>, run: seq<Action>)
    requires capacity > 0 && Trace(capacity, hash, run).Some?
    ensures Inv(Trace(capacity, hash, run).value) && Shaped(Trace(capacity, hash, run).value)
    decreases |run|
  {
    hide Inv, Shaped, Next, Enabled;
    if run == [] {
      StartInv(capacity, hash);
    } else {
      ReachableInv(capacity, hash, run[..|run| - 1]);
      NextKeepsInv(Trace(capacity, hash, run[..|run| - 1]).value, run[|run| - 1]);
    }
  }

  /** A probe is still within its first lap of the table. */
  predicate WithinLap(tables: seq<Table>, p: Pc) {
    match p
    case Probe(_, h, d) => h < |tables| && d < tables[h].capacity
    case Look(main, d, _) => main < |tables| && d < tables[main].capacity
    case Swap(main, d, _) => main < |tables| && d < tables[main].capacity
    case _ => true
  }

  /** In every reachable state more than a quarter of the slots of every table, old or new, are
      empty, although threads go on inserting into tables that are being replaced; so a probe
      never goes round a table. */
  lemma TablesNeverFill(capacity: nat, hash: seq<nat>, run: seq<Action>)
    requires capacity > 0 && Trace(capacity, hash, run).Some?
    ensures var s := Trace(capacity, hash, run).value;
      && (forall h :: 0 <= h < |s.tables| ==> 4 * Filled(s.tables[h].entries) < 3 * s.tables[h].capacity)
      && (forall t :: 0 <= t < |s.pcs| ==> WithinLap(s.tables, s.pcs[t]))
  {
    ReachableInv(capacity, hash, run);
    hide Trace, Inv, Shaped, WithinLap;
    var s := Trace(capacity, hash, run).value;
    forall h | 0 <= h < |s.tables| ensures 4 * Filled(s.tables[h].entries) < 3 * s.tables[h].capacity {
      TableQuarterEmpty(s, h);
    }
    forall t | 0 <= t < |s.pcs| ensures WithinLap(s.tables, s.pcs[t]) {
      ProbeWithinLap(s, t);
    }
  }

  lemma TableQuarterEmpty(s: State, h: nat)
    requires Inv(s) && h < |s.tables|
    ensures 4 * Filled(s.tables[h].entries) < 3 * s.tables[h].capacity
  {
    TableFacts(s, h);
    assert RanksOk(s.rank, s.count);
    hide Inv, TableOk, RoomOk, RanksOk, TableValuesOk;
    QuarterEmpty(s.tables[h], s.hash, s.rank, s.count);
  }

  lemma ProbeWithinLap(s: State, t: Tid)
    requires Inv(s) && t < |s.pcs|
    ensures WithinLap(s.tables, s.pcs[t])
  {
    ThreadFacts(s, t);
    hide Inv, Run, HomeOk;
  }

  /** A thread is registered when its key is in some table; it is pending between drawing its
      count and registering, or returning the count. */
  predicate Registered(s: State, t: Tid) { exists h :: 0 <= h < |s.tables| && t in s.tables[h].place }

  predicate IsPending(s: State, t: Tid) {
    t < |s.pcs| && !Registered(s, t) &&
    match s.pcs[t]
    case Check(_, _) => true
    case Reload(_) => true
    case Resize(_, _) => true
    case Uncount => true
    case Unlock(_, _) => true
    case Fit(_, _) => true
    case Cancel => true
    case Look(_, _, _) => true
    case Swap(_, _, _) => true
    case _ => false
  }

  lemma CountedThread(s: State, t: Tid)
    requires Inv(s) && t < |s.pcs|
    ensures t < |s.rank| && (s.rank[t].Some? <==> Registered(s, t) || IsPending(s, t))
  {
    ThreadFacts(s, t);
    hide Inv, Run;
    if s.home[t].Some? {
      assert t in s.tables[s.home[t].value].place;
    }
  }

  /** implicitProducerHashCount is the number of registered and pending threads, in every reachable state. */
  lemma CountIsRegisteredPlusPending(capacity: nat, hash: seq<nat>, run: seq<Action>)
    requires capacity > 0 && Trace(capacity, hash, run).Some?
    ensures var s := Trace(capacity, hash, run).value;
      s.count == |set t | 0 <= t < |s.pcs| && (Registered(s, t) || IsPending(s, t))|
  {
    ReachableInv(capacity, hash, run);
    var s := Trace(capacity, hash, run).value;
    assert RanksOk(s.rank, s.count) && |s.rank| == |s.pcs|;
    ActiveCounted(s.rank);
    forall t: nat | t < |s.pcs| ensures s.rank[t].Some? <==> Registered(s, t) || IsPending(s, t) {
      CountedThread(s, t);
    }
    hide Inv, Registered, IsPending, RanksOk;
    assert (set t | 0 <= t < |s.pcs| && (Registered(s, t) || IsPending(s, t))) == set t | 0 <= t < |s.rank| && s.rank[t].Some?;
  }

  lemma {:induction false} ActiveCounted(rank: seq<Option<nat>>)
    ensures |set t | 0 <= t < |rank| && rank[t].Some?| == Active(rank)
    decreases |rank|
  {
    if rank != [] {
      var m := |rank| - 1;
      var rest := rank[..m];
      ActiveCounted(rest);
      var a, b := set t | 0 <= t < |rank| && rank[t].Some?, set t | 0 <= t < |rest| && rest[t].Some?;
      if rank[m].Some? { assert a == b + {m}; } else { assert a == b; }
    }
  }

  // ----- the same producer, always, and never anyone else's -----

  /** What the calls of a run return, in the order in which they end. */
  function Results(capacity: nat, hash: seq<nat>, run: seq<Action>): seq<(Tid, Option<ProducerId>)>
    requires capacity > 0 && Trace(capacity, hash, run).Some?
    decreases |run|
  {
    if run == [] then []
    else
      var before := Results(capacity, hash, run[..|run| - 1]);
      match Result(Trace(capacity, hash, run[..|run| - 1]).value, run[|run| - 1])
      case Some(r) => before + [r]
      case None => before
  }

  /** A returned producer is the one made for its thread, which is registered then. */
  predicate ResultOk(s: State, r: (Tid, Option<ProducerId>)) {
    r.1.Some? ==> r.0 < |s.made| == |s.home| && s.made[r.0] == r.1 && s.home[r.0].Some?
  }

  lemma FoundIsResult(s: State, t: Tid, main: nat, h: nat, d: nat)
    requires Inv(s) && t < |s.pcs| && s.pcs[t] == Probe(main, h, d) && h < |s.tables|
    requires Pos(s.tables[h], s.hash, t, d) < |s.tables[h].entries|
    requires s.tables[h].entries[Pos(s.tables[h], s.hash, t, d)].key == Some(t)
    ensures var v := s.tables[h].entries[Pos(s.tables[h], s.hash, t, d)].value; v.Some? && ResultOk(s, (t, v))
  {
    hide Inv, PcOk, TableOk, RoomOk, TableValuesOk, Run;
    ThreadFacts(s, t);
    TableFacts(s, h);
    PcIsProbe(s.tables, s.hash, t, main, h, d, s.home[t], s.rank[t], s.made[t]);
    SlotSays(s.tables[h], s.hash, t, d);
    FoundIsMade(s, t, h);
  }

  lemma ResultIsMade(s: State, a: Action)
    requires Inv(s) && Shaped(s) && Enabled(s, a) && Result(s, a).Some?
    ensures var r := Result(s, a).value;
      ResultOk(s, r) && r.0 < |s.home| && (s.home[r.0].Some? ==> r.1.Some?)
  {
    hide Inv, Shaped, HomeOk;
    var t := a.t;
    ThreadFacts(s, t);
    if s.pcs[t].Probe? {
      hide PcOk, ResultOk;
      ProbeResult(s, t, s.pcs[t].main, s.pcs[t].h, s.pcs[t].d, a);
    } else {
      hide Run, Probing, Inserting, Pos;
    }
  }

  lemma ProbeResult(s: State, t: Tid, main: nat, h: nat, d: nat, a: Action)
    requires Inv(s) && Shaped(s) && Enabled(s, a) && a.Step? && a.t == t && s.pcs[t] == Probe(main, h, d) && Result(s, a).Some?
    ensures var r := Result(s, a).value; r.0 == t && r.1.Some? && ResultOk(s, r)
  {
    hide Inv, ResultOk;
    if s.tables[h].entries[Pos(s.tables[h], s.hash, t, d)].key == Some(t) {
      FoundIsResult(s, t, main, h, d);
    }
  }

  /** Producers and registrations are for ever. */
  lemma MadeStays(s: State, a: Action, t: Tid)
    requires Inv(s) && Shaped(s) && Enabled(s, a) && t < |s.pcs|
    ensures |Next(s, a).made| == |s.made| && |Next(s, a).home| == |s.home|
    ensures s.made[t].Some? ==> Next(s, a).made[t] == s.made[t]
    ensures s.home[t].Some? ==> Next(s, a).home[t] == s.home[t]
  {
    hide Inv, Shaped, HomeOk;
    if a.Step? {
      ThreadFacts(s, a.t);
      MadeAtFit(s, a.t, a.alloc);
      HomeAtSwap(s, a.t, a.alloc);
      hide Next;
    }
  }

  lemma MadeAtFit(s: State, t: Tid, alloc: bool)
    requires Shaped(s) && Enabled(s, Step(t, alloc))
    ensures Next(s, Step(t, alloc)).made == s.made || (s.pcs[t].Fit? && Next(s, Step(t, alloc)).made == s.made[t := Some(s.created)])
  {
    hide InTables, Pos, Insert, Fill, Enlarge, Room;
  }

  lemma HomeAtSwap(s: State, t: Tid, alloc: bool)
    requires Shaped(s) && Enabled(s, Step(t, alloc))
    ensures Next(s, Step(t, alloc)).home == s.home ||
      (s.pcs[t].Swap? && s.home[t] == None && Next(s, Step(t, alloc)).home == s.home[t := Some(s.pcs[t].main)])
  {
    hide InTables, Pos, Insert, Fill, Enlarge, Room;
  }

  ghost predicate ResultsOk(q: seq<(Tid, Option<ProducerId>)>, s: State) {
    && (forall i :: 0 <= i < |q| ==> ResultOk(s, q[i]))
    && (forall i, j :: 0 <= i < j < |q| && q[i].0 == q[j].0 && q[i].1.Some? ==> q[j] == q[i])
  }

  lemma {:induction false} ReachableResults(capacity: nat, hash: seq<nat>, run: seq<Action>)
    requires capacity > 0 && Trace(capacity, hash, run).Some?
    ensures ResultsOk(Results(capacity, hash, run), Trace(capacity, hash, run).value)
    decreases |run|
  {
    if run != [] {
      var before, a := run[..|run| - 1], run[|run| - 1];
      ReachableResults(capacity, hash, before);
      ReachableInv(capacity, hash, before);
      var s, q := Trace(capacity, hash, before).value, Results(capacity, hash, before);
      hide Inv, Next, Result, Enabled, Shaped;
      NextResults(s, a, q);
    }
  }

  lemma NextResults(s: State, a: Action, q: seq<(Tid, Option<ProducerId>)>)
    requires Inv(s) && Shaped(s) && Enabled(s, a) && ResultsOk(q, s)
    ensures ResultsOk(match Result(s, a) case Some(r) => q + [r] case None => q, Next(s, a))
  {
    var q' := match Result(s, a) case Some(r) => q + [r] case None => q;
    if Result(s, a).Some? { ResultIsMade(s, a); }
    assert |s.made| == |s.home| == |s.pcs|;
    hide Inv, Shaped, Next, Enabled, Result;
    forall i | 0 <= i < |q'| ensures ResultOk(Next(s, a), q'[i]) {
      assert ResultOk(s, q'[i]);
      if q'[i].1.Some? { MadeStays(s, a, q'[i].0); }
    }
  }

  /** A thread that was once given a producer is given the same one in every later call, through
      resizes and lazy re-insertion, even when memory runs out; and no two threads ever share one. */
  lemma SameProducerForEver(capacity: nat, hash: seq<nat>, run: seq<Action>)
    requires capacity > 0 && Trace(capacity, hash, run).Some?
    ensures var q := Results(capacity, hash, run);
      && (forall i, j :: 0 <= i < j < |q| && q[i].0 == q[j].0 && q[i].1.Some? ==> q[j].1 == q[i].1)
      && (forall i, j :: 0 <= i < j < |q| && q[i].0 != q[j].0 && q[i].1.Some? && q[j].1.Some? ==> q[i].1 != q[j].1)
  {
    ReachableResults(capacity, hash, run);
    ReachableInv(capacity, hash, run);
    var q, s := Results(capacity, hash, run), Trace(capacity, hash, run).value;
    assert MadeOk(s.made, s.created);
    hide Inv, Results, Trace, Shaped;
    forall i, j | 0 <= i < j < |q| && q[i].0 != q[j].0 && q[i].1.Some? && q[j].1.Some? ensures q[i].1 != q[j].1 {
      assert ResultOk(s, q[i]) && ResultOk(s, q[j]);
    }
  }

  // ----- capacities -----

  lemma EnlargeStep(half: nat, n: nat)
    requires half > 0
    ensures Enlarge(half, n) == if n >= half then Enlarge(2 * half, n) else 2 * half
  {
  }

  /** The loop that chooses the capacity of the next table. */
  method NextCapacity(capacity: nat, n: nat) returns (c: nat)
    requires capacity > 0
    ensures c == Enlarge(capacity, n)
    ensures n < c / 2 && (c == 2 * capacity || c <= 4 * n)
  {
    ghost var half := capacity;
    c := 2 * capacity;
    hide Enlarge;
    while n >= c / 2
      invariant c == 2 * half && half > 0 && Enlarge(half, n) == Enlarge(capacity, n)
      invariant c == 2 * capacity || c <= 4 * n
      decreases n - half
    {
      EnlargeStep(half, n);
      half := 2 * half;
      c := 2 * c;
    }
    EnlargeStep(half, n);
  }

  lemma {:induction false} EnlargeKeepsPower(capacity: nat, n: nat)
    requires Pow2(capacity)
    ensures Pow2(Enlarge(capacity, n))
    decreases n - capacity
  {
    Doubled(capacity);
    if n >= capacity { EnlargeKeepsPower(2 * capacity, n); }
  }

  ghost predicate PowerCapacities(s: State) { forall h :: 0 <= h < |s.tables| ==> Pow2(s.tables[h].capacity) }

  lemma CapacitiesStep(s: State, a: Action)
    requires Shaped(s) && Enabled(s, a) && PowerCapacities(s)
    ensures PowerCapacities(Next(s, a)) && Next(s, a).hash == s.hash
  {
    if a.Step? && s.pcs[a.t].Resize? {
      EnlargeKeepsPower(s.tables[s.pcs[a.t].main].capacity, s.pcs[a.t].n);
    }
    hide Pow2, Enlarge, Pos;
  }

  lemma {:induction false} ReachableCapacities(capacity: nat, hash: seq<nat>, run: seq<Action>)
    requires Pow2(capacity) && capacity > 0 && Trace(capacity, hash, run).Some?
    ensures PowerCapacities(Trace(capacity, hash, run).value) && Trace(capacity, hash, run).value.hash == hash
    decreases |run|
  {
    if run != [] {
      var before, a := run[..|run| - 1], run[|run| - 1];
      ReachableCapacities(capacity, hash, before);
      hide PowerCapacities, Next;
      CapacitiesStep(Trace(capacity, hash, before).value, a);
    }
  }

  /** Started with a power of two, every table's capacity is one, so that masking a hash with
      capacity - 1 is the remainder that places a key. */
  lemma MaskPlacesKeys(capacity: nat, hash: seq<nat>, run: seq<Action>, h: nat, t: Tid, d: nat)
    requires Pow2(capacity) && capacity > 0 && Trace(capacity, hash, run).Some?
    requires h < |Trace(capacity, hash, run).value.tables| && t < |hash|
    ensures var s := Trace(capacity, hash, run).value;
      && Pow2(s.tables[h].capacity)
      && And(hash[t] + d, s.tables[h].capacity - 1) == Pos(s.tables[h], s.hash, t, d)
  {
    hide Trace, And;
    ReachableCapacities(capacity, hash, run);
    MaskIsMod(hash[t] + d, Trace(capacity, hash, run).value.tables[h].capacity);
  }
}
