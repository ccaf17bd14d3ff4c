// Loads of work threads, and the two scans that choose a thread by its load: the accept loop
// looks for a thread that is not busy, a work thread with nothing to do for the busiest one.
//
// A load is a quotient of doubles, so with no workers it is infinite or not a number, and a
// comparison with something that is not a number is false.

module Loads {
  import opened Wrappers

  datatype Load = NaN | Infinite | Finite(value: real)

  predicate Less(a: Load, b: Load) {
    match a
    case NaN => false
    case Infinite => false
    case Finite(x) => if b.Finite? then x < b.value else b.Infinite?
  }

  datatype Worker = Worker(finished: bool, started: bool, conn: Option<nat>)

  predicate Running(w: Worker) { w.started && !w.finished }

  function RunningCount(ws: seq<Worker>): nat {
    if ws == [] then 0 else RunningCount(ws[..|ws| - 1]) + if Running(ws[|ws| - 1]) then 1 else 0
  }

  function Divide(load: nat, workers: nat): Load {
    if workers > 0 then Finite(load as real / workers as real) else if load > 0 then Infinite else NaN
  }

  /** load_factor: queued connections and running workers, per worker. */
  method LoadFactor(queued: nat, workers: seq<Worker>, numWorkers: nat) returns (load: Load)
    ensures load == Divide(queued + RunningCount(workers), numWorkers)
    ensures load.NaN? <==> numWorkers == 0 && queued == 0 && forall i :: 0 <= i < |workers| ==> !Running(workers[i])
  {
    var n := queued;
    var i := 0;
    while i < |workers|
      invariant 0 <= i <= |workers| && n == queued + RunningCount(workers[..i])
      invariant n == 0 <==> queued == 0 && forall k :: 0 <= k < i ==> !Running(workers[k])
    {
      if Running(workers[i]) { n := n + 1; }
      assert workers[..i + 1][..i] == workers[..i];
      i := i + 1;
    }
    assert workers[..|workers|] == workers;
    load := Divide(n, numWorkers);
  }

  const LIGHT: Load := Finite(0.2)
  const MINUS_ONE: Load := Finite(-1.0)

  /** A load is light if and only if there are more than five workers to each connection. */
  lemma LightLoad(load: nat, workers: nat)
    ensures Less(Divide(load, workers), LIGHT) <==> 5 * load < workers
  {
    if workers > 0 { QuotientBelow(load as real, workers as real, 0.2); }
  }

  /** Loads of threads that have workers compare as the products crosswise; without workers a load is
      the greatest if there is anything to do, and else compares with none. */
  lemma LessLoaded(l: nat, w: nat, l': nat, w': nat)
    ensures Less(Divide(l, w), Divide(l', w')) <==> w > 0 && (if w' > 0 then l * w' < l' * w else l' > 0)
  {
    if w > 0 && w' > 0 {
      QuotientBelow(l as real, w as real, l' as real / w' as real);
      QuotientBelow(-(l' as real) * w as real, w' as real, -(l as real));
    }
  }

  lemma QuotientBelow(x: real, y: real, z: real)
    requires y > 0.0
    ensures x / y < z <==> x < z * y
  {
  }

  /** Loads are never negative. */
  predicate NonNegative(loads: seq<Load>) {
    forall i :: 0 <= i < |loads| ==> loads[i].Finite? ==> loads[i].value >= 0.0
  }

  /** Of the first n loads, k is a number, no other is less, and every earlier number is more. */
  predicate FirstLeast(loads: seq<Load>, k: nat, n: nat) {
    && k < n <= |loads| && !loads[k].NaN?
    && (forall i :: 0 <= i < n ==> !Less(loads[i], loads[k]))
    && (forall i :: 0 <= i < k ==> loads[i].NaN? || Less(loads[k], loads[i]))
  }

  /** Of the first n loads, k is a number, no other is more, and every earlier number is less. */
  predicate FirstMost(loads: seq<Load>, k: nat, n: nat) {
    && k < n <= |loads| && !loads[k].NaN?
    && (forall i :: 0 <= i < n ==> !Less(loads[k], loads[i]))
    && (forall i :: 0 <= i < k ==> loads[i].NaN? || Less(loads[i], loads[k]))
  }

  /** The accept loop's scan. Whenever there is a thread at all, one is found: the first light one;
      else, if the first load is a number, the first of the least loaded ones; else the first thread. */
  method PickThread(loads: seq<Load>) returns (tt: Option<nat>)
    requires NonNegative(loads)
    ensures tt.Some? <==> |loads| > 0
    ensures tt.Some? ==> tt.value < |loads|
    ensures tt.Some? && (exists i :: 0 <= i < |loads| && Less(loads[i], LIGHT)) ==>
      Less(loads[tt.value], LIGHT) && forall i :: 0 <= i < tt.value ==> !Less(loads[i], LIGHT)
    ensures tt.Some? && (forall i :: 0 <= i < |loads| ==> !Less(loads[i], LIGHT)) ==>
      if loads[0].NaN? then tt.value == 0 else FirstLeast(loads, tt.value, |loads|)
  {
    tt := None;
    var min := MINUS_ONE;
    var t := 0;
    while t < |loads|
      invariant 0 <= t <= |loads| && forall i :: 0 <= i < t ==> !Less(loads[i], LIGHT)
      invariant if t == 0 then tt == None && min == MINUS_ONE else tt.Some? && tt.value < t && min == loads[tt.value]
      invariant t > 0 && loads[0].NaN? ==> tt.value == 0
      invariant t > 0 && !loads[0].NaN? ==> FirstLeast(loads, tt.value, t)
    {
      var load := loads[t];
      if Less(load, LIGHT) {
        tt := Some(t);
        return;
      } else if Less(load, min) || Less(min, Finite(0.0)) {
        min := load;
        tt := Some(t);
      } else if tt == None {
        tt := Some(t);
      }
      t := t + 1;
    }
  }

  /** The stealing thread's scan: the first of the most loaded threads; none if no load is a number. */
  method PickVictim(loads: seq<Load>) returns (tt: Option<nat>)
    requires NonNegative(loads)
    ensures tt.Some? <==> exists i :: 0 <= i < |loads| && !loads[i].NaN?
    ensures tt.Some? ==> FirstMost(loads, tt.value, |loads|)
  {
    tt := None;
    var max := MINUS_ONE;
    var t := 0;
    while t < |loads|
      invariant 0 <= t <= |loads|
      invariant tt == None ==> max == MINUS_ONE && forall i :: 0 <= i < t ==> loads[i].NaN?
      invariant tt.Some? ==> FirstMost(loads, tt.value, t) && max == loads[tt.value]
    {
      if Less(max, loads[t]) {
        tt := Some(t);
        max := loads[t];
      }
      t := t + 1;
    }
  }

  // ----- a worker -----

  /** The first worker that has finished. */
  function FirstFinished(ws: seq<Worker>, k: nat): (r: Option<nat>)
    ensures match r
      case Some(i) => k <= i < |ws| && ws[i].finished && forall j :: k <= j < i ==> !ws[j].finished
      case None => forall j :: k <= j < |ws| ==> !ws[j].finished
    decreases |ws| - k
  {
    if k >= |ws| then None else if ws[k].finished then Some(k) else FirstFinished(ws, k + 1)
  }

  method FindWorker(ws: seq<Worker>) returns (r: Option<nat>)
    ensures r == FirstFinished(ws, 0)
  {
    var i := 0;
    while i < |ws|
      invariant 0 <= i <= |ws| && FirstFinished(ws, 0) == FirstFinished(ws, i)
    {
      if ws[i].finished { return Some(i); }
      i := i + 1;
    }
    return None;
  }

  function Started(c: nat): Worker { Worker(false, true, Some(c)) }

  /** A worker holds a connection exactly while it runs. */
  predicate Sound(w: Worker) { (w.conn.Some? <==> Running(w)) && (Running(w) <==> !w.finished) }

  /** A sound worker closes its connection and can be started again, whatever it has served before. */
  function Closed(w: Worker): (r: Worker)
    ensures Sound(w) && Running(w) ==> Sound(r) && r.finished && r.started
  {
    Worker(true, w.started, None)
  }

  class HttpWorker {
    var finished: bool
    var started: bool
    var conn: Option<nat>

    ghost function View(): Worker
      reads this
    {
      Worker(finished, started, conn)
    }

    ghost predicate Valid()
      reads this
    {
      Sound(View())
    }

    constructor ()
      ensures Valid() && View() == Worker(true, false, None)
    {
      finished, started, conn := true, false, None;
    }

    /** start throws exactly when the worker still holds a connection, which it then keeps; the pointer
        that is swapped out is never a connection. */
    method Start(c: nat) returns (threw: bool)
      requires Valid()
      modifies this
      ensures Valid() && threw == old(conn).Some?
      ensures View() == if threw then old(View()) else Started(c)
    {
      if !finished { return true; }
      var swapped := conn;
      assert swapped == None;
      conn := Some(c);
      finished := false;
      started := true;
      return false;
    }

    /** close_socket, of a worker with a connection: only a running worker has one. */
    method CloseSocket()
      requires Valid() && conn.Some?
      modifies this
      ensures Valid() && old(Running(View())) && View() == Closed(old(View()))
    {
      finished := true;
      conn := None;
    }
  }
}
