// The server as a state machine: one accepting thread that creates connections and puts each on
// a work thread's queue, and work threads that take connections from their own queue or steal
// them from another's, hand them to a worker that has finished, and close them.
//
// A connection is a number, in order of creation. It lives as long as some pointer to it does:
// the server's, a queue's, a work thread's slot or a worker's. A work thread runs its polls and
// its workers' handlers one at a time; everything between two of its queue accesses is one step.
// Which thread a scan of the loads picks (module Loads), and whether a try_dequeue succeeds on a
// queue that is not empty, is left open.

module Scheduler {
  import opened Wrappers
  import opened FiniteSets
  import L = Loads

  type Conn = nat

  datatype Phase =
    | Ready                       // between handlers
    | Robbing(victim: nat)        // its own queue was empty; about to try the victim's
    | Popped                      // has a connection in its slot, about to look for a worker

  datatype Thread = Thread(queue: seq<Conn>, workers: seq<L.Worker>, slot: Option<Conn>, running: bool, phase: Phase)

  /** The accept loop: about to test the counter, past the test, or holding a new connection. */
  datatype Acceptor = Testing | Passed | Holding(conn: Conn)

  /** Where a connection has got to. Auxiliary. */
  datatype Place = AtServer | Queued(t: nat) | InSlot(t: nat) | StartedOn(t: nat, w: nat) | Dropped

  datatype State = State(
    acceptor: Acceptor,
    threads: seq<Thread>,
    open: int,                    // open_connections
    created: nat,
    // auxiliary
    alive: set<Conn>,
    place: seq<Place>)

  datatype Action =
    | Test                                    // open_connections > 800?
    | Create                                  // accept succeeded: make_shared<http_connection>
    | Refuse                                  // accept failed and is tried again
    | Dispatch(t: nat)                        // tt->enqueue(std::move(conn))
    | Poll(t: nat, empty: bool, victim: Option<nat>) // try_dequeue; if it fails, pick a victim
    | Rob(t: nat, empty: bool)                // try_dequeue on the victim's queue
    | Hand(t: nat)                            // look for a finished worker and start it
    | Close(t: nat, w: nat)                   // a worker's close_socket
    | SetRunning(t: nat, on: bool)            // thread_runner, join

  const LIMIT: int := 800

  predicate Enabled(s: State, a: Action) {
    match a
    case Test => s.acceptor.Testing?
    case Create => s.acceptor.Passed?
    case Refuse => s.acceptor.Passed?
    case Dispatch(t) => s.acceptor.Holding? && t < |s.threads|
    case Poll(t, empty, victim) =>
      t < |s.threads| && s.threads[t].phase.Ready? && (!empty ==> s.threads[t].queue != []) && (victim.Some? ==> victim.value < |s.threads|)
    case Rob(t, empty) =>
      t < |s.threads| && s.threads[t].phase.Robbing? && s.threads[t].phase.victim < |s.threads| &&
      (!empty ==> s.threads[s.threads[t].phase.victim].queue != [])
    case Hand(t) => t < |s.threads| && s.threads[t].phase.Popped? && s.threads[t].slot.Some?
    case Close(t, w) =>
      t < |s.threads| && s.threads[t].phase.Ready? && w < |s.threads[t].workers| && L.Running(s.threads[t].workers[w])
    case SetRunning(t, _) => t < |s.threads|
  }

  // ----- who points to a connection -----

  predicate HeldByWorkers(ws: seq<L.Worker>, c: Conn) { exists w :: 0 <= w < |ws| && ws[w].conn == Some(c) }

  predicate HeldByThread(th: Thread, c: Conn) { c in th.queue || th.slot == Some(c) || HeldByWorkers(th.workers, c) }

  predicate Held(s: State, c: Conn) {
    s.acceptor == Holding(c) || exists t :: 0 <= t < |s.threads| && HeldByThread(s.threads[t], c)
  }

  /** The destructors of the connections that nobody points to any more. */
  function Destroy(s: State): State {
    var dead := set c | c in s.alive && !Held(s, c);
    s.(open := s.open - |dead|, alive := s.alive - dead)
  }

  // ----- steps -----

  function WithThread(s: State, t: nat, th: Thread): State
    requires t < |s.threads|
  {
    s.(threads := s.threads[t := th])
  }

  function SetPlace(s: State, c: Conn, p: Place): State {
    if c < |s.place| then s.(place := s.place[c := p]) else s
  }

  function Next(s: State, a: Action): State
    requires Enabled(s, a)
  {
    Destroy(Move(s, a))
  }

  function Move(s: State, a: Action): State
    requires Enabled(s, a)
  {
    match a
    case Test => if s.open > LIMIT then s else s.(acceptor := Passed)
    case Create =>
      s.(acceptor := Holding(s.created), created := s.created + 1, open := s.open + 1, alive := s.alive + {s.created}, place := s.place + [AtServer])
    case Refuse => s.(acceptor := Testing)
    case Dispatch(t) =>
      var c := s.acceptor.conn;
      SetPlace(WithThread(s, t, s.threads[t].(queue := s.threads[t].queue + [c])).(acceptor := Testing), c, Queued(t))
    case Poll(t, empty, victim) =>
      var th := s.threads[t];
      if empty then WithThread(s, t, th.(phase := match victim case Some(v) => Robbing(v) case None => Ready))
      else
        SetPlace(WithThread(s, t, th.(queue := th.queue[1..], slot := Some(th.queue[0]), phase := Popped)), th.queue[0], InSlot(t))
    case Rob(t, empty) =>
      var th := s.threads[t];
      if empty then WithThread(s, t, th.(phase := Ready))
      else
        var v := th.phase.victim;
        var c := s.threads[v].queue[0];
        var u := WithThread(s, v, s.threads[v].(queue := s.threads[v].queue[1..]));
        SetPlace(WithThread(u, t, u.threads[t].(slot := Some(c), phase := Popped)), c, InSlot(t))
    case Hand(t) =>
      var th := s.threads[t];
      var c := th.slot.value;
      var w := L.FirstFinished(th.workers, 0);
      if th.running && w.Some? then
        SetPlace(WithThread(s, t, th.(workers := th.workers[w.value := L.Started(c)], phase := Ready)), c, StartedOn(t, w.value))
      else SetPlace(WithThread(s, t, th.(phase := Ready)), c, Dropped)
    case Close(t, w) =>
      var th := s.threads[t];
      WithThread(s, t, th.(workers := th.workers[w := L.Closed(th.workers[w])]))
    case SetRunning(t, on) => WithThread(s, t, s.threads[t].(running := on))
  }

  /** The start that an action performs: which connection on which worker of which thread. */
  function StartOf(s: State, a: Action): Option<(Conn, nat, nat)>
    requires Enabled(s, a)
  {
    if a.Hand? && s.threads[a.t].running then
      match L.FirstFinished(s.threads[a.t].workers, 0)
      case Some(w) => Some((s.threads[a.t].slot.value, a.t, w))
      case None => None
    else None
  }

  // ----- the invariant -----

  predicate QueueOk(place: seq<Place>, t: nat, q: seq<Conn>) {
    && (forall i :: 0 <= i < |q| ==> q[i] < |place| && place[q[i]] == Queued(t))
    && (forall i, j :: 0 <= i < j < |q| ==> q[i] != q[j])
  }

  /** A worker has a connection exactly while it runs, and it is the one started on it. */
  predicate WorkerOk(place: seq<Place>, t: nat, w: nat, x: L.Worker) {
    && L.Sound(x)
    && (x.conn.Some? ==> x.conn.value < |place| && place[x.conn.value] == StartedOn(t, w))
  }

  predicate WorkersOk(place: seq<Place>, t: nat, ws: seq<L.Worker>) {
    forall w :: 0 <= w < |ws| ==> WorkerOk(place, t, w, ws[w])
  }

  predicate SlotOk(place: seq<Place>, t: nat, slot: Option<Conn>, phase: Phase) {
    && (slot.Some? ==> slot.value < |place| && (place[slot.value] == InSlot(t) || place[slot.value].StartedOn? || place[slot.value].Dropped?))
    && (phase.Popped? ==> slot.Some? && place[slot.value] == InSlot(t))
    && (!phase.Popped? && slot.Some? ==> !place[slot.value].InSlot?)
  }

  predicate ThreadOk(place: seq<Place>, t: nat, th: Thread) {
    QueueOk(place, t, th.queue) && WorkersOk(place, t, th.workers) && SlotOk(place, t, th.slot, th.phase)
  }

  predicate AcceptorOk(a: Acceptor, place: seq<Place>, open: int) {
    && (a.Holding? ==> a.conn < |place| && place[a.conn].AtServer?)
    && open <= LIMIT + 1
    && (a.Passed? ==> open <= LIMIT)
  }

  ghost predicate Inv(s: State) {
    && |s.place| == s.created
    && AcceptorOk(s.acceptor, s.place, s.open)
    && (forall t :: 0 <= t < |s.threads| ==> ThreadOk(s.place, t, s.threads[t]))
    && s.open == |s.alive|
    && (forall c :: c in s.alive <==> Held(s, c))
  }

  /** Destroying leaves counter, counted set and pointers in step. */
  lemma DestroyKeepsCount(s: State)
    requires s.open == |s.alive| && forall c :: Held(s, c) ==> c in s.alive
    ensures var d := Destroy(s);
      && d.open == |d.alive| && d.open <= s.open
      && (forall c :: c in d.alive <==> Held(d, c))
  {
    var dead := set c | c in s.alive && !Held(s, c);
    var d := Destroy(s);
    RemoveSubset(s.alive, dead);
    forall c: Conn ensures Held(d, c) <==> Held(s, c) {
      SameHolders(s, d, c);
    }
  }

  lemma SameHolders(s: State, d: State, c: Conn)
    requires s.acceptor == d.acceptor && s.threads == d.threads
    ensures Held(d, c) <==> Held(s, c)
  {
  }

  lemma {:induction false} RemoveSubset(a: set<nat>, b: set<nat>)
    requires b <= a
    ensures |a - b| == |a| - |b|
  {
    if b != {} {
      var x :| x in b;
      RemoveSubset(a - {x}, b - {x});
      assert a - {x} - (b - {x}) == a - b;
    }
  }

  // ----- every step keeps the invariant -----

  /** Other threads do not notice that connection c, which they do not hold in a place of their own, moves on. */
  lemma OtherThread(place: seq<Place>, t: nat, th: Thread, c: Conn, p: Place)
    requires ThreadOk(place, t, th) && c < |place|
    requires c !in th.queue
    requires th.phase.Popped? ==> th.slot != Some(c)
    requires !place[c].StartedOn?
    requires th.slot == Some(c) ==> p.StartedOn? || p.Dropped?
    ensures ThreadOk(place[c := p], t, th)
  {
    forall w | 0 <= w < |th.workers| ensures WorkerOk(place[c := p], t, w, th.workers[w]) {
      assert WorkerOk(place, t, w, th.workers[w]);
    }
  }

  /** A connection at c can only be in one place, so a thread whose slot or queue has it is the one its place names. */
  lemma ThreadsAfter(s: State, c: Conn, p: Place, t: nat)
    requires Inv(s) && c < |s.place| && t < |s.threads|
    requires match s.place[c] case AtServer => true case Queued(v) => v != t case InSlot(v) => v != t case _ => false
    ensures ThreadOk(s.place[c := p], t, s.threads[t])
  {
    assert ThreadOk(s.place, t, s.threads[t]);
    OtherThread(s.place, t, s.threads[t], c, p);
  }

  lemma CreateKeepsThreads(s: State, p: Place)
    requires Inv(s)
    ensures forall t :: 0 <= t < |s.threads| ==> ThreadOk(s.place + [p], t, s.threads[t])
  {
    forall t | 0 <= t < |s.threads| ensures ThreadOk(s.place + [p], t, s.threads[t]) {
      assert ThreadOk(s.place, t, s.threads[t]);
      forall w | 0 <= w < |s.threads[t].workers| ensures WorkerOk(s.place + [p], t, w, s.threads[t].workers[w]) {
        assert WorkerOk(s.place, t, w, s.threads[t].workers[w]);
      }
    }
  }

  /** A new connection goes to the end of a queue. */
  lemma PushOk(place: seq<Place>, t: nat, q: seq<Conn>, c: Conn)
    requires QueueOk(place, t, q) && c < |place| && place[c].AtServer?
    ensures QueueOk(place[c := Queued(t)], t, q + [c])
  {
  }

  /** The first connection of a queue goes to a slot. */
  lemma PopOk(place: seq<Place>, t: nat, q: seq<Conn>, p: Place)
    requires QueueOk(place, t, q) && q != []
    ensures q[0] < |place| && place[q[0]] == Queued(t) && QueueOk(place[q[0] := p], t, q[1..])
  {
  }

  lemma WorkersKeep(place: seq<Place>, t: nat, ws: seq<L.Worker>, c: Conn, p: Place)
    requires WorkersOk(place, t, ws) && c < |place| && !place[c].StartedOn?
    ensures WorkersOk(place[c := p], t, ws)
  {
    forall w | 0 <= w < |ws| ensures WorkerOk(place[c := p], t, w, ws[w]) { assert WorkerOk(place, t, w, ws[w]); }
  }

  /** The part of the invariant that is about places. */
  predicate PlacesOk(s: State) {
    && |s.place| == s.created
    && (s.acceptor.Holding? ==> s.acceptor.conn < |s.place| && s.place[s.acceptor.conn].AtServer?)
    && (forall t :: 0 <= t < |s.threads| ==> ThreadOk(s.place, t, s.threads[t]))
  }

  lemma DispatchPlaces(s: State, t: nat)
    requires Inv(s) && Enabled(s, Dispatch(t))
    ensures PlacesOk(Move(s, Dispatch(t)))
  {
    var c, u := s.acceptor.conn, Move(s, Dispatch(t));
    forall v | 0 <= v < |u.threads| ensures ThreadOk(u.place, v, u.threads[v]) {
      ThreadsAfter(s, c, Queued(t), v);
      if v == t {
        assert ThreadOk(s.place, t, s.threads[t]);
        PushOk(s.place, t, s.threads[t].queue, c);
      }
    }
  }

  lemma PollPlaces(s: State, t: nat, victim: Option<nat>)
    requires Inv(s) && Enabled(s, Poll(t, false, victim))
    ensures PlacesOk(Move(s, Poll(t, false, victim)))
  {
    var th, u := s.threads[t], Move(s, Poll(t, false, victim));
    var c := th.queue[0];
    assert ThreadOk(s.place, t, th);
    PopOk(s.place, t, th.queue, InSlot(t));
    WorkersKeep(s.place, t, th.workers, c, InSlot(t));
    forall v | 0 <= v < |u.threads| ensures ThreadOk(u.place, v, u.threads[v]) {
      if v != t { ThreadsAfter(s, c, InSlot(t), v); }
    }
  }

  lemma RobPlaces(s: State, t: nat)
    requires Inv(s) && Enabled(s, Rob(t, false))
    ensures PlacesOk(Move(s, Rob(t, false)))
  {
    var th, x, u := s.threads[t], s.threads[t].phase.victim, Move(s, Rob(t, false));
    var c := s.threads[x].queue[0];
    assert ThreadOk(s.place, t, th) && ThreadOk(s.place, x, s.threads[x]);
    PopOk(s.place, x, s.threads[x].queue, InSlot(t));
    WorkersKeep(s.place, t, th.workers, c, InSlot(t));
    WorkersKeep(s.place, x, s.threads[x].workers, c, InSlot(t));
    forall v | 0 <= v < |u.threads| ensures ThreadOk(u.place, v, u.threads[v]) {
      if v != x { ThreadsAfter(s, c, InSlot(t), v); }
    }
  }

  lemma HandPlaces(s: State, t: nat)
    requires Inv(s) && Enabled(s, Hand(t))
    ensures PlacesOk(Move(s, Hand(t)))
  {
    var th, u := s.threads[t], Move(s, Hand(t));
    var c := th.slot.value;
    assert ThreadOk(s.place, t, th);
    var w := L.FirstFinished(th.workers, 0);
    var p := if th.running && w.Some? then StartedOn(t, w.value) else Dropped;
    WorkersKeep(s.place, t, th.workers, c, p);
    if th.running && w.Some? { assert WorkerOk(s.place, t, w.value, th.workers[w.value]); }
    forall v | 0 <= v < |u.threads| ensures ThreadOk(u.place, v, u.threads[v]) {
      if v != t { ThreadsAfter(s, c, p, v); }
    }
  }

  lemma MovePlaces(s: State, a: Action)
    requires Inv(s) && Enabled(s, a)
    ensures PlacesOk(Move(s, a))
  {
    match a {
      case Create => CreateKeepsThreads(s, AtServer);
      case Dispatch(t) => DispatchPlaces(s, t);
      case Poll(t, empty, victim) => if !empty { PollPlaces(s, t, victim); }
      case Rob(t, empty) => if !empty { RobPlaces(s, t); }
      case Hand(t) => HandPlaces(s, t);
      case _ =>
    }
  }

  /** A step only passes pointers on; the one new connection is the server's. */
  lemma MoveHeld(s: State, a: Action, c: Conn)
    requires Enabled(s, a) && Held(Move(s, a), c)
    ensures Held(s, c) || (a.Create? && c == s.created)
  {
    var u := Move(s, a);
    if u.acceptor != Holding(c) {
      var v :| 0 <= v < |u.threads| && HeldByThread(u.threads[v], c);
      match a {
        case Dispatch(t) =>
          if v == t && c !in s.threads[t].queue && c in u.threads[t].queue { assert c == s.acceptor.conn; }
          assert HeldByThread(s.threads[v], c) || s.acceptor == Holding(c);
        case Poll(t, empty, victim) => assert HeldByThread(s.threads[v], c);
        case Rob(t, empty) =>
          if !empty {
            var x := s.threads[t].phase.victim;
            assert HeldByThread(s.threads[v], c) || HeldByThread(s.threads[x], c);
          } else {
            assert HeldByThread(s.threads[v], c);
          }
        case Hand(t) => HandHeld(s, t, v, c);
        case Close(t, w) => CloseHeld(s, t, w, v, c);
        case _ => assert HeldByThread(s.threads[v], c);
      }
    }
  }

  lemma HandHeld(s: State, t: nat, v: nat, c: Conn)
    requires Enabled(s, Hand(t)) && v < |s.threads| && HeldByThread(Move(s, Hand(t)).threads[v], c)
    ensures HeldByThread(s.threads[v], c)
  {
    if v == t && c !in s.threads[t].queue && s.threads[t].slot != Some(c) {
      var ws := Move(s, Hand(t)).threads[t].workers;
      var w :| 0 <= w < |ws| && ws[w].conn == Some(c);
      assert s.threads[t].workers[w].conn == Some(c);
    }
  }

  lemma CloseHeld(s: State, t: nat, w: nat, v: nat, c: Conn)
    requires Enabled(s, Close(t, w)) && v < |s.threads| && HeldByThread(Move(s, Close(t, w)).threads[v], c)
    ensures HeldByThread(s.threads[v], c)
  {
    if v == t && c !in s.threads[t].queue && s.threads[t].slot != Some(c) {
      var ws := Move(s, Close(t, w)).threads[t].workers;
      var x :| 0 <= x < |ws| && ws[x].conn == Some(c);
      assert s.threads[t].workers[x].conn == Some(c);
    }
  }

  /** The new connection has a number that is not in use. */
  lemma HeldIsCreated(s: State, c: Conn)
    requires PlacesOk(s) && Held(s, c)
    ensures c < s.created
  {
    if s.acceptor != Holding(c) {
      var t :| 0 <= t < |s.threads| && HeldByThread(s.threads[t], c);
      assert ThreadOk(s.place, t, s.threads[t]);
      if HeldByWorkers(s.threads[t].workers, c) {
        var w :| 0 <= w < |s.threads[t].workers| && s.threads[t].workers[w].conn == Some(c);
        assert WorkerOk(s.place, t, w, s.threads[t].workers[w]);
      }
    }
  }

  lemma MoveCounts(s: State, a: Action)
    requires Inv(s) && Enabled(s, a)
    ensures var u := Move(s, a);
      && u.open == |u.alive| && (forall c :: Held(u, c) ==> c in u.alive)
      && u.open <= LIMIT + 1 && (u.acceptor.Passed? ==> u.open <= LIMIT)
  {
    var u := Move(s, a);
    forall c | Held(u, c) ensures c in u.alive { MoveHeld(s, a, c); }
    if a.Create? && s.created in s.alive {
      HeldIsCreated(s, s.created);
    }
    hide Held, ThreadOk;
    assert a.Create? ==> |u.alive| == |s.alive| + 1;
  }

  lemma NextKeepsInv(s: State, a: Action)
    requires Inv(s) && Enabled(s, a)
    ensures Inv(Next(s, a))
  {
    hide Held, Move, ThreadOk;
    MovePlaces(s, a);
    MoveCounts(s, a);
    DestroyKeepsCount(Move(s, a));
  }

  // ----- whole runs -----

  /** A server with threads whose workers have not started anything. */
  predicate Initial(s: State) {
    && s.acceptor == Testing && s.open == 0 && s.created == 0 && s.alive == {} && s.place == []
    && (forall t :: 0 <= t < |s.threads| ==> FreshThread(s.threads[t]))
  }

  predicate FreshThread(th: Thread) {
    th.queue == [] && th.slot == None && th.phase == Ready && forall w :: 0 <= w < |th.workers| ==> th.workers[w] == L.Worker(true, false, None)
  }

  lemma InitialInv(s: State)
    requires Initial(s)
    ensures Inv(s)
  {
    forall c: Conn, t | 0 <= t < |s.threads| ensures !HeldByThread(s.threads[t], c) { assert FreshThread(s.threads[t]); }
    forall t | 0 <= t < |s.threads| ensures ThreadOk(s.place, t, s.threads[t]) { assert FreshThread(s.threads[t]); }
  }

  /** The state after a run, or None when some action of the run is not possible. */
  function Run(s: State, run: seq<Action>): Option<State>
    decreases |run|
  {
    if run == [] then Some(s)
    else match Run(s, run[..|run| - 1])
      case None => None
      case Some(u) => if Enabled(u, run[|run| - 1]) then Some(Next(u, run[|run| - 1])) else None
  }

  lemma {:induction false} ReachableInv(s: State, run: seq<Action>)
    requires Initial(s) && Run(s, run).Some?
    ensures Inv(Run(s, run).value)
    decreases |run|
  {
    hide Inv, Next, Enabled;
    if run == [] {
      InitialInv(s);
    } else {
      ReachableInv(s, run[..|run| - 1]);
      NextKeepsInv(Run(s, run[..|run| - 1]).value, run[|run| - 1]);
    }
  }

  /** The counter is the number of connections that something still points to, and never exceeds
      801, although it is tested before a connection is accepted and counted afterwards. */
  lemma ConnectionsBounded(s: State, run: seq<Action>)
    requires Initial(s) && Run(s, run).Some?
    ensures var u := Run(s, run).value;
      u.open == |u.alive| && u.open <= 801 && forall c :: c in u.alive <==> Held(u, c)
  {
    ReachableInv(s, run);
  }

  /** start never finds a worker that has not finished, so it never throws and never takes a
      connection away from a worker; and the worker it is given holds no connection. */
  lemma BusyNeverRestarted(s: State, run: seq<Action>, a: Action)
    requires Initial(s) && Run(s, run).Some? && Enabled(Run(s, run).value, a) && StartOf(Run(s, run).value, a).Some?
    ensures var u := Run(s, run).value;
      var (c, t, w) := StartOf(u, a).value;
      && t < |u.threads| && w < |u.threads[t].workers|
      && u.threads[t].workers[w].finished && u.threads[t].workers[w].conn == None
      && Next(u, a).threads[t].workers[w] == L.Started(c)
      && (forall x :: 0 <= x < |u.threads[t].workers| && x != w ==> Next(u, a).threads[t].workers[x] == u.threads[t].workers[x])
  {
    ReachableInv(s, run);
    var u := Run(s, run).value;
    var (c, t, w) := StartOf(u, a).value;
    assert ThreadOk(u.place, t, u.threads[t]);
    assert WorkerOk(u.place, t, w, u.threads[t].workers[w]);
  }

  /** In every reachable state every worker meets the invariant of its class, HttpWorker.Valid: so the
      Hand and Close steps are what its methods do, and a worker that starts never throws. */
  lemma WorkersSound(s: State, run: seq<Action>, t: nat, w: nat)
    requires Initial(s) && Run(s, run).Some?
    requires t < |Run(s, run).value.threads| && w < |Run(s, run).value.threads[t].workers|
    ensures L.Sound(Run(s, run).value.threads[t].workers[w])
  {
    ReachableInv(s, run);
    var u := Run(s, run).value;
    assert ThreadOk(u.place, t, u.threads[t]);
    assert WorkerOk(u.place, t, w, u.threads[t].workers[w]);
  }

  /** All starts of a run. */
  function Starts(s: State, run: seq<Action>): seq<(Conn, nat, nat)>
    requires Run(s, run).Some?
    decreases |run|
  {
    if run == [] then []
    else
      var before := Starts(s, run[..|run| - 1]);
      match StartOf(Run(s, run[..|run| - 1]).value, run[|run| - 1])
      case Some(x) => before + [x]
      case None => before
  }

  /** A started connection stays where it was started. */
  predicate StartsOk(q: seq<(Conn, nat, nat)>, place: seq<Place>) {
    && (forall i :: 0 <= i < |q| ==> q[i].0 < |place| && place[q[i].0] == StartedOn(q[i].1, q[i].2))
    && (forall i, j :: 0 <= i < j < |q| ==> q[i].0 != q[j].0)
  }

  /** Nothing moves a started connection. */
  lemma StartedStays(s: State, a: Action, c: Conn)
    requires Inv(s) && Enabled(s, a) && c < |s.place| && s.place[c].StartedOn?
    ensures c < |Next(s, a).place| && Next(s, a).place[c] == s.place[c]
  {
    if a.Poll? || a.Hand? { assert ThreadOk(s.place, a.t, s.threads[a.t]); }
    if a.Rob? {
      var x := s.threads[a.t].phase.victim;
      assert ThreadOk(s.place, x, s.threads[x]);
    }
    hide Held, WorkersOk;
  }

  /** A start takes a connection that was never started before. */
  lemma StartIsNew(s: State, a: Action)
    requires Inv(s) && Enabled(s, a) && StartOf(s, a).Some?
    ensures var x := StartOf(s, a).value;
      && x.0 < |s.place| && !s.place[x.0].StartedOn?
      && x.0 < |Next(s, a).place| && Next(s, a).place[x.0] == StartedOn(x.1, x.2)
  {
    assert ThreadOk(s.place, a.t, s.threads[a.t]);
    hide Held, WorkersOk;
  }

  lemma NextStarts(s: State, a: Action, q: seq<(Conn, nat, nat)>)
    requires Inv(s) && Enabled(s, a) && StartsOk(q, s.place)
    ensures StartsOk(match StartOf(s, a) case Some(x) => q + [x] case None => q, Next(s, a).place)
  {
    hide Inv, Enabled, Next, StartOf;
    if StartOf(s, a).Some? { StartIsNew(s, a); }
    forall i | 0 <= i < |q| ensures q[i].0 < |Next(s, a).place| && Next(s, a).place[q[i].0] == s.place[q[i].0] {
      StartedStays(s, a, q[i].0);
    }
  }

  lemma {:induction false} ReachableStarts(s: State, run: seq<Action>)
    requires Initial(s) && Run(s, run).Some?
    ensures StartsOk(Starts(s, run), Run(s, run).value.place)
    decreases |run|
  {
    if run != [] {
      ReachableStarts(s, run[..|run| - 1]);
      ReachableInv(s, run[..|run| - 1]);
      hide Inv, Next, Enabled, StartOf, StartsOk;
      NextStarts(Run(s, run[..|run| - 1]).value, run[|run| - 1], Starts(s, run[..|run| - 1]));
    } else {
      assert Starts(s, run) == [];
    }
  }

  /** Worker w of thread t is running. */
  predicate Runs(s: State, t: nat, w: nat) { t < |s.threads| && w < |s.threads[t].workers| && L.Running(s.threads[t].workers[w]) }

  /** Under every interleaving of accepting, dispatching, taking, stealing, starting and closing, a
      connection is started at most once, on one worker; and no two running workers of all threads
      have the same connection. */
  lemma StartedAtMostOnce(s: State, run: seq<Action>)
    requires Initial(s) && Run(s, run).Some?
    ensures var q := Starts(s, run);
      forall i, j :: 0 <= i < j < |q| ==> q[i].0 != q[j].0
    ensures forall t: nat, w: nat, t': nat, w': nat :: Runs(Run(s, run).value, t, w) && Runs(Run(s, run).value, t', w') && (t, w) != (t', w') ==>
      Run(s, run).value.threads[t].workers[w].conn != Run(s, run).value.threads[t'].workers[w'].conn
  {
    ReachableStarts(s, run);
    ReachableInv(s, run);
    var u := Run(s, run).value;
    hide Run, Starts, Held;
    forall t: nat, w: nat | Runs(u, t, w)
      ensures var c := u.threads[t].workers[w].conn; c.Some? && c.value < |u.place| && u.place[c.value] == StartedOn(t, w)
    {
      assert ThreadOk(u.place, t, u.threads[t]);
      assert WorkerOk(u.place, t, w, u.threads[t].workers[w]);
    }
  }
}
