// What the steps of the server achieve: a connection is accepted while there is room, a successful
// dequeue hands over the first connection of the queue it is made on, and a connection handed to a
// running thread with an idle worker is served.

module SchedulerAnswers {
  import opened Wrappers
  import opened Scheduler
  import L = Loads

  lemma Do(s: State, run: seq<Action>, a: Action) returns (more: seq<Action>)
    requires Run(s, run).Some? && Enabled(Run(s, run).value, a)
    ensures more == run + [a] && Run(s, more) == Some(Next(Run(s, run).value, a))
  {
    more := run + [a];
    assert more[..|more| - 1] == run;
  }

  /** The worker that a running thread gives a connection to: the first that has finished. */
  predicate FirstIdle(th: Thread, w: nat) {
    th.running && w < |th.workers| && th.workers[w].finished && forall x :: 0 <= x < w ==> !th.workers[x].finished
  }

  /** Worker w runs connection c, and holds it. */
  predicate Serves(th: Thread, w: nat, c: Conn) { w < |th.workers| && L.Running(th.workers[w]) && th.workers[w].conn == Some(c) }

  // ----- single steps, in any reachable state -----

  /** The accept loop goes on to accept exactly while no more than 800 connections are alive. */
  lemma AcceptsWithinLimit(s: State, run: seq<Action>)
    requires Initial(s) && Run(s, run).Some? && Run(s, run).value.acceptor.Testing?
    ensures var u := Run(s, run).value;
      (Next(u, Test).acceptor == Passed <==> |u.alive| <= 800) && (Next(u, Test).acceptor == Testing <==> |u.alive| > 800)
  {
    ReachableInv(s, run);
  }

  /** An accept that succeeds makes a new connection, which the accept loop holds; it is counted, and
      no other is destroyed. */
  lemma CreateHolds(s: State, run: seq<Action>)
    requires Initial(s) && Run(s, run).Some? && Run(s, run).value.acceptor.Passed?
    ensures var u, v := Run(s, run).value, Next(Run(s, run).value, Create);
      exists c: Conn :: c !in u.alive && v.acceptor == Holding(c) && v.alive == u.alive + {c} && v.open == u.open + 1 && v.threads == u.threads
  {
    ReachableInv(s, run);
    var u := Run(s, run).value;
    hide Run, Initial, Inv, Held, Destroy;
    NothingOlder(u, u.created);
    CreateHeld(u);
    NothingDies(Move(u, Create));
  }

  /** Destructors run only for connections that nobody points to. */
  lemma NothingDies(m: State)
    requires forall x :: x in m.alive ==> Held(m, x)
    ensures Destroy(m) == m
  {
    hide Held;
    assert (set x | x in m.alive && !Held(m, x)) == {};
    assert m.alive - {} == m.alive;
  }

  lemma CreateHeld(u: State)
    requires Inv(u) && u.acceptor.Passed?
    ensures forall x :: x in Move(u, Create).alive ==> Held(Move(u, Create), x)
  {
    var m := Move(u, Create);
    forall x | x in m.alive ensures Held(m, x) {
      if x != u.created {
        assert Held(u, x);
        var t :| 0 <= t < |u.threads| && HeldByThread(u.threads[t], x);
        assert HeldByThread(m.threads[t], x);
      }
    }
  }

  lemma NothingOlder(u: State, c: Conn)
    requires Inv(u) && c == u.created
    ensures c !in u.alive
  {
    if c in u.alive {
      assert Held(u, c);
      HeldHasPlace(u, c);
    }
  }

  lemma HeldHasPlace(u: State, c: Conn)
    requires Inv(u) && Held(u, c)
    ensures c < |u.place|
  {
    if u.acceptor != Holding(c) {
      var t :| 0 <= t < |u.threads| && HeldByThread(u.threads[t], c);
      assert ThreadOk(u.place, t, u.threads[t]);
      if c !in u.threads[t].queue && u.threads[t].slot != Some(c) {
        var w :| 0 <= w < |u.threads[t].workers| && u.threads[t].workers[w].conn == Some(c);
        assert WorkerOk(u.place, t, w, u.threads[t].workers[w]);
      }
    }
  }

  /** A dispatched connection goes to the end of its thread's queue, and the accept loop starts over. */
  lemma DispatchQueuesLast(s: State, run: seq<Action>, t: nat, c: Conn)
    requires Initial(s) && Run(s, run).Some? && Enabled(Run(s, run).value, Dispatch(t)) && Run(s, run).value.acceptor == Holding(c)
    ensures var u, v := Run(s, run).value, Next(Run(s, run).value, Dispatch(t));
      v.threads == u.threads[t := u.threads[t].(queue := u.threads[t].queue + [c])] && v.acceptor == Testing
  {
  }

  /** A successful own dequeue leaves the rest of the thread's queue and hands its first connection on,
      which is still alive. */
  lemma PollTakesFirst(s: State, run: seq<Action>, t: nat, victim: Option<nat>)
    requires Initial(s) && Run(s, run).Some? && Enabled(Run(s, run).value, Poll(t, false, victim))
    ensures var u, v := Run(s, run).value, Next(Run(s, run).value, Poll(t, false, victim));
      && u.threads[t].queue != []
      && v.threads == u.threads[t := Thread(u.threads[t].queue[1..], u.threads[t].workers, Some(u.threads[t].queue[0]), u.threads[t].running, Popped)]
      && u.threads[t].queue[0] in v.alive && v.acceptor == u.acceptor
  {
    ReachableInv(s, run);
    var u, a := Run(s, run).value, Poll(t, false, victim);
    NextKeepsInv(u, a);
    hide Run, Inv;
    assert HeldByThread(Next(u, a).threads[t], u.threads[t].queue[0]);
    HeldIsAlive(Next(u, a), u.threads[t].queue[0]);
  }

  lemma HeldIsAlive(s: State, c: Conn)
    requires Inv(s) && Held(s, c)
    ensures c in s.alive
  {
  }

  /** A thread whose own dequeue failed tries the queue of the victim that its scan picked. */
  lemma PollPicksVictim(s: State, run: seq<Action>, t: nat, v: nat)
    requires Initial(s) && Run(s, run).Some? && Enabled(Run(s, run).value, Poll(t, true, Some(v)))
    ensures var u := Run(s, run).value;
      Next(u, Poll(t, true, Some(v))).threads == u.threads[t := u.threads[t].(phase := Robbing(v))]
  {
  }

  /** A successful theft takes the victim's first connection, and nothing else of the victim's. */
  lemma RobTakesFirst(s: State, run: seq<Action>, t: nat, v: nat)
    requires Initial(s) && Run(s, run).Some? && Enabled(Run(s, run).value, Rob(t, false)) && Run(s, run).value.threads[t].phase == Robbing(v)
    ensures var u, u' := Run(s, run).value, Next(Run(s, run).value, Rob(t, false));
      && v < |u.threads| == |u'.threads| && u.threads[v].queue != []
      && u'.threads[v].queue == u.threads[v].queue[1..] && u'.threads[v].workers == u.threads[v].workers
      && u'.threads[t].slot == Some(u.threads[v].queue[0]) && u'.threads[t].phase == Popped
      && u'.threads[t].running == u.threads[t].running && u'.threads[t].workers == u.threads[t].workers
      && (forall x :: 0 <= x < |u.threads| && x != t && x != v ==> u'.threads[x] == u.threads[x])
  {
  }

  /** A connection handed to a running thread is served by its first idle worker, if it has one; no
      other worker is touched. Otherwise no worker is, and the connection is dropped. */
  lemma HandServes(s: State, run: seq<Action>, t: nat, c: Conn)
    requires Initial(s) && Run(s, run).Some? && Enabled(Run(s, run).value, Hand(t)) && Run(s, run).value.threads[t].slot == Some(c)
    ensures var u, v := Run(s, run).value.threads[t], Next(Run(s, run).value, Hand(t)).threads[t];
      && v.queue == u.queue && v.phase == Ready && |v.workers| == |u.workers|
      && (forall w: nat :: FirstIdle(u, w) ==> Serves(v, w, c) && forall x :: 0 <= x < |v.workers| && x != w ==> v.workers[x] == u.workers[x])
      && ((forall w: nat :: !FirstIdle(u, w)) ==> v.workers == u.workers)
  {
    var u := Run(s, run).value.threads[t];
    var r := L.FirstFinished(u.workers, 0);
    if u.running && r.Some? { assert FirstIdle(u, r.value); }
  }

  /** Some thread's slot still points to the connection. */
  predicate InSomeSlot(s: State, c: Conn) { exists t :: 0 <= t < |s.threads| && s.threads[t].slot == Some(c) }

  /** A closing worker is free for the next connection, no other worker or queue changes, and its
      connection is destroyed, unless it is still in the slot that it was handed over in. */
  lemma CloseReleases(s: State, run: seq<Action>, t: nat, w: nat, c: Conn)
    requires Initial(s) && Run(s, run).Some? && Enabled(Run(s, run).value, Close(t, w)) && Run(s, run).value.threads[t].workers[w].conn == Some(c)
    ensures var u, v := Run(s, run).value, Next(Run(s, run).value, Close(t, w));
      && v.threads == u.threads[t := v.threads[t]] && v.acceptor == u.acceptor
      && v.threads[t] == u.threads[t].(workers := u.threads[t].workers[w := v.threads[t].workers[w]])
      && v.threads[t].workers[w].finished && v.threads[t].workers[w].conn == None
      && (c in v.alive <==> InSomeSlot(u, c))
  {
    ReachableInv(s, run);
    hide Run, Initial, Inv, InSomeSlot;
    ClosedIs(Run(s, run).value, t, w);
    ClosedAlive(Run(s, run).value, t, w, c);
  }

  lemma ClosedIs(u: State, t: nat, w: nat)
    requires Enabled(u, Close(t, w))
    ensures Next(u, Close(t, w)).acceptor == u.acceptor
    ensures Next(u, Close(t, w)).threads == u.threads[t := u.threads[t].(workers := u.threads[t].workers[w := L.Closed(u.threads[t].workers[w])])]
  {
  }

  lemma ClosedAlive(u: State, t: nat, w: nat, c: Conn)
    requires Inv(u) && Enabled(u, Close(t, w)) && u.threads[t].workers[w].conn == Some(c)
    ensures c in Next(u, Close(t, w)).alive <==> InSomeSlot(u, c)
  {
    var v := Next(u, Close(t, w));
    NextKeepsInv(u, Close(t, w));
    OnlyHolder(u, t, w, c);
    ClosedIs(u, t, w);
    hide Inv, Next;
    if InSomeSlot(u, c) {
      var x :| 0 <= x < |u.threads| && u.threads[x].slot == Some(c);
      assert HeldByThread(v.threads[x], c);
      HeldIsAlive(v, c);
    } else {
      forall x | 0 <= x < |v.threads| ensures !HeldByThread(v.threads[x], c) {
        assert v.threads[x].slot == u.threads[x].slot && v.threads[x].queue == u.threads[x].queue;
      }
      NotHeldIsDead(v, c);
    }
  }

  lemma NotHeldIsDead(s: State, c: Conn)
    requires Inv(s) && !Held(s, c)
    ensures c !in s.alive
  {
  }

  /** Who runs a connection is alone with it, but for slots. */
  lemma OnlyHolder(u: State, t: nat, w: nat, c: Conn)
    requires Inv(u) && t < |u.threads| && w < |u.threads[t].workers| && u.threads[t].workers[w].conn == Some(c)
    ensures u.acceptor != Holding(c)
    ensures forall x :: 0 <= x < |u.threads| ==> c !in u.threads[x].queue
    ensures forall x, y :: 0 <= x < |u.threads| && 0 <= y < |u.threads[x].workers| && u.threads[x].workers[y].conn == Some(c) ==> x == t && y == w
  {
    assert ThreadOk(u.place, t, u.threads[t]);
    assert WorkerOk(u.place, t, w, u.threads[t].workers[w]);
    forall x | 0 <= x < |u.threads| ensures c !in u.threads[x].queue {
      assert ThreadOk(u.place, x, u.threads[x]);
    }
    forall x, y | 0 <= x < |u.threads| && 0 <= y < |u.threads[x].workers| && u.threads[x].workers[y].conn == Some(c) ensures x == t && y == w {
      assert ThreadOk(u.place, x, u.threads[x]);
      assert WorkerOk(u.place, x, y, u.threads[x].workers[y]);
    }
  }

  // ----- whole ways of a connection -----

  /** A connection dispatched to a running thread with an idle worker and nothing in its queue is
      served after the thread's next poll. */
  lemma DispatchedIsServed(s: State, run: seq<Action>, t: nat, w: nat, c: Conn, victim: Option<nat>)
    requires Initial(s) && Run(s, run).Some?
    requires var u := Run(s, run).value;
      && u.acceptor == Holding(c) && t < |u.threads| && u.threads[t].queue == [] && u.threads[t].phase == Ready && FirstIdle(u.threads[t], w)
      && (victim.Some? ==> victim.value < |u.threads|)
    ensures var r := Run(s, run + [Dispatch(t), Poll(t, false, victim), Hand(t)]);
      r.Some? && t < |r.value.threads| && Serves(r.value.threads[t], w, c) && r.value.threads[t].queue == []
  {
    hide Run, Next, Initial;
    var r1 := Do(s, run, Dispatch(t));
    DispatchQueuesLast(s, run, t, c);
    assert [] + [c] == [c] && [c][1..] == [];
    var r2 := Do(s, r1, Poll(t, false, victim));
    PollTakesFirst(s, r1, t, victim);
    var r3 := Do(s, r2, Hand(t));
    HandServes(s, r2, t, c);
    OthersKeepQueues(Run(s, r2).value, t);
    assert r3 == run + [Dispatch(t), Poll(t, false, victim), Hand(t)];
  }

  /** From the accept loop's test to a worker: with at most 800 connections alive, an accepted connection
      that is dispatched to such a thread is served by its next poll. */
  lemma AcceptedIsServed(s: State, run: seq<Action>, t: nat, w: nat, victim: Option<nat>)
    requires Initial(s) && Run(s, run).Some?
    requires var u := Run(s, run).value;
      && u.acceptor.Testing? && |u.alive| <= 800
      && t < |u.threads| && u.threads[t].queue == [] && u.threads[t].phase == Ready && FirstIdle(u.threads[t], w)
      && (victim.Some? ==> victim.value < |u.threads|)
    ensures var u, r := Run(s, run).value, Run(s, run + [Test, Create] + [Dispatch(t), Poll(t, false, victim), Hand(t)]);
      && r.Some? && t < |r.value.threads|
      && exists c: Conn :: c !in u.alive && Serves(r.value.threads[t], w, c)
  {
    hide Run, Next, Initial;
    var u := Run(s, run).value;
    var r1 := Do(s, run, Test);
    AcceptsWithinLimit(s, run);
    TestKeepsRest(s, run);
    var r2 := Do(s, r1, Create);
    CreateHolds(s, r1);
    var c: Conn :| c !in u.alive && Run(s, r2).value.acceptor == Holding(c);
    assert r2 == run + [Test, Create];
    DispatchedIsServed(s, r2, t, w, c, victim);
  }

  lemma TestKeepsRest(s: State, run: seq<Action>)
    requires Initial(s) && Run(s, run).Some? && Run(s, run).value.acceptor.Testing?
    ensures var u, v := Run(s, run).value, Next(Run(s, run).value, Test);
      v.threads == u.threads && v.alive == u.alive
  {
    ReachableInv(s, run);
    var u := Run(s, run).value;
    var m := Move(u, Test);
    forall x | x in m.alive ensures Held(m, x) {
      assert Held(u, x);
    }
    NothingDies(m);
  }

  /** A thread with an idle worker and nothing of its own serves the first connection of the thread it robs. */
  lemma StolenIsServed(s: State, run: seq<Action>, t: nat, w: nat, v: nat)
    requires Initial(s) && Run(s, run).Some?
    requires var u := Run(s, run).value;
      && t < |u.threads| && v < |u.threads| && u.threads[t].phase == Ready && FirstIdle(u.threads[t], w) && u.threads[v].queue != []
    ensures var u, r := Run(s, run).value, Run(s, run + [Poll(t, true, Some(v)), Rob(t, false), Hand(t)]);
      && r.Some? && t < |r.value.threads| && v < |r.value.threads|
      && Serves(r.value.threads[t], w, u.threads[v].queue[0]) && r.value.threads[v].queue == u.threads[v].queue[1..]
  {
    hide Run, Next, Initial;
    var u := Run(s, run).value;
    var r1 := Do(s, run, Poll(t, true, Some(v)));
    PollPicksVictim(s, run, t, v);
    var r2 := Do(s, r1, Rob(t, false));
    RobTakesFirst(s, r1, t, v);
    var r3 := Do(s, r2, Hand(t));
    HandServes(s, r2, t, u.threads[v].queue[0]);
    OthersKeepQueues(Run(s, r2).value, t);
    assert r3 == run + [Poll(t, true, Some(v)), Rob(t, false), Hand(t)];
  }

  lemma OthersKeepQueues(s: State, t: nat)
    requires Enabled(s, Hand(t))
    ensures |Next(s, Hand(t)).threads| == |s.threads| && forall x :: 0 <= x < |s.threads| ==> Next(s, Hand(t)).threads[x].queue == s.threads[x].queue
  {
  }
}
