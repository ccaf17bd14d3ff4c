// What the semaphore's operations achieve, and the blocking dequeue with them: a call that ends with
// fewer permits than it asked for leaves none, and a dequeue that meets no other operation returns
// what is there.

module SemaphoreAnswers {
  import opened Wrappers
  import opened Sums
  import S = Semaphore
  import B = BlockingQueue

  type Tid = nat

  // ----- every run -----

  /** Whoever ends with fewer permits than asked for found no more than those at that moment, and
      leaves none available. */
  lemma FewerLeavesNone(initial: nat, n: nat, run: seq<S.Action>, a: S.Action, k: nat)
    requires S.Run(initial, n, run).Some? && S.Enabled(S.Run(initial, n, run).value, a) && a.t < n
    requires S.Result(S.Run(initial, n, run).value, a) == Some(k)
    ensures var u, call := S.Run(initial, n, run).value, S.LastCall(run, a.t);
      && call.Some? && (call.value.TryWaitMany? || call.value.WaitMany?)
      && (k < call.value.max ==> u.count <= k && S.Next(u, a).count <= 0)
  {
    S.ServesLastCall(initial, n, run, a.t);
    S.ReachableInv(initial, n, run);
    assert S.PcOk(S.Run(initial, n, run).value.pcs[a.t]);
    hide S.Run, S.Inv;
  }

  // ----- a call that meets no other -----

  lemma Do(initial: nat, n: nat, run: seq<S.Action>, s: S.State, a: S.Action) returns (more: seq<S.Action>, u: S.State)
    requires S.Run(initial, n, run) == Some(s) && S.Enabled(s, a)
    ensures more == run + [a] && S.Run(initial, n, more) == Some(u) && u == S.Next(s, a)
  {
    more, u := run + [a], S.Next(s, a);
    assert more[..|more| - 1] == run;
  }

  function Min(a: nat, b: nat): nat { if a < b then a else b }

  /** With permits available, and no spurious failure of the exchange, a call takes as many as it asks for, or all there are, whether it may
      wait or not, and whatever the other threads are in the middle of. */
  lemma LoneCallTakes(initial: nat, n: nat, run: seq<S.Action>, s: S.State, call: S.Action, t: Tid)
    returns (more: seq<S.Action>, u: S.State)
    requires S.Run(initial, n, run) == Some(s) && s.count > 0 && t < |s.pcs| && s.pcs[t].Idle?
    requires call.t == t && (call.TryWaitMany? || call.WaitMany?)
    ensures more == run + [call, S.Step(t, true)] && S.Run(initial, n, more) == Some(u) && S.Enabled(u, S.Step(t, true))
    ensures S.Result(u, S.Step(t, true)) == Some(Min(call.max, s.count))
    ensures S.Next(u, S.Step(t, true)) == s.(count := s.count - Min(call.max, s.count), acquired := s.acquired + Min(call.max, s.count))
  {
    hide S.Run;
    var r1, s1 := Do(initial, n, run, s, call);
    more, u := Do(initial, n, r1, s1, S.Step(t, true));
    assert run + [call] + [S.Step(t, true)] == run + [call, S.Step(t, true)];
    assert s.pcs[t := S.Idle] == s.pcs;
  }

  /** Without, one that may not wait ends with nothing, and nothing has changed. */
  lemma LoneTryFails(initial: nat, n: nat, run: seq<S.Action>, s: S.State, t: Tid, max: nat, flag: bool)
    returns (more: seq<S.Action>, u: S.State)
    requires S.Run(initial, n, run) == Some(s) && s.count <= 0 && t < |s.pcs| && s.pcs[t].Idle?
    ensures more == run + [S.TryWaitMany(t, max)] && S.Run(initial, n, more) == Some(u) && S.Enabled(u, S.Step(t, flag))
    ensures S.Result(u, S.Step(t, flag)) == Some(0) && S.Next(u, S.Step(t, flag)) == s
  {
    hide S.Run;
    more, u := Do(initial, n, run, s, S.TryWaitMany(t, max));
    assert s.pcs[t := S.Idle] == s.pcs;
  }

  // ----- the blocking dequeue -----

  lemma DoB(n: nat, run: seq<B.Action>, s: B.State, a: B.Action) returns (more: seq<B.Action>, u: B.State)
    requires B.Run(n, run) == Some(s) && B.Shaped(s) && B.Enabled(s, a)
    ensures more == run + [a] && B.Run(n, more) == Some(u) && u == B.Next(s, a) && B.Shaped(u)
  {
    more, u := run + [a], B.Next(s, a);
    assert more[..|more| - 1] == run;
    B.ReachableInv(n, more);
    hide B.Run, B.Next, B.Enabled;
  }

  ghost predicate Quiet(s: B.State) { forall t :: 0 <= t < |s.pcs| ==> s.pcs[t].Idle? }

  /** In every reachable state the queue holds the permits there are, those granted and not yet
      redeemed, those on their way to a waiter, and the elements not yet announced. */
  lemma ElementsAccounted(n: nat, run: seq<B.Action>, s: B.State)
    requires B.Run(n, run) == Some(s)
    ensures s.inner == (if s.sema.count > 0 then s.sema.count else 0) + Sum(s.pcs, B.Owed) + Sum(s.sema.pcs, S.Holds)
      + s.sema.kernel + S.Pending(s.sema) + Sum(s.pcs, B.Unsignalled)
  {
    B.ReachableInv(n, run);
  }

  /** One step, with what it returns to its caller. */
  lemma DoReturns(n: nat, run: seq<B.Action>, s: B.State, a: B.Action) returns (more: seq<B.Action>, u: B.State)
    requires B.Run(n, run) == Some(s) && B.Shaped(s) && B.Enabled(s, a)
    ensures more == run + [a] && B.Run(n, more) == Some(u) && u == B.Next(s, a) && B.Shaped(u)
    ensures B.ReturnedBy(n, more, a.t) == B.ReturnedBy(n, run, a.t) + B.ReturnNow(s, a)
  {
    more, u := DoB(n, run, s, a);
    assert more[..|more| - 1] == run;
    hide B.ReturnNow, B.Next;
  }

  /** Thread t is about to take what is there, in a queue that is otherwise at rest. */
  predicate Waits(s: B.State, u: B.State, t: Tid, q: S.Pc) {
    && t < |s.pcs| == |s.sema.pcs|
    && u == s.(sema := s.sema.(pcs := s.sema.pcs[t := q]), pcs := s.pcs[t := B.Waiting])
  }

  lemma Begins(n: nat, run: seq<B.Action>, s: B.State, t: Tid, max: nat, wait: bool, timed: bool) returns (more: seq<B.Action>, u: B.State)
    requires B.Run(n, run) == Some(s) && B.Shaped(s) && t < |s.pcs| && s.pcs[t].Idle? && s.sema.pcs[t].Idle?
    ensures more == run + [B.Dequeue(t, max, wait, timed)] && B.Run(n, more) == Some(u)
    ensures Waits(s, u, t, S.TryLoad(max, if wait then S.First(timed) else S.Alone))
    ensures B.ReturnedBy(n, more, t) == B.ReturnedBy(n, run, t)
  {
    hide B.Run, B.ReturnedBy;
    more, u := DoReturns(n, run, s, B.Dequeue(t, max, wait, timed));
    NothingMore(B.ReturnedBy(n, run, t));
  }

  lemma NothingMore(r: seq<nat>)
    ensures r + [] == r
  {
  }

  lemma Looks(n: nat, run: seq<B.Action>, s: B.State, w: B.State, t: Tid, max: nat, why: S.Purpose) returns (more: seq<B.Action>, u: B.State)
    requires B.Run(n, run) == Some(w) && Waits(s, w, t, S.TryLoad(max, why)) && s.sema.count > 0
    ensures more == run + [B.Sema(t, true)] && B.Run(n, more) == Some(u) && Waits(s, u, t, S.TrySwap(max, why, s.sema.count))
    ensures B.ReturnedBy(n, more, t) == B.ReturnedBy(n, run, t)
  {
    hide B.Run, B.ReturnedBy;
    more, u := DoReturns(n, run, w, B.Sema(t, true));
    NothingMore(B.ReturnedBy(n, run, t));
  }

  lemma Takes(n: nat, run: seq<B.Action>, s: B.State, w: B.State, t: Tid, max: nat, why: S.Purpose) returns (more: seq<B.Action>, u: B.State)
    requires B.Run(n, run) == Some(w) && !why.More? && Waits(s, w, t, S.TrySwap(max, why, s.sema.count)) && s.sema.count > 0 && s.sema.pcs[t].Idle?
    ensures more == run + [B.Sema(t, true)] && B.Run(n, more) == Some(u)
    ensures u.pcs == s.pcs[t := B.Loop(Min(max, s.sema.count), 0)] && u.inner == s.inner && u.sema.pcs == s.sema.pcs
    ensures B.ReturnedBy(n, more, t) == B.ReturnedBy(n, run, t) + if max == 0 then [0] else []
  {
    hide B.Run, B.ReturnedBy;
    more, u := DoReturns(n, run, w, B.Sema(t, true));
    assert s.sema.pcs[t := S.Idle] == s.sema.pcs;
  }

  /** A dequeue, single or bulk, that meets no other operation and finds elements, or may not wait for
      them, returns as many as it asks for, or all there are. */
  lemma LoneDequeueReturns(n: nat, run: seq<B.Action>, s: B.State, t: Tid, max: nat, wait: bool, timed: bool)
    returns (more: seq<B.Action>, u: B.State)
    requires B.Run(n, run) == Some(s) && Quiet(s) && t < |s.pcs| && (s.inner > 0 || !wait)
    ensures run + [B.Dequeue(t, max, wait, timed)] <= more && B.Run(n, more) == Some(u) && Quiet(u)
    ensures B.ReturnedBy(n, more, t) == B.ReturnedBy(n, run, t) + [Min(max, s.inner)]
    ensures u.inner == s.inner - Min(max, s.inner)
  {
    AtRest(n, run, s, t);
    hide B.Run, B.ReturnedBy, Waits;
    var r1, s1 := Begins(n, run, s, t, max, wait, timed);
    if s.inner == 0 {
      more, u := GivesUp(n, r1, s, s1, t, max);
    } else {
      var why := if wait then S.First(timed) else S.Alone;
      var r2, s2 := Looks(n, r1, s, s1, t, max, why);
      more, u := Takes(n, r2, s, s2, t, max, why);
      if max > 0 {
        var r3, s3 := more, u;
        more, u := Redeems(n, r3, s3, t, Min(max, s.inner));
      }
    }
  }

  lemma AtRest(n: nat, run: seq<B.Action>, s: B.State, t: Tid)
    requires B.Run(n, run) == Some(s) && Quiet(s) && t < |s.pcs|
    ensures B.Shaped(s) && s.sema.pcs[t].Idle? && s.sema.count == s.inner
  {
    B.QuietPermits(n, run);
    B.ReachableInv(n, run);
    assert B.InStep(s.pcs[t], s.sema.pcs[t]);
  }

  lemma GivesUp(n: nat, run: seq<B.Action>, s: B.State, w: B.State, t: Tid, max: nat) returns (more: seq<B.Action>, u: B.State)
    requires B.Run(n, run) == Some(w) && Waits(s, w, t, S.TryLoad(max, S.Alone)) && s.sema.count <= 0 && Quiet(s)
    ensures more == run + [B.Sema(t, true)] && B.Run(n, more) == Some(u) && Quiet(u) && u.inner == s.inner
    ensures B.ReturnedBy(n, more, t) == B.ReturnedBy(n, run, t) + [0]
  {
    hide B.Run, B.ReturnedBy;
    more, u := DoReturns(n, run, w, B.Sema(t, true));
  }

  lemma Redeems(n: nat, run: seq<B.Action>, s: B.State, t: Tid, k: nat) returns (more: seq<B.Action>, u: B.State)
    requires B.Run(n, run) == Some(s) && B.Shaped(s) && t < |s.pcs| && s.pcs[t] == B.Redeeming(k, 0) && k <= s.inner
    requires forall x :: 0 <= x < |s.pcs| && x != t ==> s.pcs[x].Idle?
    ensures more == run + [B.Redeem(t, k)] && B.Run(n, more) == Some(u) && Quiet(u) && u.inner == s.inner - k
    ensures B.ReturnedBy(n, more, t) == B.ReturnedBy(n, run, t) + [k]
  {
    hide B.Run, B.ReturnedBy;
    more, u := DoReturns(n, run, s, B.Redeem(t, k));
  }
}
