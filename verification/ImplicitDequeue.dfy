// The consumers' steps up to the moves of elements keep the invariant.

module ImplicitDequeue {
  import opened Wrappers
  import opened ModArith
  import opened ImplicitProducer
  import opened ImplicitInvariant
  import opened ImplicitWrite
  import T = Tickets
  import X = BlockIndex

  // ----- a step that moves only one consumer -----

  lemma MovePlaces(s: State, t: Tid, c: Con)
    requires PlacesOk(s.mem, s.ix.live, s.cons, s.prod, s.bs) && t < |s.cons| && !s.cons[t].CClear? && !s.cons[t].CRelease?
    ensures PlacesOk(s.mem, s.ix.live, s.cons[t := c], s.prod, s.bs)
  {
    hide HeldHere, Blk;
    var cons := s.cons[t := c];
    forall b | 0 <= b < |s.mem.place| ensures PlaceOk(s.mem, s.ix.live, cons, s.prod, s.bs, b) {
      assert PlaceOk(s.mem, s.ix.live, s.cons, s.prod, s.bs, b);
    }
  }

  /** Claimed indices stay with their consumer when it moves on without marking any. */
  lemma MoveElements(s: State, threads: seq<T.Pc>, t: Tid, c: Con)
    requires ElementsOk(s.mem, s.ix.live, s.log, s.tk.threads, s.cons, s.bs) && t < |s.cons| == |s.tk.threads|
    requires |threads| == |s.tk.threads| && threads == s.tk.threads[t := threads[t]]
    requires s.tk.threads[t].Holding? ==> threads[t] == s.tk.threads[t] && Seg(c) == Seg(s.cons[t])
    ensures ElementsOk(s.mem, s.ix.live, s.log, threads, s.cons[t := c], s.bs)
  {
    hide Stored, Blk, End, Seg;
    var cons := s.cons[t := c];
    forall j | 0 <= j < |s.log.stage| ensures ElementOk(s.mem, s.ix.live, s.log, threads, cons, s.bs, j) {
      assert ElementOk(s.mem, s.ix.live, s.log, s.tk.threads, s.cons, s.bs, j);
    }
  }

  lemma MoveCons(s: State, threads: seq<T.Pc>, t: Tid, c: Con)
    requires ConsOk(s.ix.headers, s.ix.live, s.mem.place, s.log, s.bs, s.tk.threads, s.cons) && t < |s.cons|
    requires |threads| == |s.tk.threads| && threads == s.tk.threads[t := threads[t]]
    requires ConOk(s.ix.headers, s.ix.live, s.mem.place, s.log, s.bs, t, threads[t], c)
    ensures ConsOk(s.ix.headers, s.ix.live, s.mem.place, s.log, s.bs, threads, s.cons[t := c])
  {
    hide ConOk;
  }

  lemma ConMove(s: State, t: Tid, c: Con)
    requires Inv(s) && t < |s.cons| && s.tk.threads[t].Holding? && !s.cons[t].CClear? && !s.cons[t].CRelease?
    requires Seg(c) == Seg(s.cons[t])
    requires ConOk(s.ix.headers, s.ix.live, s.mem.place, s.log, s.bs, t, s.tk.threads[t], c)
    ensures Inv(SetCon(s, t, c))
  {
    MovePlaces(s, t, c);
    MoveElements(s, s.tk.threads, t, c);
    MoveCons(s, s.tk.threads, t, c);
    hide PlacesOk, SlotsOk, CountersOk, ElementsOk, ConsOk, ProdOk, TailBlockOk, T.Inv, X.Inv;
  }

  // ----- the ticket protocol -----

  /** A step of the ticket protocol moves one thread and, only when it claims, the head. */
  lemma TicketFrame(tk: T.State, t: Tid)
    requires T.Inv(tk) && T.Enabled(tk, T.Go(t))
    ensures var k := T.Next(tk, T.Go(t));
      && T.Inv(k) && k.tail == tk.tail && k.threads == tk.threads[t := k.threads[t]] && |k.threads| == |tk.threads|
      && (if k.threads[t].Holding? then
            k.threads[t].count > 0 && k.threads[t].first == tk.head && k.head == tk.head + k.threads[t].count
          else k.head == tk.head)
  {
    T.NextKeepsInv(tk, T.Go(t));
    assert T.PcOk(tk, t);
  }

  /** A thread that holds nothing, before and after. */
  lemma FreeThread(s: State, k: T.State, t: Tid)
    requires Inv(s) && t < |s.cons| && !s.tk.threads[t].Holding? && T.Inv(k) && k.tail == s.tk.tail && k.head == s.tk.head
    requires |k.threads| == |s.tk.threads| && k.threads == s.tk.threads[t := k.threads[t]] && !k.threads[t].Holding?
    ensures Inv(s.(tk := k))
  {
    assert s.cons[t := s.cons[t]] == s.cons;
    assert s.cons[t].CIdle? by {
      assert ConOk(s.ix.headers, s.ix.live, s.mem.place, s.log, s.bs, t, s.tk.threads[t], s.cons[t]);
    }
    MoveElements(s, k.threads, t, s.cons[t]);
    MoveCons(s, k.threads, t, s.cons[t]);
    hide PlacesOk, SlotsOk, CountersOk, ElementsOk, ConsOk, ProdOk, TailBlockOk, T.Inv, X.Inv;
  }

  lemma ClaimElements(s: State, k: T.State, t: Tid, g: Log)
    requires Sizes(s) && ElementsOk(s.mem, s.ix.live, s.log, s.tk.threads, s.cons, s.bs)
    requires t < |s.cons| == |s.tk.threads| && !s.tk.threads[t].Holding?
    requires |k.threads| == |s.tk.threads| && k.threads == s.tk.threads[t := k.threads[t]] && k.head <= s.tk.tail
    requires k.threads[t].Holding? && k.threads[t].first == s.tk.head && k.head == s.tk.head + k.threads[t].count
    requires g == s.log.(owner := s.log.owner + seq(k.threads[t].count, _ => t))
    ensures ElementsOk(s.mem, s.ix.live, g, k.threads, s.cons[t := CHeader(s.tk.head)], s.bs)
  {
    hide Stored, Blk;
    var cons := s.cons[t := CHeader(s.tk.head)];
    forall j | 0 <= j < |g.stage| ensures ElementOk(s.mem, s.ix.live, g, k.threads, cons, s.bs, j) {
      assert ElementOk(s.mem, s.ix.live, s.log, s.tk.threads, s.cons, s.bs, j);
    }
  }

  lemma ClaimCons(s: State, k: T.State, t: Tid, g: Log)
    requires Sizes(s) && ElementsOk(s.mem, s.ix.live, s.log, s.tk.threads, s.cons, s.bs)
    requires ConsOk(s.ix.headers, s.ix.live, s.mem.place, s.log, s.bs, s.tk.threads, s.cons)
    requires t < |s.cons| == |s.tk.threads| && !s.tk.threads[t].Holding?
    requires |k.threads| == |s.tk.threads| && k.threads == s.tk.threads[t := k.threads[t]] && k.head <= s.tk.tail
    requires k.threads[t].Holding? && k.threads[t].first == s.tk.head && k.head == s.tk.head + k.threads[t].count
    requires k.threads[t].count > 0 && g == s.log.(owner := s.log.owner + seq(k.threads[t].count, _ => t))
    ensures ConsOk(s.ix.headers, s.ix.live, s.mem.place, g, s.bs, k.threads, s.cons[t := CHeader(s.tk.head)])
  {
    hide Blk, HeldIndex, Stored, Walk, LiveAs;
    forall j | s.tk.head <= j < k.head ensures g.stage[j].Fresh? {
      assert ElementOk(s.mem, s.ix.live, s.log, s.tk.threads, s.cons, s.bs, j);
    }
    forall u | 0 <= u < |s.cons| && u != t
      ensures ConOk(s.ix.headers, s.ix.live, s.mem.place, g, s.bs, u, k.threads[u], s.cons[u])
    {
      assert ConOk(s.ix.headers, s.ix.live, s.mem.place, s.log, s.bs, u, s.tk.threads[u], s.cons[u]);
    }
  }

  lemma TicketKeepsInv(s: State, t: Tid)
    requires Inv(s) && Shaped(s) && Enabled(s, Consume(t)) && !s.tk.threads[t].Holding?
    ensures Inv(TicketStep(s, t))
  {
    TicketFrame(s.tk, t);
    var k := T.Next(s.tk, T.Go(t));
    if !k.threads[t].Holding? {
      FreeThread(s, k, t);
    } else {
      ClaimKeepsInv(s, t);
    }
  }

  lemma ClaimKeepsInv(s: State, t: Tid)
    requires Inv(s) && Shaped(s) && Enabled(s, Consume(t)) && !s.tk.threads[t].Holding?
    requires T.Next(s.tk, T.Go(t)).threads[t].Holding?
    ensures Inv(TicketStep(s, t))
  {
    TicketFrame(s.tk, t);
    var k := T.Next(s.tk, T.Go(t));
    var g := TicketStep(s, t).log;
    hide SlotsOk, CountersOk, ElementsOk, ProdOk, TailBlockOk, X.Inv, T.Inv, PlacesOk, T.Next;
    T.HeadNeverPassesTail(k);
    assert s.cons[t].CIdle? by {
      assert ConOk(s.ix.headers, s.ix.live, s.mem.place, s.log, s.bs, t, s.tk.threads[t], s.cons[t]);
    }
    hide ConsOk;
    MovePlaces(s, t, CHeader(s.tk.head));
    ClaimElements(s, k, t, g);
    ClaimCons(s, k, t, g);
  }

  lemma BeginKeepsInv(s: State, t: Tid, max: nat)
    requires Inv(s) && Shaped(s) && Enabled(s, Dequeue(t, max))
    ensures Inv(Next(s, Dequeue(t, max)))
  {
    T.NextKeepsInv(s.tk, T.Begin(t, max));
    FreeThread(s, T.Next(s.tk, T.Begin(t, max)), t);
  }

  // ----- the lookup -----

  /** The indices a consumer still has to take are fresh, published, and in live blocks. */
  lemma NextIsLive(s: State, t: Tid)
    requires Inv(s) && t < |s.cons| && s.tk.threads[t].Holding? && s.cons[t].i < End(s.tk.threads[t])
    ensures var i := s.cons[t].i;
      && i < |s.log.owner| && i < |s.log.stage| == |s.log.enq| && s.log.stage[i].Fresh? && s.log.owner[i] == t
      && Blk(s.bs, i) in s.ix.live && Stored(s.mem, s.ix.live, s.bs, i, s.log.enq[i])
      && Blk(s.bs, i) <= Blk(s.bs, End(s.tk.threads[t]) - 1) <= First(s.bs, s.tk.tail) - 1
  {
    assert ConOk(s.ix.headers, s.ix.live, s.mem.place, s.log, s.bs, t, s.tk.threads[t], s.cons[t]);
    hide PlacesOk, SlotsOk, CountersOk, ConsOk, ProdOk, TailBlockOk, T.Inv, X.Inv, ConPcOk;
    var i := s.cons[t].i;
    assert ElementOk(s.mem, s.ix.live, s.log, s.tk.threads, s.cons, s.bs, i);
    BlkMonotone(s.bs, i, End(s.tk.threads[t]) - 1);
    BlkMonotone(s.bs, End(s.tk.threads[t]) - 1, s.tk.tail - 1);
  }

  lemma HeaderKeepsInv(s: State, t: Tid, i: nat)
    requires Inv(s) && Shaped(s) && t < |s.cons| && s.tk.threads[t].Holding? && s.cons[t] == CHeader(i)
    ensures Inv(SetCon(s, t, CTail(i, |s.ix.headers| - 1)))
  {
    assert ConOk(s.ix.headers, s.ix.live, s.mem.place, s.log, s.bs, t, s.tk.threads[t], s.cons[t]);
    NextIsLive(s, t);
    hide PlacesOk, SlotsOk, CountersOk, ElementsOk, ConsOk, ProdOk, TailBlockOk, T.Inv, Blk;
    ConMove(s, t, CTail(i, |s.ix.headers| - 1));
  }

  lemma TailKeepsInv(s: State, t: Tid, i: nat, h: nat)
    requires Inv(s) && Shaped(s) && t < |s.cons| && s.tk.threads[t].Holding? && s.cons[t] == CTail(i, h)
    ensures h < |s.ix.headers|
    ensures Inv(SetCon(s, t, CKey(i, h, s.ix.headers[h].tail, s.ix.headers[h].last)))
  {
    assert ConOk(s.ix.headers, s.ix.live, s.mem.place, s.log, s.bs, t, s.tk.threads[t], s.cons[t]);
    hide PlacesOk, SlotsOk, CountersOk, ElementsOk, ConsOk, ProdOk, TailBlockOk, T.Inv, X.Inv, Blk;
    assert X.HeaderOk(s.ix.headers[h], |s.ix.entries|);
    ConMove(s, t, CKey(i, h, s.ix.headers[h].tail, s.ix.headers[h].last));
  }

  /** The lookup finds the right entry, whatever the producer has done to the index since. */
  lemma HeaderAt(s: State, h: nat)
    requires Inv(s) && h < |s.ix.headers|
    ensures X.HeaderOk(s.ix.headers[h], |s.ix.entries|)
  {
    hide PlacesOk, SlotsOk, CountersOk, ElementsOk, ConsOk, ProdOk, TailBlockOk, T.Inv, X.Window, X.LiveAt, X.HeaderOk;
  }

  lemma KeyKeepsInv(s: State, t: Tid, i: nat, h: nat, pos: nat, num: int)
    requires Inv(s) && Shaped(s) && t < |s.cons| && s.tk.threads[t].Holding? && s.cons[t] == CKey(i, h, pos, num)
    ensures Inv(KeyStep(s, t, i, h, pos))
  {
    KeyFinds(s, t, i, h, pos, num);
    hide Inv, Shaped, KeyStep, Blk, ConOk;
    ConMove(s, t, CValue(i, h, X.Locate(s.ix.headers[h], pos, num, Blk(s.bs, i))));
  }

  /** The tail key is the number it denoted when the tail was read, and leads to the index's entry. */
  lemma KeyFinds(s: State, t: Tid, i: nat, h: nat, pos: nat, num: int)
    requires Inv(s) && Shaped(s) && t < |s.cons| && s.tk.threads[t].Holding? && s.cons[t] == CKey(i, h, pos, num)
    ensures h < |s.ix.headers| && s.ix.headers[h].capacity > 0
    ensures var c := CValue(i, h, X.Locate(s.ix.headers[h], pos, num, Blk(s.bs, i)));
      KeyStep(s, t, i, h, pos) == SetCon(s, t, c) && ConOk(s.ix.headers, s.ix.live, s.mem.place, s.log, s.bs, t, s.tk.threads[t], c)
  {
    assert ConOk(s.ix.headers, s.ix.live, s.mem.place, s.log, s.bs, t, s.tk.threads[t], s.cons[t]);
    hide PlacesOk, SlotsOk, CountersOk, ElementsOk, ConsOk, ProdOk, TailBlockOk, T.Inv, X.Inv, Blk, Stored, Shaped;
    NextIsLive(s, t);
    HeaderAt(s, h);
    X.LookupFinds(s.ix, First(s.bs, s.tk.tail), h, num, Blk(s.bs, i));
    hide X.Locate;
  }

  /** A walked header's place for a live number is that number's entry. */
  lemma WalkFinds(x: X.Index, first: int, h: nat, idx: nat, n: int, top: int)
    requires X.Inv(x, first) && Walk(x.headers, h, idx, n, top) && n in x.live
    ensures idx < x.headers[h].capacity == |x.headers[h].index| && x.headers[h].index[idx] == x.live[n].entry < |x.entries|
    ensures x.entries[x.live[n].entry] == X.Entry(Some(n), Some(x.live[n].block))
  {
    assert X.LiveAt(x, n);
    assert X.EntryOf(x.headers[h], n) == X.EntryOf(X.Current(x), n);
  }

  lemma LoadKeepsInv(s: State, t: Tid, i: nat, h: nat, idx: nat)
    requires Inv(s) && Shaped(s) && t < |s.cons| && s.tk.threads[t].Holding? && s.cons[t] == CValue(i, h, idx)
    ensures Inv(LoadStep(s, t, i, h, idx))
  {
    assert ConOk(s.ix.headers, s.ix.live, s.mem.place, s.log, s.bs, t, s.tk.threads[t], s.cons[t]);
    NextIsLive(s, t);
    hide PlacesOk, SlotsOk, CountersOk, ElementsOk, ConsOk, ProdOk, TailBlockOk, T.Inv, X.Inv, Blk, Stored;
    WalkFinds(s.ix, First(s.bs, s.tk.tail), h, idx, Blk(s.bs, i), Blk(s.bs, End(s.tk.threads[t]) - 1));
    ConMove(s, t, CTake(i, i, h, idx, s.ix.live[Blk(s.bs, i)].block));
  }
}
