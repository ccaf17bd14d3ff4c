// The block index of an implicit producer: a ring of pointers to (base, block) entries
// that the producer fills, rewinds, recycles and doubles while consumers look blocks up.
//
// Blocks are numbered 0, 1, 2, ... in the order of the indices they hold; the key of an
// entry, a base index in the source, is here the number of its block. Headers are never
// freed while the queue lives: headers[i].prev is headers[i - 1], and the published one
// is the last. A new header shares the entries of the previous one.

module BlockIndex {
  import opened Wrappers
  import opened ModArith

  type EntryId = nat
  type BlockId = nat

  datatype Entry = Entry(key: Option<int>, value: Option<BlockId>)

  /** One index header. The last three fields are auxiliary: position p of the ring belongs
      to the block numbers congruent to p - off; `last` is the number the tail denotes and
      `high` the largest number this header has ever held. */
  datatype Header = Header(capacity: nat, tail: nat, index: seq<EntryId>, off: int, last: int, high: int)

  /** The entry and the block of a live block number: one whose entry has its block as value. */
  datatype Spot = Spot(entry: EntryId, block: BlockId)

  datatype Index = Index(headers: seq<Header>, entries: seq<Entry>, live: map<int, Spot>)

  function Current(x: Index): Header
    requires |x.headers| > 0
  {
    x.headers[|x.headers| - 1]
  }

  function WithCurrent(x: Index, hd: Header): Index
    requires |x.headers| > 0
  {
    x.(headers := x.headers[|x.headers| - 1 := hd])
  }

  predicate HeaderOk(hd: Header, n: nat) {
    && hd.capacity >= 2 && |hd.index| == hd.capacity
    && hd.tail == (hd.last + hd.off) % hd.capacity
    && -1 <= hd.last <= hd.high
    && (forall i :: 0 <= i < hd.capacity ==> hd.index[i] < n)
    && (forall i, j :: 0 <= i < j < hd.capacity ==> hd.index[i] != hd.index[j])
  }

  /** The entry of block number m in a header's ring. */
  function EntryOf(hd: Header, m: int): EntryId
    requires hd.capacity > 0 && |hd.index| == hd.capacity
  {
    hd.index[(m + hd.off) % hd.capacity]
  }

  predicate HeadersOk(x: Index) {
    && |x.headers| > 0
    && (forall h :: 0 <= h < |x.headers| ==> HeaderOk(x.headers[h], |x.entries|))
    && (forall h :: 0 <= h < |x.headers| ==> x.headers[h].high <= Current(x).high)
  }

  /** From number n up to the highest one, every entry of the ring still has its own key,
      and every older header that reaches that far agrees on the entries. */
  predicate Window(x: Index, n: int)
    requires HeadersOk(x)
  {
    && Current(x).high - n < Current(x).capacity
    && (forall m :: n <= m <= Current(x).high ==> x.entries[EntryOf(Current(x), m)].key == Some(m))
    && (forall h, m :: 0 <= h < |x.headers| && n <= m <= x.headers[h].high ==>
          EntryOf(x.headers[h], m) == EntryOf(Current(x), m))
  }

  predicate LiveAt(x: Index, n: int)
    requires HeadersOk(x) && n in x.live
  {
    && 0 <= n <= Current(x).high
    && Window(x, n)
    && x.live[n].entry == EntryOf(Current(x), n)
    && x.entries[x.live[n].entry].value == Some(x.live[n].block)
  }

  /** The invariant; `first` is the number of the first block that is not yet published. */
  predicate Inv(x: Index, first: int) {
    && HeadersOk(x)
    && 0 <= first <= Current(x).last + 1
    && Window(x, first)
    && (forall n :: n in x.live ==> LiveAt(x, n))
  }

  // ----- what consumers do -----

  /** get_block_index_index_for_index, after the tail and its key have been read. */
  function Locate(hd: Header, tail: nat, tailKey: int, n: int): nat
    requires hd.capacity > 0
  {
    (tail + (n - tailKey)) % hd.capacity
  }

  /** The lookup: a consumer that read the tail of some header, now possibly outdated, while it
      denoted number t, reads the key of that entry and lands on the live entry of its block. */
  lemma LookupFinds(x: Index, first: int, h: nat, t: int, n: int)
    requires Inv(x, first) && h < |x.headers| && n in x.live && n <= t <= x.headers[h].high
    ensures var hd := x.headers[h];
      var tail := (t + hd.off) % hd.capacity;
      && x.entries[hd.index[tail]].key == Some(t)
      && Locate(hd, tail, t, n) == (n + hd.off) % hd.capacity
      && hd.index[Locate(hd, tail, t, n)] == x.live[n].entry
      && x.entries[x.live[n].entry] == Entry(Some(n), Some(x.live[n].block))
  {
    var hd := x.headers[h];
    assert LiveAt(x, n);
    assert EntryOf(hd, t) == EntryOf(Current(x), t);
    assert EntryOf(hd, n) == EntryOf(Current(x), n);
    ModAdd(t + hd.off, n - t, hd.capacity);
  }

  // ----- what the producer does -----

  function StoreKey(x: Index, e: EntryId, n: int): Index
    requires |x.headers| > 0 && e < |x.entries|
  {
    var y := x.(entries := x.entries[e := x.entries[e].(key := Some(n))]);
    WithCurrent(y, Current(y).(high := if Current(y).high < n then n else Current(y).high))
  }

  function StoreTail(x: Index, pos: nat): Index
    requires |x.headers| > 0
  {
    WithCurrent(x, Current(x).(tail := pos, last := Current(x).last + 1))
  }

  /** rewind_block_index_tail. */
  function Rewind(x: Index): Index
    requires |x.headers| > 0 && Current(x).capacity > 0
  {
    WithCurrent(x, Current(x).(tail := (Current(x).tail - 1) % Current(x).capacity, last := Current(x).last - 1))
  }

  function StoreValue(x: Index, e: EntryId, n: int, b: BlockId): Index
    requires e < |x.entries|
  {
    x.(entries := x.entries[e := x.entries[e].(value := Some(b))], live := x.live[n := Spot(e, b)])
  }

  /** Store null into the entry of number n, which is live no longer. */
  function ClearValue(x: Index, e: EntryId, n: int): Index
    requires e < |x.entries|
  {
    x.(entries := x.entries[e := x.entries[e].(value := None)], live := x.live - {n})
  }

  /** The pointer array of a header twice the size: the old ring from just after its tail, then new entries. */
  function GrownIndex(hd: Header, base: nat): (r: seq<EntryId>)
    requires hd.capacity > 0 && |hd.index| == hd.capacity
    ensures |r| == 2 * hd.capacity
  {
    seq(hd.capacity, i requires 0 <= i < hd.capacity => hd.index[(hd.tail + 1 + i) % hd.capacity]) +
    seq(hd.capacity, i requires 0 <= i < hd.capacity => base + i)
  }

  /** new_block_index: the values of the new entries are not initialised, hence arbitrary. */
  function Grow(x: Index, junk: seq<Option<BlockId>>): Index
    requires HeadersOk(x)
  {
    var hd := Current(x);
    var added := seq(hd.capacity, i => Entry(None, if 0 <= i < |junk| then junk[i] else None));
    x.(entries := x.entries + added,
       headers := x.headers + [Header(2 * hd.capacity, hd.capacity - 1, GrownIndex(hd, |x.entries|),
                                      hd.capacity - 1 - hd.last, hd.last, hd.high)])
  }

  /** The test of insert_block_index_entry on the entry after the tail. */
  predicate Available(x: Index, e: EntryId)
    requires e < |x.entries|
  {
    x.entries[e].key == None || x.entries[e].value == None
  }

  // ----- every store keeps the invariant -----

  /** Entries of different numbers in one ring are different while less than a lap apart. */
  lemma EntriesDiffer(hd: Header, k: nat, a: int, b: int)
    requires HeaderOk(hd, k) && a < b < a + hd.capacity
    ensures EntryOf(hd, a) != EntryOf(hd, b)
  {
    ModDistinct(a + hd.off, b + hd.off, hd.capacity);
  }

  lemma EntryAfterLap(hd: Header, k: nat, a: int)
    requires HeaderOk(hd, k)
    ensures EntryOf(hd, a + hd.capacity) == EntryOf(hd, a)
  {
    ModAddMultiple(a + hd.off, 1, hd.capacity);
  }

  /** The heart of recycling: a live entry stops the producer a full lap later, so an entry that
      is available after the tail lies outside every window that still matters. */
  lemma AvailableIsOutside(x: Index, first: int, n: int)
    requires Inv(x, first) && Current(x).last == Current(x).high
    requires Available(x, EntryOf(Current(x), Current(x).high + 1))
    requires n in x.live
    ensures Current(x).high + 1 - n < Current(x).capacity
  {
    var hd := Current(x);
    assert LiveAt(x, n);
    if hd.high + 1 - n == hd.capacity {
      EntryAfterLap(hd, |x.entries|, n);
    }
  }

  /** Storing a key, either the one the entry already has or the first number past the ring. */
  lemma StoreKeyKeepsInv(x: Index, first: int, e: EntryId, n: int)
    requires Inv(x, first) && n == Current(x).last + 1 && e == EntryOf(Current(x), n)
    requires n <= Current(x).high + 1
    requires n == Current(x).high + 1 ==>
      (first <= Current(x).high ==> first in x.live) &&
      forall m :: m in x.live ==> n - m < Current(x).capacity
    ensures Inv(StoreKey(x, e, n), first)
    ensures StoreKey(x, e, n).live == x.live
  {
    if n <= Current(x).high {
      assert x.entries[e].key == Some(n);
      assert StoreKey(x, e, n) == x by {
        assert x.entries[e := x.entries[e].(key := Some(n))] == x.entries;
        assert WithCurrent(x, Current(x)).headers == x.headers;
      }
    } else {
      WindowAfterNewKey(x, first, e, n);
      forall m | m in x.live ensures LiveAt(StoreKey(x, e, n), m) {
        LiveAfterNewKey(x, m, e, n);
      }
    }
  }

  lemma LiveAfterNewKey(x: Index, m: int, e: EntryId, n: int)
    requires HeadersOk(x) && m in x.live && LiveAt(x, m) && n == Current(x).high + 1 == Current(x).last + 1
    requires e == EntryOf(Current(x), n) && n - m < Current(x).capacity
    ensures HeadersOk(StoreKey(x, e, n)) && LiveAt(StoreKey(x, e, n), m)
  {
    WindowAfterNewKey(x, m, e, n);
    EntriesDiffer(Current(x), |x.entries|, m, n);
  }

  lemma NewKeyHeaders(x: Index, e: EntryId, n: int)
    requires HeadersOk(x) && n == Current(x).high + 1 == Current(x).last + 1 && e == EntryOf(Current(x), n)
    ensures e < |x.entries| && HeadersOk(StoreKey(x, e, n)) && HeaderOk(Current(x), |x.entries|)
    ensures forall h :: 0 <= h < |x.headers| ==> x.headers[h].high <= Current(x).high
    ensures forall h :: 0 <= h < |x.headers| ==> x.headers[h].capacity > 0 && |x.headers[h].index| == x.headers[h].capacity
  {
  }

  lemma WindowAfterNewKey(x: Index, m: int, e: EntryId, n: int)
    requires HeadersOk(x) && Window(x, m) && n == Current(x).high + 1 == Current(x).last + 1
    requires e == EntryOf(Current(x), n) && n - m < Current(x).capacity
    ensures HeadersOk(StoreKey(x, e, n)) && Window(StoreKey(x, e, n), m)
  {
    var x' := StoreKey(x, e, n);
    NewKeyHeaders(x, e, n);
    hide HeadersOk;
    forall k | m <= k <= n ensures x'.entries[EntryOf(Current(x'), k)].key == Some(k) {
      if k < n {
        EntriesDiffer(Current(x), |x.entries|, k, n);
      }
    }
  }

  /** Moving only the tail of the current header, forwards or back, never behind the published blocks. */
  lemma TailMoveKeepsInv(x: Index, first: int, tail: nat, last: int)
    requires Inv(x, first) && first - 1 <= last <= Current(x).high
    requires tail == (last + Current(x).off) % Current(x).capacity
    ensures Inv(WithCurrent(x, Current(x).(tail := tail, last := last)), first)
  {
    TailMoveKeepsWindow(x, tail, last, first);
    forall n | n in x.live ensures LiveAt(WithCurrent(x, Current(x).(tail := tail, last := last)), n) {
      assert LiveAt(x, n);
      TailMoveKeepsWindow(x, tail, last, n);
    }
  }

  lemma TailMoveKeepsWindow(x: Index, tail: nat, last: int, n: int)
    requires HeadersOk(x) && -1 <= last <= Current(x).high && Window(x, n)
    requires tail == (last + Current(x).off) % Current(x).capacity
    ensures HeadersOk(WithCurrent(x, Current(x).(tail := tail, last := last)))
    ensures Window(WithCurrent(x, Current(x).(tail := tail, last := last)), n)
  {
    TailMoveKeepsHeaders(x, tail, last);
    var y := WithCurrent(x, Current(x).(tail := tail, last := last));
    assert forall m :: EntryOf(Current(y), m) == EntryOf(Current(x), m);
    forall h, m | 0 <= h < |y.headers| && n <= m <= y.headers[h].high
      ensures EntryOf(y.headers[h], m) == EntryOf(Current(y), m)
    {
      assert EntryOf(y.headers[h], m) == EntryOf(x.headers[h], m);
    }
  }

  lemma TailMoveKeepsHeaders(x: Index, tail: nat, last: int)
    requires HeadersOk(x) && -1 <= last <= Current(x).high
    requires tail == (last + Current(x).off) % Current(x).capacity
    ensures HeadersOk(WithCurrent(x, Current(x).(tail := tail, last := last)))
  {
  }

  lemma StoreTailKeepsInv(x: Index, first: int, pos: nat)
    requires Inv(x, first) && Current(x).last < Current(x).high
    requires pos == (Current(x).tail + 1) % Current(x).capacity
    ensures Inv(StoreTail(x, pos), first)
  {
    ModAdd(Current(x).last + Current(x).off, 1, Current(x).capacity);
    TailMoveKeepsInv(x, first, pos, Current(x).last + 1);
  }

  lemma RewindKeepsInv(x: Index, first: int)
    requires Inv(x, first) && first <= Current(x).last
    ensures Inv(Rewind(x), first)
  {
    ModAdd(Current(x).last + Current(x).off, -1, Current(x).capacity);
    TailMoveKeepsInv(x, first, (Current(x).tail - 1) % Current(x).capacity, Current(x).last - 1);
  }

  /** Changing the value of one entry that is not the entry of a live number. */
  lemma ValueElsewhere(x: Index, first: int, e: EntryId, v: Option<BlockId>, y: Index)
    requires Inv(x, first) && e < |x.entries|
    requires y.headers == x.headers && y.entries == x.entries[e := x.entries[e].(value := v)]
    requires forall n :: n in y.live ==> n in x.live && y.live[n] == x.live[n] && x.live[n].entry != e
    ensures Inv(y, first)
  {
    forall n | n == first || n in x.live ensures Window(y, n) {
      if n in x.live { assert LiveAt(x, n); }
    }
    forall n | n in y.live ensures LiveAt(y, n) {
      assert LiveAt(x, n);
      assert Window(y, n);
    }
  }

  lemma ClearValueKeepsInv(x: Index, first: int, e: EntryId, n: int)
    requires Inv(x, first) && e < |x.entries| && x.entries[e].key == Some(n)
    ensures Inv(ClearValue(x, e, n), first)
  {
    forall m | m in x.live && m != n ensures x.live[m].entry != e {
      assert LiveAt(x, m);
    }
    ValueElsewhere(x, first, e, None, ClearValue(x, e, n));
  }

  lemma StoreValueKeepsInv(x: Index, first: int, e: EntryId, n: int, b: BlockId)
    requires Inv(x, first) && first <= n <= Current(x).high && n !in x.live
    requires e == EntryOf(Current(x), n)
    ensures Inv(StoreValue(x, e, n, b), first)
  {
    var y := StoreValue(x, e, n, b);
    assert x.entries[e].key == Some(n);
    forall m | m in x.live ensures x.live[m].entry != e {
      assert LiveAt(x, m);
    }
    ValueElsewhere(x, first, e, Some(b), y.(live := x.live));
    assert Window(y, n);
    forall m | m in y.live ensures LiveAt(y, m) {
      if m != n { assert LiveAt(y.(live := x.live), m); }
    }
  }

  /** Publishing the filled blocks moves the first unpublished number up. */
  lemma FirstMovesUp(x: Index, first: int, first': int)
    requires Inv(x, first) && first <= first' <= Current(x).last + 1
    ensures Inv(x, first')
  {
  }

  /** In the doubled ring every number of the last lap keeps its entry. */
  lemma GrownEntries(x: Index, junk: seq<Option<BlockId>>, m: int)
    requires HeadersOk(x) && Current(x).last == Current(x).high
    requires Current(x).high - Current(x).capacity < m <= Current(x).high
    ensures Current(Grow(x, junk)).capacity > 0 && |Current(Grow(x, junk)).index| == Current(Grow(x, junk)).capacity
    ensures EntryOf(Current(Grow(x, junk)), m) == EntryOf(Current(x), m)
  {
    var hd := Current(x);
    GrownPosition(hd.tail, hd.last, hd.off, hd.capacity, m);
  }

  lemma GrownPosition(tail: int, last: int, off: int, c: int, m: int)
    requires c > 0 && tail == (last + off) % c && last - c < m <= last
    ensures var i := c - 1 - (last - m);
      && 0 <= i < c
      && (m + (c - 1 - last)) % (2 * c) == i
      && (tail + 1 + i) % c == (m + off) % c
  {
    var i := c - 1 - (last - m);
    ModSmall(i, 2 * c);
    ModAdd(last + off, 1 + i, c);
    ModAddMultiple(m + off, 1, c);
  }

  lemma GrownHeaderOk(hd: Header, k: nat)
    requires HeaderOk(hd, k) && hd.last == hd.high
    ensures HeaderOk(Header(2 * hd.capacity, hd.capacity - 1, GrownIndex(hd, k), hd.capacity - 1 - hd.last, hd.last, hd.high),
                     k + hd.capacity)
  {
    var c := hd.capacity;
    var r := GrownIndex(hd, k);
    ModSmall(c - 1, 2 * c);
    forall i, j | 0 <= i < j < 2 * c ensures r[i] != r[j] {
      if j < c {
        ModDistinct(hd.tail + 1 + i, hd.tail + 1 + j, c);
      }
    }
  }

  lemma GrowKeepsInv(x: Index, first: int, junk: seq<Option<BlockId>>)
    requires Inv(x, first) && Current(x).last == Current(x).high
    ensures Inv(Grow(x, junk), first)
  {
    var y := Grow(x, junk);
    GrownHeaderOk(Current(x), |x.entries|);
    assert HeadersOk(y);
    GrowKeepsWindow(x, junk, first);
    forall n | n in y.live ensures LiveAt(y, n) {
      assert LiveAt(x, n);
      GrowKeepsWindow(x, junk, n);
    }
  }

  lemma GrowKeepsWindow(x: Index, junk: seq<Option<BlockId>>, n: int)
    requires HeadersOk(x) && Current(x).last == Current(x).high && Window(x, n)
    requires HeadersOk(Grow(x, junk))
    ensures Window(Grow(x, junk), n)
    ensures n <= Current(x).high ==> EntryOf(Current(Grow(x, junk)), n) == EntryOf(Current(x), n)
  {
    var y := Grow(x, junk);
    forall m | n <= m <= Current(x).high ensures EntryOf(Current(y), m) == EntryOf(Current(x), m) {
      GrownEntries(x, junk, m);
    }
    forall h, m | 0 <= h < |y.headers| && n <= m <= y.headers[h].high
      ensures EntryOf(y.headers[h], m) == EntryOf(Current(y), m)
    {
      if h < |x.headers| {
        assert y.headers[h] == x.headers[h];
      }
    }
  }

  /** After doubling, the entry after the tail is a new one with an invalid key, as the source asserts. */
  lemma GrownHasRoom(x: Index, first: int, junk: seq<Option<BlockId>>)
    requires Inv(x, first) && Current(x).last == Current(x).high
    ensures var y := Grow(x, junk);
      && Inv(y, first)
      && y.entries[EntryOf(Current(y), Current(y).high + 1)].key == None
      && (forall n :: n in x.live ==> Current(y).high + 1 - n < Current(y).capacity)
  {
    GrowKeepsInv(x, first, junk);
    var y := Grow(x, junk);
    var c := Current(x).capacity;
    ModSmall(c, 2 * c);
    forall n | n in x.live ensures Current(y).high + 1 - n < Current(y).capacity {
      assert LiveAt(x, n);
    }
  }
}
