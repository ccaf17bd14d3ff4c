// The memory buffers that the encoder writes to and the decoder reads from: an output buffer
// that doubles when a packet does not fit, and an input buffer read packet by packet.
// Allocation succeeds; lengths fit the source's integers.

module OutputBuffer {

  type Byte = b: int | 0 <= b < 256

  const INITIAL: nat := 1024

  // ----- the capacity that n bytes need -----

  /** The least power-of-two multiple of the initial size that holds n bytes. */
  function CapacityFor(n: nat): (c: nat)
    ensures n <= c && INITIAL <= c
  {
    if n <= INITIAL then INITIAL else 2 * CapacityFor((n + 1) / 2)
  }

  /** c is INITIAL * 2^k for some k. */
  predicate Doubled(c: nat) { c == INITIAL || (c > INITIAL && c % 2 == 0 && Doubled(c / 2)) }

  lemma {:induction false} CapacityIsLeast(n: nat, c: nat)
    requires Doubled(c) && n <= c
    ensures CapacityFor(n) <= c
    decreases c
  {
    if n > INITIAL { CapacityIsLeast((n + 1) / 2, c / 2); }
  }

  lemma {:induction false} CapacityIsDoubled(n: nat)
    ensures Doubled(CapacityFor(n)) && CapacityFor(n) <= (if n <= INITIAL then INITIAL else 2 * n - 1)
    decreases n
  {
    if n > INITIAL { CapacityIsDoubled((n + 1) / 2); }
  }

  lemma TwiceDoubled(c: nat)
    requires Doubled(c)
    ensures Doubled(2 * c) && c > 0
  {
  }

  /** A capacity too small for m bytes, doubled, is still at most the one for m bytes. */
  lemma {:induction false} DoubleTooSmall(c: nat, m: nat)
    requires Doubled(c) && c < m
    ensures 2 * c <= CapacityFor(m)
    decreases c
  {
    if c > INITIAL { DoubleTooSmall(c / 2, (m + 1) / 2); }
  }

  /** memcpy between different arrays. */
  method Copy(dst: array<Byte>, at: nat, src: array<Byte>, n: nat)
    requires at + n <= dst.Length && n <= src.Length && dst != src
    modifies dst
    ensures dst[..] == old(dst[..at]) + src[..n] + old(dst[at + n..])
  {
    var k := 0;
    while k < n
      invariant 0 <= k <= n && dst[..] == old(dst[..at]) + src[..k] + old(dst[at + k..])
    {
      dst[at + k] := src[k];
      k := k + 1;
    }
  }

  // ----- the output buffer -----

  class Output {
    var buf: array<Byte>
    var size: nat
    var ptr: nat                  // an offset into buf
    var room: nat
    // auxiliary: bytes copied so far because of growth
    ghost var copied: nat

    ghost predicate Valid()
      reads this, buf
    {
      && buf.Length == size && ptr + room == size && copied + INITIAL == size
      && size == CapacityFor(ptr)
    }

    /** get_output_content. */
    ghost function Content(): seq<Byte>
      reads this, buf
      requires Valid()
    {
      buf[..ptr]
    }

    constructor ()
      ensures Valid() && fresh(buf) && Content() == []
    {
      buf := new Byte[INITIAL](_ => 0);
      size := INITIAL;
      room := INITIAL;
      ptr := 0;
      copied := 0;
    }

    /** The fields agree, whatever the capacity. */
    ghost predicate Consistent()
      reads this
    {
      buf.Length == size && ptr + room == size && copied + INITIAL == size
    }

    /** One round of the growth loop: a buffer twice the size with the same content. */
    method Grow()
      requires Consistent()
      modifies this
      ensures Consistent() && size == 2 * old(size) && ptr == old(ptr) && fresh(buf)
      ensures buf[..ptr] == old(buf[..ptr])
    {
      var offset := ptr;
      var tmp := new Byte[2 * size](_ => 0);
      Copy(tmp, 0, buf, size);
      assert tmp[..ptr] == buf[..size][..ptr] == buf[..ptr];
      copied := copied + size;
      buf := tmp;
      size := size * 2;
      ptr := offset;
      room := size - offset;
    }

    /** The loop of write_packet: double until n more bytes fit. */
    method Reserve(n: nat)
      requires Valid()
      modifies this
      ensures Consistent() && ptr == old(ptr) && n <= room
      ensures size == CapacityFor(if n <= old(room) then ptr else ptr + n)
      ensures buf == old(buf) || fresh(buf)
      ensures buf[..ptr] == old(buf[..ptr])
    {
      hide CapacityFor, Doubled;
      ghost var need := ptr + n;
      CapacityIsDoubled(ptr);
      while n > room
        invariant Consistent() && ptr == old(ptr)
        invariant Doubled(size) && (if n > old(room) then size <= CapacityFor(need) else size == old(size))
        invariant buf == old(buf) || fresh(buf)
        invariant buf[..ptr] == old(buf[..ptr])
        decreases n - room
      {
        DoubleTooSmall(size, need);
        TwiceDoubled(size);
        Grow();
      }
      if n > old(room) { CapacityIsLeast(need, size); }
    }

    method Write(data: array<Byte>, n: nat)
      requires Valid() && data != buf && n <= data.Length
      modifies this, buf
      ensures Valid() && (buf == old(buf) || fresh(buf))
      ensures Content() == old(Content()) + old(data[..n])
    {
      ghost var p := ptr;
      Reserve(n);
      CapacitySteady(p, p + n, size);
      var count := if n < size then n else size;
      Copy(buf, ptr, data, count);
      ptr := ptr + count;
      room := room - count;
    }
  }

  /** A size that was right for p bytes and is no smaller than q is right for q bytes too. */
  lemma CapacitySteady(p: nat, q: nat, size: nat)
    requires p <= q <= size && (size == CapacityFor(p) || size == CapacityFor(q))
    ensures size == CapacityFor(q)
  {
    if size == CapacityFor(p) {
      CapacityIsDoubled(p);
      CapacityIsLeast(q, size);
      CapacityIsDoubled(q);
      CapacityIsLeast(p, CapacityFor(q));
    }
  }

  /** After any writes: the offset and the room make up the size, which is a power-of-two multiple
      of the initial size, the least that holds the content and so less than twice as large as it,
      and growth has copied no more bytes than the buffer has now. */
  lemma SizeBounds(o: Output)
    requires o.Valid()
    ensures |o.Content()| + o.room == o.size && Doubled(o.size)
    ensures o.size <= INITIAL || o.size < 2 * |o.Content()|
    ensures forall c :: Doubled(c) && |o.Content()| <= c ==> o.size <= c
    ensures o.copied == o.size - INITIAL
  {
    CapacityIsDoubled(o.ptr);
    forall c | Doubled(c) && |o.Content()| <= c ensures o.size <= c {
      CapacityIsLeast(o.ptr, c);
    }
  }

  function Concat(packets: seq<seq<Byte>>): seq<Byte> {
    if packets == [] then [] else Concat(packets[..|packets| - 1]) + packets[|packets| - 1]
  }

  /** The contents after any sequence of packets are their concatenation. */
  method WriteAll(packets: seq<seq<Byte>>) returns (content: seq<Byte>, size: nat)
    ensures content == Concat(packets)
    ensures Doubled(size) && |content| <= size && (size <= INITIAL || size < 2 * |content|)
  {
    var o := new Output();
    var i := 0;
    while i < |packets|
      invariant 0 <= i <= |packets| && fresh(o) && fresh(o.buf) && o.Valid() && o.Content() == Concat(packets[..i])
    {
      var packet := packets[i];
      var data := new Byte[|packet|](k requires 0 <= k < |packet| => packet[k]);
      assert data[..|packet|] == packet;
      o.Write(data, |packet|);
      assert packets[..i + 1][..i] == packets[..i];
      i := i + 1;
    }
    assert packets[..|packets|] == packets;
    SizeBounds(o);
    content, size := o.buf[..o.ptr], o.size;
  }

  // ----- the input buffer -----

  class Input {
    const data: array<Byte>
    var ptr: nat                  // an offset into data
    var size: nat                 // bytes left

    ghost predicate Valid()
      reads this
    {
      ptr + size == data.Length
    }

    constructor (data: array<Byte>)
      ensures Valid() && this.data == data && ptr == 0
    {
      this.data := data;
      ptr := 0;
      size := data.Length;
    }

    /** read_packet: up to n bytes go to buf; -1 stands for AVERROR_EOF. */
    method Read(buf: array<Byte>, n: nat) returns (r: int)
      requires Valid() && n <= buf.Length && buf != data
      modifies this, buf
      ensures Valid() && (r == -1 <==> n == 0 || old(size) == 0)
      ensures r != -1 ==> 0 < r <= n && (r < n ==> size == 0)
      ensures ptr == old(ptr) + (if r == -1 then 0 else r)
      ensures buf[..] == (if r == -1 then old(buf[..]) else data[old(ptr)..ptr] + old(buf[r..]))
    {
      var count := if n < size then n else size;
      if count == 0 { return -1; }
      var k := 0;
      while k < count
        invariant 0 <= k <= count && buf[..] == data[ptr..ptr + k] + old(buf[k..])
        modifies buf
      {
        buf[k] := data[ptr + k];
        k := k + 1;
      }
      ptr := ptr + count;
      size := size - count;
      return count;
    }
  }

  /** Reading packet after packet until the end of the file gives all the data, once and in order. */
  method ReadAll(data: array<Byte>, packetSize: nat) returns (content: seq<Byte>)
    requires packetSize > 0
    ensures content == data[..]
  {
    var input := new Input(data);
    var buf := new Byte[packetSize](_ => 0);
    content := [];
    while true
      invariant fresh(input) && fresh(buf) && input.Valid() && input.data == data && buf.Length == packetSize
      invariant data[..] == old(data[..]) && content == data[..input.ptr]
      decreases input.size
    {
      ghost var p := input.ptr;
      var n := input.Read(buf, packetSize);
      if n == -1 { break; }
      NextPacket(data, buf, p, n);
      content := content + buf[..n];
    }
    assert data[..input.ptr] == data[..];
  }

  lemma NextPacket(data: array<Byte>, buf: array<Byte>, p: nat, n: nat)
    requires p + n <= data.Length && n <= buf.Length && data[p..p + n] <= buf[..]
    ensures data[..p] + buf[..n] == data[..p + n]
  {
    assert buf[..n] == buf[..][..n] == data[p..p + n];
  }
}
