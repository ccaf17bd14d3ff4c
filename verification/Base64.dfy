// Base64 (section 4 of RFC 4648), as the two loops compute it with masks and shifts. A shift to
// the right by k is a division by 2^k; one to the left a multiplication, cut off to a byte.

module Base64 {
  import opened ModArith
  import M = Masks

  type Byte = b: int | 0 <= b < 256

  const PAD: char := '='

  /** base64_chars: table 1 of RFC 4648. */
  function Letter(v: nat): (c: char)
    requires v < 64
    ensures c != PAD
  {
    if v < 26 then (65 + v) as char
    else if v < 52 then (97 + (v - 26)) as char
    else if v < 62 then (48 + (v - 52)) as char
    else if v == 62 then '+' else '/'
  }

  /** isalnum, or one of + and /. */
  predicate IsBase64(c: char) {
    'A' <= c <= 'Z' || 'a' <= c <= 'z' || '0' <= c <= '9' || c == '+' || c == '/'
  }

  /** base64_chars.find: the place of a character in the table. */
  function IndexOf(c: char): (v: nat)
    requires IsBase64(c)
    ensures v < 64 && Letter(v) == c
  {
    if 'A' <= c <= 'Z' then c as int - 65
    else if 'a' <= c <= 'z' then 26 + (c as int - 97)
    else if '0' <= c <= '9' then 52 + (c as int - 48)
    else if c == '+' then 62 else 63
  }

  lemma IndexOfLetter(v: nat)
    requires v < 64
    ensures IsBase64(Letter(v)) && IndexOf(Letter(v)) == v
  {
  }

  const UPPER := "ABCDEFGHIJKLMNOPQRSTUVWXYZ"
  const LOWER := "abcdefghijklmnopqrstuvwxyz"
  const DIGITS := "0123456789"

  /** The letters are the table's, in the table's order. */
  lemma LettersOfTable(v: nat)
    requires v < 64
    ensures |UPPER + LOWER + DIGITS + "+/"| == 64 && Letter(v) == (UPPER + LOWER + DIGITS + "+/")[v]
  {
    if v < 26 {
      assert Letter(v) == UPPER[v];
    } else if v < 52 {
      assert Letter(v) == LOWER[v - 26];
    } else if v < 62 {
      assert Letter(v) == DIGITS[v - 52];
    }
  }

  /** A character belongs to the alphabet if and only if the table has it. */
  lemma InAlphabet(c: char)
    ensures IsBase64(c) <==> c in UPPER + LOWER + DIGITS + "+/"
  {
    if IsBase64(c) { LettersOfTable(IndexOf(c)); }
    if c in UPPER + LOWER + DIGITS + "+/" {
      var v :| 0 <= v < 64 && (UPPER + LOWER + DIGITS + "+/")[v] == c;
      LettersOfTable(v);
      IndexOfLetter(v);
    }
  }

  // ----- what the encoding is -----

  /** Three bytes as four six-bit groups, for a last group of one or two bytes filled with zeros. */
  function Group(a: Byte, b: Byte, c: Byte, k: nat): (v: nat)
    requires k < 4
    ensures v < 64
  {
    var n := (a * 256 + b) * 256 + c;
    if k == 0 then n / 262144 else if k == 1 then n / 4096 % 64 else if k == 2 then n / 64 % 64 else n % 64
  }

  function Chars(a: Byte, b: Byte, c: Byte, k: nat): (r: string)
    requires k <= 4
    ensures |r| == k && forall i :: 0 <= i < k ==> r[i] == Letter(Group(a, b, c, i))
  {
    seq(k, i requires 0 <= i < k => Letter(Group(a, b, c, i)))
  }

  function Encoded(s: seq<Byte>): string {
    if |s| == 0 then ""
    else if |s| == 1 then Chars(s[0], 0, 0, 2) + [PAD, PAD]
    else if |s| == 2 then Chars(s[0], s[1], 0, 3) + [PAD]
    else Chars(s[0], s[1], s[2], 4) + Encoded(s[3..])
  }

  // ----- what decoding is, for any string -----

  /** How far the characters of the alphabet reach. */
  function BodyLength(t: string): (n: nat)
    ensures n <= |t| && forall i :: 0 <= i < n ==> IsBase64(t[i])
    ensures n < |t| ==> !IsBase64(t[n])
  {
    if t == "" || !IsBase64(t[0]) then 0 else 1 + BodyLength(t[1..])
  }

  /** The byte k of a group of four values; a group cut short is filled with zeros. */
  function Ungroup(t: string, k: nat): Byte
    requires k < 3 && forall i :: 0 <= i < |t| ==> IsBase64(t[i])
  {
    var n := ((Val(t, 0) * 64 + Val(t, 1)) * 64 + Val(t, 2)) * 64 + Val(t, 3);
    if k == 0 then n / 65536 % 256 else if k == 1 then n / 256 % 256 else n % 256
  }

  function Val(t: string, i: nat): (v: nat)
    requires forall i :: 0 <= i < |t| ==> IsBase64(t[i])
    ensures v < 64
  {
    if i < |t| then IndexOf(t[i]) else 0
  }

  /** Four characters give three bytes; of a last group of n characters come n - 1 bytes. */
  function DecodedBody(t: string): seq<Byte>
    requires forall i :: 0 <= i < |t| ==> IsBase64(t[i])
  {
    if |t| >= 4 then [Ungroup(t[..4], 0), Ungroup(t[..4], 1), Ungroup(t[..4], 2)] + DecodedBody(t[4..])
    else if |t| == 3 then [Ungroup(t, 0), Ungroup(t, 1)]
    else if |t| == 2 then [Ungroup(t, 0)]
    else []
  }

  function Decoded(t: string): seq<Byte> { DecodedBody(t[..BodyLength(t)]) }

  // ----- masks -----

  /** The masks of the source, on bytes and on six-bit values. */
  lemma ByteMasks(x: Byte)
    ensures M.And(x, 0xfc) == x - x % 4 && M.And(x, 0x03) == x % 4
    ensures M.And(x, 0xf0) == x - x % 16 && M.And(x, 0x0f) == x % 16
    ensures M.And(x, 0xc0) == x - x % 64 && M.And(x, 0x3f) == x % 64
  {
    Powers();
    M.ClearLowBits(x, 4, 256);
    M.ClearLowBits(x, 16, 256);
    M.ClearLowBits(x, 64, 256);
    M.MaskIsMod(x, 4);
    M.MaskIsMod(x, 16);
    M.MaskIsMod(x, 64);
  }

  lemma ValueMasks(x: nat)
    requires x < 64
    ensures M.And(x, 0x30) == x - x % 16 && M.And(x, 0x3c) == x - x % 4
    ensures M.And(x, 0xf) == x % 16 && M.And(x, 0x3) == x % 4
  {
    Powers();
    M.ClearLowBits(x, 16, 64);
    M.ClearLowBits(x, 4, 64);
    M.MaskIsMod(x, 16);
    M.MaskIsMod(x, 4);
  }

  lemma Powers()
    ensures M.Pow2(4) && M.Pow2(16) && M.Pow2(64) && M.Pow2(256)
  {
    assert M.Pow2(2) && M.Pow2(8) && M.Pow2(32) && M.Pow2(128);
  }

  /** The digits to base 64 of a 24-bit number. */
  lemma Digits(v0: nat, v1: nat, v2: nat, v3: nat)
    requires v0 < 64 && v1 < 64 && v2 < 64 && v3 < 64
    ensures var n := ((v0 * 64 + v1) * 64 + v2) * 64 + v3;
      n / 262144 == v0 && n / 4096 % 64 == v1 && n / 64 % 64 == v2 && n % 64 == v3
  {
    var n := ((v0 * 64 + v1) * 64 + v2) * 64 + v3;
    DivModUnique(n, 262144, v0, (v1 * 64 + v2) * 64 + v3);
    DivModUnique(n, 4096, v0 * 64 + v1, v2 * 64 + v3);
    DivModUnique(v0 * 64 + v1, 64, v0, v1);
    DivModUnique(n, 64, (v0 * 64 + v1) * 64 + v2, v3);
    DivModUnique((v0 * 64 + v1) * 64 + v2, 64, v0 * 64 + v1, v2);
  }

  /** The bytes of a 24-bit number. */
  lemma Bytes(a: Byte, b: Byte, c: Byte)
    ensures var n := (a * 256 + b) * 256 + c;
      n / 65536 % 256 == a && n / 256 % 256 == b && n % 256 == c
  {
    var n := (a * 256 + b) * 256 + c;
    DivModUnique(n, 65536, a, b * 256 + c);
    ModSmall(a, 256);
    DivModUnique(n, 256, a * 256 + b, c);
    DivModUnique(a * 256 + b, 256, a, b);
  }

  /** The same 24-bit number by its bytes and by its six-bit groups. */
  lemma Regroup(a: Byte, b: Byte, c: Byte)
    ensures a / 4 < 64 && a % 4 * 16 + b / 16 < 64 && b % 16 * 4 + c / 64 < 64 && c % 64 < 64
    ensures (((a / 4) * 64 + (a % 4 * 16 + b / 16)) * 64 + (b % 16 * 4 + c / 64)) * 64 + c % 64 == (a * 256 + b) * 256 + c
  {
  }

  /** char_array_4 of the encoder. */
  function Split(a: Byte, b: Byte, c: Byte, k: nat): nat
    requires k < 4
  {
    if k == 0 then M.And(a, 0xfc) / 4
    else if k == 1 then M.And(a, 0x03) * 16 + M.And(b, 0xf0) / 16
    else if k == 2 then M.And(b, 0x0f) * 4 + M.And(c, 0xc0) / 64
    else M.And(c, 0x3f)
  }

  /** The masks and shifts of the encoder give the groups of RFC 4648. */
  lemma SplitIsGroup(a: Byte, b: Byte, c: Byte, k: nat)
    requires k < 4
    ensures Split(a, b, c, k) == Group(a, b, c, k)
  {
    ByteMasks(a);
    ByteMasks(b);
    ByteMasks(c);
    hide M.And;
    Regroup(a, b, c);
    Digits(a / 4, a % 4 * 16 + b / 16, b % 16 * 4 + c / 64, c % 64);
    assert (a - a % 4) / 4 == a / 4 && (b - b % 16) / 16 == b / 16 && (c - c % 64) / 64 == c / 64;
  }

  /** char_array_3 of the decoder. */
  function Join(v0: nat, v1: nat, v2: nat, v3: nat, k: nat): Byte
    requires k < 3
  {
    if k == 0 then (v0 * 4 + M.And(v1, 0x30) / 16) % 256
    else if k == 1 then (M.And(v1, 0xf) * 16 + M.And(v2, 0x3c) / 4) % 256
    else (M.And(v2, 0x3) * 64 + v3) % 256
  }

  lemma JoinIsBytes(v0: nat, v1: nat, v2: nat, v3: nat, k: nat)
    requires k < 3 && v0 < 64 && v1 < 64 && v2 < 64 && v3 < 64
    ensures var n := ((v0 * 64 + v1) * 64 + v2) * 64 + v3;
      Join(v0, v1, v2, v3, k) == if k == 0 then n / 65536 % 256 else if k == 1 then n / 256 % 256 else n % 256
  {
    JoinParts(v0, v1, v2, v3, k);
    Unregroup(v0, v1, v2, v3);
    Bytes(v0 * 4 + v1 / 16, v1 % 16 * 16 + v2 / 4, v2 % 4 * 64 + v3);
    hide Join;
  }

  /** The three bytes of four six-bit values, without masks. */
  lemma JoinParts(v0: nat, v1: nat, v2: nat, v3: nat, k: nat)
    requires k < 3 && v0 < 64 && v1 < 64 && v2 < 64 && v3 < 64
    ensures Join(v0, v1, v2, v3, k) == if k == 0 then v0 * 4 + v1 / 16 else if k == 1 then v1 % 16 * 16 + v2 / 4 else v2 % 4 * 64 + v3
  {
    ValueMasks(v1);
    ValueMasks(v2);
    hide M.And;
    if k == 0 {
      assert (v1 - v1 % 16) / 16 == v1 / 16;
      ModSmall(v0 * 4 + v1 / 16, 256);
    } else if k == 1 {
      assert (v2 - v2 % 4) / 4 == v2 / 4;
      ModSmall(v1 % 16 * 16 + v2 / 4, 256);
    } else {
      ModSmall(v2 % 4 * 64 + v3, 256);
    }
  }

  lemma Unregroup(v0: nat, v1: nat, v2: nat, v3: nat)
    requires v0 < 64 && v1 < 64 && v2 < 64 && v3 < 64
    ensures v0 * 4 + v1 / 16 < 256 && v1 % 16 * 16 + v2 / 4 < 256 && v2 % 4 * 64 + v3 < 256
    ensures ((v0 * 4 + v1 / 16) * 256 + (v1 % 16 * 16 + v2 / 4)) * 256 + (v2 % 4 * 64 + v3) == ((v0 * 64 + v1) * 64 + v2) * 64 + v3
  {
  }

  // ----- the loops -----

  /** Fill char_array_4 from char_array_3 and append its first k letters. */
  method AppendLetters(ret0: string, three: array<Byte>, k: nat) returns (ret: string)
    requires three.Length == 3 && k <= 4
    ensures ret == ret0 + Chars(three[0], three[1], three[2], k)
  {
    var four := new nat[4](_ => 0);
    SplitAll(three[0], three[1], three[2]);
    four[0] := Split(three[0], three[1], three[2], 0);
    four[1] := Split(three[0], three[1], three[2], 1);
    four[2] := Split(three[0], three[1], three[2], 2);
    four[3] := Split(three[0], three[1], three[2], 3);
    hide Split, Group, Letter;
    ret := ret0;
    ghost var all := Chars(three[0], three[1], three[2], k);
    var j := 0;
    while j < k
      invariant 0 <= j <= k && ret == ret0 + all[..j]
    {
      ret := ret + [Letter(four[j])];
      j := j + 1;
      assert all[..j] == all[..j - 1] + [all[j - 1]];
    }
    assert all[..k] == all;
  }

  method Encode(bytes: seq<Byte>) returns (ret: string)
    ensures ret == Encoded(bytes)
  {
    hide Chars, Encoded, Group, Letter;
    NothingEncoded();
    ret := "";
    var i := 0;
    var three := new Byte[3](_ => 0);
    var left, p := |bytes|, 0;
    assert bytes[0..] == bytes && "" + Encoded(bytes) == Encoded(bytes);
    while left > 0
      invariant 0 <= left && p + left == |bytes| && 0 <= i < 3 && i <= p
      invariant three[..i] == bytes[p - i..p]
      invariant Encoded(bytes) == ret + Encoded(bytes[p - i..])
    {
      left := left - 1;
      three[i] := bytes[p];
      p, i := p + 1, i + 1;
      assert three[..i] == three[..i - 1] + [bytes[p - 1]] == bytes[p - i..p - 1] + [bytes[p - 1]] == bytes[p - i..p];
      if i == 3 {
        assert three[..3] == [three[0], three[1], three[2]];
        FullGroup(bytes, p - 3, three[0], three[1], three[2]);
        ret := AppendLetters(ret, three, 4);
        i := 0;
      }
    }
    if i == 0 {
      assert bytes[p..] == [];
    } else {
      assert bytes[p - i..] == bytes[p - i..p];
      ret := FinishGroup(ret, three, i);
    }
  }

  /** The last group of one or two bytes: fill up with zeros, append its letters and the padding. */
  method FinishGroup(ret0: string, three: array<Byte>, i0: nat) returns (ret: string)
    requires three.Length == 3 && 0 < i0 < 3
    modifies three
    ensures ret == ret0 + Encoded(old(three[..i0]))
  {
    hide Chars, Encoded, Group, Letter;
    ghost var s := three[..i0];
    var i, j := i0, i0;
    while j < 3
      invariant i <= j <= 3 && three[..i] == s && forall x :: i <= x < j ==> three[x] == 0
    {
      three[j] := 0;
      j := j + 1;
    }
    assert s[0] == three[0] && (i == 2 ==> s[1] == three[1]) && three[2] == 0;
    LastGroup(s);
    ret := AppendLetters(ret0, three, i + 1);
    ghost var body := ret;
    while i < 3
      invariant i0 <= i <= 3 && ret == body + Pads(i - i0)
    {
      ret := ret + [PAD];
      i := i + 1;
    }
  }

  lemma NothingEncoded()
    ensures Encoded([]) == ""
  {
  }

  lemma FullGroup(bytes: seq<Byte>, p: nat, a: Byte, b: Byte, c: Byte)
    requires p + 3 <= |bytes| && bytes[p..p + 3] == [a, b, c]
    ensures Encoded(bytes[p..]) == Chars(a, b, c, 4) + Encoded(bytes[p + 3..])
  {
    var s := bytes[p..];
    assert s[..3] == bytes[p..p + 3];
    assert s[3..] == bytes[p + 3..];
    assert s[0] == s[..3][0] && s[1] == s[..3][1] && s[2] == s[..3][2];
  }

  function Pads(k: nat): string { seq(k, _ => PAD) }

  lemma SplitAll(a: Byte, b: Byte, c: Byte)
    ensures forall k :: 0 <= k < 4 ==> Split(a, b, c, k) == Group(a, b, c, k)
  {
    forall k | 0 <= k < 4 ensures Split(a, b, c, k) == Group(a, b, c, k) { SplitIsGroup(a, b, c, k); }
  }

  lemma LastGroup(s: seq<Byte>)
    requires 0 < |s| < 3
    ensures Encoded(s) == Chars(s[0], if |s| == 2 then s[1] else 0, 0, |s| + 1) + Pads(3 - |s|)
  {
    assert Pads(1) == [PAD] && Pads(2) == [PAD, PAD];
  }

  /** Look up i characters, fill char_array_3 from their values and append its first k bytes. */
  method AppendBytes(ret0: seq<Byte>, chars: array<char>, i: nat, k: nat) returns (ret: seq<Byte>)
    requires chars.Length == 4 && 0 < i <= 4 && k == i - 1 && forall x :: 0 <= x < i ==> IsBase64(chars[x])
    ensures ret == ret0 + GroupBytes(chars[..i], k)
  {
    var four, three := new nat[4](_ => 0), new Byte[3](_ => 0);
    var j := 0;
    while j < i
      invariant 0 <= j <= i && forall x :: 0 <= x < 4 ==> four[x] == if x < j then IndexOf(chars[x]) else 0
    {
      four[j] := IndexOf(chars[j]);
      j := j + 1;
    }
    JoinAll(four[0], four[1], four[2], four[3]);
    three[0] := Join(four[0], four[1], four[2], four[3], 0);
    three[1] := Join(four[0], four[1], four[2], four[3], 1);
    three[2] := Join(four[0], four[1], four[2], four[3], 2);
    hide Join, IndexOf;
    ret := ret0;
    ghost var all := GroupBytes(chars[..i], k);
    j := 0;
    while j < k
      invariant 0 <= j <= k && ret == ret0 + all[..j]
    {
      assert three[j] == all[j];
      ret := ret + [three[j]];
      j := j + 1;
      assert all[..j] == all[..j - 1] + [all[j - 1]];
    }
    assert all[..k] == all;
  }

  function GroupBytes(t: string, k: nat): (r: seq<Byte>)
    requires k <= 3 && forall i :: 0 <= i < |t| ==> IsBase64(t[i])
    ensures |r| == k
  {
    seq(k, i requires 0 <= i < k && (forall i :: 0 <= i < |t| ==> IsBase64(t[i])) => Ungroup(t, i))
  }

  method Decode(text: string) returns (ret: seq<Byte>)
    requires |text| < 0x8000_0000
    ensures ret == Decoded(text)
  {
    hide DecodedBody, GroupBytes, BodyLength, IsBase64;
    ret := [];
    var i, p := 0, 0;
    var chars := new char[4](_ => PAD);
    var left := |text|;
    ghost var n := BodyLength(text);
    PadIsNoLetter();
    assert text[0..n] == text[..n] && [] + DecodedBody(text[..n]) == DecodedBody(text[..n]);
    while left > 0 && text[p] != PAD && IsBase64(text[p])
      invariant 0 <= left && p + left == |text| && p <= n && 0 <= i < 4 && i <= p
      invariant chars[..i] == text[p - i..p]
      invariant DecodedBody(text[..n]) == ret + DecodedBody(text[p - i..n])
    {
      assert p < n;
      left := left - 1;
      chars[i] := text[p];
      p, i := p + 1, i + 1;
      assert chars[..i] == chars[..i - 1] + [text[p - 1]] == text[p - i..p - 1] + [text[p - 1]] == text[p - i..p];
      if i == 4 {
        FullChars(text, p - 4, n);
        LettersOf(text, p - 4, n, chars[..4]);
        ret := AppendBytes(ret, chars, 4, 3);
        i := 0;
      }
    }
    assert p == n;
    if i > 0 {
      LettersOf(text, p - i, n, chars[..i]);
      LastChars(text[p - i..n]);
      ret := AppendBytes(ret, chars, i, i - 1);
    } else {
      NothingLeft(text[n..n]);
    }
  }

  lemma PadIsNoLetter()
    ensures !IsBase64(PAD) && DecodedBody("") == []
  {
  }

  lemma NothingLeft(t: string)
    requires t == ""
    ensures DecodedBody(t) == []
  {
  }

  lemma LettersOf(text: string, p: nat, n: nat, chars: string)
    requires p + |chars| <= n <= |text| && chars == text[p..p + |chars|] && forall i :: 0 <= i < n ==> IsBase64(text[i])
    ensures forall x :: 0 <= x < |chars| ==> IsBase64(chars[x])
  {
    hide IsBase64;
    forall x | 0 <= x < |chars| ensures IsBase64(chars[x]) { assert chars[x] == text[p + x]; }
  }

  lemma FullChars(text: string, p: nat, n: nat)
    requires p + 4 <= n <= |text| && forall i :: 0 <= i < n ==> IsBase64(text[i])
    ensures DecodedBody(text[p..n]) == GroupBytes(text[p..p + 4], 3) + DecodedBody(text[p + 4..n])
  {
    var t := text[p..n];
    assert t[..4] == text[p..p + 4] && t[4..] == text[p + 4..n];
    assert GroupBytes(t[..4], 3) == [Ungroup(t[..4], 0), Ungroup(t[..4], 1), Ungroup(t[..4], 2)];
  }

  lemma LastChars(t: string)
    requires 0 < |t| < 4 && forall i :: 0 <= i < |t| ==> IsBase64(t[i])
    ensures DecodedBody(t) == GroupBytes(t, |t| - 1)
  {
  }

  lemma JoinAll(v0: nat, v1: nat, v2: nat, v3: nat)
    requires v0 < 64 && v1 < 64 && v2 < 64 && v3 < 64
    ensures var n := ((v0 * 64 + v1) * 64 + v2) * 64 + v3;
      Join(v0, v1, v2, v3, 0) == n / 65536 % 256 && Join(v0, v1, v2, v3, 1) == n / 256 % 256 && Join(v0, v1, v2, v3, 2) == n % 256
  {
    JoinIsBytes(v0, v1, v2, v3, 0);
    JoinIsBytes(v0, v1, v2, v3, 1);
    JoinIsBytes(v0, v1, v2, v3, 2);
  }

  // ----- what base64 is for -----

  /** How many characters of padding an encoding ends with: none, one or two. */
  function PadCount(s: seq<Byte>): (k: nat)
    ensures k <= 2 && (|s| + k) % 3 == 0
  {
    (3 - |s| % 3) % 3
  }

  lemma CharsAreLetters(a: Byte, b: Byte, c: Byte, k: nat)
    requires k <= 4
    ensures forall i :: 0 <= i < k ==> IsBase64(Chars(a, b, c, k)[i]) && IndexOf(Chars(a, b, c, k)[i]) == Group(a, b, c, i)
  {
    forall i | 0 <= i < k ensures IsBase64(Chars(a, b, c, k)[i]) && IndexOf(Chars(a, b, c, k)[i]) == Group(a, b, c, i) {
      IndexOfLetter(Group(a, b, c, i));
    }
  }

  /** The body of an encoding is all of it but the padding. */
  lemma {:induction false} BodyOfEncoded(t: string, k: nat)
    requires k <= |t| && forall i :: 0 <= i < |t| ==> (if i < k then IsBase64(t[i]) else t[i] == PAD)
    ensures BodyLength(t) == k
    decreases |t|
  {
    if k > 0 { BodyOfEncoded(t[1..], k - 1); }
  }

  lemma UngroupChars(a: Byte, b: Byte, c: Byte, k: nat)
    requires 2 <= k <= 4 && (k < 4 ==> c == 0) && (k < 3 ==> b == 0)
    ensures var t := Chars(a, b, c, k);
      && (forall i :: 0 <= i < k ==> IsBase64(t[i]))
      && Ungroup(t, 0) == a && (k > 2 ==> Ungroup(t, 1) == b) && (k > 3 ==> Ungroup(t, 2) == c)
  {
    var t := Chars(a, b, c, k);
    CharsAreLetters(a, b, c, k);
    GroupsJoin(a, b, c);
    MissingGroups(a, b, c, k);
    hide Group, Letter, IndexOf, IsBase64;
    assert Val(t, 0) == Group(a, b, c, 0) && Val(t, 1) == Group(a, b, c, 1);
    assert Val(t, 2) == Group(a, b, c, 2) && Val(t, 3) == Group(a, b, c, 3);
    Bytes(a, b, c);
  }

  /** The groups of three bytes make up their 24-bit number. */
  lemma GroupsJoin(a: Byte, b: Byte, c: Byte)
    ensures ((Group(a, b, c, 0) * 64 + Group(a, b, c, 1)) * 64 + Group(a, b, c, 2)) * 64 + Group(a, b, c, 3) == (a * 256 + b) * 256 + c
  {
    Regroup(a, b, c);
    Digits(a / 4, a % 4 * 16 + b / 16, b % 16 * 4 + c / 64, c % 64);
  }

  lemma MissingGroups(a: Byte, b: Byte, c: Byte, k: nat)
    requires 2 <= k <= 4 && (k < 4 ==> c == 0) && (k < 3 ==> b == 0)
    ensures k < 4 ==> Group(a, b, c, 3) == 0
    ensures k < 3 ==> Group(a, b, c, 2) == 0
  {
    Regroup(a, b, c);
    Digits(a / 4, a % 4 * 16 + b / 16, b % 16 * 4 + c / 64, c % 64);
  }

  /** An encoding without its padding. */
  function Letters(s: seq<Byte>): string {
    if |s| == 0 then ""
    else if |s| < 3 then Chars(s[0], if |s| == 2 then s[1] else 0, 0, |s| + 1)
    else Chars(s[0], s[1], s[2], 4) + Letters(s[3..])
  }

  lemma {:induction false} EncodedIsLetters(s: seq<Byte>)
    ensures Encoded(s) == Letters(s) + Pads(PadCount(s))
    ensures forall i :: 0 <= i < |Letters(s)| ==> IsBase64(Letters(s)[i])
    decreases |s|
  {
    hide Chars, Group, IsBase64;
    if |s| >= 3 {
      EncodedIsLetters(s[3..]);
      CharsAreLetters(s[0], s[1], s[2], 4);
      assert PadCount(s) == PadCount(s[3..]);
      hide PadCount;
    } else if |s| > 0 {
      CharsAreLetters(s[0], if |s| == 2 then s[1] else 0, 0, |s| + 1);
      LastGroup(s);
      hide Encoded, Pads;
    }
  }

  lemma {:induction false} LettersLength(s: seq<Byte>)
    ensures |Letters(s)| + PadCount(s) == (|s| + 2) / 3 * 4
    decreases |s|
  {
    hide Chars;
    if |s| >= 3 { LettersLength(s[3..]); }
  }

  lemma {:induction false} LettersDecode(s: seq<Byte>)
    requires forall i :: 0 <= i < |Letters(s)| ==> IsBase64(Letters(s)[i])
    ensures DecodedBody(Letters(s)) == s
    decreases |s|
  {
    if |s| >= 3 {
      EncodedIsLetters(s[3..]);
      LettersDecode(s[3..]);
      UngroupChars(s[0], s[1], s[2], 4);
      var g := Chars(s[0], s[1], s[2], 4);
      assert Letters(s) == g + Letters(s[3..]);
      hide Chars, Group, Ungroup, Letters, IsBase64;
      DecodeConcat(g, Letters(s[3..]));
      assert s == [s[0], s[1], s[2]] + s[3..];
    } else if |s| > 0 {
      UngroupChars(s[0], if |s| == 2 then s[1] else 0, 0, |s| + 1);
      hide Chars, Group, Ungroup, IsBase64;
    }
  }

  lemma DecodeConcat(g: string, u: string)
    requires |g| == 4 && (forall i :: 0 <= i < 4 ==> IsBase64(g[i])) && forall i :: 0 <= i < |u| ==> IsBase64(u[i])
    ensures forall i :: 0 <= i < |g + u| ==> IsBase64((g + u)[i])
    ensures DecodedBody(g + u) == [Ungroup(g, 0), Ungroup(g, 1), Ungroup(g, 2)] + DecodedBody(u)
  {
    hide Ungroup, IsBase64;
    assert (g + u)[..4] == g && (g + u)[4..] == u;
  }

  /** Four characters for every three bytes begun; all are letters of the alphabet but for the
      padding, which is none, one or two characters at the very end. */
  lemma EncodedShape(s: seq<Byte>)
    ensures |Encoded(s)| == (|s| + 2) / 3 * 4
    ensures forall i :: 0 <= i < |Encoded(s)| ==>
      (if i < |Encoded(s)| - PadCount(s) then IsBase64(Encoded(s)[i]) && Encoded(s)[i] != PAD else Encoded(s)[i] == PAD)
  {
    EncodedIsLetters(s);
    LettersLength(s);
    hide Letters, Encoded;
  }

  /** Decoding undoes encoding, for every byte string. */
  lemma RoundTrip(s: seq<Byte>)
    ensures Decoded(Encoded(s)) == s
  {
    EncodedIsLetters(s);
    BodyOfEncoded(Encoded(s), |Letters(s)|);
    LettersDecode(s);
    hide Letters, Encoded, DecodedBody;
    assert Encoded(s)[..|Letters(s)|] == Letters(s);
  }

  /** The two loops, one after the other, on every byte string whose encoding has a length that fits an int. */
  method EncodeThenDecode(s: seq<Byte>) returns (r: seq<Byte>)
    requires (|s| + 2) / 3 * 4 < 0x8000_0000
    ensures r == s
  {
    EncodedShape(s);
    RoundTrip(s);
    var t := Encode(s);
    r := Decode(t);
  }
}
