// The lookbehind matcher against naive search: the data delivered for a part is exactly what
// comes before the first occurrence of CR LF boundary.

module MultipartSearch {
  import opened Wrappers
  import opened Multipart

  function Delimiter(b: seq<Byte>): seq<Byte> { [CR, LF] + b }

  predicate OccursAt(d: seq<Byte>, t: seq<Byte>, k: nat) { k + |d| <= |t| && t[k..k + |d|] == d }

  predicate Occurs(d: seq<Byte>, t: seq<Byte>) { exists k :: 0 <= k <= |t| && OccursAt(d, t, k) }

  predicate EndsWith(t: seq<Byte>, p: seq<Byte>) { |p| <= |t| && t[|t| - |p|..] == p }

  /** A boundary as multipart_parser_init and the delimiter grammar need it. */
  predicate BoundaryOk(b: seq<Byte>) { b != [] && CR !in b }

  /** How much of the delimiter has been matched. */
  function Matched(st: St): nat {
    match st.phase case DataAlmostBoundary => 1 case DataBoundary => 2 + st.index case _ => 0
  }

  /** The parser has read the part data t without meeting the delimiter: the matched bytes are the
      one non-empty prefix of the delimiter that t ends with, if any. */
  ghost predicate Scanning(b: seq<Byte>, st: St, t: seq<Byte>) {
    var d, m := Delimiter(b), Matched(st);
    && InData(b, st)
    && EndsWith(t, d[..m])
    && (forall j :: 0 < j < |d| && EndsWith(t, d[..j]) ==> j == m)
    && !Occurs(d, t)
  }

  lemma EndsWithNext(t: seq<Byte>, c: Byte, d: seq<Byte>, j: nat)
    requires j < |d|
    ensures EndsWith(t + [c], d[..j + 1]) <==> EndsWith(t, d[..j]) && c == d[j]
  {
    var u := t + [c];
    if j + 1 <= |u| {
      assert u[|u| - (j + 1)..] == t[|t| - j..] + [c];
      assert d[..j + 1] == d[..j] + [d[j]];
      if u[|u| - (j + 1)..] == d[..j + 1] {
        assert t[|t| - j..] == u[|u| - (j + 1)..][..j] == d[..j + 1][..j] == d[..j];
        assert u[|u| - 1] == d[j];
      }
    }
  }

  /** The delimiter occurs in t + [c] only if it did in t, or has just been completed. */
  lemma OccursNext(t: seq<Byte>, c: Byte, d: seq<Byte>)
    requires d != []
    ensures Occurs(d, t + [c]) <==> Occurs(d, t) || EndsWith(t + [c], d)
  {
    var u := t + [c];
    if Occurs(d, u) {
      var k :| 0 <= k <= |u| && OccursAt(d, u, k);
      if k + |d| <= |t| {
        assert t[k..k + |d|] == u[k..k + |d|];
        assert OccursAt(d, t, k);
      } else {
        assert u[k..] == u[k..k + |d|];
      }
    }
    if Occurs(d, t) {
      var k :| 0 <= k <= |t| && OccursAt(d, t, k);
      assert t[k..k + |d|] == u[k..k + |d|];
      assert OccursAt(d, u, k);
    }
    if EndsWith(u, d) {
      var k := |u| - |d|;
      assert u[k..] == u[k..k + |d|];
      assert OccursAt(d, u, k);
    }
  }

  /** Only the first byte of the delimiter is CR. */
  lemma DelimiterBytes(b: seq<Byte>, j: nat)
    requires BoundaryOk(b) && j < |b| + 2
    ensures Delimiter(b)[j] == CR <==> j == 0
    ensures j >= 2 ==> Delimiter(b)[j] == b[j - 2]
  {
  }

  /** The matched length after one more byte. */
  function MatchedNext(d: seq<Byte>, m: nat, c: Byte): nat
    requires m < |d|
  {
    if c == d[m] then m + 1 else if c == CR then 1 else 0
  }

  predicate InData(b: seq<Byte>, st: St) { st.phase.Data? || st.phase.DataAlmostBoundary? || (st.phase.DataBoundary? && st.index < |b|) }

  /** Feed after a match, as a function of the matched length: on a mismatch the matched bytes are data. */
  function FeedMatched(b: seq<Byte>, m: nat, index: nat, c: Byte): Fed
    requires m < |b| + 2
  {
    var d := Delimiter(b);
    if c == d[m] then
      if m == 0 then Fed(St(DataAlmostBoundary, index), [], true)
      else if m + 1 == |d| then Fed(St(DataAlmostEnd, |b|), [PartDataEnd], true)
      else Fed(St(DataBoundary, m - 1), [], true)
    else Prepend(PartBytes(d[..m]), FeedData(index, c))
  }

  lemma FeedIsFeedMatched(b: seq<Byte>, st: St, c: Byte)
    requires BoundaryOk(b) && InData(b, st)
    ensures Matched(st) < |b| + 2 && Feed(b, st, c) == FeedMatched(b, Matched(st), st.index, c)
  {
    var d, m := Delimiter(b), Matched(st);
    DelimiterBytes(b, m);
    FeedInValue(b, st, c);
    FeedInBoundary(b, st, c);
    hide Feed;
    if st.phase.DataBoundary? {
      assert d[..m] == [CR, LF] + b[..st.index];
    } else if st.phase.DataAlmostBoundary? {
      assert d[..m] == [CR] && d[1] == LF;
    } else {
      assert PartBytes(d[..0]) == [];
      assert [] + FeedData(st.index, c).events == FeedData(st.index, c).events;
    }
  }

  /** The bytes delivered: what drops out of the matched ones. */
  lemma DroppedBytes(d: seq<Byte>, m: nat, c: Byte)
    requires m < |d|
    ensures var m' := MatchedNext(d, m, c);
      && m' <= m + 1
      && PartBytes((d[..m] + [c])[..m + 1 - m']) ==
        if c == d[m] then [] else if c == CR then PartBytes(d[..m]) else PartBytes(d[..m]) + [PartByte(c)]
  {
    var m' := MatchedNext(d, m, c);
    var s := (d[..m] + [c])[..m + 1 - m'];
    if c == d[m] {
      assert s == [];
    } else if c == CR {
      assert s == d[..m];
    } else {
      assert s == d[..m] + [c];
      assert PartBytes(s) == PartBytes(d[..m]) + [PartByte(c)];
    }
  }

  /** What Feed does with a byte of part data, in terms of the matched length. */
  lemma FeedScans(b: seq<Byte>, st: St, c: Byte)
    requires BoundaryOk(b) && InData(b, st)
    ensures var d, m, f := Delimiter(b), Matched(st), Feed(b, st, c);
      && f.ok && m < |d|
      && var m' := MatchedNext(d, m, c);
      if m' == |d| then f == Fed(St(DataAlmostEnd, |b|), [PartDataEnd], true)
      else Matched(f.st) == m' <= m + 1 && InData(b, f.st) && f.events == PartBytes((d[..m] + [c])[..m + 1 - m'])
  {
    var d, m := Delimiter(b), Matched(st);
    FeedIsFeedMatched(b, st, c);
    DelimiterBytes(b, m);
    DroppedBytes(d, m, c);
    hide Feed, PartBytes;
    assert PartBytes(d[..m]) + [] == PartBytes(d[..m]);
  }

  /** One more byte keeps the parser scanning, or completes the delimiter. */
  lemma ScanStep(b: seq<Byte>, st: St, t: seq<Byte>, c: Byte)
    requires BoundaryOk(b) && Scanning(b, st, t)
    ensures var d, m, f := Delimiter(b), Matched(st), Feed(b, st, c);
      && f.ok && m < |d|
      && (Occurs(d, t + [c]) <==> MatchedNext(d, m, c) == |d|)
      && (!Occurs(d, t + [c]) ==> Scanning(b, f.st, t + [c]))
  {
    var d, m, u := Delimiter(b), Matched(st), t + [c];
    FeedScans(b, st, c);
    hide Feed, Occurs;
    OccursNext(t, c, d);
    assert d[..|d|] == d;
    EndsWithNext(t, c, d, |d| - 1);
    EndsWithNext(t, c, d, m);
    var m' := MatchedNext(d, m, c);
    DelimiterBytes(b, m);
    forall j | 0 < j < |d| && EndsWith(u, d[..j]) ensures j == m' {
      EndsWithNext(t, c, d, j - 1);
      DelimiterBytes(b, j - 1);
    }
    if m' < |d| {
      if m' == 1 { EndsWithNext(t, c, d, 0); assert d[..0] == []; }
      if m' == 0 { assert d[..0] == []; }
    }
  }

  /** Part data without the delimiter: everything but the matched bytes has been delivered. */
  lemma {:induction false} ScanAll(b: seq<Byte>, index: nat, t: seq<Byte>)
    requires BoundaryOk(b) && !Occurs(Delimiter(b), t)
    ensures var o := FeedAll(b, St(Data, index), t);
      && o.rejected == None && Scanning(b, o.st, t)
      && o.events == PartBytes(t[..|t| - Matched(o.st)])
    decreases |t|
  {
    var d := Delimiter(b);
    if t == [] {
      assert forall j :: 0 < j < |d| ==> !EndsWith(t, d[..j]);
    } else {
      var s, c := t[..|t| - 1], t[|t| - 1];
      assert t == s + [c];
      OccursNext(s, c, d);
      ScanAll(b, index, s);
      ScanMore(b, index, s, c);
    }
  }

  lemma ScanMore(b: seq<Byte>, index: nat, s: seq<Byte>, c: Byte)
    requires BoundaryOk(b) && !Occurs(Delimiter(b), s + [c])
    requires var o := FeedAll(b, St(Data, index), s);
      o.rejected == None && Scanning(b, o.st, s) && o.events == PartBytes(s[..|s| - Matched(o.st)])
    ensures var t := s + [c];
      var o := FeedAll(b, St(Data, index), t);
      o.rejected == None && Scanning(b, o.st, t) && o.events == PartBytes(t[..|t| - Matched(o.st)])
  {
    hide Feed, FeedAll, Occurs, PartBytes;
    var d, o := Delimiter(b), FeedAll(b, St(Data, index), s);
    var m := Matched(o.st);
    FeedConcat(b, St(Data, index), s, [c]);
    ScanStep(b, o.st, s, c);
    FeedScans(b, o.st, c);
    FeedOne(b, o.st, c);
    hide Scanning;
    DropBytes(s, c, d, m, MatchedNext(d, m, c));
  }

  lemma DropBytes(s: seq<Byte>, c: Byte, d: seq<Byte>, m: nat, m': nat)
    requires m < |d| && EndsWith(s, d[..m]) && m' <= m + 1
    ensures PartBytes((s + [c])[..|s| + 1 - m']) == PartBytes(s[..|s| - m]) + PartBytes((d[..m] + [c])[..m + 1 - m'])
  {
    assert s == s[..|s| - m] + d[..m];
    var x := (d[..m] + [c])[..m + 1 - m'];
    assert (s + [c])[..|s| + 1 - m'] == s[..|s| - m] + x;
  }

  lemma FeedOne(b: seq<Byte>, st: St, c: Byte)
    requires Feed(b, st, c).ok
    ensures FeedAll(b, st, [c]) == Outcome(Feed(b, st, c).st, Feed(b, st, c).events, None)
  {
    hide Feed;
    assert FeedAll(b, Feed(b, st, c).st, [c][1..]) == Outcome(Feed(b, st, c).st, [], None);
    assert Feed(b, st, c).events + [] == Feed(b, st, c).events;
  }

  /** The matcher refines naive search. Reading part data t followed by the delimiter, where the
      delimiter does not begin earlier, delivers exactly t and then ends the part; t is the data
      before the first CR LF boundary. */
  lemma DeliversUpToDelimiter(b: seq<Byte>, index: nat, t: seq<Byte>)
    requires BoundaryOk(b) && !Occurs(Delimiter(b), t)
    ensures FeedAll(b, St(Data, index), t + Delimiter(b)) == Outcome(St(DataAlmostEnd, |b|), PartBytes(t) + [PartDataEnd], None)
  {
    var d := Delimiter(b);
    var s, c := d[..|b| + 1], d[|b| + 1];
    NoneYet(b, t);
    hide Feed, FeedAll, Occurs, PartBytes;
    ScanAll(b, index, t + s);
    var o := FeedAll(b, St(Data, index), t + s);
    assert EndsWith(t + s, s);
    assert Matched(o.st) == |b| + 1;
    FeedScans(b, o.st, c);
    FeedOne(b, o.st, c);
    FeedConcat(b, St(Data, index), t + s, [c]);
    hide Scanning;
    assert t + d == (t + s) + [c];
    assert (t + s)[..|t + s| - (|b| + 1)] == t;
  }

  /** The delimiter has a CR only at its start, so it cannot begin before the end of t and reach past it. */
  lemma NoneYet(b: seq<Byte>, t: seq<Byte>)
    requires BoundaryOk(b) && !Occurs(Delimiter(b), t)
    ensures !Occurs(Delimiter(b), t + Delimiter(b)[..|b| + 1])
  {
    var d := Delimiter(b);
    var s := d[..|b| + 1];
    var u := t + s;
    if Occurs(d, u) {
      var k :| 0 <= k <= |u| && OccursAt(d, u, k);
      if k + |d| <= |t| {
        assert t[k..k + |d|] == u[k..k + |d|];
        assert OccursAt(d, t, k);
      } else {
        // u[|t|] is a CR strictly inside the occurrence
        assert u[|t|] == s[0] == CR;
        DelimiterBytes(b, |t| - k);
      }
    }
  }
}
