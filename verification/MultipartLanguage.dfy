// Which bodies the parser accepts: exactly the forms; and where it rejects the others: at the first
// byte with which what has been read can no longer be continued to a form.

module MultipartLanguage {
  import opened Wrappers
  import opened Multipart
  import opened MultipartSearch
  import opened MultipartForm

  /** A body as the grammar has it: parts rendered with the boundary, and anything after the end. */
  ghost predicate IsForm(b: seq<Byte>, s: seq<Byte>) {
    exists parts, epilogue :: parts != [] && PartsOk(b, parts) && s == Render(b, parts, epilogue)
  }

  /** All of s is accepted, and it ends the body. */
  ghost predicate Accepts(b: seq<Byte>, st: St, s: seq<Byte>) {
    FeedAll(b, st, s).rejected == None && FeedAll(b, st, s).st.phase.End?
  }

  // ----- the first line -----

  /** The length of the longest common beginning. */
  function Common(s: seq<Byte>, d: seq<Byte>): (k: nat)
    ensures k <= |s| && k <= |d| && s[..k] == d[..k]
    ensures k < |s| && k < |d| ==> s[k] != d[k]
    decreases |s|
  {
    if s == [] || d == [] || s[0] != d[0] then 0 else 1 + Common(s[1..], d[1..])
  }

  lemma {:induction false} FirstLineFrom(b: seq<Byte>, i: nat, s: seq<Byte>)
    requires i <= |b| + 2
    ensures var d, o := (b + [CR, LF])[i..], FeedAll(b, if i == |b| + 2 then St(FieldStart, 0) else St(StartBoundary, i), s);
      var k := Common(s, d);
      if k < |s| && k < |d| then o.rejected == Some(k) && o.events == [] else o.rejected.Some? ==> o.rejected.value >= |d|
    decreases |s|
  {
    if i < |b| + 2 && s != [] {
      var d := (b + [CR, LF])[i..];
      assert d[0] == (b + [CR, LF])[i] && d[1..] == (b + [CR, LF])[i + 1..];
      if s[0] == d[0] {
        FirstLineFrom(b, i + 1, s[1..]);
      }
    }
  }

  /** The first line must be the boundary: the body is accepted as far as it agrees with the boundary
      and CR LF, and rejected at the first byte that differs, before anything is notified. */
  lemma FirstLine(b: seq<Byte>, s: seq<Byte>)
    ensures var d, o := b + [CR, LF], FeedAll(b, St(Start, 0), s);
      var k := Common(s, d);
      if k < |s| && k < |d| then o.rejected == Some(k) && o.events == [] else o.rejected.Some? ==> o.rejected.value >= |d|
  {
    FirstLineFrom(b, 0, s);
    assert (b + [CR, LF])[0..] == b + [CR, LF];
    hide Feed;
    if s != [] { StartIsBoundary(b, s); }
  }

  // ----- what is accepted is a form -----

  lemma AcceptsRest(b: seq<Byte>, x: St, s: seq<Byte>, y: St, e: seq<Event>, t: seq<Byte>)
    requires Tells(b, x, s, y, e) && Accepts(b, x, s + t)
    ensures Accepts(b, y, t)
  {
    FeedConcat(b, x, s, t);
    hide FeedAll;
  }

  lemma AcceptsNext(b: seq<Byte>, x: St, s: seq<Byte>)
    requires Accepts(b, x, s) && !x.phase.End?
    ensures s != [] && Feed(b, x, s[0]).ok && Accepts(b, Feed(b, x, s[0]).st, s[1..])
  {
    hide Feed;
  }

  /** The longest name that s begins with. */
  function NameLength(s: seq<Byte>): (k: nat)
    ensures k <= |s| && Name(s[..k]) && (k < |s| ==> !NameByte(s[k]))
    decreases |s|
  {
    if s == [] || !NameByte(s[0]) then 0 else
      var k := 1 + NameLength(s[1..]);
      assert forall i :: 0 < i < k ==> s[i] == s[1..][i - 1];
      k
  }

  /** The bytes before the first CR. */
  function LineLength(s: seq<Byte>): (k: nat)
    ensures k <= |s| && CR !in s[..k] && (k < |s| ==> s[k] == CR)
    decreases |s|
  {
    if s == [] || s[0] == CR then 0 else 1 + LineLength(s[1..])
  }

  /** A name is followed by CR or by a separator. */
  lemma SplitName(b: seq<Byte>, i: nat, s: seq<Byte>) returns (k: nat)
    requires Accepts(b, St(FieldStart, i), s)
    ensures k < |s| && Name(s[..k]) && (s[k] == CR || s[k] == COLON || s[k] == SPACE || s[k] == TAB)
    ensures Accepts(b, AfterName(i, k), s[k..])
  {
    k := NameLength(s);
    var y := AfterName(i, k);
    TellsName(b, i, s[..k]);
    assert s == s[..k] + s[k..];
    AcceptsRest(b, St(FieldStart, i), s[..k], y, [], s[k..]);
    AcceptsNext(b, y, s[k..]);
    hide FeedAll, Accepts, Tells;
  }

  lemma TellsLine(b: seq<Byte>, i: nat, s: seq<Byte>)
    requires CR !in s
    ensures exists y, e :: Tells(b, St(ValueStart, i), s, y, e) && (y == St(ValueStart, i) || y == St(Value, i))
    ensures exists e :: Tells(b, St(Value, i), s, St(Value, i), e)
    decreases |s|
  {
    if s == [] {
      TellsNothing(b, St(ValueStart, i));
      TellsNothing(b, St(Value, i));
    } else {
      TellsLine(b, i, s[1..]);
      var y := Feed(b, St(ValueStart, i), s[0]).st;
      TellsOne(b, St(ValueStart, i), s[0]);
      TellsOne(b, St(Value, i), s[0]);
      assert y == St(ValueStart, i) || y == St(Value, i);
      assert Feed(b, St(Value, i), s[0]).st == St(Value, i);
      assert [s[0]] + s[1..] == s;
      hide Feed, FeedAll, Tells;
      var e :| Tells(b, St(Value, i), s[1..], St(Value, i), e);
      TellsConcat(b, St(Value, i), [s[0]], St(Value, i), s[1..], St(Value, i), Feed(b, St(Value, i), s[0]).events, e);
      var z, f :| Tells(b, y, s[1..], z, f) && (z == St(ValueStart, i) || z == St(Value, i));
      TellsConcat(b, St(ValueStart, i), [s[0]], y, s[1..], z, Feed(b, St(ValueStart, i), s[0]).events, f);
    }
  }

  /** A value ends with CR LF, and the next line begins. */
  lemma SplitValue(b: seq<Byte>, i: nat, s: seq<Byte>) returns (k: nat)
    requires Accepts(b, St(ValueStart, i), s)
    ensures k + 2 <= |s| && CR !in s[..k] && s[k] == CR && s[k + 1] == LF && Accepts(b, St(FieldStart, i), s[k + 2..])
  {
    k := LineLength(s);
    hide FeedAll, Tells, Accepts;
    TellsLine(b, i, s[..k]);
    var y, e :| Tells(b, St(ValueStart, i), s[..k], y, e) && (y == St(ValueStart, i) || y == St(Value, i));
    assert s == s[..k] + s[k..];
    AcceptsRest(b, St(ValueStart, i), s[..k], y, e, s[k..]);
    AcceptsNext(b, y, s[k..]);
    AcceptsNext(b, St(ValueAlmostDone, i), s[k..][1..]);
    assert s[k..][1..][1..] == s[k + 2..] && s[k..][1..][0] == s[k + 1];
  }

  function AfterName(i: nat, k: nat): St { if k == 0 then St(FieldStart, i) else St(Field, i) }

  /** A name followed by CR is the end of the headers. */
  lemma SplitEnd(b: seq<Byte>, i: nat, s: seq<Byte>, k: nat)
    requires k < |s| && s[k] == CR && Accepts(b, AfterName(i, k), s[k..])
    ensures k + 2 <= |s| && s == s[..k] + [CR, LF] + s[k + 2..] && Accepts(b, St(DataStart, i), s[k + 2..])
  {
    AcceptsNext(b, AfterName(i, k), s[k..]);
    assert s[k..][1..] == s[k + 1..];
    AcceptsNext(b, St(HeadersAlmostDone, i), s[k + 1..]);
    assert s[k + 1..][1..] == s[k + 2..] && s[k + 1..][0] == s[k + 1];
    hide FeedAll, Accepts;
  }

  /** A name followed by a separator has a value. */
  lemma SplitSeparator(b: seq<Byte>, i: nat, s: seq<Byte>, k: nat)
    requires k < |s| && (s[k] == COLON || s[k] == SPACE || s[k] == TAB) && Accepts(b, AfterName(i, k), s[k..])
    ensures Accepts(b, St(ValueStart, i), s[k + 1..])
  {
    AcceptsNext(b, AfterName(i, k), s[k..]);
    assert s[k..][1..] == s[k + 1..];
    hide FeedAll, Accepts;
  }

  /** The header lines, up to the one that ends them. */
  lemma {:induction false} SplitHeaders(b: seq<Byte>, i: nat, s: seq<Byte>) returns (hs: seq<Header>, last: seq<Byte>, rest: seq<Byte>)
    requires Accepts(b, St(FieldStart, i), s)
    ensures HeadersOk(hs) && Name(last) && s == RenderHeaders(hs, last) + rest && Accepts(b, St(DataStart, i), rest)
    decreases |s|
  {
    hide Accepts, FeedAll;
    var k := SplitName(b, i, s);
    if s[k] == CR {
      SplitEnd(b, i, s, k);
      hs, last, rest := [], s[..k], s[k + 2..];
    } else {
      SplitSeparator(b, i, s, k);
      var j := SplitValue(b, i, s[k + 1..]);
      var h, more := Header(s[..k], s[k], s[k + 1..][..j]), [];
      more, last, rest := SplitHeaders(b, i, s[k + 1..][j + 2..]);
      HeaderBytes(s, k, j);
      hs := [h] + more;
      OneMoreHeader(h, more, last, rest);
    }
  }

  lemma OneMoreHeader(h: Header, hs: seq<Header>, last: seq<Byte>, rest: seq<Byte>)
    ensures RenderHeaders([h] + hs, last) + rest == RenderHeader(h) + (RenderHeaders(hs, last) + rest)
    ensures HeadersOk([h] + hs) <==> HeaderOk(h) && HeadersOk(hs)
  {
    assert ([h] + hs)[1..] == hs;
    if HeadersOk([h] + hs) {
      assert HeaderOk(([h] + hs)[0]);
      forall i | 0 <= i < |hs| ensures HeaderOk(hs[i]) { assert ([h] + hs)[i + 1] == hs[i]; }
    }
  }

  lemma HeaderBytes(s: seq<Byte>, k: nat, j: nat)
    requires k < |s| && j + 2 <= |s[k + 1..]| && s[k + 1..][j] == CR && s[k + 1..][j + 1] == LF
    ensures s == RenderHeader(Header(s[..k], s[k], s[k + 1..][..j])) + s[k + 1..][j + 2..]
  {
    var t := s[k + 1..];
    assert t == t[..j] + [CR, LF] + t[j + 2..];
    assert s == s[..k] + [s[k]] + t;
  }

  /** The body is what comes before the first delimiter. */
  lemma SplitBody(b: seq<Byte>, i: nat, s: seq<Byte>) returns (k: nat)
    requires BoundaryOk(b) && Accepts(b, St(DataStart, i), s)
    ensures k + |b| + 2 <= |s| && !Occurs(Delimiter(b), s[..k]) && s == s[..k] + Delimiter(b) + s[k + |b| + 2..]
    ensures Accepts(b, St(DataAlmostEnd, |b|), s[k + |b| + 2..])
  {
    var d := Delimiter(b);
    AcceptsNext(b, St(DataStart, i), s);
    DataStartFeeds(b, i, s);
    if !Occurs(d, s) { StillScanning(b, i, s); }
    var f := Find(s, d, 0);
    k := f.value;
    FirstDelimiter(s, d, k);
    TellsBody(b, i, s[..k]);
    AcceptsRest(b, St(DataStart, i), s[..k] + d, St(DataAlmostEnd, |b|), ToldBody(s[..k]), s[k + |b| + 2..]);
    hide FeedAll, Accepts, Tells, Occurs;
  }

  lemma StillScanning(b: seq<Byte>, i: nat, s: seq<Byte>)
    requires BoundaryOk(b) && !Occurs(Delimiter(b), s)
    ensures !FeedAll(b, St(Data, i), s).st.phase.End?
  {
    ScanAll(b, i, s);
    hide FeedAll, Occurs;
  }

  lemma FirstDelimiter(s: seq<Byte>, d: seq<Byte>, k: nat)
    requires OccursAt(d, s, k) && forall j :: 0 <= j < k ==> !OccursAt(d, s, j)
    requires d != []
    ensures !Occurs(d, s[..k]) && k + |d| <= |s| && s == s[..k] + d + s[k + |d|..]
  {
    forall j | 0 <= j <= k ensures !OccursAt(d, s[..k], j) {
      if j + |d| <= k {
        assert s[..k][j..j + |d|] == s[j..j + |d|];
        assert !OccursAt(d, s, j);
      }
    }
  }

  /** Two hyphens, and anything; or CR LF and another part. */
  lemma SplitTail(b: seq<Byte>, s: seq<Byte>)
    requires Accepts(b, St(DataAlmostEnd, |b|), s)
    ensures |s| >= 2
    ensures (s[0] == HYPHEN && s[1] == HYPHEN) || (s[0] == CR && s[1] == LF && Accepts(b, St(FieldStart, |b|), s[2..]))
  {
    AcceptsNext(b, St(DataAlmostEnd, |b|), s);
    AcceptsNext(b, Feed(b, St(DataAlmostEnd, |b|), s[0]).st, s[1..]);
    assert s[1..][0] == s[1] && s[1..][1..] == s[2..];
    hide FeedAll, Accepts;
  }

  lemma {:induction false} SplitParts(b: seq<Byte>, i: nat, s: seq<Byte>) returns (parts: seq<Part>, epilogue: seq<Byte>)
    requires BoundaryOk(b) && Accepts(b, St(FieldStart, i), s)
    ensures parts != [] && PartsOk(b, parts) && s == RenderParts(b, parts, epilogue)
    decreases |s|
  {
    hide FeedAll, Accepts, Occurs, HeadersOk, RenderHeaders, Name;
    var hs, last, rest := SplitHeaders(b, i, s);
    var k := SplitBody(b, i, rest);
    var p, tail := Part(hs, last, rest[..k]), rest[k + |b| + 2..];
    SplitTail(b, tail);
    assert s == RenderPart(b, p) + tail by {
      assert RenderHeaders(hs, last) + (rest[..k] + Delimiter(b) + tail) == RenderHeaders(hs, last) + (rest[..k] + Delimiter(b)) + tail;
    }
    if tail[0] == HYPHEN {
      parts, epilogue := [p], tail[2..];
      assert tail == [HYPHEN, HYPHEN] + tail[2..];
    } else {
      var more;
      more, epilogue := SplitParts(b, |b|, tail[2..]);
      parts := [p] + more;
      assert tail == [CR, LF] + tail[2..] && parts[1..] == more;
    }
  }

  /** The parser accepts a body, and comes to its end, if and only if it is a form. */
  lemma AcceptedIffForm(b: seq<Byte>, s: seq<Byte>)
    requires BoundaryOk(b)
    ensures Accepts(b, St(Start, 0), s) <==> IsForm(b, s)
  {
    hide FeedAll, Feed, PartsOk, RenderParts, ToldTail, NoteAll;
    if IsForm(b, s) {
      var parts, epilogue :| parts != [] && PartsOk(b, parts) && s == Render(b, parts, epilogue);
      RoundTrip(b, parts, epilogue);
    }
    if Accepts(b, St(Start, 0), s) {
      var k := AcceptedOpening(b, s);
      var parts, epilogue := SplitParts(b, 0, s[k..]);
      assert s == Render(b, parts, epilogue);
    }
  }

  lemma AcceptedOpening(b: seq<Byte>, s: seq<Byte>) returns (k: nat)
    requires b != [] && Accepts(b, St(Start, 0), s)
    ensures k == |b| + 2 <= |s| && s[..k] == b + [CR, LF] && Accepts(b, St(FieldStart, 0), s[k..])
  {
    k := |b| + 2;
    AcceptsNext(b, St(Start, 0), s);
    StartIsBoundary(b, s);
    FirstLine(b, s);
    ShortOpening(b, 0, s);
    assert (b + [CR, LF])[..k] == b + [CR, LF] && (b + [CR, LF])[0..] == b + [CR, LF];
    TellsOpening(b, 0);
    assert b[0..] == b && s == (b + [CR, LF]) + s[k..];
    AcceptsRest(b, St(StartBoundary, 0), b + [CR, LF], St(FieldStart, 0), [PartDataBegin], s[k..]);
    hide FeedAll, Accepts;
  }

  /** A body that is only a part of the first line does not end there. */
  lemma {:induction false} ShortOpening(b: seq<Byte>, i: nat, s: seq<Byte>)
    requires i < |b| + 2
    ensures Common(s, (b + [CR, LF])[i..]) == |s| < |b| + 2 - i ==> !FeedAll(b, St(StartBoundary, i), s).st.phase.End?
    decreases |s|
  {
    var d := (b + [CR, LF])[i..];
    if s != [] && Common(s, d) == |s| < |b| + 2 - i {
      assert d[0] == (b + [CR, LF])[i] && d[1..] == (b + [CR, LF])[i + 1..];
      ShortOpening(b, i + 1, s[1..]);
    }
  }

  // ----- what is not rejected can become a form -----

  /** A state that the parser can be in. */
  predicate Live(b: seq<Byte>, st: St) {
    && (st.phase.StartBoundary? ==> st.index <= |b| + 1)
    && (st.phase.DataBoundary? ==> st.index < |b|)
  }

  lemma LiveNext(b: seq<Byte>, st: St, c: Byte)
    requires b != [] && Live(b, st) && Feed(b, st, c).ok
    ensures Live(b, Feed(b, st, c).st)
  {
  }

  lemma {:induction false} LiveAll(b: seq<Byte>, st: St, s: seq<Byte>)
    requires b != [] && Live(b, st) && FeedAll(b, st, s).rejected == None
    ensures Live(b, FeedAll(b, st, s).st)
    decreases |s|
  {
    hide Feed, Live;
    if s != [] {
      LiveNext(b, st, s[0]);
      LiveAll(b, Feed(b, st, s[0]).st, s[1..]);
    }
  }

  /** After s the parser is where t is accepted, so s + t is. */
  lemma AcceptsBoth(b: seq<Byte>, x: St, s: seq<Byte>, t: seq<Byte>)
    requires FeedAll(b, x, s).rejected == None && Accepts(b, FeedAll(b, x, s).st, t)
    ensures Accepts(b, x, s + t)
  {
    FeedConcat(b, x, s, t);
    hide FeedAll;
  }

  lemma AcceptsOne(b: seq<Byte>, x: St, c: Byte, t: seq<Byte>)
    requires Feed(b, x, c).ok && Accepts(b, Feed(b, x, c).st, t)
    ensures Accepts(b, x, [c] + t)
  {
    hide Feed;
    FeedOne(b, x, c);
    AcceptsBoth(b, x, [c], t);
  }

  /** From the end of a part, two hyphens will do. */
  lemma CloseEnd(b: seq<Byte>, i: nat)
    ensures Accepts(b, St(FinalHyphen, i), [HYPHEN]) && Accepts(b, St(DataAlmostEnd, i), [HYPHEN] + [HYPHEN])
  {
    TellsOne(b, St(FinalHyphen, i), HYPHEN);
    AcceptsOne(b, St(DataAlmostEnd, i), HYPHEN, [HYPHEN]);
  }

  /** From within a delimiter, the rest of it and two hyphens. */
  lemma {:induction false} CloseBoundary(b: seq<Byte>, i: nat) returns (t: seq<Byte>)
    requires i < |b|
    ensures Accepts(b, St(DataBoundary, i), t)
    decreases |b| - i
  {
    var rest;
    if i + 1 == |b| {
      rest := [HYPHEN] + [HYPHEN];
      CloseEnd(b, |b|);
      assert Feed(b, St(DataBoundary, i), b[i]).st == St(DataAlmostEnd, |b|);
    } else {
      rest := CloseBoundary(b, i + 1);
      assert Feed(b, St(DataBoundary, i), b[i]).st == St(DataBoundary, i + 1);
    }
    AcceptsOne(b, St(DataBoundary, i), b[i], rest);
    t := [b[i]] + rest;
  }

  /** From within part data. */
  lemma CloseData(b: seq<Byte>, i: nat) returns (t: seq<Byte>)
    requires b != []
    ensures Accepts(b, St(DataAlmostBoundary, i), [LF] + t)
    ensures Accepts(b, St(Data, i), [CR] + ([LF] + t)) && Accepts(b, St(DataStart, i), [CR] + ([LF] + t))
  {
    t := CloseBoundary(b, 0);
    AcceptsOne(b, St(DataAlmostBoundary, i), LF, t);
    AcceptsOne(b, St(Data, i), CR, [LF] + t);
    AcceptsOne(b, St(DataStart, i), CR, [LF] + t);
  }

  /** From within the headers. */
  lemma CloseHeaders(b: seq<Byte>, i: nat) returns (t: seq<Byte>)
    requires b != []
    ensures Accepts(b, St(HeadersAlmostDone, i), [LF] + t)
    ensures Accepts(b, St(FieldStart, i), [CR] + ([LF] + t)) && Accepts(b, St(Field, i), [CR] + ([LF] + t))
    ensures Accepts(b, St(ValueAlmostDone, i), [LF] + ([CR] + ([LF] + t)))
    ensures Accepts(b, St(Value, i), [CR] + ([LF] + ([CR] + ([LF] + t)))) && Accepts(b, St(ValueStart, i), [CR] + ([LF] + ([CR] + ([LF] + t))))
  {
    var u := CloseData(b, i);
    t := [CR] + ([LF] + u);
    AcceptsOne(b, St(HeadersAlmostDone, i), LF, t);
    AcceptsOne(b, St(FieldStart, i), CR, [LF] + t);
    AcceptsOne(b, St(Field, i), CR, [LF] + t);
    AcceptsOne(b, St(ValueAlmostDone, i), LF, [CR] + ([LF] + t));
    AcceptsOne(b, St(Value, i), CR, [LF] + ([CR] + ([LF] + t)));
    AcceptsOne(b, St(ValueStart, i), CR, [LF] + ([CR] + ([LF] + t)));
  }

  /** From within the first line. */
  lemma {:induction false} CloseStart(b: seq<Byte>, i: nat) returns (t: seq<Byte>)
    requires b != [] && i <= |b| + 1
    ensures Accepts(b, St(StartBoundary, i), t)
    decreases |b| + 1 - i
  {
    var rest;
    if i == |b| + 1 {
      var u := CloseHeaders(b, 0);
      rest := [CR] + ([LF] + u);
    } else {
      rest := CloseStart(b, i + 1);
    }
    var c := (b + [CR, LF])[i];
    AcceptsOne(b, St(StartBoundary, i), c, rest);
    t := [c] + rest;
  }

  lemma Completion(b: seq<Byte>, st: St) returns (t: seq<Byte>)
    requires b != [] && Live(b, st)
    ensures Accepts(b, st, t)
  {
    var i := st.index;
    hide Accepts, Feed;
    match st.phase {
      case Start =>
        t := CloseStart(b, 0);
        StartAccepts(b, i, t);
      case StartBoundary => t := CloseStart(b, i);
      case FieldStart => var u := CloseHeaders(b, i); t := [CR] + ([LF] + u);
      case Field => var u := CloseHeaders(b, i); t := [CR] + ([LF] + u);
      case HeadersAlmostDone => var u := CloseHeaders(b, i); t := [LF] + u;
      case ValueStart => var u := CloseHeaders(b, i); t := [CR] + ([LF] + ([CR] + ([LF] + u)));
      case Value => var u := CloseHeaders(b, i); t := [CR] + ([LF] + ([CR] + ([LF] + u)));
      case ValueAlmostDone => var u := CloseHeaders(b, i); t := [LF] + ([CR] + ([LF] + u));
      case DataStart => var u := CloseData(b, i); t := [CR] + ([LF] + u);
      case Data => var u := CloseData(b, i); t := [CR] + ([LF] + u);
      case DataAlmostBoundary => var u := CloseData(b, i); t := [LF] + u;
      case DataBoundary => t := CloseBoundary(b, i);
      case DataAlmostEnd => CloseEnd(b, i); t := [HYPHEN] + [HYPHEN];
      case DataEnd =>
        var u := CloseHeaders(b, i);
        t := [LF] + ([CR] + ([LF] + u));
        NextPartAccepts(b, i, [CR] + ([LF] + u));
      case FinalHyphen => CloseEnd(b, i); t := [HYPHEN];
      case End => t := []; TellsNothing(b, st); EndAccepts(b, i);
    }
  }

  lemma StartAccepts(b: seq<Byte>, i: nat, t: seq<Byte>)
    requires Accepts(b, St(StartBoundary, 0), t)
    ensures Accepts(b, St(Start, i), t)
  {
  }

  lemma NextPartAccepts(b: seq<Byte>, i: nat, t: seq<Byte>)
    requires Accepts(b, St(FieldStart, i), t)
    ensures Accepts(b, St(DataEnd, i), [LF] + t)
  {
    AcceptsOne(b, St(DataEnd, i), LF, t);
  }

  lemma EndAccepts(b: seq<Byte>, i: nat)
    ensures Accepts(b, St(End, i), [])
  {
  }

  /** What has been read can still become a form. */
  ghost predicate Viable(b: seq<Byte>, s: seq<Byte>) { exists f :: s <= f && IsForm(b, f) }

  /** A body is accepted so far if and only if it can still become a form. */
  lemma AcceptedIffViable(b: seq<Byte>, s: seq<Byte>)
    requires BoundaryOk(b)
    ensures FeedAll(b, St(Start, 0), s).rejected == None <==> Viable(b, s)
  {
    hide Feed, FeedAll, IsForm;
    var o := FeedAll(b, St(Start, 0), s);
    if o.rejected == None {
      LiveAll(b, St(Start, 0), s);
      var t := Completion(b, o.st);
      AcceptsBoth(b, St(Start, 0), s, t);
      AcceptedIffForm(b, s + t);
      assert s <= s + t;
    }
    if Viable(b, s) {
      var f :| s <= f && IsForm(b, f);
      AcceptedIffForm(b, f);
      assert f == s + f[|s|..];
      FeedConcat(b, St(Start, 0), s, f[|s|..]);
    }
  }

  lemma {:induction false} RejectedAt(b: seq<Byte>, st: St, s: seq<Byte>, k: nat)
    ensures FeedAll(b, st, s).rejected == Some(k) <==>
      k < |s| && FeedAll(b, st, s[..k]).rejected == None && FeedAll(b, st, s[..k + 1]).rejected.Some?
    decreases |s|
  {
    if k < |s| {
      FeedConcat(b, st, s[..k], s[k..]);
      FeedConcat(b, st, s[..k], [s[k]]);
      FeedConcat(b, st, s[..k + 1], s[k + 1..]);
      assert s == s[..k] + s[k..] == s[..k + 1] + s[k + 1..] && s[..k + 1] == s[..k] + [s[k]];
      RejectsInside(b, st, s[..k]);
      RejectsInside(b, st, s[..k + 1]);
      var y := FeedAll(b, st, s[..k]).st;
      assert s[k..][0] == s[k];
      assert FeedAll(b, y, [s[k]]).rejected.Some? <==> !Feed(b, y, s[k]).ok;
      assert FeedAll(b, y, s[k..]).rejected == Some(0) <==> !Feed(b, y, s[k]).ok;
    } else {
      RejectsInside(b, st, s);
    }
    hide FeedAll, Feed;
  }

  /** The parser rejects a body at byte k, which is then what multipart_parser_execute returns, if and
      only if k is the first byte with which the body can no longer become a form. */
  lemma RejectsAsSoonAsPossible(b: seq<Byte>, s: seq<Byte>, k: nat)
    requires BoundaryOk(b)
    ensures FeedAll(b, St(Start, 0), s).rejected == Some(k) <==> k < |s| && Viable(b, s[..k]) && !Viable(b, s[..k + 1])
  {
    hide FeedAll, Feed, Viable;
    RejectedAt(b, St(Start, 0), s, k);
    if k < |s| {
      AcceptedIffViable(b, s[..k]);
      AcceptedIffViable(b, s[..k + 1]);
    }
  }
}
