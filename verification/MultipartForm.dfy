// Multipart forms: rendering them by the grammar of section 5.1.1 of RFC 2046, and reading the
// files out of them as the request does, with its two callbacks on the parser.

module MultipartForm {
  import opened Wrappers
  import opened Multipart
  import opened MultipartSearch

  // ----- the request's callbacks -----

  /** What the callbacks have gathered: the file being received and the finished ones. */
  datatype Store = Store(current: seq<Byte>, files: seq<seq<Byte>>)

  function Note(s: Store, e: Event): Store {
    match e
    case PartByte(c) => s.(current := s.current + [c])
    case PartDataEnd => Store([], s.files + [s.current])
    case _ => s
  }

  function NoteAll(s: Store, events: seq<Event>): Store
    decreases |events|
  {
    if events == [] then s else NoteAll(Note(s, events[0]), events[1..])
  }

  lemma {:induction false} NoteConcat(s: Store, a: seq<Event>, b: seq<Event>)
    ensures NoteAll(s, a + b) == NoteAll(NoteAll(s, a), b)
    decreases |a|
  {
    if a == [] {
      assert a + b == b;
    } else {
      assert (a + b)[1..] == a[1..] + b;
      NoteConcat(Note(s, a[0]), a[1..], b);
    }
  }

  lemma {:induction false} NoteBytes(s: Store, at: seq<Byte>)
    ensures NoteAll(s, PartBytes(at)) == s.(current := s.current + at)
    decreases |at|
  {
    if at == [] {
      assert s.current + at == s.current;
    } else {
      assert PartBytes(at)[1..] == PartBytes(at[1..]);
      NoteBytes(s.(current := s.current + [at[0]]), at[1..]);
      assert s.current + [at[0]] + at[1..] == s.current + at;
    }
  }

  /** Nothing in the events concerns files. */
  predicate NoFiles(events: seq<Event>) { forall i :: 0 <= i < |events| ==> !events[i].PartByte? && !events[i].PartDataEnd? }

  lemma {:induction false} NoteNothing(s: Store, events: seq<Event>)
    requires NoFiles(events)
    ensures NoteAll(s, events) == s
    decreases |events|
  {
    if events != [] { NoteNothing(s, events[1..]); }
  }

  lemma NothingNoted(s: Store, calls: seq<Call>)
    ensures NoteAll(s, Events(calls[..0])) == s
  {
  }

  /** One more call, and what the two callbacks make of it. */
  lemma NoteCall(s: Store, calls: seq<Call>, i: nat)
    requires i < |calls|
    ensures NoteAll(s, Events(calls[..i + 1])) == NoteAll(NoteAll(s, Events(calls[..i])), EventsOf(calls[i]))
    ensures calls[i].OnPartData? ==> EventsOf(calls[i]) == PartBytes(calls[i].at)
    ensures calls[i].OnPartDataEnd? ==> EventsOf(calls[i]) == [PartDataEnd]
  {
    NoteConcat(s, Events(calls[..i]), EventsOf(calls[i]));
    assert calls[..i + 1][..i] == calls[..i];
  }

  lemma NoteOther(s: Store, c: Call)
    requires !c.OnPartData? && !c.OnPartDataEnd?
    ensures NoteAll(s, EventsOf(c)) == s
  {
    NoteNothing(s, EventsOf(c));
  }

  class Request {
    var currentFileData: seq<Byte>
    var files: seq<seq<Byte>>

    ghost function State(): Store
      reads this
    {
      Store(currentFileData, files)
    }

    /** The part of the constructor that loads files: parse the body with the two callbacks set. */
    constructor (boundary: seq<Byte>, body: seq<Byte>)
      requires boundary != []
      ensures State() == NoteAll(Store([], []), FeedAll(boundary, St(Start, 0), body).events)
    {
      currentFileData := [];
      files := [];
      new;
      var parser := new Parser(boundary);
      var n, rounds := parser.Execute(body);
      assert Events([]) == [];
      assert [] + FeedAll(boundary, St(Start, 0), body).events == FeedAll(boundary, St(Start, 0), body).events;
      Receive(parser.calls);
    }

    /** The callbacks, in the order of the calls; those that are not set do nothing. */
    method Receive(calls: seq<Call>)
      modifies this
      ensures State() == NoteAll(old(State()), Events(calls))
    {
      var i := 0;
      hide NoteAll, Events, EventsOf, NoFiles;
      NothingNoted(State(), calls);
      while i < |calls|
        invariant 0 <= i <= |calls|
        invariant State() == NoteAll(old(State()), Events(calls[..i]))
      {
        NoteCall(old(State()), calls, i);
        match calls[i] {
          case OnPartData(at) => OnPartData(at);
          case OnPartDataEnd => OnPartDataEnd();
          case _ => NoteOther(State(), calls[i]);
        }
        i := i + 1;
      }
      assert calls[..|calls|] == calls;
    }

    method OnPartData(at: seq<Byte>)
      modifies this`currentFileData
      ensures State() == NoteAll(old(State()), PartBytes(at))
    {
      NoteBytes(State(), at);
      currentFileData := currentFileData + at;
    }

    method OnPartDataEnd()
      modifies this
      ensures State() == NoteAll(old(State()), [PartDataEnd])
    {
      files := files + [currentFileData];
      currentFileData := [];
    }
  }

  // ----- the boundary -----

  const BOUNDARY_KEY: seq<Byte> := [98, 111, 117, 110, 100, 97, 114, 121, 61]

  /** The bytes of an ASCII literal. */
  function Ascii(s: string): (b: seq<Byte>)
    requires forall i :: 0 <= i < |s| ==> s[i] < 256 as char
    ensures |b| == |s| && forall i :: 0 <= i < |s| ==> b[i] == s[i] as int
  {
    seq(|s|, i requires 0 <= i < |s| => s[i] as int)
  }

  /** The bytes that the parser looks for, as characters. */
  lemma AsciiBytes()
    ensures [LF, CR, SPACE, TAB, HYPHEN, COLON] == Ascii("\n\r \t-:")
  {
  }

  lemma KeyIsText()
    ensures BOUNDARY_KEY == Ascii("boundary=")
  {
    var key := "boundary=";
    assert forall i :: 0 <= i < 9 ==> BOUNDARY_KEY[i] == key[i] as int;
  }

  /** A header name consists of letters of either case and hyphens. */
  lemma NamesAreLetters(c: char)
    requires c < 256 as char
    ensures NameByte(c as int) <==> c == '-' || 'a' <= c <= 'z' || 'A' <= c <= 'Z'
  {
  }

  /** std::string::find: the first occurrence at or after k. */
  function Find(t: seq<Byte>, d: seq<Byte>, k: nat): (r: Option<nat>)
    ensures match r
      case Some(i) => k <= i && OccursAt(d, t, i) && forall j :: k <= j < i ==> !OccursAt(d, t, j)
      case None => forall j :: k <= j ==> !OccursAt(d, t, j)
    decreases |t| - k
  {
    if k + |d| > |t| then None else if OccursAt(d, t, k) then Some(k) else Find(t, d, k + 1)
  }

  /** Two hyphens and what follows "boundary=" in the content type; the content type itself if there is no such key. */
  function BoundaryOf(contentType: seq<Byte>): seq<Byte> {
    match Find(contentType, BOUNDARY_KEY, 0)
    case Some(i) => [HYPHEN, HYPHEN] + contentType[i + 9..]
    case None => contentType
  }

  lemma KeyNotEarlier(before: seq<Byte>, t: seq<Byte>, k: nat)
    requires !Occurs(BOUNDARY_KEY, before) && k < |before| < |t| && t[..|before|] == before && t[|before|] == BOUNDARY_KEY[0]
    ensures !OccursAt(BOUNDARY_KEY, t, k)
  {
    var n := |before|;
    if k + 9 <= n {
      assert before[k..k + 9] == t[k..k + 9];
      assert !OccursAt(BOUNDARY_KEY, before, k);
    } else if k + 9 <= |t| {
      assert t[k..k + 9][n - k] == t[n];
      assert forall j :: 1 <= j < 9 ==> BOUNDARY_KEY[j] != BOUNDARY_KEY[0];
    }
  }

  /** Text without the key, the key, and a token: the boundary is two hyphens and the token. The key
      cannot begin in the text before it, since none of its later bytes is its first. */
  lemma BoundaryFound(before: seq<Byte>, token: seq<Byte>)
    requires !Occurs(BOUNDARY_KEY, before)
    ensures BoundaryOf(before + BOUNDARY_KEY + token) == [HYPHEN, HYPHEN] + token
  {
    var t, n := before + BOUNDARY_KEY + token, |before|;
    assert t[n..n + 9] == BOUNDARY_KEY && t[..n] == before && t[n + 9..] == token;
    assert OccursAt(BOUNDARY_KEY, t, n);
    forall k | 0 <= k < n ensures !OccursAt(BOUNDARY_KEY, t, k) {
      KeyNotEarlier(before, t, k);
    }
    hide OccursAt;
  }

  // ----- forms -----

  /** A header line: a name, one of the separators that the parser knows, and a value. */
  datatype Header = Header(name: seq<Byte>, separator: Byte, value: seq<Byte>)

  /** A part; `last` are the name bytes, as a rule none, of the line that ends its headers. */
  datatype Part = Part(headers: seq<Header>, last: seq<Byte>, body: seq<Byte>)

  predicate Name(s: seq<Byte>) { forall i :: 0 <= i < |s| ==> NameByte(s[i]) }

  predicate HeaderOk(h: Header) {
    Name(h.name) && (h.separator == COLON || h.separator == SPACE || h.separator == TAB) && CR !in h.value
  }

  predicate HeadersOk(hs: seq<Header>) { forall i :: 0 <= i < |hs| ==> HeaderOk(hs[i]) }

  predicate PartOk(b: seq<Byte>, p: Part) { HeadersOk(p.headers) && Name(p.last) && !Occurs(Delimiter(b), p.body) }

  predicate PartsOk(b: seq<Byte>, parts: seq<Part>) { forall i :: 0 <= i < |parts| ==> PartOk(b, parts[i]) }

  function RenderHeader(h: Header): seq<Byte> { h.name + [h.separator] + h.value + [CR, LF] }

  function RenderHeaders(hs: seq<Header>, last: seq<Byte>): seq<Byte> {
    if hs == [] then last + [CR, LF] else RenderHeader(hs[0]) + RenderHeaders(hs[1..], last)
  }

  /** A part from its first header to the delimiter that ends it. */
  function RenderPart(b: seq<Byte>, p: Part): seq<Byte> { RenderHeaders(p.headers, p.last) + (p.body + Delimiter(b)) }

  /** The parts from the first header on. */
  function RenderParts(b: seq<Byte>, parts: seq<Part>, epilogue: seq<Byte>): seq<Byte>
    requires parts != []
    decreases |parts|, 1
  {
    RenderPart(b, parts[0]) + RenderTail(b, parts[1..], epilogue)
  }

  /** What follows a part: the other parts, or the two hyphens that close the body. */
  function RenderTail(b: seq<Byte>, parts: seq<Part>, epilogue: seq<Byte>): seq<Byte>
    decreases |parts|, 2
  {
    if parts == [] then [HYPHEN, HYPHEN] + epilogue else [CR, LF] + RenderParts(b, parts, epilogue)
  }

  function Render(b: seq<Byte>, parts: seq<Part>, epilogue: seq<Byte>): seq<Byte>
    requires parts != []
  {
    b + [CR, LF] + RenderParts(b, parts, epilogue)
  }

  function Bodies(parts: seq<Part>): seq<seq<Byte>> {
    if parts == [] then [] else [parts[0].body] + Bodies(parts[1..])
  }

  // ----- what is notified of a form -----

  /** A value without its leading blanks. */
  function Trim(s: seq<Byte>): seq<Byte> { if s != [] && (s[0] == SPACE || s[0] == TAB) then Trim(s[1..]) else s }

  function ToldHeaders(hs: seq<Header>): seq<Event> {
    if hs == [] then [] else ValueBytes(Trim(hs[0].value)) + ToldHeaders(hs[1..])
  }

  function ToldBody(body: seq<Byte>): seq<Event> { [HeadersComplete] + PartBytes(body) + [PartDataEnd] }

  function ToldPart(p: Part): seq<Event> { ToldHeaders(p.headers) + ToldBody(p.body) }

  function ToldTail(parts: seq<Part>): seq<Event> {
    if parts == [] then [BodyEnd] else [PartDataBegin] + (ToldPart(parts[0]) + ToldTail(parts[1..]))
  }

  // ----- the parser on a rendered form -----

  /** Reading s from `from` is accepted, ends in `to` and notifies exactly e. */
  ghost predicate Tells(b: seq<Byte>, from: St, s: seq<Byte>, to: St, e: seq<Event>) {
    FeedAll(b, from, s) == Outcome(to, e, None)
  }

  lemma TellsConcat(b: seq<Byte>, x: St, s: seq<Byte>, y: St, t: seq<Byte>, z: St, e: seq<Event>, f: seq<Event>)
    requires Tells(b, x, s, y, e) && Tells(b, y, t, z, f)
    ensures Tells(b, x, s + t, z, e + f)
  {
    FeedConcat(b, x, s, t);
    hide FeedAll;
  }

  lemma TellsNothing(b: seq<Byte>, x: St)
    ensures Tells(b, x, [], x, [])
  {
  }

  lemma TellsOne(b: seq<Byte>, x: St, c: Byte)
    requires Feed(b, x, c).ok
    ensures Tells(b, x, [c], Feed(b, x, c).st, Feed(b, x, c).events)
  {
    hide Feed;
    FeedOne(b, x, c);
  }

  lemma TellsTwo(b: seq<Byte>, x: St, c: Byte, d: Byte)
    requires Feed(b, x, c).ok && Feed(b, Feed(b, x, c).st, d).ok
    ensures var y := Feed(b, x, c).st;
      Tells(b, x, [c, d], Feed(b, y, d).st, Feed(b, x, c).events + Feed(b, y, d).events)
  {
    hide Feed;
    TellsOne(b, x, c);
    TellsOne(b, Feed(b, x, c).st, d);
    hide Tells;
    TellsConcat(b, x, [c], Feed(b, x, c).st, [d], Feed(b, Feed(b, x, c).st, d).st, Feed(b, x, c).events, Feed(b, Feed(b, x, c).st, d).events);
    assert [c] + [d] == [c, d];
  }

  /** The first boundary from its k-th byte on, with CR LF. */
  lemma {:induction false} TellsOpening(b: seq<Byte>, k: nat)
    requires k <= |b|
    ensures Tells(b, St(StartBoundary, k), b[k..] + [CR, LF], St(FieldStart, 0), [PartDataBegin])
    decreases |b| - k
  {
    if k == |b| {
      TellsTwo(b, St(StartBoundary, k), CR, LF);
      assert b[k..] + [CR, LF] == [CR, LF] && [] + [PartDataBegin] == [PartDataBegin];
    } else {
      TellsOpening(b, k + 1);
      TellsOne(b, St(StartBoundary, k), b[k]);
      hide Feed, FeedAll, Tells;
      TellsConcat(b, St(StartBoundary, k), [b[k]], St(StartBoundary, k + 1), b[k + 1..] + [CR, LF], St(FieldStart, 0), [], [PartDataBegin]);
      assert b[k..] + [CR, LF] == [b[k]] + (b[k + 1..] + [CR, LF]) && [] + [PartDataBegin] == [PartDataBegin];
    }
  }

  /** At the very start the first byte is read as the first of the boundary. */
  lemma StartIsBoundary(b: seq<Byte>, s: seq<Byte>)
    requires s != []
    ensures FeedAll(b, St(Start, 0), s) == FeedAll(b, St(StartBoundary, 0), s)
  {
  }

  lemma {:induction false} TellsName(b: seq<Byte>, i: nat, name: seq<Byte>)
    requires Name(name)
    ensures Tells(b, St(Field, i), name, St(Field, i), [])
    ensures Tells(b, St(FieldStart, i), name, if name == [] then St(FieldStart, i) else St(Field, i), [])
    decreases |name|
  {
    if name != [] {
      var c, rest := name[0], name[1..];
      assert NameByte(c);
      TellsName(b, i, rest);
      TellsOne(b, St(Field, i), c);
      TellsOne(b, St(FieldStart, i), c);
      hide Feed, FeedAll, Tells;
      assert [c] + rest == name;
      NoEvents();
      TellsConcat(b, St(Field, i), [c], St(Field, i), rest, St(Field, i), [], []);
      TellsConcat(b, St(FieldStart, i), [c], St(Field, i), rest, St(Field, i), [], []);
    }
  }

  lemma NoEvents()
    ensures forall e: seq<Event> :: [] + e == e == e + []
  {
  }

  /** A value up to its CR LF; the blanks before it are skipped. */
  lemma {:induction false} TellsValue(b: seq<Byte>, i: nat, value: seq<Byte>)
    requires CR !in value
    ensures Tells(b, St(Value, i), value + [CR, LF], St(FieldStart, i), ValueBytes(value))
    ensures Tells(b, St(ValueStart, i), value + [CR, LF], St(FieldStart, i), ValueBytes(Trim(value)))
    decreases |value|
  {
    NoEvents();
    if value == [] {
      TellsTwo(b, St(Value, i), CR, LF);
      TellsTwo(b, St(ValueStart, i), CR, LF);
      assert value + [CR, LF] == [CR, LF] && ValueBytes(value) == [];
    } else {
      var c, rest := value[0], value[1..];
      TellsValue(b, i, rest);
      TellsOne(b, St(Value, i), c);
      TellsOne(b, St(ValueStart, i), c);
      var blank := c == SPACE || c == TAB;
      assert Tells(b, St(Value, i), [c], St(Value, i), [ValueByte(c)]);
      assert Tells(b, St(ValueStart, i), [c], if blank then St(ValueStart, i) else St(Value, i), if blank then [] else [ValueByte(c)]);
      hide Feed, FeedAll, Tells;
      assert value + [CR, LF] == [c] + (rest + [CR, LF]) && ValueBytes(value) == [ValueByte(c)] + ValueBytes(rest);
      TellsConcat(b, St(Value, i), [c], St(Value, i), rest + [CR, LF], St(FieldStart, i), [ValueByte(c)], ValueBytes(rest));
      if blank {
        TellsConcat(b, St(ValueStart, i), [c], St(ValueStart, i), rest + [CR, LF], St(FieldStart, i), [], ValueBytes(Trim(rest)));
      } else {
        TellsConcat(b, St(ValueStart, i), [c], St(Value, i), rest + [CR, LF], St(FieldStart, i), [ValueByte(c)], ValueBytes(rest));
      }
    }
  }

  lemma TellsHeader(b: seq<Byte>, i: nat, h: Header)
    requires HeaderOk(h)
    ensures Tells(b, St(FieldStart, i), RenderHeader(h), St(FieldStart, i), ValueBytes(Trim(h.value)))
  {
    var x, y := St(FieldStart, i), if h.name == [] then St(FieldStart, i) else St(Field, i);
    TellsName(b, i, h.name);
    TellsOne(b, y, h.separator);
    assert Tells(b, y, [h.separator], St(ValueStart, i), []);
    TellsValue(b, i, h.value);
    NoEvents();
    hide Feed, FeedAll, Tells;
    TellsConcat(b, x, h.name, y, [h.separator], St(ValueStart, i), [], []);
    TellsConcat(b, x, h.name + [h.separator], St(ValueStart, i), h.value + [CR, LF], x, [], ValueBytes(Trim(h.value)));
    assert RenderHeader(h) == h.name + [h.separator] + (h.value + [CR, LF]);
  }

  lemma {:induction false} TellsHeaders(b: seq<Byte>, i: nat, hs: seq<Header>, last: seq<Byte>)
    requires HeadersOk(hs) && Name(last)
    ensures Tells(b, St(FieldStart, i), RenderHeaders(hs, last), St(DataStart, i), ToldHeaders(hs))
    decreases |hs|
  {
    if hs == [] {
      var y := if last == [] then St(FieldStart, i) else St(Field, i);
      TellsName(b, i, last);
      TellsTwo(b, y, CR, LF);
      NoEvents();
      assert Tells(b, y, [CR, LF], St(DataStart, i), []);
      hide Feed, FeedAll, Tells;
      TellsConcat(b, St(FieldStart, i), last, y, [CR, LF], St(DataStart, i), [], []);
    } else {
      TellsHeader(b, i, hs[0]);
      TellsHeaders(b, i, hs[1..], last);
      hide Feed, FeedAll, Tells, HeaderOk;
      TellsConcat(b, St(FieldStart, i), RenderHeader(hs[0]), St(FieldStart, i), RenderHeaders(hs[1..], last), St(DataStart, i),
                  ValueBytes(Trim(hs[0].value)), ToldHeaders(hs[1..]));
    }
  }

  lemma {:induction false} TellsEpilogue(b: seq<Byte>, i: nat, s: seq<Byte>)
    ensures Tells(b, St(End, i), s, St(End, i), [])
    decreases |s|
  {
    if s != [] {
      TellsEpilogue(b, i, s[1..]);
      TellsOne(b, St(End, i), s[0]);
      NoEvents();
      hide Feed, FeedAll, Tells;
      TellsConcat(b, St(End, i), [s[0]], St(End, i), s[1..], St(End, i), [], []);
      assert [s[0]] + s[1..] == s;
    }
  }

  /** A body and the delimiter that ends it. */
  lemma TellsBody(b: seq<Byte>, i: nat, body: seq<Byte>)
    requires BoundaryOk(b) && !Occurs(Delimiter(b), body)
    ensures Tells(b, St(DataStart, i), body + Delimiter(b), St(DataAlmostEnd, |b|), ToldBody(body))
  {
    DeliversUpToDelimiter(b, i, body);
    DataStartFeeds(b, i, body + Delimiter(b));
    hide Feed, FeedAll, Occurs;
    assert [HeadersComplete] + (PartBytes(body) + [PartDataEnd]) == ToldBody(body);
  }

  lemma DataStartFeeds(b: seq<Byte>, i: nat, t: seq<Byte>)
    requires t != []
    ensures var o := FeedAll(b, St(Data, i), t);
      FeedAll(b, St(DataStart, i), t) == o.(events := [HeadersComplete] + o.events)
  {
    FeedInValue(b, St(Data, i), t[0]);
    FeedInValue(b, St(DataStart, i), t[0]);
    hide Feed;
    var f := FeedData(i, t[0]);
    var r := FeedAll(b, f.st, t[1..]);
    assert [HeadersComplete] + f.events + r.events == [HeadersComplete] + (f.events + r.events);
  }

  /** One part: the values of its headers, their end, its body, and the end of it. */
  lemma TellsPart(b: seq<Byte>, i: nat, p: Part)
    requires BoundaryOk(b) && PartOk(b, p)
    ensures Tells(b, St(FieldStart, i), RenderPart(b, p), St(DataAlmostEnd, |b|), ToldPart(p))
  {
    hide FeedAll, Tells, Occurs, RenderHeaders;
    TellsHeaders(b, i, p.headers, p.last);
    TellsBody(b, i, p.body);
    TellsConcat(b, St(FieldStart, i), RenderHeaders(p.headers, p.last), St(DataStart, i), p.body + Delimiter(b), St(DataAlmostEnd, |b|),
                ToldHeaders(p.headers), ToldBody(p.body));
  }

  lemma {:induction false} TellsParts(b: seq<Byte>, i: nat, parts: seq<Part>, epilogue: seq<Byte>)
    requires BoundaryOk(b) && parts != [] && PartsOk(b, parts)
    ensures Tells(b, St(FieldStart, i), RenderParts(b, parts, epilogue), St(End, |b|), ToldPart(parts[0]) + ToldTail(parts[1..]))
    decreases |parts|, 1
  {
    hide FeedAll, Tells, PartOk, RenderPart;
    TellsPart(b, i, parts[0]);
    TellsTail(b, parts[1..], epilogue);
    TellsConcat(b, St(FieldStart, i), RenderPart(b, parts[0]), St(DataAlmostEnd, |b|), RenderTail(b, parts[1..], epilogue), St(End, |b|),
                ToldPart(parts[0]), ToldTail(parts[1..]));
  }

  lemma {:induction false} TellsTail(b: seq<Byte>, parts: seq<Part>, epilogue: seq<Byte>)
    requires BoundaryOk(b) && PartsOk(b, parts)
    ensures Tells(b, St(DataAlmostEnd, |b|), RenderTail(b, parts, epilogue), St(End, |b|), ToldTail(parts))
    decreases |parts|, 2
  {
    NoEvents();
    if parts == [] {
      TellsTwo(b, St(DataAlmostEnd, |b|), HYPHEN, HYPHEN);
      TellsEpilogue(b, |b|, epilogue);
      hide FeedAll, Tells;
      TellsConcat(b, St(DataAlmostEnd, |b|), [HYPHEN, HYPHEN], St(End, |b|), epilogue, St(End, |b|), [BodyEnd], []);
    } else {
      TellsTwo(b, St(DataAlmostEnd, |b|), CR, LF);
      hide FeedAll, Tells, PartOk;
      TellsParts(b, |b|, parts, epilogue);
      TellsConcat(b, St(DataAlmostEnd, |b|), [CR, LF], St(FieldStart, |b|), RenderParts(b, parts, epilogue), St(End, |b|),
                  [PartDataBegin], ToldPart(parts[0]) + ToldTail(parts[1..]));
    }
  }

  /** What is notified of a form, from its first byte to its last: for each part its beginning, the
      values of its headers, their end, its body and its end, and at last the end of the body. */
  lemma FormTells(b: seq<Byte>, parts: seq<Part>, epilogue: seq<Byte>)
    requires BoundaryOk(b) && parts != [] && PartsOk(b, parts)
    ensures Tells(b, St(Start, 0), Render(b, parts, epilogue), St(End, |b|), ToldTail(parts))
  {
    hide FeedAll, Feed, Tells, PartOk;
    TellsOpening(b, 0);
    assert b[0..] == b;
    TellsParts(b, 0, parts, epilogue);
    TellsConcat(b, St(StartBoundary, 0), b + [CR, LF], St(FieldStart, 0), RenderParts(b, parts, epilogue), St(End, |b|),
                [PartDataBegin], ToldPart(parts[0]) + ToldTail(parts[1..]));
    StartTells(b, Render(b, parts, epilogue), St(End, |b|), ToldTail(parts));
  }

  lemma StartTells(b: seq<Byte>, s: seq<Byte>, to: St, e: seq<Event>)
    requires s != [] && Tells(b, St(StartBoundary, 0), s, to, e)
    ensures Tells(b, St(Start, 0), s, to, e)
  {
    hide Feed;
    StartIsBoundary(b, s);
  }

  // ----- what the request makes of it -----

  lemma {:induction false} NoteHeaders(x: Store, hs: seq<Header>)
    ensures NoteAll(x, ToldHeaders(hs)) == x
    decreases |hs|
  {
    if hs != [] {
      NoteNothing(x, ValueBytes(Trim(hs[0].value)));
      NoteConcat(x, ValueBytes(Trim(hs[0].value)), ToldHeaders(hs[1..]));
      NoteHeaders(x, hs[1..]);
    }
  }

  /** One part: one more file. */
  lemma NotePart(p: Part, files: seq<seq<Byte>>)
    ensures NoteAll(Store([], files), ToldPart(p)) == Store([], files + [p.body])
  {
    var x := Store([], files);
    NoteHeaders(x, p.headers);
    NoteConcat(x, ToldHeaders(p.headers), ToldBody(p.body));
    assert NoteAll(x, [HeadersComplete]) == x;
    NoteConcat(x, [HeadersComplete], PartBytes(p.body));
    NoteBytes(x, p.body);
    assert [] + p.body == p.body;
    NoteConcat(x, [HeadersComplete] + PartBytes(p.body), [PartDataEnd]);
    assert NoteAll(Store(p.body, files), [PartDataEnd]) == Store([], files + [p.body]);
    hide NoteAll;
  }

  lemma {:induction false} NoteTail(parts: seq<Part>, files: seq<seq<Byte>>)
    ensures NoteAll(Store([], files), ToldTail(parts)) == Store([], files + Bodies(parts))
    decreases |parts|
  {
    var x := Store([], files);
    if parts == [] {
      assert NoteAll(x, [BodyEnd]) == x && files + Bodies(parts) == files;
    } else {
      var rest := ToldPart(parts[0]) + ToldTail(parts[1..]);
      assert NoteAll(x, [PartDataBegin]) == x;
      NoteConcat(x, [PartDataBegin], rest);
      NotePart(parts[0], files);
      NoteConcat(x, ToldPart(parts[0]), ToldTail(parts[1..]));
      NoteTail(parts[1..], files + [parts[0].body]);
      assert files + [parts[0].body] + Bodies(parts[1..]) == files + Bodies(parts);
      hide NoteAll;
    }
  }

  /** Round trip: a form rendered with a non-empty boundary without CR is accepted whole, whatever its
      headers, names, values and bodies, as long as they are what the grammar allows, and the
      request's callbacks gather exactly its bodies, in order. */
  lemma RoundTrip(b: seq<Byte>, parts: seq<Part>, epilogue: seq<Byte>)
    requires BoundaryOk(b) && parts != [] && PartsOk(b, parts)
    ensures var o := FeedAll(b, St(Start, 0), Render(b, parts, epilogue));
      && o.rejected == None && o.st.phase == End
      && NoteAll(Store([], []), o.events) == Store([], Bodies(parts))
  {
    FormTells(b, parts, epilogue);
    NoteTail(parts, []);
    assert [] + Bodies(parts) == Bodies(parts);
    hide FeedAll, NoteAll, Render;
  }

  /** The request whose body is a form rendered with two hyphens and the token that its content
      type names has the bodies as its files. */
  method LoadForm(before: seq<Byte>, token: seq<Byte>, parts: seq<Part>, epilogue: seq<Byte>) returns (files: seq<seq<Byte>>)
    requires !Occurs(BOUNDARY_KEY, before) && CR !in token
    requires parts != [] && PartsOk([HYPHEN, HYPHEN] + token, parts)
    ensures files == Bodies(parts)
  {
    BoundaryFound(before, token);
    var b := BoundaryOf(before + BOUNDARY_KEY + token);
    RoundTrip(b, parts, epilogue);
    var r := new Request(b, Render(b, parts, epilogue));
    files := r.files;
  }
}
