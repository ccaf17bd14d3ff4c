// The streaming multipart parser: a state machine that reads a body in chunks of any size and
// calls back with header values, part data and notifications.
//
// Feed says what one byte means; class Parser is the parser itself, with its marks, its
// backing-up index and its lookbehind buffer, and is proved to do what Feed says.

module Multipart {
  import opened Wrappers

  type Byte = b: int | 0 <= b < 256

  const LF: Byte := 10
  const CR: Byte := 13
  const SPACE: Byte := 32
  const TAB: Byte := 9
  const HYPHEN: Byte := 45
  const COLON: Byte := 58

  datatype Phase =
    | Start | StartBoundary
    | FieldStart | Field | HeadersAlmostDone
    | ValueStart | Value | ValueAlmostDone
    | DataStart | Data | DataAlmostBoundary | DataBoundary
    | DataAlmostEnd | DataEnd | FinalHyphen | End

  /** The parser's state: the phase, and how much of the boundary has been matched. */
  datatype St = St(phase: Phase, index: nat)

  /** What a consumer learns, byte by byte. Header names are left out: whether a name that is
      broken off is reported depends on where the chunks end. */
  datatype Event =
    | PartDataBegin | HeadersComplete | PartDataEnd | BodyEnd
    | ValueByte(c: Byte) | PartByte(c: Byte)

  datatype Fed = Fed(st: St, events: seq<Event>, ok: bool)

  function ToLower(c: Byte): Byte { if 65 <= c <= 90 then c + 32 else c }

  predicate NameByte(c: Byte) { c == HYPHEN || 97 <= ToLower(c) <= 122 }

  // ----- one byte -----

  function Feed(b: seq<Byte>, st: St, c: Byte): Fed {
    match st.phase
    case Start => FeedStart(b, 0, c)
    case StartBoundary => FeedStart(b, st.index, c)
    case FieldStart => FeedField(st.index, c)
    case Field => FeedField(st.index, c)
    case HeadersAlmostDone => Fed(if c == LF then St(DataStart, st.index) else st, [], c == LF)
    case ValueStart => if c == SPACE || c == TAB then Fed(st, [], true) else FeedValue(st.index, c)
    case Value => FeedValue(st.index, c)
    case ValueAlmostDone => Fed(if c == LF then St(FieldStart, st.index) else st, [], c == LF)
    case DataStart => Prepend([HeadersComplete], FeedData(st.index, c))
    case Data => FeedData(st.index, c)
    case DataAlmostBoundary =>
      if c == LF then Fed(St(DataBoundary, 0), [], true) else Prepend([PartByte(CR)], FeedData(st.index, c))
    case DataBoundary =>
      if st.index < |b| && b[st.index] == c then
        if st.index + 1 == |b| then Fed(St(DataAlmostEnd, st.index + 1), [PartDataEnd], true)
        else Fed(St(DataBoundary, st.index + 1), [], true)
      else Prepend(PartBytes([CR, LF] + Prefix(b, st.index)), FeedData(st.index, c))
    case DataAlmostEnd =>
      if c == HYPHEN then Fed(St(FinalHyphen, st.index), [], true)
      else if c == CR then Fed(St(DataEnd, st.index), [], true)
      else Fed(st, [], false)
    case FinalHyphen => if c == HYPHEN then Fed(St(End, st.index), [BodyEnd], true) else Fed(st, [], false)
    case DataEnd => if c == LF then Fed(St(FieldStart, st.index), [PartDataBegin], true) else Fed(st, [], false)
    case End => Fed(st, [], true)
  }

  function Prepend(events: seq<Event>, f: Fed): Fed { f.(events := events + f.events) }

  function Prefix(b: seq<Byte>, k: nat): seq<Byte> { if k <= |b| then b[..k] else b }

  /** The first boundary, with CR and LF after it. */
  function FeedStart(b: seq<Byte>, index: nat, c: Byte): Fed {
    if index == |b| then
      if c == CR then Fed(St(StartBoundary, index + 1), [], true) else Fed(St(StartBoundary, index), [], false)
    else if index == |b| + 1 then
      if c == LF then Fed(St(FieldStart, 0), [PartDataBegin], true) else Fed(St(StartBoundary, index), [], false)
    else if index < |b| && c == b[index] then Fed(St(StartBoundary, index + 1), [], true)
    else Fed(St(StartBoundary, index), [], false)
  }

  function FeedField(index: nat, c: Byte): Fed {
    if c == CR then Fed(St(HeadersAlmostDone, index), [], true)
    else if c == SPACE || c == TAB || c == COLON then Fed(St(ValueStart, index), [], true)
    else Fed(St(Field, index), [], NameByte(c))
  }

  function FeedValue(index: nat, c: Byte): Fed {
    if c == CR then Fed(St(ValueAlmostDone, index), [], true) else Fed(St(Value, index), [ValueByte(c)], true)
  }

  function FeedData(index: nat, c: Byte): Fed {
    if c == CR then Fed(St(DataAlmostBoundary, index), [], true) else Fed(St(Data, index), [PartByte(c)], true)
  }

  function PartBytes(s: seq<Byte>): (r: seq<Event>)
    ensures |r| == |s|
  {
    seq(|s|, i requires 0 <= i < |s| => PartByte(s[i]))
  }

  function ValueBytes(s: seq<Byte>): (r: seq<Event>)
    ensures |r| == |s|
  {
    seq(|s|, i requires 0 <= i < |s| => ValueByte(s[i]))
  }

  // ----- a stretch of bytes -----

  /** The state reached, everything reported, and the offset of the byte that was rejected, if any. */
  datatype Outcome = Outcome(st: St, events: seq<Event>, rejected: Option<nat>)

  function Bump(r: Option<nat>, k: nat): Option<nat> { match r case None => None case Some(n) => Some(n + k) }

  function FeedAll(b: seq<Byte>, st: St, s: seq<Byte>): Outcome
    decreases |s|
  {
    if s == [] then Outcome(st, [], None)
    else
      var f := Feed(b, st, s[0]);
      if !f.ok then Outcome(f.st, f.events, Some(0))
      else
        var r := FeedAll(b, f.st, s[1..]);
        Outcome(r.st, f.events + r.events, Bump(r.rejected, 1))
  }

  /** What follows an accepted stretch. */
  function Then(o: Outcome, k: nat, r: Outcome): Outcome {
    Outcome(r.st, o.events + r.events, Bump(r.rejected, k))
  }

  lemma {:induction false} FeedConcat(b: seq<Byte>, st: St, s: seq<Byte>, t: seq<Byte>)
    ensures var o := FeedAll(b, st, s);
      FeedAll(b, st, s + t) == if o.rejected.Some? then o else Then(o, |s|, FeedAll(b, o.st, t))
    decreases |s|
  {
    hide Feed;
    if s == [] {
      assert s + t == t;
    } else {
      var f := Feed(b, st, s[0]);
      assert (s + t)[1..] == s[1..] + t;
      if f.ok {
        FeedConcat(b, f.st, s[1..], t);
      }
    }
  }

  /** A rejected byte is one of those fed. */
  lemma {:induction false} RejectsInside(b: seq<Byte>, st: St, s: seq<Byte>)
    ensures FeedAll(b, st, s).rejected.Some? ==> FeedAll(b, st, s).rejected.value < |s|
    decreases |s|
  {
    if s != [] && Feed(b, st, s[0]).ok { RejectsInside(b, Feed(b, st, s[0]).st, s[1..]); }
  }

  /** Feeding chunk after chunk, stopping at the first that is rejected. */
  function FeedChunks(b: seq<Byte>, st: St, chunks: seq<seq<Byte>>): Outcome
    decreases |chunks|
  {
    if chunks == [] then Outcome(st, [], None)
    else
      var o := FeedAll(b, st, chunks[0]);
      if o.rejected.Some? then o else Then(o, |chunks[0]|, FeedChunks(b, o.st, chunks[1..]))
  }

  function Concat(chunks: seq<seq<Byte>>): seq<Byte> {
    if chunks == [] then [] else chunks[0] + Concat(chunks[1..])
  }

  /** Feeding chunk after chunk is feeding all of it (see Parser.ExecuteChunks for the parser itself). */
  lemma {:induction false} ChunkIndependence(b: seq<Byte>, st: St, chunks: seq<seq<Byte>>)
    ensures FeedChunks(b, st, chunks) == FeedAll(b, st, Concat(chunks))
    decreases |chunks|
  {
    if chunks != [] {
      var o := FeedAll(b, st, chunks[0]);
      FeedConcat(b, st, chunks[0], Concat(chunks[1..]));
      ChunkIndependence(b, o.st, chunks[1..]);
    }
  }

  // ----- the parser -----

  /** A call of one of the callbacks, all of which return 0. */
  datatype Call =
    | OnPartDataBegin | OnHeadersComplete | OnPartDataEnd | OnBodyEnd
    | OnHeaderField(at: seq<Byte>)
    | OnHeaderValue(at: seq<Byte>)
    | OnPartData(at: seq<Byte>)

  function EventsOf(c: Call): seq<Event> {
    match c
    case OnPartDataBegin => [PartDataBegin]
    case OnHeadersComplete => [HeadersComplete]
    case OnPartDataEnd => [PartDataEnd]
    case OnBodyEnd => [BodyEnd]
    case OnHeaderField(_) => []
    case OnHeaderValue(at) => ValueBytes(at)
    case OnPartData(at) => PartBytes(at)
  }

  function Events(calls: seq<Call>): seq<Event> {
    if calls == [] then [] else Events(calls[..|calls| - 1]) + EventsOf(calls[|calls| - 1])
  }

  /** What one round of the parser's loop did: consumed its byte, went back to look at it again as
      part data, or rejected it. */
  datatype Move = Advance | Back | Reject

  /** Bytes seen and not yet handed to a callback: those from the mark on, until the chunk ends. */
  function Pending(phase: Phase, buf: seq<Byte>, mark: nat, i: nat): seq<Event> {
    if mark <= i < |buf| then
      if phase.Data? then PartBytes(buf[mark..i]) else if phase.Value? then ValueBytes(buf[mark..i]) else []
    else []
  }

  lemma PendingMore(buf: seq<Byte>, mark: nat, i: nat)
    requires mark <= i < |buf|
    ensures PartBytes(buf[mark..i + 1]) == PartBytes(buf[mark..i]) + [PartByte(buf[i])]
    ensures ValueBytes(buf[mark..i + 1]) == ValueBytes(buf[mark..i]) + [ValueByte(buf[i])]
  {
    assert buf[mark..i + 1] == buf[mark..i] + [buf[i]];
  }

  /** The contract of one round, on what the parser had (st, reported) and has (st', reported'). */
  ghost predicate Round(b: seq<Byte>, c: Byte, move: Move, st: St, reported: seq<Event>, st': St, reported': seq<Event>) {
    var f := Feed(b, st, c);
    match move
    case Advance => f.ok && st' == f.st && reported' == reported + f.events
    case Reject => !f.ok && st' == f.st && reported' == reported + f.events
    case Back =>
      !st.phase.Data? && st'.phase.Data? && reported <= reported' && f == Prepend(reported'[|reported|..], FeedData(st'.index, c))
  }

  lemma FeedInValue(b: seq<Byte>, st: St, c: Byte)
    ensures st.phase.Value? ==> Feed(b, st, c) == FeedValue(st.index, c)
    ensures st.phase.ValueStart? ==> Feed(b, st, c) == if c == SPACE || c == TAB then Fed(st, [], true) else FeedValue(st.index, c)
    ensures st.phase.Data? ==> Feed(b, st, c) == FeedData(st.index, c)
    ensures st.phase.DataStart? ==> Feed(b, st, c) == Prepend([HeadersComplete], FeedData(st.index, c))
  {
  }

  lemma FeedInBoundary(b: seq<Byte>, st: St, c: Byte)
    ensures st.phase.DataAlmostBoundary? ==>
      Feed(b, st, c) == if c == LF then Fed(St(DataBoundary, 0), [], true) else Prepend(PartBytes([CR]), FeedData(st.index, c))
    ensures st.phase.DataBoundary? && st.index < |b| ==>
      Feed(b, st, c) == (if b[st.index] != c then Prepend(PartBytes([CR, LF] + b[..st.index]), FeedData(st.index, c))
                         else if st.index + 1 == |b| then Fed(St(DataAlmostEnd, st.index + 1), [PartDataEnd], true)
                         else Fed(St(DataBoundary, st.index + 1), [], true))
  {
    assert PartBytes([CR]) == [PartByte(CR)];
  }

  lemma BlankAdvances(b: seq<Byte>, st: St, buf: seq<Byte>, i: nat, mark: nat, e0: seq<Event>)
    requires mark <= i < |buf| && st.phase.ValueStart? && (buf[i] == SPACE || buf[i] == TAB)
    ensures Round(b, buf[i], Advance, st, e0 + Pending(st.phase, buf, mark, i), st, e0 + Pending(st.phase, buf, mark, i + 1))
  {
  }

  /** A byte of a header value: e0 was reported before, e1 after, and the rest is still pending. */
  lemma ValueAdvances(b: seq<Byte>, st: St, buf: seq<Byte>, i: nat, mark: nat, mark1: nat, e0: seq<Event>, st1: St, e1: seq<Event>)
    requires mark <= i < |buf| && (st.phase.Value? || (st.phase.ValueStart? && buf[i] != SPACE && buf[i] != TAB))
    requires mark1 == if st.phase.ValueStart? then i else mark
    requires buf[i] == CR ==> st1 == St(ValueAlmostDone, st.index) && e1 == e0 + ValueBytes(buf[mark1..i])
    requires buf[i] != CR ==> st1 == St(Value, st.index) && e1 == e0 + if i == |buf| - 1 then ValueBytes(buf[mark1..i + 1]) else []
    ensures Round(b, buf[i], Advance, st, e0 + Pending(st.phase, buf, mark, i), st1, e1 + Pending(st1.phase, buf, mark1, i + 1))
  {
    FeedInValue(b, st, buf[i]);
    PendingMore(buf, mark1, i);
    hide Feed;
    if st.phase.ValueStart? { assert ValueBytes(buf[i..i]) == []; }
    hide ValueBytes, PartBytes;
    if buf[i] != CR {
      assert e0 + ValueBytes(buf[mark1..i]) + [ValueByte(buf[i])] == e0 + ValueBytes(buf[mark1..i + 1]);
    }
  }

  lemma DataAdvances(b: seq<Byte>, st: St, buf: seq<Byte>, i: nat, mark: nat, mark1: nat, e0: seq<Event>, st1: St, e1: seq<Event>)
    requires mark <= i < |buf| && (st.phase.Data? || st.phase.DataStart?)
    requires mark1 == if st.phase.DataStart? then i else mark
    requires buf[i] == CR ==> st1 == St(DataAlmostBoundary, st.index) && e1 == e0 + Opening(st) + PartBytes(buf[mark1..i])
    requires buf[i] != CR ==> st1 == St(Data, st.index) && e1 == e0 + Opening(st) + if i == |buf| - 1 then PartBytes(buf[mark1..i + 1]) else []
    ensures Round(b, buf[i], Advance, st, e0 + Pending(st.phase, buf, mark, i), st1, e1 + Pending(st1.phase, buf, if buf[i] == CR then i else mark1, i + 1))
  {
    FeedInValue(b, st, buf[i]);
    PendingMore(buf, mark1, i);
    hide Feed;
    if st.phase.DataStart? { assert PartBytes(buf[i..i]) == []; }
    hide ValueBytes, PartBytes;
    if buf[i] != CR {
      assert e0 + Opening(st) + PartBytes(buf[mark1..i]) + [PartByte(buf[i])] == e0 + Opening(st) + PartBytes(buf[mark1..i + 1]);
      assert e0 + (Opening(st) + [PartByte(buf[i])]) == e0 + Opening(st) + [PartByte(buf[i])];
    }
  }

  function Opening(st: St): seq<Event> { if st.phase.DataStart? then [HeadersComplete] else [] }

  lemma MatchAdvances(b: seq<Byte>, st: St, c: Byte, e0: seq<Event>)
    requires (st.phase.DataAlmostBoundary? && c == LF) || (st.phase.DataBoundary? && st.index < |b| && b[st.index] == c)
    ensures st.phase.DataAlmostBoundary? ==> Round(b, c, Advance, st, e0, St(DataBoundary, 0), e0)
    ensures st.phase.DataBoundary? && st.index + 1 < |b| ==> Round(b, c, Advance, st, e0, St(DataBoundary, st.index + 1), e0)
    ensures st.phase.DataBoundary? && st.index + 1 == |b| ==> Round(b, c, Advance, st, e0, St(DataAlmostEnd, st.index + 1), e0 + [PartDataEnd])
  {
  }

  /** A mismatch: what had been matched becomes part data. */
  lemma MismatchGoesBack(b: seq<Byte>, st: St, c: Byte, e0: seq<Event>, e1: seq<Event>)
    requires (st.phase.DataAlmostBoundary? && c != LF) || (st.phase.DataBoundary? && st.index < |b| && b[st.index] != c)
    requires e1 == e0 + PartBytes(if st.phase.DataAlmostBoundary? then [CR] else [CR, LF] + b[..st.index])
    ensures Round(b, c, Back, st, e0, St(Data, st.index), e1)
  {
    FeedInBoundary(b, st, c);
    hide Feed, PartBytes;
    assert e1[|e0|..] == PartBytes(if st.phase.DataAlmostBoundary? then [CR] else [CR, LF] + b[..st.index]);
  }

  /** From position i on, in state st with `reported` so far, the parser arrives at the outcome `all`. */
  ghost predicate Progress(b: seq<Byte>, buf: seq<Byte>, all: Outcome, i: nat, st: St, reported: seq<Event>) {
    i <= |buf| &&
    var rest := FeedAll(b, st, buf[i..]);
    all == Outcome(rest.st, reported + rest.events, Bump(rest.rejected, i))
  }

  lemma AdvanceProgress(b: seq<Byte>, buf: seq<Byte>, all: Outcome, i: nat, st: St, reported: seq<Event>, st': St, reported': seq<Event>)
    requires Progress(b, buf, all, i, st, reported) && i < |buf| && Round(b, buf[i], Advance, st, reported, st', reported')
    ensures Progress(b, buf, all, i + 1, st', reported')
  {
    assert buf[i..][1..] == buf[i + 1..];
    hide Feed;
  }

  lemma BackProgress(b: seq<Byte>, buf: seq<Byte>, all: Outcome, i: nat, st: St, reported: seq<Event>, st': St, reported': seq<Event>)
    requires Progress(b, buf, all, i, st, reported) && i < |buf| && Round(b, buf[i], Back, st, reported, st', reported')
    ensures Progress(b, buf, all, i, st', reported')
  {
    FeedInValue(b, st', buf[i]);
    var c, t := buf[i], buf[i..];
    var extra := reported'[|reported|..];
    var f := FeedData(st'.index, c);
    assert t[0] == c;
    hide Feed;
    assert reported' == reported + extra;
    var r := FeedAll(b, f.st, t[1..]);
    assert reported + ((extra + f.events) + r.events) == reported' + (f.events + r.events);
  }

  lemma RejectProgress(b: seq<Byte>, buf: seq<Byte>, all: Outcome, i: nat, st: St, reported: seq<Event>, st': St, reported': seq<Event>)
    requires Progress(b, buf, all, i, st, reported) && i < |buf| && Round(b, buf[i], Reject, st, reported, st', reported')
    ensures all == Outcome(st', reported', Some(i))
  {
    hide Feed;
  }

  lemma BackIsToData(b: seq<Byte>, c: Byte, st: St, reported: seq<Event>, st': St, reported': seq<Event>)
    requires Round(b, c, Back, st, reported, st', reported')
    ensures !st.phase.Data? && st'.phase.Data?
  {
  }

  lemma NothingPending(b: seq<Byte>, buf: seq<Byte>, i: nat, mark: nat, st: St, reported: seq<Event>, st': St, e: seq<Event>)
    requires i < |buf| && Round(b, buf[i], Reject, st, reported, st', e + Pending(st'.phase, buf, mark, i))
    ensures e + Pending(st'.phase, buf, mark, i) == e
  {
  }

  lemma StartProgress(b: seq<Byte>, buf: seq<Byte>, st: St, e: seq<Event>)
    ensures var o := FeedAll(b, st, buf);
      Progress(b, buf, Outcome(o.st, e + o.events, o.rejected), 0, st, e + Pending(st.phase, buf, 0, 0))
  {
    assert buf[0..] == buf;
    assert Pending(st.phase, buf, 0, 0) == [];
    assert e + [] == e;
  }

  lemma EndProgress(b: seq<Byte>, buf: seq<Byte>, all: Outcome, st: St, mark: nat, e: seq<Event>)
    requires Progress(b, buf, all, |buf|, st, e + Pending(st.phase, buf, mark, |buf|))
    ensures all == Outcome(st, e, None)
  {
    assert e + [] == e && e + [] + [] == e;
  }

  class Parser {
    var index: nat
    var phase: Phase
    const boundaryLength: nat
    // multipart_boundary with its terminating 0, then lookbehind, as the source allocates them
    const memory: array<Byte>
    // the calls of the callbacks so far
    var calls: seq<Call>

    ghost function Boundary(): seq<Byte>
      reads memory
      requires boundaryLength <= memory.Length
    {
      memory[..boundaryLength]
    }

    /** The matched prefix of CR LF boundary is in the lookbehind buffer, which has room for all of it. */
    ghost predicate Valid()
      reads this, memory
    {
      && memory.Length == 2 * boundaryLength + 10 && boundaryLength > 0
      && (phase.StartBoundary? ==> index <= boundaryLength + 1)
      && (phase.DataAlmostBoundary? ==> memory[boundaryLength + 1] == CR)
      && (phase.DataBoundary? ==> index < boundaryLength && Lookbehind(2 + index) == [CR, LF] + memory[..index])
    }

    ghost function Lookbehind(k: nat): seq<Byte>
      reads this, memory
      requires memory.Length == 2 * boundaryLength + 10 && k <= boundaryLength + 9
    {
      memory[boundaryLength + 1..boundaryLength + 1 + k]
    }

    ghost function State(): St
      reads this
    {
      St(phase, index)
    }

    /** multipart_parser_init. */
    constructor (boundary: seq<Byte>)
      requires boundary != []
      ensures Valid() && fresh(memory) && Boundary() == boundary
      ensures State() == St(Start, 0) && calls == []
    {
      boundaryLength := |boundary|;
      var m := new Byte[2 * |boundary| + 10](_ => 0);
      var k := 0;
      while k < |boundary|
        invariant 0 <= k <= |boundary| && m[..k] == boundary[..k]
      {
        m[k] := boundary[k];
        k := k + 1;
      }
      memory := m;
      index := 0;
      phase := Start;
      calls := [];
    }

    method Emit(c: Call)
      modifies this`calls
      ensures calls == old(calls) + [c]
      ensures Events(calls) == Events(old(calls)) + EventsOf(c)
    {
      calls := calls + [c];
    }

    method StartRound(buf: seq<Byte>, i: nat) returns (move: Move)
      requires Valid() && i < |buf| && (phase.Start? || phase.StartBoundary?)
      modifies this`index, this`phase, this`calls
      ensures Valid() && !phase.Data? && !phase.Value?
      ensures Round(Boundary(), buf[i], move, old(State()), Events(old(calls)), State(), Events(calls)) && move != Back
    {
      var c := buf[i];
      if phase.Start? {
        index := 0;
        phase := StartBoundary;
      }
      if index == boundaryLength {
        if c != CR { return Reject; }
        index := index + 1;
      } else if index == boundaryLength + 1 {
        if c != LF { return Reject; }
        index := 0;
        Emit(OnPartDataBegin);
        phase := FieldStart;
      } else {
        if c != memory[index] { return Reject; }
        index := index + 1;
      }
      return Advance;
    }

    method FieldRound(buf: seq<Byte>, i: nat, mark: nat, last: bool) returns (move: Move, mark': nat)
      requires Valid() && mark <= i < |buf| && (phase.FieldStart? || phase.Field?)
      modifies this`phase, this`calls
      ensures Valid() && !phase.Data? && !phase.Value? && mark' <= i
      ensures Round(Boundary(), buf[i], move, old(State()), Events(old(calls)), State(), Events(calls)) && move != Back
    {
      var c := buf[i];
      mark' := mark;
      if phase.FieldStart? {
        mark' := i;
        phase := Field;
      }
      if c == CR {
        phase := HeadersAlmostDone;
      } else if c == SPACE || c == TAB {
        phase := ValueStart;
      } else if c == COLON {
        Emit(OnHeaderField(buf[mark'..i]));
        phase := ValueStart;
      } else {
        var cl := ToLower(c);
        if c != HYPHEN && (cl < 97 || cl > 122) { return Reject, mark'; }
        if last { Emit(OnHeaderField(buf[mark'..i + 1])); }
      }
      return Advance, mark';
    }

    method ValueRound(buf: seq<Byte>, i: nat, mark: nat, last: bool) returns (mark': nat)
      requires Valid() && mark <= i < |buf| && (phase.ValueStart? || phase.Value?) && last == (i == |buf| - 1)
      modifies this`phase, this`calls
      ensures Valid() && mark' <= i
      ensures Round(Boundary(), buf[i], Advance, old(State()), Events(old(calls)) + Pending(old(phase), buf, mark, i),
                    State(), Events(calls) + Pending(phase, buf, mark', i + 1))
    {
      hide Events, PartBytes, ValueBytes, Pending, Round;
      ghost var st, e0 := State(), Events(calls);
      var c := buf[i];
      mark' := mark;
      if phase.ValueStart? {
        if c == SPACE || c == TAB {
          BlankAdvances(Boundary(), st, buf, i, mark, e0);
          return;
        }
        mark' := i;
        phase := Value;
      }
      if c == CR {
        Emit(OnHeaderValue(buf[mark'..i]));
        phase := ValueAlmostDone;
      } else if last {
        Emit(OnHeaderValue(buf[mark'..i + 1]));
      }
      ValueAdvances(Boundary(), st, buf, i, mark, mark', e0, State(), Events(calls));
    }

    /** The line feeds and hyphens that must follow, and the end of the body. */
    method MarkRound(buf: seq<Byte>, i: nat) returns (move: Move)
      requires Valid() && i < |buf|
      requires phase.HeadersAlmostDone? || phase.ValueAlmostDone? || phase.DataAlmostEnd? || phase.FinalHyphen? || phase.DataEnd? || phase.End?
      modifies this`phase, this`calls
      ensures Valid() && !phase.Data? && !phase.Value?
      ensures Round(Boundary(), buf[i], move, old(State()), Events(old(calls)), State(), Events(calls)) && move != Back
    {
      var c := buf[i];
      match phase {
        case HeadersAlmostDone =>
          if c != LF { return Reject; }
          phase := DataStart;
        case ValueAlmostDone =>
          if c != LF { return Reject; }
          phase := FieldStart;
        case DataAlmostEnd =>
          if c == HYPHEN { phase := FinalHyphen; return Advance; }
          if c == CR { phase := DataEnd; return Advance; }
          return Reject;
        case FinalHyphen =>
          if c != HYPHEN { return Reject; }
          Emit(OnBodyEnd);
          phase := End;
        case DataEnd =>
          if c != LF { return Reject; }
          phase := FieldStart;
          Emit(OnPartDataBegin);
        case End =>
      }
      return Advance;
    }

    method DataRound(buf: seq<Byte>, i: nat, mark: nat, last: bool) returns (mark': nat)
      requires Valid() && mark <= i < |buf| && (phase.DataStart? || phase.Data?) && last == (i == |buf| - 1)
      modifies this`phase, this`calls, memory
      ensures Valid() && Boundary() == old(Boundary()) && mark' <= i
      ensures Round(Boundary(), buf[i], Advance, old(State()), Events(old(calls)) + Pending(old(phase), buf, mark, i),
                    State(), Events(calls) + Pending(phase, buf, mark', i + 1))
    {
      hide Events, PartBytes, ValueBytes, Pending, Round;
      ghost var b, st, e0 := Boundary(), State(), Events(calls);
      var c := buf[i];
      mark' := mark;
      if phase.DataStart? {
        Emit(OnHeadersComplete);
        mark' := i;
        phase := Data;
      }
      if c == CR {
        Emit(OnPartData(buf[mark'..i]));
        DataAdvances(b, st, buf, i, mark, mark', e0, St(DataAlmostBoundary, index), Events(calls));
        mark' := i;
        phase := DataAlmostBoundary;
        memory[boundaryLength + 1] := CR;
        assert Boundary() == b;
        return;
      }
      if last {
        Emit(OnPartData(buf[mark'..i + 1]));
      }
      DataAdvances(b, st, buf, i, mark, mark', e0, State(), Events(calls));
    }

    /** Matching CR LF boundary; on a mismatch the lookbehind is handed over as part data, and the
        index steps back so that the byte is looked at again. */
    method BoundaryRound(buf: seq<Byte>, i: nat, mark: nat) returns (move: Move, mark': nat)
      requires Valid() && mark <= i < |buf| && (phase.DataAlmostBoundary? || phase.DataBoundary?)
      modifies this`index, this`phase, this`calls, memory
      ensures Valid() && Boundary() == old(Boundary()) && mark' <= i && move != Reject
      ensures !phase.Value? && (phase.Data? ==> move == Back && mark' == i)
      ensures Round(Boundary(), buf[i], move, old(State()), Events(old(calls)), State(), Events(calls))
    {
      hide Events, PartBytes, ValueBytes, Pending, Round;
      ghost var b, st, e0 := Boundary(), State(), Events(calls);
      var c := buf[i];
      mark' := mark;
      if phase.DataAlmostBoundary? {
        if c == LF {
          phase := DataBoundary;
          memory[boundaryLength + 2] := LF;
          index := 0;
          MatchAdvances(b, st, c, e0);
          assert Boundary() == b;
          return Advance, mark';
        }
        Emit(OnPartData(memory[boundaryLength + 1..boundaryLength + 2]));
        phase := Data;
        assert memory[boundaryLength + 1..boundaryLength + 2] == [CR];
        MismatchGoesBack(b, st, c, e0, Events(calls));
        return Back, i;
      }
      if memory[index] != c {
        Emit(OnPartData(memory[boundaryLength + 1..boundaryLength + 3 + index]));
        phase := Data;
        assert memory[boundaryLength + 1..boundaryLength + 3 + index] == [CR, LF] + b[..index];
        MismatchGoesBack(b, st, c, e0, Events(calls));
        return Back, i;
      }
      memory[boundaryLength + 3 + index] := c;
      index := index + 1;
      assert Boundary() == b;
      assert index < boundaryLength ==> Lookbehind(2 + index) == [CR, LF] + memory[..index];
      MatchAdvances(b, st, c, e0);
      if index == boundaryLength {
        Emit(OnPartDataEnd);
        phase := DataAlmostEnd;
      }
      return Advance, mark';
    }

    /** One round of the loop: the switch on the state. */
    method Switch(buf: seq<Byte>, i: nat, mark: nat) returns (move: Move, mark': nat)
      requires Valid() && mark <= i < |buf|
      modifies this`index, this`phase, this`calls, memory
      ensures Valid() && Boundary() == old(Boundary()) && mark' <= i
      ensures Round(Boundary(), buf[i], move, old(State()), Events(old(calls)) + Pending(old(phase), buf, mark, i),
                    State(), Events(calls) + Pending(phase, buf, mark', if move.Advance? then i + 1 else i))
    {
      hide Round, Events, Feed;
      assert Events(calls) + [] == Events(calls);
      var last := i == |buf| - 1;
      mark' := mark;
      match phase {
        case Start => move := StartRound(buf, i);
        case StartBoundary => move := StartRound(buf, i);
        case FieldStart => move, mark' := FieldRound(buf, i, mark, last);
        case Field => move, mark' := FieldRound(buf, i, mark, last);
        case ValueStart => mark' := ValueRound(buf, i, mark, last); move := Advance;
        case Value => mark' := ValueRound(buf, i, mark, last); move := Advance;
        case DataStart => mark' := DataRound(buf, i, mark, last); move := Advance;
        case Data => mark' := DataRound(buf, i, mark, last); move := Advance;
        case DataAlmostBoundary => move, mark' := BoundaryRound(buf, i, mark);
        case DataBoundary => move, mark' := BoundaryRound(buf, i, mark);
        case _ => move := MarkRound(buf, i);
      }
      assert Events(calls) + [] == Events(calls);
      assert PartBytes(buf[i..i]) == [];
    }

    /** multipart_parser_execute: the number of bytes accepted, and in `rounds` how often the loop went round. */
    method Execute(buf: seq<Byte>) returns (n: nat, ghost rounds: nat)
      requires Valid()
      modifies this`index, this`phase, this`calls, memory
      ensures Valid() && Boundary() == old(Boundary())
      ensures var o := FeedAll(Boundary(), old(State()), buf);
        && State() == o.st && Events(calls) == Events(old(calls)) + o.events
        && n == (match o.rejected case None => |buf| case Some(k) => k)
      ensures rounds <= 2 * |buf|
    {
      hide Round, Feed, Events, FeedAll;
      ghost var b, st, o := Boundary(), State(), FeedAll(Boundary(), State(), buf);
      ghost var all := Outcome(o.st, Events(calls) + o.events, o.rejected);
      var i, mark := 0, 0;
      ghost var back := false;
      rounds := 0;
      StartProgress(b, buf, st, Events(calls));
      while i < |buf|
        invariant Valid() && Boundary() == b && 0 <= mark <= i <= |buf|
        invariant Progress(b, buf, all, i, State(), Events(calls) + Pending(phase, buf, mark, i))
        invariant rounds <= 2 * i + (if back then 1 else 0) && (back ==> phase.Data? && i < |buf|)
        decreases |buf| - i, if phase.Data? then 0 else 1
      {
        ghost var st0, e0 := State(), Events(calls) + Pending(phase, buf, mark, i);
        var move, mark' := Switch(buf, i, mark);
        rounds := rounds + 1;
        mark := mark';
        match move {
          case Advance =>
            AdvanceProgress(b, buf, all, i, st0, e0, State(), Events(calls) + Pending(phase, buf, mark, i + 1));
            i := i + 1;
            back := false;
          case Back =>
            BackProgress(b, buf, all, i, st0, e0, State(), Events(calls) + Pending(phase, buf, mark, i));
            BackIsToData(b, buf[i], st0, e0, State(), Events(calls) + Pending(phase, buf, mark, i));
            back := true;
          case Reject =>
            RejectProgress(b, buf, all, i, st0, e0, State(), Events(calls) + Pending(phase, buf, mark, i));
            NothingPending(b, buf, i, mark, st0, e0, State(), Events(calls));
            return i, rounds;
        }
      }
      EndProgress(b, buf, all, State(), mark, Events(calls));
      n := |buf|;
    }

    /** Chunk independence: one call for each chunk, up to the first that does not accept its chunk,
        has the effect of a single call for the whole body, however it is split: the same final
        state, the same data and notifications in the same order, and the same byte rejected. */
    method ExecuteChunks(chunks: seq<seq<Byte>>) returns (n: nat)
      requires Valid()
      modifies this`index, this`phase, this`calls, memory
      ensures Valid() && Boundary() == old(Boundary())
      ensures var o := FeedAll(Boundary(), old(State()), Concat(chunks));
        && State() == o.st && Events(calls) == Events(old(calls)) + o.events
        && n == (match o.rejected case None => |Concat(chunks)| case Some(k) => k)
    {
      hide FeedAll, Events;
      ghost var b, st, e, total := Boundary(), State(), Events(calls), FeedChunks(Boundary(), State(), chunks);
      ghost var done: seq<Event> := [];
      ChunkIndependence(b, st, chunks);
      RejectsInside(b, st, Concat(chunks));
      n := 0;
      var k := 0;
      assert chunks[0..] == chunks;
      while k < |chunks|
        invariant Valid() && Boundary() == b && k <= |chunks|
        invariant Events(calls) == e + done
        invariant n + |Concat(chunks[k..])| == |Concat(chunks)|
        invariant total == Then(Outcome(State(), done, None), n, FeedChunks(b, State(), chunks[k..]))
      {
        ghost var o := FeedAll(b, State(), chunks[k]);
        RejectsInside(b, State(), chunks[k]);
        assert chunks[k..][0] == chunks[k] && chunks[k..][1..] == chunks[k + 1..];
        var m, rounds := Execute(chunks[k]);
        n := n + m;
        done := done + o.events;
        assert Events(calls) == e + done;
        if m < |chunks[k]| { return; }
        k := k + 1;
      }
    }
  }
}
