/**
 * What a client connection yields (src/net/client.rs): every frame sent, once and
 * in order, however the bytes are cut; and what the decoder makes of inline
 * commands, negative lengths and malformed input.
 */
module RespStreams {
  import opened Basics
  import opened Resp
  import opened RespLaws

  // ---- Pipelined frames ----------------------------------------------------

  predicate Sendable(f: Frame) {
    WellTyped(f) && Clean(f)
  }

  lemma DrainStep(buffer: Bytes, f: Frame, rest: Bytes)
    requires Decode(buffer) == (Got(f), rest)
    ensures Drain(buffer) == ([f] + Drain(rest).0, Drain(rest).1)
  {
    hide Parse;
  }

  /** Draining whole frames yields them all, in order, and goes on with what follows. */
  lemma {:induction false} DrainYields(fs: seq<Frame>, rest: Bytes)
    requires forall i :: 0 <= i < |fs| ==> Sendable(fs[i])
    ensures Drain(EncodeAll(fs) + rest) == (fs + Drain(rest).0, Drain(rest).1)
  {
    hide Drain, Decode, Encode, WellTyped, Clean;
    if fs == [] {
      assert [] + rest == rest && [] + Drain(rest).0 == Drain(rest).0;
    } else {
      var more := EncodeAll(fs[1..]) + rest;
      assert EncodeAll(fs) + rest == Encode(fs[0]) + more;
      assert Sendable(fs[0]);
      RoundTrip(fs[0], more);
      DrainStep(Encode(fs[0]) + more, fs[0], more);
      DrainYields(fs[1..], rest);
      assert [fs[0]] + (fs[1..] + Drain(rest).0) == fs + Drain(rest).0;
    }
  }

  /** Pipelined frames cut in any way, with an unfinished one at the end: all of them arrive, once and in
      order, and the unfinished bytes are kept. */
  lemma PipelinedFramesArrive(fs: seq<Frame>, last: Frame, k: nat, chunks: seq<Bytes>)
    requires (forall i :: 0 <= i < |fs| ==> Sendable(fs[i])) && Sendable(last) && k < |Encode(last)|
    requires Concat(chunks) == EncodeAll(fs) + Encode(last)[..k]
    ensures FeedAll(chunks) == (fs, Open(Encode(last)[..k]))
  {
    hide Encode, EncodeAll, WellTyped, Clean, Concat, FeedAll, Parse;
    ChunkingIndependence(chunks);
    DrainYields(fs, Encode(last)[..k]);
    ProperPrefix(last, k);
    assert fs + [] == fs;
  }

  /** Where draining stops, the decoder has nothing to give: an open session keeps bytes that need more,
      and a closed one met bytes that are malformed in just that way. */
  lemma {:induction false} DrainStops(buffer: Bytes) returns (k: nat)
    ensures k <= |buffer|
    ensures match Drain(buffer).1
            case Open(b) => b == buffer[k..] && Decode(b) == (NeedMore, b)
            case Closed(flaw) => Decode(buffer[k..]).0 == Failed(flaw)
    decreases |buffer|
  {
    hide Parse;
    assert buffer[0..] == buffer;
    match Decode(buffer).0
    case Got(_) =>
      var p := Parse(buffer, 0).pos;
      var j := DrainStops(buffer[p..]);
      k := p + j;
      assert buffer[p..][j..] == buffer[k..];
    case NeedMore => k := 0;
    case Failed(_) => k := 0;
  }

  /** Once closed, a connection yields nothing more. */
  lemma ClosedStays(buffer: Bytes, more: Bytes)
    requires Drain(buffer).1.Closed?
    ensures Drain(buffer + more) == Drain(buffer)
  {
    hide Drain;
    DrainAppend(buffer, more);
    assert Drain(buffer).0 + [] == Drain(buffer).0;
  }

  // ---- Inline commands, negative lengths, malformed input ------------------

  predicate IsTag(b: Byte) {
    b == PLUS || b == MINUS || b == COLON || b == DOLLAR || b == STAR
  }

  lemma Standing(a: Bytes, rest: Bytes)
    ensures At(a + rest, 0, a) && (a + rest)[|a|..] == rest
  {
  }

  /** A line that starts with no tag is an inline command: the array of its words. */
  lemma InlineDecodes(line: Bytes, rest: Bytes)
    requires NoCrlf(line) && (line == [] || !IsTag(line[0]))
    ensures Decode(line + CRLF + rest) == (Got(Array(Words(line, []))), rest)
  {
    hide Words, Line, At;
    var buf := line + CRLF + rest;
    Standing(line + CRLF, rest);
    LineReads(buf, 0, line);
    assert buf[0] == if line == [] then CR else line[0];
  }

  /** A tag, a line and CRLF. */
  lemma TaggedLine(tag: Byte, line: Bytes, rest: Bytes)
    requires NoCrlf(line)
    ensures var buf := [tag] + line + CRLF + rest;
            && buf[0] == tag && Line(buf, 1) == Done(line, |line| + 3) && buf[|line| + 3..] == rest
  {
    hide Line, At;
    var buf := [tag] + line + CRLF + rest;
    assert [tag] + line + CRLF == [tag] + (line + CRLF);
    Standing([tag] + (line + CRLF), rest);
    AtTag(buf, 0, tag, line + CRLF);
    LineReads(buf, 1, line);
  }

  /** A negative length, of a bulk string or of an array, is the null frame. */
  lemma NegativeLengthIsNull(tag: Byte, v: int, rest: Bytes)
    requires (tag == DOLLAR || tag == STAR) && I64_MIN <= v < 0
    ensures Decode([tag] + IntText(v) + CRLF + rest) == (Got(Null), rest)
  {
    hide IntText, Line, ReadBulk, ParseItems, ParseInt;
    IntTextReads(v);
    TaggedLine(tag, IntText(v), rest);
  }

  /** Text that is no 64-bit integer is refused where an integer is due ... */
  lemma BadIntegerFails(tag: Byte, line: Bytes, rest: Bytes)
    requires (tag == COLON || tag == DOLLAR || tag == STAR) && NoCrlf(line) && ParseInt(line).None?
    ensures Decode([tag] + line + CRLF + rest).0 == Failed(BadInteger(line))
  {
    hide Line, ReadBulk, ParseItems, ParseInt;
    TaggedLine(tag, line, rest);
  }

  /** ... text that is no UTF-8 in a simple string or an error ... */
  lemma BadTextFails(tag: Byte, line: Bytes, rest: Bytes)
    requires (tag == PLUS || tag == MINUS) && NoCrlf(line) && !ValidUtf8(line)
    ensures Decode([tag] + line + CRLF + rest).0 == Failed(BadUtf8)
  {
    hide Line, ReadBulk, ParseItems, ParseInt, ValidUtf8;
    TaggedLine(tag, line, rest);
  }

  /** ... and a bulk string that goes on where it should end. */
  lemma BadBulkFails(data: Bytes, end: Bytes, rest: Bytes)
    requires |data| <= I64_MAX && |end| == 2 && end != CRLF
    ensures Decode([DOLLAR] + Decimal(|data|) + CRLF + data + end + rest).0 == Failed(BadBulkEnd)
  {
    hide *;
    var head := [DOLLAR] + Decimal(|data|) + CRLF;
    assert head + data + end == head + (data + end);
    Standing(head + (data + end), rest);
    var buf := head + (data + end) + rest;
    HeaderReads(buf, 0, DOLLAR, |data|, data + end);
    Taken(buf, 3 + |Decimal(|data|)|, data, end);
    BulkOutcome(buf, |data|, 3 + |Decimal(|data|)|);
  }

  lemma BulkOutcome(buf: Bytes, n: nat, pos: nat)
    requires buf != [] && buf[0] == DOLLAR && ReadInt(buf, 1) == Done(n, pos)
    requires ReadBulk(buf, pos, n) == Invalid(BadBulkEnd)
    ensures Decode(buf).0 == Failed(BadBulkEnd)
  {
    hide ReadInt, ReadBulk, ParseItems;
  }

  lemma Taken(buf: Bytes, pos: nat, data: Bytes, end: Bytes)
    requires At(buf, pos, data + end) && |end| == 2 && end != CRLF
    ensures ReadBulk(buf, pos, |data|) == Invalid(BadBulkEnd)
  {
    AtSplit(buf, pos, data, end);
  }

  // ---- Malformed items -----------------------------------------------------

  /** The same outcome, `k` bytes further on. */
  function Moved<T>(p: Parsed<T>, k: nat): Parsed<T> {
    match p
    case Done(v, pos) => Done(v, pos + k)
    case Incomplete => Incomplete
    case Invalid(flaw) => Invalid(flaw)
  }

  lemma {:induction false} FindMoves(a: Bytes, b: Bytes, pos: nat)
    ensures FindCrlf(a + b, |a| + pos) ==
              match FindCrlf(b, pos)
              case Some(e) => Some(|a| + e)
              case None => None
    decreases |b| - pos
  {
    if pos + 1 < |b| {
      FindMoves(a, b, pos + 1);
    }
  }

  lemma LineMoves(a: Bytes, b: Bytes, pos: nat)
    requires pos <= |b|
    ensures Line(a + b, |a| + pos) == Moved(Line(b, pos), |a|)
  {
    hide FindCrlf;
    FindMoves(a, b, pos);
    if FindCrlf(b, pos).Some? {
      assert (a + b)[|a| + pos..|a| + FindCrlf(b, pos).value] == b[pos..FindCrlf(b, pos).value];
    }
  }

  lemma BulkMoves(a: Bytes, b: Bytes, pos: nat, n: nat)
    ensures ReadBulk(a + b, |a| + pos, n) == Moved(ReadBulk(b, pos, n), |a|)
  {
    if pos + n <= |b| {
      assert (a + b)[|a| + pos..|a| + pos + n] == b[pos..pos + n];
      if pos + n + 2 <= |b| {
        assert (a + b)[|a| + pos + n..|a| + pos + n + 2] == b[pos + n..pos + n + 2];
      }
    }
  }

  lemma IntMoves(a: Bytes, b: Bytes, pos: nat)
    requires pos <= |b|
    ensures ReadInt(a + b, |a| + pos) == Moved(ReadInt(b, pos), |a|)
  {
    hide Line, ParseInt;
    LineMoves(a, b, pos);
  }

  lemma TextMoves(a: Bytes, b: Bytes, pos: nat)
    requires pos <= |b|
    ensures ReadString(a + b, |a| + pos) == Moved(ReadString(b, pos), |a|)
  {
    hide Line, ValidUtf8;
    LineMoves(a, b, pos);
  }

  /** What a frame is once its first byte and its length are known. */
  function Framed(buf: Bytes, pos: nat, n: Parsed<int>): Parsed<Frame>
    requires pos < |buf| && (n.Done? ==> pos < n.pos <= |buf|)
  {
    match n
    case Done(v, p) =>
      if v < 0 then Done(Null, p)
      else if buf[pos] == DOLLAR then ReadBulk(buf, p, v)
      else Map(ParseItems(buf, p, v), fs => Array(fs))
    case Incomplete => Incomplete
    case Invalid(f) => Invalid(f)
  }

  lemma ParseFramed(buf: Bytes, pos: nat)
    requires pos < |buf| && (buf[pos] == DOLLAR || buf[pos] == STAR)
    ensures Parse(buf, pos) == Framed(buf, pos, ReadInt(buf, pos + 1))
  {
    hide ReadInt, ReadBulk, ParseItems;
  }

  lemma PlainMoves(a: Bytes, b: Bytes, pos: nat)
    requires pos < |b| && b[pos] != DOLLAR && b[pos] != STAR
    ensures Parse(a + b, |a| + pos) == Moved(Parse(b, pos), |a|)
  {
    hide Line, ReadInt, ReadString, ReadBulk, Words, ParseItems;
    assert (a + b)[|a| + pos] == b[pos];
    LineMoves(a, b, pos);
    TextMoves(a, b, pos + 1);
    IntMoves(a, b, pos + 1);
  }

  /** Parsing looks at nothing before its position. */
  lemma {:induction false} ParseMoves(a: Bytes, b: Bytes, pos: nat)
    requires pos <= |b|
    ensures Parse(a + b, |a| + pos) == Moved(Parse(b, pos), |a|)
    decreases |b| - pos, 0, 0
  {
    hide *;
    if pos == |b| {
      NothingThere(a, b);
    } else if b[pos] != DOLLAR && b[pos] != STAR {
      PlainMoves(a, b, pos);
    } else {
      var n := ReadInt(b, pos + 1);
      if n.Done? && n.value >= 0 {
        ItemsMove(a, b, n.pos, n.value);
      }
      LengthMoves(a, b, pos);
    }
  }

  lemma NothingThere(a: Bytes, b: Bytes)
    ensures Parse(a + b, |a| + |b|) == Moved(Parse(b, |b|), |a|)
  {
  }

  /** The length moves along, and with it what it introduces. */
  lemma LengthMoves(a: Bytes, b: Bytes, pos: nat)
    requires pos < |b| && (b[pos] == DOLLAR || b[pos] == STAR)
    requires var n := ReadInt(b, pos + 1);
             n.Done? && n.value >= 0 ==>
               ParseItems(a + b, |a| + n.pos, n.value) == Moved(ParseItems(b, n.pos, n.value), |a|)
    ensures Parse(a + b, |a| + pos) == Moved(Parse(b, pos), |a|)
  {
    hide Parse, ReadInt, ReadBulk, ParseItems;
    assert (a + b)[|a| + pos] == b[pos];
    ParseFramed(b, pos);
    ParseFramed(a + b, |a| + pos);
    IntMoves(a, b, pos + 1);
    var n := ReadInt(b, pos + 1);
    if n.Done? && n.value >= 0 {
      BulkMoves(a, b, n.pos, n.value);
    }
  }

  lemma {:induction false} ItemsMove(a: Bytes, b: Bytes, pos: nat, n: nat)
    requires pos <= |b|
    ensures ParseItems(a + b, |a| + pos, n) == Moved(ParseItems(b, pos, n), |a|)
    decreases |b| - pos, 1, n
  {
    hide Parse;
    if n > 0 {
      ParseMoves(a, b, pos);
      if Parse(b, pos).Done? {
        ItemsMove(a, b, Parse(b, pos).pos, n - 1);
      }
    }
  }

  /** Whole items, and then one that is not parsed. */
  lemma {:induction false} ItemsStopAt(fs: seq<Frame>, buf: Bytes, pos: nat, n: nat)
    requires |fs| < n && At(buf, pos, EncodeAll(fs)) && forall i :: 0 <= i < |fs| ==> Sendable(fs[i])
    requires pos + |EncodeAll(fs)| <= |buf| && !Parse(buf, pos + |EncodeAll(fs)|).Done?
    ensures ParseItems(buf, pos, n) ==
              match Parse(buf, pos + |EncodeAll(fs)|)
              case Invalid(flaw) => Invalid(flaw)
              case _ => Incomplete
    decreases |fs|
  {
    hide Parse, Encode, WellTyped, Clean, At;
    if fs != [] {
      assert Sendable(fs[0]);
      AtSplit(buf, pos, Encode(fs[0]), EncodeAll(fs[1..]));
      ParseEncoded(fs[0], buf, pos);
      ItemsStopAt(fs[1..], buf, pos + |Encode(fs[0])|, n - 1);
    }
  }

  /** An array fails as its first malformed item does, and waits as its first unfinished item does, whatever
      number of whole items comes before. */
  lemma ArrayStopsAtItem(n: nat, fs: seq<Frame>, item: Bytes)
    requires |fs| < n <= I64_MAX && !Decode(item).0.Got? && forall i :: 0 <= i < |fs| ==> Sendable(fs[i])
    ensures Decode([STAR] + Decimal(n) + CRLF + EncodeAll(fs) + item).0 == Decode(item).0
  {
    hide *;
    var a := [STAR] + Decimal(n) + CRLF + EncodeAll(fs);
    var pos := 3 + |Decimal(n)|;
    HeaderLength(STAR, n, EncodeAll(fs));
    Standing(a, item);
    HeaderReads(a + item, 0, STAR, n, EncodeAll(fs));
    MovedOutcome(a, item);
    ItemsStopAt(fs, a + item, pos, n);
    ArrayOutcome(a + item, n, pos);
  }

  lemma HeaderLength(tag: Byte, n: nat, body: Bytes)
    ensures |[tag] + Decimal(n) + CRLF + body| == 3 + |Decimal(n)| + |body|
  {
    hide Decimal;
  }

  lemma MovedOutcome(a: Bytes, item: Bytes)
    requires !Decode(item).0.Got?
    ensures Decode(item).0 == match Parse(a + item, |a|) case Invalid(flaw) => Failed(flaw) case _ => NeedMore
    ensures !Parse(a + item, |a|).Done?
  {
    hide Parse;
    ParseMoves(a, item, 0);
  }

  lemma ArrayOutcome(buf: Bytes, n: nat, pos: nat)
    requires buf != [] && buf[0] == STAR && ReadInt(buf, 1) == Done(n, pos)
    requires pos <= |buf| && !ParseItems(buf, pos, n).Done?
    ensures Decode(buf).0 == match ParseItems(buf, pos, n) case Invalid(flaw) => Failed(flaw) case _ => NeedMore
  {
    hide ReadInt, ParseItems, Parse;
    ArrayIs(buf, n, pos);
  }

  lemma ArrayIs(buf: Bytes, n: nat, pos: nat)
    requires buf != [] && buf[0] == STAR && ReadInt(buf, 1) == Done(n, pos)
    ensures pos <= |buf| && Parse(buf, 0) == Map(ParseItems(buf, pos, n), fs => Array(fs))
  {
    hide ReadInt, ParseItems;
  }
}
