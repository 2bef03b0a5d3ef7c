/** What the codec promises: stability under more input, round trips, and independence of chunking. */
module RespLaws {
  import opened Basics
  import opened Resp

  // ---- More bytes never change a verdict -----------------------------------

  lemma {:induction false} FindStable(buf: Bytes, more: Bytes, pos: nat)
    requires FindCrlf(buf, pos).Some?
    ensures FindCrlf(buf + more, pos) == FindCrlf(buf, pos)
    decreases |buf| - pos
  {
    var b := buf + more;
    assert b[pos] == buf[pos] && b[pos + 1] == buf[pos + 1];
    if !(buf[pos] == CR && buf[pos + 1] == LF) {
      FindStable(buf, more, pos + 1);
    }
  }

  lemma LineStable(buf: Bytes, more: Bytes, pos: nat)
    requires pos <= |buf| && Line(buf, pos).Done?
    ensures Line(buf + more, pos) == Line(buf, pos)
  {
    FindStable(buf, more, pos);
    var e := FindCrlf(buf, pos).value;
    assert (buf + more)[pos..e] == buf[pos..e];
  }

  lemma TakeStable(buf: Bytes, more: Bytes, pos: nat, n: nat)
    requires Take(buf, pos, n).Done?
    ensures Take(buf + more, pos, n) == Take(buf, pos, n)
  {
    assert (buf + more)[pos..pos + n] == buf[pos..pos + n];
  }

  lemma ReadIntStable(buf: Bytes, more: Bytes, pos: nat)
    requires pos <= |buf| && !ReadInt(buf, pos).Incomplete?
    ensures ReadInt(buf + more, pos) == ReadInt(buf, pos)
  {
    LineStable(buf, more, pos);
  }

  lemma ReadBulkStable(buf: Bytes, more: Bytes, pos: nat, n: nat)
    requires !ReadBulk(buf, pos, n).Incomplete?
    ensures ReadBulk(buf + more, pos, n) == ReadBulk(buf, pos, n)
  {
    TakeStable(buf, more, pos, n);
    TakeStable(buf, more, pos + n, 2);
  }

  /** A parsed frame, and a malformed input, stay what they are when bytes arrive later. */
  lemma {:induction false} ParseStable(buf: Bytes, more: Bytes, pos: nat)
    requires pos <= |buf| && !Parse(buf, pos).Incomplete?
    ensures Parse(buf + more, pos) == Parse(buf, pos)
    decreases |buf| - pos, 0, 0
  {
    hide ReadBulk, ReadInt, Words;
    assert (buf + more)[pos] == buf[pos];
    if buf[pos] == PLUS || buf[pos] == MINUS {
      LineStable(buf, more, pos + 1);
    } else if buf[pos] == COLON {
      ReadIntStable(buf, more, pos + 1);
    } else if buf[pos] == DOLLAR {
      ReadIntStable(buf, more, pos + 1);
      match ReadInt(buf, pos + 1)
      case Done(n, p) => if n >= 0 { ReadBulkStable(buf, more, p, n); }
      case Invalid(_) =>
    } else if buf[pos] == STAR {
      ReadIntStable(buf, more, pos + 1);
      match ReadInt(buf, pos + 1)
      case Done(n, p) => if n >= 0 { ItemsStable(buf, more, p, n); }
      case Invalid(_) =>
    } else {
      LineStable(buf, more, pos);
    }
  }

  lemma {:induction false} ItemsStable(buf: Bytes, more: Bytes, pos: nat, n: nat)
    requires pos <= |buf| && !ParseItems(buf, pos, n).Incomplete?
    ensures ParseItems(buf + more, pos, n) == ParseItems(buf, pos, n)
    decreases |buf| - pos, 1, n
  {
    hide Parse;
    if n > 0 {
      ParseStable(buf, more, pos);
      match Parse(buf, pos)
      case Done(_, p) => ItemsStable(buf, more, p, n - 1);
      case Invalid(_) =>
    }
  }

  // ---- Lines ---------------------------------------------------------------

  /** No CRLF inside. */
  predicate NoCrlf(s: Bytes) {
    forall i :: 0 <= i < |s| - 1 ==> !(s[i] == CR && s[i + 1] == LF)
  }

  /** `s` stands at `pos` in `buf`. */
  predicate At(buf: Bytes, pos: nat, s: Bytes) {
    pos + |s| <= |buf| && buf[pos..pos + |s|] == s
  }

  lemma AtSplit(buf: Bytes, pos: nat, s: Bytes, t: Bytes)
    requires At(buf, pos, s + t)
    ensures At(buf, pos, s) && At(buf, pos + |s|, t)
  {
    assert buf[pos..pos + |s|] == (s + t)[..|s|];
    assert buf[pos + |s|..pos + |s| + |t|] == (s + t)[|s|..];
  }

  lemma AtIndex(buf: Bytes, pos: nat, s: Bytes)
    requires At(buf, pos, s)
    ensures forall i :: 0 <= i < |s| ==> buf[pos + i] == s[i]
  {
    forall i | 0 <= i < |s| ensures buf[pos + i] == s[i] {
      assert buf[pos..pos + |s|][i] == s[i];
    }
  }

  lemma {:induction false} FindFirst(buf: Bytes, pos: nat, e: nat)
    requires pos <= e && e + 2 <= |buf| && buf[e] == CR && buf[e + 1] == LF
    requires forall i :: pos <= i < e ==> !(buf[i] == CR && buf[i + 1] == LF)
    ensures FindCrlf(buf, pos) == Some(e)
    decreases e - pos
  {
    if pos < e {
      FindFirst(buf, pos + 1, e);
    }
  }

  /** A clean line followed by CRLF is read back whole. */
  lemma LineReads(buf: Bytes, pos: nat, s: Bytes)
    requires At(buf, pos, s + CRLF) && NoCrlf(s)
    ensures Line(buf, pos) == Done(s, pos + |s| + 2)
  {
    AtIndex(buf, pos, s + CRLF);
    var e := pos + |s|;
    assert buf[e] == (s + CRLF)[|s|] && buf[e + 1] == (s + CRLF)[|s| + 1];
    forall i | pos <= i < e ensures !(buf[i] == CR && buf[i + 1] == LF) {
      assert buf[i] == (s + CRLF)[i - pos] && buf[i + 1] == (s + CRLF)[i + 1 - pos];
    }
    FindFirst(buf, pos, e);
    AtSplit(buf, pos, s, CRLF);
  }

  /** A line that contains CRLF is never read back whole. */
  lemma LineBreaks(buf: Bytes, pos: nat, s: Bytes)
    requires At(buf, pos, s + CRLF) && !NoCrlf(s)
    ensures Line(buf, pos).Done? && |Line(buf, pos).value| < |s|
  {
    var i :| 0 <= i < |s| - 1 && s[i] == CR && s[i + 1] == LF;
    AtIndex(buf, pos, s + CRLF);
    assert buf[pos + i] == (s + CRLF)[i] && buf[pos + i + 1] == (s + CRLF)[i + 1];
    FindNoLater(buf, pos, pos + i);
  }

  lemma {:induction false} FindNoLater(buf: Bytes, pos: nat, e: nat)
    requires pos <= e && e + 2 <= |buf| && buf[e] == CR && buf[e + 1] == LF
    ensures FindCrlf(buf, pos).Some? && FindCrlf(buf, pos).value <= e
    decreases e - pos
  {
    if pos < e && !(buf[pos] == CR && buf[pos + 1] == LF) {
      FindNoLater(buf, pos + 1, e);
    }
  }

  /** What a line returns holds no CRLF. */
  lemma {:induction false} FoundIsFirst(buf: Bytes, pos: nat)
    requires FindCrlf(buf, pos).Some?
    ensures forall i :: pos <= i < FindCrlf(buf, pos).value ==> !(buf[i] == CR && buf[i + 1] == LF)
    decreases |buf| - pos
  {
    if !(buf[pos] == CR && buf[pos + 1] == LF) {
      FoundIsFirst(buf, pos + 1);
    }
  }

  // ---- Numbers -------------------------------------------------------------

  lemma {:induction false} DecimalReads(n: nat)
    ensures Decimal(n) != [] && AllDigits(Decimal(n)) && ValueOf(Decimal(n)) == n
  {
    if n >= 10 {
      DecimalReads(n / 10);
      assert Decimal(n)[..|Decimal(n)| - 1] == Decimal(n / 10);
    }
  }

  /** Printing and reading back any 64-bit integer. */
  lemma IntTextReads(v: int)
    requires I64_MIN <= v <= I64_MAX
    ensures ParseInt(IntText(v)) == Some(v) && NoCrlf(IntText(v))
  {
    hide Decimal, ValueOf;
    var d := Decimal(if v < 0 then -v else v);
    DecimalReads(if v < 0 then -v else v);
    var t := IntText(v);
    assert v < 0 ==> t[1..] == d;
    assert IsDigit(d[0]);
    forall i | 0 <= i < |t| - 1 ensures t[i] != CR {
      assert v >= 0 ==> IsDigit(d[i]);
      assert v < 0 && i > 0 ==> t[i] == d[i - 1] && IsDigit(d[i - 1]);
    }
  }

  lemma ReadsInt(buf: Bytes, pos: nat, v: int)
    requires I64_MIN <= v <= I64_MAX && At(buf, pos, IntText(v) + CRLF)
    ensures ReadInt(buf, pos) == Done(v, pos + |IntText(v)| + 2)
  {
    hide IntText, ParseInt;
    IntTextReads(v);
    LineReads(buf, pos, IntText(v));
  }

  // ---- Round trip ----------------------------------------------------------

  /** What the frame type itself guarantees: strings are UTF-8, integers fit 64 bits, and so do lengths. */
  predicate WellTyped(f: Frame) {
    match f
    case Simple(s) => ValidUtf8(s)
    case Error(s) => ValidUtf8(s)
    case Integer(v) => I64_MIN <= v <= I64_MAX
    case Bulk(d) => |d| <= I64_MAX
    case Null => true
    case Array(items) => |items| <= I64_MAX && forall i :: 0 <= i < |items| ==> WellTyped(items[i])
  }

  /** No simple string or error inside contains CRLF. */
  predicate Clean(f: Frame) {
    match f
    case Simple(s) => NoCrlf(s)
    case Error(s) => NoCrlf(s)
    case Integer(_) => true
    case Bulk(_) => true
    case Null => true
    case Array(items) => forall i :: 0 <= i < |items| ==> Clean(items[i])
  }

  lemma AtTag(buf: Bytes, pos: nat, tag: Byte, s: Bytes)
    requires At(buf, pos, [tag] + s)
    ensures pos < |buf| && buf[pos] == tag && At(buf, pos + 1, s)
  {
    AtIndex(buf, pos, [tag] + s);
    assert buf[pos + 0] == ([tag] + s)[0];
    AtSplit(buf, pos, [tag], s);
  }

  lemma StringReads(buf: Bytes, pos: nat, s: Bytes)
    requires At(buf, pos, s + CRLF) && ValidUtf8(s) && NoCrlf(s)
    ensures ReadString(buf, pos) == Done(s, pos + |s| + 2)
  {
    LineReads(buf, pos, s);
  }

  lemma BulkReads(buf: Bytes, pos: nat, d: Bytes)
    requires At(buf, pos, d + CRLF)
    ensures ReadBulk(buf, pos, |d|) == Done(Bulk(d), pos + |d| + 2)
  {
    AtSplit(buf, pos, d, CRLF);
  }

  /** The header of a bulk string or array. */
  lemma HeaderReads(buf: Bytes, pos: nat, tag: Byte, n: nat, body: Bytes)
    requires n <= I64_MAX && At(buf, pos, [tag] + Decimal(n) + CRLF + body)
    ensures pos < |buf| && buf[pos] == tag
    ensures ReadInt(buf, pos + 1) == Done(n, pos + 3 + |Decimal(n)|)
    ensures At(buf, pos + 3 + |Decimal(n)|, body)
  {
    hide Decimal, ReadInt;
    var d := Decimal(n);
    assert [tag] + d + CRLF + body == [tag] + ((d + CRLF) + body);
    AtTag(buf, pos, tag, (d + CRLF) + body);
    AtSplit(buf, pos + 1, d + CRLF, body);
    assert IntText(n) == d;
    ReadsInt(buf, pos + 1, n);
  }

  lemma NullReads(buf: Bytes, pos: nat)
    requires At(buf, pos, Encode(Null))
    ensures Parse(buf, pos) == Done(Null, pos + 5)
  {
    hide ReadBulk;
    var t := IntText(-1);
    assert Decimal(1) == [ZERO + 1];
    assert Encode(Null) == [DOLLAR] + (t + CRLF);
    AtTag(buf, pos, DOLLAR, t + CRLF);
    ReadsInt(buf, pos + 1, -1);
  }

  /** Decoding the encoding of a clean frame, whatever comes before and after it. */
  lemma {:induction false} ParseEncoded(f: Frame, buf: Bytes, pos: nat)
    requires WellTyped(f) && Clean(f) && At(buf, pos, Encode(f))
    ensures Parse(buf, pos) == Done(f, pos + |Encode(f)|)
    decreases f, 0
  {
    hide ReadInt, ReadString, ReadBulk, At, Decimal, IntText, ValidUtf8;
    match f
    case Simple(s) =>
      assert Encode(f) == [PLUS] + (s + CRLF);
      AtTag(buf, pos, PLUS, s + CRLF);
      StringReads(buf, pos + 1, s);
    case Error(s) =>
      assert Encode(f) == [MINUS] + (s + CRLF);
      AtTag(buf, pos, MINUS, s + CRLF);
      StringReads(buf, pos + 1, s);
    case Integer(v) =>
      assert Encode(f) == [COLON] + (IntText(v) + CRLF);
      AtTag(buf, pos, COLON, IntText(v) + CRLF);
      ReadsInt(buf, pos + 1, v);
    case Bulk(d) =>
      assert Encode(f) == [DOLLAR] + Decimal(|d|) + CRLF + (d + CRLF);
      HeaderReads(buf, pos, DOLLAR, |d|, d + CRLF);
      BulkReads(buf, pos + 3 + |Decimal(|d|)|, d);
    case Null =>
      NullReads(buf, pos);
    case Array(items) =>
      HeaderReads(buf, pos, STAR, |items|, EncodeAll(items));
      ItemsEncoded(items, buf, pos + 3 + |Decimal(|items|)|);
  }

  lemma {:induction false} ItemsEncoded(items: seq<Frame>, buf: Bytes, pos: nat)
    requires forall i :: 0 <= i < |items| ==> WellTyped(items[i]) && Clean(items[i])
    requires At(buf, pos, EncodeAll(items))
    ensures pos <= |buf| && ParseItems(buf, pos, |items|) == Done(items, pos + |EncodeAll(items)|)
    decreases items, 1
  {
    hide Parse, Encode, WellTyped, Clean;
    if items != [] {
      AtSplit(buf, pos, Encode(items[0]), EncodeAll(items[1..]));
      ParseEncoded(items[0], buf, pos);
      ItemsEncoded(items[1..], buf, pos + |Encode(items[0])|);
      assert items == [items[0]] + items[1..];
    }
  }

  // ---- ... and only of a clean one -----------------------------------------

  lemma StringBreaks(buf: Bytes, pos: nat, s: Bytes)
    requires At(buf, pos, s + CRLF) && !NoCrlf(s)
    ensures !(ReadString(buf, pos).Done? && ReadString(buf, pos).value == s)
  {
    LineBreaks(buf, pos, s);
  }

  lemma {:induction false} ParseUnclean(f: Frame, buf: Bytes, pos: nat)
    requires WellTyped(f) && !Clean(f) && At(buf, pos, Encode(f))
    ensures pos <= |buf| && !(Parse(buf, pos).Done? && Parse(buf, pos).value == f)
    decreases f, 0
  {
    hide ReadInt, ReadString, ReadBulk, At, Decimal, IntText, ValidUtf8;
    match f
    case Simple(s) =>
      assert Encode(f) == [PLUS] + (s + CRLF);
      AtTag(buf, pos, PLUS, s + CRLF);
      StringBreaks(buf, pos + 1, s);
    case Error(s) =>
      assert Encode(f) == [MINUS] + (s + CRLF);
      AtTag(buf, pos, MINUS, s + CRLF);
      StringBreaks(buf, pos + 1, s);
    case Array(items) =>
      HeaderReads(buf, pos, STAR, |items|, EncodeAll(items));
      ItemsUnclean(items, buf, pos + 3 + |Decimal(|items|)|);
  }

  lemma {:induction false} ItemsUnclean(items: seq<Frame>, buf: Bytes, pos: nat)
    requires forall i :: 0 <= i < |items| ==> WellTyped(items[i])
    requires exists i :: 0 <= i < |items| && !Clean(items[i])
    requires At(buf, pos, EncodeAll(items))
    ensures pos <= |buf| && !(ParseItems(buf, pos, |items|).Done? && ParseItems(buf, pos, |items|).value == items)
    decreases items, 1
  {
    hide Parse, Encode, WellTyped, Clean;
    AtSplit(buf, pos, Encode(items[0]), EncodeAll(items[1..]));
    if Clean(items[0]) {
      ParseEncoded(items[0], buf, pos);
      ItemsUnclean(items[1..], buf, pos + |Encode(items[0])|);
      assert items[1..] == ([items[0]] + items[1..])[1..];
    } else {
      ParseUnclean(items[0], buf, pos);
    }
  }

  /** The round trip, exactly: a frame comes back, with the following bytes untouched, if and only if
      none of its strings contains CRLF. */
  lemma RoundTrip(f: Frame, rest: Bytes)
    requires WellTyped(f)
    ensures Decode(Encode(f) + rest) == (Got(f), rest) <==> Clean(f)
  {
    hide Parse, Encode, WellTyped, Clean;
    var buf := Encode(f) + rest;
    assert At(buf, 0, Encode(f));
    if Clean(f) {
      ParseEncoded(f, buf, 0);
    } else {
      ParseUnclean(f, buf, 0);
    }
  }

  /** Every proper prefix of an encoding asks for more and consumes nothing. */
  lemma ProperPrefix(f: Frame, k: nat)
    requires WellTyped(f) && Clean(f) && k < |Encode(f)|
    ensures Decode(Encode(f)[..k]) == (NeedMore, Encode(f)[..k])
  {
    hide Parse, Encode, WellTyped, Clean;
    var e := Encode(f);
    assert e[..k] + e[k..] == e;
    assert At(e, 0, e);
    ParseEncoded(f, e, 0);
    if !Parse(e[..k], 0).Incomplete? {
      ParseStable(e[..k], e[k..], 0);
    }
  }

  // ---- Whatever is decoded is in normal form -------------------------------

  lemma {:induction false} WordsFacts(line: Bytes, word: Bytes)
    ensures |Words(line, word)| <= |line| + |word|
    ensures forall i :: 0 <= i < |Words(line, word)| ==>
              Words(line, word)[i].Bulk? && 1 <= |Words(line, word)[i].data| <= |line| + |word|
    decreases |line|
  {
    if line != [] {
      if line[0] == SPACE {
        WordsFacts(line[1..], []);
      } else {
        WordsFacts(line[1..], word + [line[0]]);
      }
    }
  }

  /** A space separates words ... */
  lemma {:induction false} WordsSplit(a: Bytes, b: Bytes, word: Bytes)
    ensures Words(a + [SPACE] + b, word) == Words(a, word) + Words(b, [])
    decreases |a|
  {
    var s := a + [SPACE] + b;
    if a == [] {
      assert s[1..] == b;
    } else {
      assert s[1..] == a[1..] + [SPACE] + b;
      if a[0] == SPACE {
        WordsSplit(a[1..], b, []);
      } else {
        WordsSplit(a[1..], b, word + [a[0]]);
      }
    }
  }

  /** ... and nothing else does. */
  lemma {:induction false} WordsSingle(a: Bytes, word: Bytes)
    requires SPACE !in a
    ensures Words(a, word) == if word + a == [] then [] else [Bulk(word + a)]
    decreases |a|
  {
    if a == [] {
      assert word + a == word;
    } else {
      assert word + a == (word + [a[0]]) + a[1..];
      WordsSingle(a[1..], word + [a[0]]);
    }
  }

  lemma LineIsClean(buf: Bytes, pos: nat)
    requires pos <= |buf| && Line(buf, pos).Done?
    ensures NoCrlf(Line(buf, pos).value) && |Line(buf, pos).value| <= |buf|
  {
    FoundIsFirst(buf, pos);
    var e := FindCrlf(buf, pos).value;
    var s := buf[pos..e];
    forall i | 0 <= i < |s| - 1 ensures !(s[i] == CR && s[i + 1] == LF) {
      assert s[i] == buf[pos + i] && s[i + 1] == buf[pos + i + 1];
    }
  }

  lemma {:induction false} ParsedIsNormal(buf: Bytes, pos: nat)
    requires pos <= |buf| <= I64_MAX && Parse(buf, pos).Done?
    ensures WellTyped(Parse(buf, pos).value) && Clean(Parse(buf, pos).value)
    decreases |buf| - pos, 0, 0
  {
    hide Words, ParseInt, ValidUtf8;
    if buf[pos] == PLUS || buf[pos] == MINUS {
      LineIsClean(buf, pos + 1);
    } else if buf[pos] == STAR {
      var n := ReadInt(buf, pos + 1);
      if n.value >= 0 {
        ItemsAreNormal(buf, n.pos, n.value);
      }
    } else if buf[pos] != COLON && buf[pos] != DOLLAR {
      LineIsClean(buf, pos);
      WordsFacts(Line(buf, pos).value, []);
    }
  }

  lemma {:induction false} ItemsAreNormal(buf: Bytes, pos: nat, n: nat)
    requires pos <= |buf| <= I64_MAX && ParseItems(buf, pos, n).Done?
    ensures forall i :: 0 <= i < n ==>
              WellTyped(ParseItems(buf, pos, n).value[i]) && Clean(ParseItems(buf, pos, n).value[i])
    decreases |buf| - pos, 1, n
  {
    hide Parse, WellTyped, Clean;
    if n > 0 {
      ParsedIsNormal(buf, pos);
      ItemsAreNormal(buf, Parse(buf, pos).pos, n - 1);
    }
  }

  /** Decoding any bytes at all yields a frame that is consumed from the front, and that encodes and
      decodes back to itself. */
  lemma DecodedRoundTrips(src: Bytes, rest: Bytes)
    requires |src| <= I64_MAX && Decode(src).0.Got?
    ensures |Decode(src).1| < |src| && Decode(src).1 == src[|src| - |Decode(src).1|..]
    ensures Decode(Encode(Decode(src).0.frame) + rest) == (Got(Decode(src).0.frame), rest)
  {
    hide Parse, Encode, WellTyped, Clean;
    ParsedIsNormal(src, 0);
    RoundTrip(Decode(src).0.frame, rest);
  }

  // ---- Chunking ------------------------------------------------------------

  /** Bytes that arrive later continue where the buffered ones left off. */
  lemma {:induction false} DrainAppend(buffer: Bytes, more: Bytes)
    ensures var (fs, s) := Drain(buffer);
            var (gs, t) := Feed(s, more);
            Drain(buffer + more) == (fs + gs, t)
    decreases |buffer|
  {
    hide Parse;
    if !Parse(buffer, 0).Incomplete? {
      ParseStable(buffer, more, 0);
    }
    if Parse(buffer, 0).Done? {
      var p := Parse(buffer, 0).pos;
      assert (buffer + more)[p..] == buffer[p..] + more;
      DrainAppend(buffer[p..], more);
      var f, fs := [Parse(buffer, 0).value], Drain(buffer[p..]).0;
      var gs := Feed(Drain(buffer[p..]).1, more).0;
      assert f + (fs + gs) == (f + fs) + gs;
    } else {
      var gs := Feed(Drain(buffer).1, more).0;
      assert [] + gs == gs;
    }
  }

  /** The frames of a connection, and whether and why it fails, depend only on the bytes received, not
      on how the reads cut them. */
  lemma {:induction false} ChunkingIndependence(chunks: seq<Bytes>)
    ensures FeedAll(chunks) == Drain(Concat(chunks))
  {
    hide Drain, Feed;
    if chunks == [] {
      EmptyDrain();
    } else {
      var last := |chunks| - 1;
      ChunkingIndependence(chunks[..last]);
      DrainAppend(Concat(chunks[..last]), chunks[last]);
    }
  }

  lemma EmptyDrain()
    ensures Drain([]) == ([], Open([]))
  {
  }

  lemma SameBytesSameFrames(a: seq<Bytes>, b: seq<Bytes>)
    requires Concat(a) == Concat(b)
    ensures FeedAll(a) == FeedAll(b)
  {
    ChunkingIndependence(a);
    ChunkingIndependence(b);
  }
}
