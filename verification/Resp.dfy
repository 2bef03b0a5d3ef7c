/**
 * RESP2 framing (src/protocol/resp.rs) as functions on byte sequences, following
 * the Redis serialization protocol: simple strings, errors, integers, bulk
 * strings, arrays and inline commands.
 */
module Resp {
  import opened Basics

  type Bytes = seq<Byte>

  const CR: Byte := 13
  const LF: Byte := 10
  const SPACE: Byte := 32
  const STAR: Byte := 42
  const PLUS: Byte := 43
  const MINUS: Byte := 45
  const DOLLAR: Byte := 36
  const COLON: Byte := 58
  const ZERO: Byte := 48
  const CRLF: Bytes := [13, 10]

  const I64_MIN: int := -0x8000_0000_0000_0000
  const I64_MAX: int := 0x7FFF_FFFF_FFFF_FFFF

  datatype Frame =
    | Simple(text: Bytes)
    | Error(text: Bytes)
    | Integer(value: int)
    | Bulk(data: Bytes)
    | Null
    | Array(items: seq<Frame>)

  datatype Flaw = BadInteger(line: Bytes) | BadBulkEnd | BadUtf8

  /** A parse step: a value and the position after it, more bytes needed, or malformed input. */
  datatype Parsed<+T> = Done(value: T, pos: nat) | Incomplete | Invalid(flaw: Flaw)

  // ---- UTF-8 ---------------------------------------------------------------

  predicate Continuation(b: Byte) {
    0x80 <= b <= 0xBF
  }

  /** Length of the well-formed code point at the start of `s`, or 0 (RFC 3629, section 4). */
  function CodePointLength(s: Bytes): nat
    requires s != []
    ensures CodePointLength(s) <= |s|
  {
    var a := s[0];
    if a < 0x80 then 1
    else if |s| < 2 then 0
    else if 0xC2 <= a <= 0xDF then if Continuation(s[1]) then 2 else 0
    else if |s| < 3 then 0
    else if 0xE0 <= a <= 0xEF then
      var second := if a == 0xE0 then 0xA0 <= s[1] <= 0xBF
                    else if a == 0xED then 0x80 <= s[1] <= 0x9F
                    else Continuation(s[1]);
      if second && Continuation(s[2]) then 3 else 0
    else if |s| < 4 then 0
    else if 0xF0 <= a <= 0xF4 then
      var second := if a == 0xF0 then 0x90 <= s[1] <= 0xBF
                    else if a == 0xF4 then 0x80 <= s[1] <= 0x8F
                    else Continuation(s[1]);
      if second && Continuation(s[2]) && Continuation(s[3]) then 4 else 0
    else 0
  }

  predicate ValidUtf8(s: Bytes) {
    s == [] || (CodePointLength(s) > 0 && ValidUtf8(s[CodePointLength(s)..]))
  }

  // ---- Integers ------------------------------------------------------------

  predicate IsDigit(b: Byte) {
    ZERO <= b <= ZERO + 9
  }

  predicate AllDigits(s: Bytes) {
    forall i :: 0 <= i < |s| ==> IsDigit(s[i])
  }

  function ValueOf(s: Bytes): nat
    requires AllDigits(s)
  {
    if s == [] then 0 else 10 * ValueOf(s[..|s| - 1]) + (s[|s| - 1] - ZERO)
  }

  /** What parsing a decimal `i64` accepts: an optional sign, at least one digit, a value in range. */
  function ParseInt(line: Bytes): Option<int> {
    var signed := line != [] && (line[0] == MINUS || line[0] == PLUS);
    var body := if signed then line[1..] else line;
    if body == [] || !AllDigits(body) then None
    else
      var magnitude: int := ValueOf(body);
      var v := if signed && line[0] == MINUS then -magnitude else magnitude;
      if I64_MIN <= v <= I64_MAX then Some(v) else None
  }

  function Decimal(n: nat): Bytes {
    if n < 10 then [ZERO + n] else Decimal(n / 10) + [ZERO + n % 10]
  }

  function IntText(v: int): Bytes {
    if v < 0 then [MINUS] + Decimal(-v) else Decimal(v)
  }

  // ---- Parsing -------------------------------------------------------------

  /** The position of the first CRLF at or after `pos`. */
  function FindCrlf(buf: Bytes, pos: nat): (r: Option<nat>)
    ensures r.Some? ==> pos <= r.value && r.value + 2 <= |buf|
    decreases |buf| - pos
  {
    if pos + 1 >= |buf| then None
    else if buf[pos] == CR && buf[pos + 1] == LF then Some(pos)
    else FindCrlf(buf, pos + 1)
  }

  function Line(buf: Bytes, pos: nat): (r: Parsed<Bytes>)
    requires pos <= |buf|
    ensures r.Done? ==> pos < r.pos <= |buf|
    ensures !r.Invalid?
  {
    match FindCrlf(buf, pos)
    case Some(e) => Done(buf[pos..e], e + 2)
    case None => Incomplete
  }

  function Take(buf: Bytes, pos: nat, n: nat): (r: Parsed<Bytes>)
    ensures r.Done? ==> r.pos == pos + n <= |buf|
    ensures !r.Invalid?
  {
    if pos + n > |buf| then Incomplete else Done(buf[pos..pos + n], pos + n)
  }

  function ReadInt(buf: Bytes, pos: nat): (r: Parsed<int>)
    requires pos <= |buf|
    ensures r.Done? ==> pos < r.pos <= |buf| && I64_MIN <= r.value <= I64_MAX
  {
    match Line(buf, pos)
    case Done(line, p) =>
      (match ParseInt(line)
       case Some(v) => Done(v, p)
       case None => Invalid(BadInteger(line)))
    case Incomplete => Incomplete
    case Invalid(f) => Invalid(f)
  }

  function ReadString(buf: Bytes, pos: nat): (r: Parsed<Bytes>)
    requires pos <= |buf|
    ensures r.Done? ==> pos < r.pos <= |buf| && ValidUtf8(r.value)
  {
    match Line(buf, pos)
    case Done(line, p) => if ValidUtf8(line) then Done(line, p) else Invalid(BadUtf8)
    case Incomplete => Incomplete
    case Invalid(f) => Invalid(f)
  }

  function ReadBulk(buf: Bytes, pos: nat, n: nat): (r: Parsed<Frame>)
    ensures r.Done? ==> pos < r.pos <= |buf|
  {
    match Take(buf, pos, n)
    case Done(data, p) =>
      (match Take(buf, p, 2)
       case Done(end, q) => if end == CRLF then Done(Bulk(data), q) else Invalid(BadBulkEnd)
       case Incomplete => Incomplete
       case Invalid(f) => Invalid(f))
    case Incomplete => Incomplete
    case Invalid(f) => Invalid(f)
  }

  /** The maximal runs of non-space bytes, as bulk strings; `word` is the run in progress. */
  function Words(line: Bytes, word: Bytes): seq<Frame>
    decreases |line|
  {
    var flushed := if word == [] then [] else [Bulk(word)];
    if line == [] then flushed
    else if line[0] == SPACE then flushed + Words(line[1..], [])
    else Words(line[1..], word + [line[0]])
  }

  function Map<S, T>(p: Parsed<S>, f: S -> T): Parsed<T> {
    match p
    case Done(v, pos) => Done(f(v), pos)
    case Incomplete => Incomplete
    case Invalid(flaw) => Invalid(flaw)
  }

  function Parse(buf: Bytes, pos: nat): (r: Parsed<Frame>)
    requires pos <= |buf|
    ensures r.Done? ==> pos < r.pos <= |buf|
    decreases |buf| - pos, 0, 0
  {
    if pos == |buf| then Incomplete
    else if buf[pos] == PLUS then Map(ReadString(buf, pos + 1), s => Simple(s))
    else if buf[pos] == MINUS then Map(ReadString(buf, pos + 1), s => Error(s))
    else if buf[pos] == COLON then Map(ReadInt(buf, pos + 1), v => Integer(v))
    else if buf[pos] == DOLLAR then
      match ReadInt(buf, pos + 1)
      case Done(n, p) => if n < 0 then Done(Null, p) else ReadBulk(buf, p, n)
      case Incomplete => Incomplete
      case Invalid(f) => Invalid(f)
    else if buf[pos] == STAR then
      match ReadInt(buf, pos + 1)
      case Done(n, p) => if n < 0 then Done(Null, p) else Map(ParseItems(buf, p, n), fs => Array(fs))
      case Incomplete => Incomplete
      case Invalid(f) => Invalid(f)
    else Map(Line(buf, pos), line => Array(Words(line, [])))
  }

  function ParseItems(buf: Bytes, pos: nat, n: nat): (r: Parsed<seq<Frame>>)
    requires pos <= |buf|
    ensures r.Done? ==> pos <= r.pos <= |buf| && |r.value| == n
    decreases |buf| - pos, 1, n
  {
    if n == 0 then Done([], pos)
    else
      match Parse(buf, pos)
      case Done(f, p) =>
        (match ParseItems(buf, p, n - 1)
         case Done(fs, q) => Done([f] + fs, q)
         case Incomplete => Incomplete
         case Invalid(flaw) => Invalid(flaw))
      case Incomplete => Incomplete
      case Invalid(flaw) => Invalid(flaw)
  }

  // ---- Printing ------------------------------------------------------------

  function Encode(f: Frame): Bytes {
    match f
    case Simple(s) => [PLUS] + s + CRLF
    case Error(s) => [MINUS] + s + CRLF
    case Integer(v) => [COLON] + IntText(v) + CRLF
    case Bulk(d) => [DOLLAR] + Decimal(|d|) + CRLF + d + CRLF
    case Null => [DOLLAR, MINUS, ZERO + 1] + CRLF
    case Array(items) => [STAR] + Decimal(|items|) + CRLF + EncodeAll(items)
  }

  function EncodeAll(items: seq<Frame>): Bytes {
    if items == [] then [] else Encode(items[0]) + EncodeAll(items[1..])
  }

  // ---- The streaming decoder -----------------------------------------------

  datatype Outcome = Got(frame: Frame) | NeedMore | Failed(flaw: Flaw)

  /** One call of the decoder: its answer and the bytes left in the buffer. */
  function Decode(src: Bytes): (Outcome, Bytes) {
    match Parse(src, 0)
    case Done(f, p) => (Got(f), src[p..])
    case Incomplete => (NeedMore, src)
    case Invalid(flaw) => (Failed(flaw), src)
  }

  /** A connection: the bytes not yet decoded, or the flaw it was closed for. */
  datatype Session = Open(buffer: Bytes) | Closed(flaw: Flaw)

  /** Decode frames until more bytes are needed or the input is malformed (src/net/client.rs). */
  function Drain(buffer: Bytes): (seq<Frame>, Session)
    decreases |buffer|
  {
    match Decode(buffer)
    case (Got(f), rest) => var (fs, s) := Drain(rest); ([f] + fs, s)
    case (NeedMore, _) => ([], Open(buffer))
    case (Failed(flaw), _) => ([], Closed(flaw))
  }

  /** One read from the socket. */
  function Feed(s: Session, chunk: Bytes): (seq<Frame>, Session) {
    match s
    case Open(buffer) => Drain(buffer + chunk)
    case Closed(_) => ([], s)
  }

  /** A whole connection: the frames decoded over all reads, and how it ends. */
  function FeedAll(chunks: seq<Bytes>): (seq<Frame>, Session) {
    if chunks == [] then ([], Open([]))
    else
      var (fs, s) := FeedAll(chunks[..|chunks| - 1]);
      var (gs, t) := Feed(s, chunks[|chunks| - 1]);
      (fs + gs, t)
  }

  function Concat(chunks: seq<Bytes>): Bytes {
    if chunks == [] then [] else Concat(chunks[..|chunks| - 1]) + chunks[|chunks| - 1]
  }
}
