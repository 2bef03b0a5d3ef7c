/** The cursor, parser and printer of src/protocol/resp.rs, working in place as the source does. */
module Codec {
  import opened Basics
  import opened Resp

  /** The result of a read that moves a cursor. */
  datatype Read<+T> = Ok(value: T) | Short | Bad(flaw: Flaw)

  /** The read agrees with a parse step: same verdict, and on success the cursor stands behind it. */
  predicate Agrees<T(==)>(r: Read<T>, pos: nat, p: Parsed<T>) {
    match p
    case Done(v, q) => r == Ok(v) && pos == q
    case Incomplete => r.Short?
    case Invalid(flaw) => r == Bad(flaw)
  }

  class Cursor {
    const buf: Bytes
    var pos: nat

    constructor (b: Bytes)
      ensures buf == b && pos == 0
    {
      buf, pos := b, 0;
    }

    method U8() returns (r: Read<Byte>)
      requires pos <= |buf|
      modifies this
      ensures old(pos) < |buf| ==> r == Ok(buf[old(pos)]) && pos == old(pos) + 1
      ensures old(pos) == |buf| ==> r.Short? && pos == old(pos)
    {
      if pos == |buf| {
        return Short;
      }
      r := Ok(buf[pos]);
      pos := pos + 1;
    }

    method Line() returns (r: Read<Bytes>)
      requires pos <= |buf|
      modifies this
      ensures pos <= |buf| && Agrees(r, pos, Resp.Line(buf, old(pos)))
    {
      var start := pos;
      while pos + 1 < |buf|
        invariant start <= pos <= |buf| && FindCrlf(buf, pos) == FindCrlf(buf, start)
      {
        if buf[pos] == CR && buf[pos + 1] == LF {
          r := Ok(buf[start..pos]);
          pos := pos + 2;
          return;
        }
        pos := pos + 1;
      }
      r := Short;
    }

    method Take(n: nat) returns (r: Read<Bytes>)
      requires pos <= |buf|
      modifies this
      ensures pos <= |buf| && Agrees(r, pos, Resp.Take(buf, old(pos), n))
    {
      if pos + n > |buf| {
        return Short;
      }
      r := Ok(buf[pos..pos + n]);
      pos := pos + n;
    }

    method ReadInt() returns (r: Read<int>)
      requires pos <= |buf|
      modifies this
      ensures pos <= |buf| && Agrees(r, pos, Resp.ReadInt(buf, old(pos)))
    {
      var line := Line();
      match line {
        case Ok(s) =>
          match ParseInt(s) {
            case Some(v) => r := Ok(v);
            case None => r := Bad(BadInteger(s));
          }
        case Short => r := Short;
        case Bad(flaw) => r := Bad(flaw);
      }
    }

    method ReadString() returns (r: Read<Bytes>)
      requires pos <= |buf|
      modifies this
      ensures pos <= |buf| && Agrees(r, pos, Resp.ReadString(buf, old(pos)))
    {
      var line := Line();
      r := if line.Ok? && !ValidUtf8(line.value) then Bad(BadUtf8) else line;
    }

    method ReadBulk(n: nat) returns (r: Read<Frame>)
      requires pos <= |buf|
      modifies this
      ensures pos <= |buf| && Agrees(r, pos, Resp.ReadBulk(buf, old(pos), n))
    {
      var data := Take(n);
      if data.Short? {
        return Short;
      }
      var end := Take(2);
      if data.Ok? && end.Ok? {
        r := if end.value == CRLF then Ok(Bulk(data.value)) else Bad(BadBulkEnd);
      } else {
        r := Short;
      }
    }

    /** The recursive-descent parser. */
    method Parse() returns (r: Read<Frame>)
      requires pos <= |buf|
      modifies this
      ensures pos <= |buf| && Agrees(r, pos, Resp.Parse(buf, old(pos)))
      decreases |buf| - pos, 0
    {
      var tag := U8();
      if tag.Short? {
        return Short;
      }
      if tag.value == PLUS {
        var s := ReadString();
        r := if s.Ok? then Ok(Simple(s.value)) else if s.Short? then Short else Bad(s.flaw);
      } else if tag.value == MINUS {
        var s := ReadString();
        r := if s.Ok? then Ok(Error(s.value)) else if s.Short? then Short else Bad(s.flaw);
      } else if tag.value == COLON {
        var v := ReadInt();
        r := if v.Ok? then Ok(Integer(v.value)) else if v.Short? then Short else Bad(v.flaw);
      } else if tag.value == DOLLAR {
        var n := ReadInt();
        if !n.Ok? {
          return if n.Short? then Short else Bad(n.flaw);
        }
        if n.value < 0 {
          return Ok(Null);
        }
        r := ReadBulk(n.value);
      } else if tag.value == STAR {
        var n := ReadInt();
        if !n.Ok? {
          return if n.Short? then Short else Bad(n.flaw);
        }
        if n.value < 0 {
          return Ok(Null);
        }
        var items := ParseItems(n.value);
        r := if items.Ok? then Ok(Array(items.value)) else if items.Short? then Short else Bad(items.flaw);
      } else {
        pos := pos - 1;
        var line := Line();
        r := if line.Ok? then Ok(Array(Words(line.value, []))) else Short;
      }
    }

    /** The loop over the items of an array. */
    method ParseItems(n: nat) returns (r: Read<seq<Frame>>)
      requires pos <= |buf|
      modifies this
      ensures pos <= |buf| && Agrees(r, pos, Resp.ParseItems(buf, old(pos), n))
      decreases |buf| - pos, 1
    {
      var items: seq<Frame> := [];
      var k := 0;
      PrependNothing(Resp.ParseItems(buf, pos, n));
      while k < n
        invariant k <= n && old(pos) <= pos <= |buf|
        invariant Resp.ParseItems(buf, old(pos), n) == Prepend(items, Resp.ParseItems(buf, pos, n - k))
      {
        ghost var before := pos;
        var item := Parse();
        if !item.Ok? {
          return if item.Short? then Short else Bad(item.flaw);
        }
        PrependStep(items, item.value, Resp.ParseItems(buf, pos, n - k - 1));
        items := items + [item.value];
        k := k + 1;
      }
      assert items + [] == items;
      r := Ok(items);
    }
  }

  /** Items already parsed, in front of a parse of the rest. */
  function Prepend(items: seq<Frame>, rest: Parsed<seq<Frame>>): Parsed<seq<Frame>> {
    match rest
    case Done(fs, p) => Done(items + fs, p)
    case Incomplete => Incomplete
    case Invalid(flaw) => Invalid(flaw)
  }

  lemma PrependNothing(rest: Parsed<seq<Frame>>)
    ensures Prepend([], rest) == rest
  {
    if rest.Done? {
      assert [] + rest.value == rest.value;
    }
  }

  lemma PrependStep(items: seq<Frame>, item: Frame, rest: Parsed<seq<Frame>>)
    ensures Prepend(items, Prepend([item], rest)) == Prepend(items + [item], rest)
  {
    if rest.Done? {
      assert items + ([item] + rest.value) == (items + [item]) + rest.value;
    }
  }

  lemma Joined(a: Bytes, b: Bytes, c: Bytes, d: Bytes)
    ensures a + b + c + d == a + (b + c + d) && a + b + c == a + (b + c)
  {
  }

  /** A growable buffer that is written at the end and consumed at the front. */
  class ByteBuffer {
    var data: Bytes

    constructor (initial: Bytes)
      ensures data == initial
    {
      data := initial;
    }

    method Put(s: Bytes)
      modifies this
      ensures data == old(data) + s
    {
      data := data + s;
    }

    /** A tag byte, a text and CRLF. */
    method PutLine(tag: Byte, text: Bytes)
      modifies this
      ensures data == old(data) + ([tag] + text + CRLF)
    {
      Put([tag]);
      Put(text);
      Put(CRLF);
    }

    method Advance(n: nat)
      requires n <= |data|
      modifies this
      ensures data == old(data)[n..]
    {
      data := data[n..];
    }

    /** Append the encoding of `f`. */
    method Encode(f: Frame)
      modifies this
      ensures data == old(data) + Resp.Encode(f)
      decreases f, 0
    {
      hide EncodeAll, Decimal, IntText;
      ghost var before := data;
      match f {
        case Simple(s) => PutLine(PLUS, s);
        case Error(s) => PutLine(MINUS, s);
        case Integer(v) => PutLine(COLON, IntText(v));
        case Bulk(d) =>
          PutLine(DOLLAR, Decimal(|d|));
          Put(d);
          Put(CRLF);
          Joined(before, [DOLLAR] + Decimal(|d|) + CRLF, d, CRLF);
        case Null => Put([DOLLAR, MINUS, ZERO + 1] + CRLF);
        case Array(items) =>
          PutLine(STAR, Decimal(|items|));
          EncodeItems(items);
          Joined(before, [STAR] + Decimal(|items|) + CRLF, EncodeAll(items), []);
      }
    }

    /** The loop over the items of an array. */
    method EncodeItems(items: seq<Frame>)
      modifies this
      ensures data == old(data) + EncodeAll(items)
      decreases items, 1
    {
      var k := 0;
      while k < |items|
        invariant k <= |items| && data + EncodeAll(items[k..]) == old(data) + EncodeAll(items)
      {
        ghost var before := data;
        Encode(items[k]);
        assert items[k..][1..] == items[k + 1..];
        Joined(before, Resp.Encode(items[k]), EncodeAll(items[k + 1..]), []);
        k := k + 1;
      }
    }

    /** Take one frame off the front, if a whole one is there. */
    method Decode() returns (o: Outcome)
      modifies this
      ensures (o, data) == Resp.Decode(old(data))
    {
      var cursor := new Cursor(data);
      var r := cursor.Parse();
      match r {
        case Ok(f) => Advance(cursor.pos); o := Got(f);
        case Short => o := NeedMore;
        case Bad(flaw) => o := Failed(flaw);
      }
    }
  }
}
