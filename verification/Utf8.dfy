/** The strings the decoder accepts are exactly the UTF-8 texts (RFC 3629, section 3). */
module Utf8 {
  import opened Resp

  /** A Unicode scalar value: a code point that is no surrogate. */
  predicate Scalar(c: nat) {
    c <= 0x10FFFF && !(0xD800 <= c <= 0xDFFF)
  }

  /** The UTF-8 bytes of a scalar value. */
  function PointBytes(c: nat): Bytes
    requires Scalar(c)
  {
    if c < 0x80 then [c]
    else if c < 0x800 then [0xC0 + c / 64, 0x80 + c % 64]
    else if c < 0x10000 then [0xE0 + c / 4096, 0x80 + c / 64 % 64, 0x80 + c % 64]
    else [0xF0 + c / 262144, 0x80 + c / 4096 % 64, 0x80 + c / 64 % 64, 0x80 + c % 64]
  }

  predicate AllScalar(text: seq<nat>) {
    forall i :: 0 <= i < |text| ==> Scalar(text[i])
  }

  function TextBytes(text: seq<nat>): Bytes
    requires AllScalar(text)
  {
    if text == [] then [] else PointBytes(text[0]) + TextBytes(text[1..])
  }

  /** Base 64 digits. */
  lemma TwoDigits(a: nat, b: nat)
    requires b < 64
    ensures (a * 64 + b) / 64 == a && (a * 64 + b) % 64 == b
  {
  }

  lemma ThreeDigits(a: nat, b: nat, c: nat)
    requires b < 64 && c < 64
    ensures var n := a * 4096 + b * 64 + c; n / 4096 == a && n / 64 % 64 == b && n % 64 == c
  {
    TwoDigits(a * 64 + b, c);
    TwoDigits(a, b);
  }

  lemma FourDigits(a: nat, b: nat, c: nat, d: nat)
    requires b < 64 && c < 64 && d < 64
    ensures var n := a * 262144 + b * 4096 + c * 64 + d;
            n / 262144 == a && n / 4096 % 64 == b && n / 64 % 64 == c && n % 64 == d
  {
    ThreeDigits(a * 64 + b, c, d);
    TwoDigits(a, b);
  }

  lemma ShortPoint(c: nat, rest: Bytes)
    requires Scalar(c) && c < 0x10000
    ensures CodePointLength(PointBytes(c) + rest) == |PointBytes(c)|
  {
    var s := PointBytes(c) + rest;
    assert s[0] == PointBytes(c)[0];
    if c >= 0x800 {
      assert s[1] == 0x80 + c / 64 % 64 && s[2] == 0x80 + c % 64;
    }
  }

  lemma LongPoint(c: nat, rest: Bytes)
    requires Scalar(c) && c >= 0x10000
    ensures CodePointLength(PointBytes(c) + rest) == |PointBytes(c)|
  {
    var s := PointBytes(c) + rest;
    assert s[0] == 0xF0 + c / 262144 && s[1] == 0x80 + c / 4096 % 64;
    assert s[2] == 0x80 + c / 64 % 64 && s[3] == 0x80 + c % 64;
  }

  /** The bytes of a scalar value are recognised ... */
  lemma PointRecognised(c: nat, rest: Bytes)
    requires Scalar(c)
    ensures CodePointLength(PointBytes(c) + rest) == |PointBytes(c)|
  {
    hide CodePointLength, PointBytes;
    if c < 0x10000 {
      ShortPoint(c, rest);
    } else {
      LongPoint(c, rest);
    }
  }

  lemma TwoBytes(s: Bytes) returns (c: nat)
    requires s != [] && CodePointLength(s) == 2
    ensures Scalar(c) && PointBytes(c) == s[..2]
  {
    var x: nat, y: nat := s[0] - 0xC0, s[1] - 0x80;
    c := x * 64 + y;
    TwoDigits(x, y);
  }

  lemma ThreeBytes(s: Bytes) returns (c: nat)
    requires s != [] && CodePointLength(s) == 3
    ensures Scalar(c) && PointBytes(c) == s[..3]
  {
    var x: nat, y: nat, z: nat := s[0] - 0xE0, s[1] - 0x80, s[2] - 0x80;
    c := x * 4096 + y * 64 + z;
    ThreeDigits(x, y, z);
  }

  lemma FourBytes(s: Bytes) returns (c: nat)
    requires s != [] && CodePointLength(s) == 4
    ensures Scalar(c) && PointBytes(c) == s[..4]
  {
    var w: nat, x: nat, y: nat, z: nat := s[0] - 0xF0, s[1] - 0x80, s[2] - 0x80, s[3] - 0x80;
    c := w * 262144 + x * 4096 + y * 64 + z;
    FourDigits(w, x, y, z);
  }

  /** ... and nothing else is. */
  lemma RecognisedIsPoint(s: Bytes) returns (c: nat)
    requires s != [] && CodePointLength(s) > 0
    ensures Scalar(c) && PointBytes(c) == s[..CodePointLength(s)]
  {
    if CodePointLength(s) == 1 {
      c := s[0];
    } else if CodePointLength(s) == 2 {
      c := TwoBytes(s);
    } else if CodePointLength(s) == 3 {
      c := ThreeBytes(s);
    } else {
      c := FourBytes(s);
    }
  }

  lemma {:induction false} TextIsValid(text: seq<nat>)
    requires AllScalar(text)
    ensures ValidUtf8(TextBytes(text))
  {
    hide CodePointLength, PointBytes;
    if text != [] {
      var rest := TextBytes(text[1..]);
      assert Scalar(text[0]);
      TextIsValid(text[1..]);
      PointRecognised(text[0], rest);
      PointNonEmpty(text[0]);
      assert (PointBytes(text[0]) + rest)[|PointBytes(text[0])|..] == rest;
    }
  }

  lemma PointNonEmpty(c: nat)
    requires Scalar(c)
    ensures PointBytes(c) != []
  {
  }

  lemma {:induction false} ValidIsText(s: Bytes) returns (text: seq<nat>)
    requires ValidUtf8(s)
    ensures AllScalar(text) && TextBytes(text) == s
    decreases |s|
  {
    hide CodePointLength, PointBytes;
    if s == [] {
      text := [];
    } else {
      var k := CodePointLength(s);
      var c := RecognisedIsPoint(s);
      var rest := ValidIsText(s[k..]);
      text := [c] + rest;
      assert text[1..] == rest && s == s[..k] + s[k..];
    }
  }

  /** Exactly the encodings of sequences of scalar values are valid. */
  lemma Utf8Exactly(s: Bytes)
    ensures ValidUtf8(s) <==> exists text :: AllScalar(text) && TextBytes(text) == s
  {
    hide TextBytes, AllScalar, ValidUtf8;
    if ValidUtf8(s) {
      var text := ValidIsText(s);
    }
    if text :| AllScalar(text) && TextBytes(text) == s {
      TextIsValid(text);
    }
  }
}
