/** Which texts the decoder takes for integers and for strings, and frames in literal bytes. */
module RespText {
  import opened Basics
  import opened Resp
  import opened RespLaws

  // ---- Integers ------------------------------------------------------------

  function Zeros(k: nat): Bytes {
    seq(k, _ => ZERO)
  }

  lemma DecimalStep(q: nat, x: nat)
    requires q > 0 && x < 10
    ensures Decimal(10 * q + x) == Decimal(q) + [ZERO + x]
  {
    assert (10 * q + x) / 10 == q && (10 * q + x) % 10 == x;
  }

  /** Digits are zeros followed by the canonical text of their value. */
  lemma {:induction false} DigitsAre(s: Bytes) returns (k: nat)
    requires s != [] && AllDigits(s)
    ensures s == Zeros(k) + Decimal(ValueOf(s))
  {
    hide Decimal;
    var last := |s| - 1;
    var rest, x := s[..last], s[last] - ZERO;
    assert s == rest + [ZERO + x];
    if rest == [] {
      k := 0;
      OneDigit(x);
    } else {
      k := DigitsAre(rest);
      var q := ValueOf(rest);
      if q == 0 {
        OneDigit(0);
        OneDigit(x);
        k := k + 1;
        assert rest == Zeros(k);
      } else {
        DecimalStep(q, x);
      }
    }
  }

  lemma OneDigit(x: nat)
    requires x < 10
    ensures Decimal(x) == [ZERO + x]
  {
  }

  lemma {:induction false} ZerosAddNothing(k: nat, n: nat)
    ensures AllDigits(Zeros(k) + Decimal(n)) && ValueOf(Zeros(k) + Decimal(n)) == n
    decreases k + n
  {
    var s := Zeros(k) + Decimal(n);
    if n >= 10 {
      ZerosAddNothing(k, n / 10);
      assert s[..|s| - 1] == Zeros(k) + Decimal(n / 10);
    } else if k > 0 {
      ZerosAddNothing(k - 1, 0);
      assert Decimal(0) == [ZERO] && s[..|s| - 1] == Zeros(k) == Zeros(k - 1) + Decimal(0);
    } else {
      DecimalReads(n);
      assert s == Decimal(n);
    }
  }

  /** A text of `v`: a sign where one is needed or allowed, any number of zeros, the canonical digits. */
  ghost predicate Spells(line: Bytes, v: int) {
    exists k: nat ::
      || (v >= 0 && line == Zeros(k) + Decimal(v))
      || (v >= 0 && line == [PLUS] + (Zeros(k) + Decimal(v)))
      || (v <= 0 && line == [MINUS] + (Zeros(k) + Decimal(-v)))
  }

  lemma NoSign(k: nat, n: nat)
    ensures var s := Zeros(k) + Decimal(n); s != [] && s[0] != PLUS && s[0] != MINUS
  {
    hide Decimal;
    ZerosAddNothing(k, n);
    DecimalReads(n);
    var s := Zeros(k) + Decimal(n);
    assert IsDigit(s[0]);
  }

  lemma SpelledReads(line: Bytes, v: int)
    requires Spells(line, v) && I64_MIN <= v <= I64_MAX
    ensures ParseInt(line) == Some(v)
  {
    hide Decimal, ValueOf, AllDigits, Zeros;
    var k: nat :| || (v >= 0 && line == Zeros(k) + Decimal(v))
                  || (v >= 0 && line == [PLUS] + (Zeros(k) + Decimal(v)))
                  || (v <= 0 && line == [MINUS] + (Zeros(k) + Decimal(-v)));
    var n := if v < 0 then -v else v;
    NoSign(k, n);
    ZerosAddNothing(k, n);
    var s := Zeros(k) + Decimal(n);
    assert ([PLUS] + s)[1..] == s && ([MINUS] + s)[1..] == s;
  }

  lemma ReadIsSpelled(line: Bytes)
    requires ParseInt(line).Some?
    ensures Spells(line, ParseInt(line).value) && I64_MIN <= ParseInt(line).value <= I64_MAX
  {
    hide Decimal, ValueOf, AllDigits, Zeros;
    var signed := line[0] == MINUS || line[0] == PLUS;
    var body := if signed then line[1..] else line;
    assert signed ==> line == [line[0]] + body;
    var k := DigitsAre(body);
  }

  /** Exactly the texts of 64-bit integers are read as integers, signs and leading zeros allowed. */
  lemma IntegersExactly(line: Bytes, v: int)
    ensures ParseInt(line) == Some(v) <==> Spells(line, v) && I64_MIN <= v <= I64_MAX
  {
    hide ParseInt, Spells;
    if ParseInt(line).Some? {
      ReadIsSpelled(line);
    }
    if Spells(line, v) && I64_MIN <= v <= I64_MAX {
      SpelledReads(line, v);
    }
  }

  // ---- Frames in literal bytes ---------------------------------------------

  lemma LiteralBytes()
    ensures Encode(Simple([79, 75])) == [43, 79, 75, 13, 10]
    ensures Encode(Error([69, 82, 82])) == [45, 69, 82, 82, 13, 10]
    ensures Encode(Integer(-42)) == [58, 45, 52, 50, 13, 10]
    ensures Encode(Bulk([104, 105])) == [36, 50, 13, 10, 104, 105, 13, 10]
    ensures Encode(Null) == [36, 45, 49, 13, 10]
  {
    assert Decimal(42) == Decimal(4) + [50];
  }

  lemma LiteralArray()
    ensures Encode(Array([Integer(7), Null])) == [42, 50, 13, 10, 58, 55, 13, 10, 36, 45, 49, 13, 10]
  {
    assert [Integer(7), Null][1..] == [Null] && [Null][1..] == [];
    assert EncodeAll([Null]) == Encode(Null) + [];
    assert EncodeAll([Integer(7), Null]) == Encode(Integer(7)) + EncodeAll([Null]);
  }
}
