/** The number grammar of section 6 of RFC 8259: its texts, a reader for them, and their values. */
module JsonNumber {
  import opened Basics

  predicate Digit(c: char) { '0' <= c <= '9' }

  lemma TenDigits(c: char)
    ensures Digit(c) <==> c in "0123456789"
  {
    if Digit(c) { assert "0123456789"[c as int - '0' as int] == c; }
  }

  predicate Digits(s: string) { forall i :: 0 <= i < |s| ==> Digit(s[i]) }

  datatype Exponent = Exponent(mark: char, sign: string, digits: string)

  datatype Number = Number(negative: bool, integer: string, fraction: Option<string>, exponent: Option<Exponent>)

  predicate ValidExponent(e: Exponent) {
    && (e.mark == 'e' || e.mark == 'E') && (e.sign == "" || e.sign == "+" || e.sign == "-")
    && e.digits != "" && Digits(e.digits)
  }

  predicate Valid(n: Number) {
    && n.integer != "" && Digits(n.integer) && (n.integer[0] == '0' ==> |n.integer| == 1)
    && (n.fraction.Some? ==> n.fraction.value != "" && Digits(n.fraction.value))
    && (n.exponent.Some? ==> ValidExponent(n.exponent.value))
  }

  // ----- texts

  function SignText(negative: bool): string { if negative then "-" else "" }

  function FractionText(f: Option<string>): string { if f.Some? then "." + f.value else "" }

  function ExponentText(e: Option<Exponent>): string {
    if e.Some? then [e.value.mark] + e.value.sign + e.value.digits else ""
  }

  function Mantissa(n: Number): string { n.integer + FractionText(n.fraction) }

  function Text(n: Number): string { SignText(n.negative) + Mantissa(n) + ExponentText(n.exponent) }

  // ----- reading

  /** How many leading characters are digits. */
  function Span(s: string): (k: nat)
    ensures k <= |s| && Digits(s[..k]) && (k < |s| ==> !Digit(s[k]))
  {
    if s == "" || !Digit(s[0]) then 0
    else var k := Span(s[1..]); assert s[..k + 1] == [s[0]] + s[1..][..k]; k + 1
  }

  function ReadFraction(s: string): Option<(Option<string>, string)> {
    if s == "" || s[0] != '.' then Some((None, s))
    else
      var k := Span(s[1..]);
      if k == 0 then None else Some((Some(s[1..][..k]), s[1..][k..]))
  }

  function ReadExponent(s: string): Option<Option<Exponent>> {
    if s == "" then Some(None)
    else if s[0] != 'e' && s[0] != 'E' then None
    else
      var signed := |s| > 1 && (s[1] == '+' || s[1] == '-');
      var digits := if signed then s[2..] else s[1..];
      if digits == "" || Span(digits) != |digits| then None
      else Some(Some(Exponent(s[0], if signed then [s[1]] else "", digits)))
  }

  function ReadUnsigned(negative: bool, s: string): Option<Number> {
    var k := Span(s);
    if k == 0 || (s[0] == '0' && k > 1) then None
    else
      match ReadFraction(s[k..])
      case None => None
      case Some((fraction, rest)) =>
        match ReadExponent(rest)
        case None => None
        case Some(exponent) => Some(Number(negative, s[..k], fraction, exponent))
  }

  function Read(s: string): Option<Number> {
    if s != "" && s[0] == '-' then ReadUnsigned(true, s[1..]) else ReadUnsigned(false, s)
  }

  lemma {:induction false} SpanOf(a: string, b: string)
    requires Digits(a) && (b == "" || !Digit(b[0]))
    ensures Span(a + b) == |a|
  {
    if a == "" {
      assert a + b == b;
    } else {
      assert (a + b)[1..] == a[1..] + b;
      SpanOf(a[1..], b);
    }
  }

  lemma ReadExponentText(e: Option<Exponent>)
    requires e.Some? ==> ValidExponent(e.value)
    ensures ReadExponent(ExponentText(e)) == Some(e)
  {
    if e.Some? {
      var s, x := ExponentText(e), e.value;
      SpanOf(x.digits, "");
      assert x.digits + "" == x.digits;
      if x.sign == "" {
        assert s[1..] == x.digits;
      } else {
        assert s[2..] == x.digits && s[1] == x.sign[0];
      }
    }
  }

  lemma ReadFractionText(f: Option<string>, rest: string)
    requires f.Some? ==> f.value != "" && Digits(f.value)
    requires rest == "" || (!Digit(rest[0]) && rest[0] != '.')
    ensures ReadFraction(FractionText(f) + rest) == Some((f, rest))
  {
    var s := FractionText(f) + rest;
    if f.Some? {
      assert s[1..] == f.value + rest;
      SpanOf(f.value, rest);
      assert s[1..][..|f.value|] == f.value && s[1..][|f.value|..] == rest;
    } else {
      assert s == rest;
    }
  }

  lemma SplitAt(a: string, b: string)
    ensures (a + b)[..|a|] == a && (a + b)[|a|..] == b
  {
  }

  lemma ReadUnsignedText(n: Number)
    requires Valid(n)
    ensures ReadUnsigned(n.negative, Mantissa(n) + ExponentText(n.exponent)) == Some(n)
  {
    var rest := ExponentText(n.exponent);
    var tail := FractionText(n.fraction) + rest;
    ReadFractionText(n.fraction, rest);
    ReadExponentText(n.exponent);
    SpanOf(n.integer, tail);
    SplitAt(n.integer, tail);
    Associate(n.integer, FractionText(n.fraction), rest);
    assert (n.integer + tail)[0] == n.integer[0];
  }

  lemma Associate(a: string, b: string, c: string)
    ensures (a + b) + c == a + (b + c)
  {
  }

  /** Reading inverts writing: every valid number is read back from its text. */
  lemma ReadText(n: Number)
    requires Valid(n)
    ensures Read(Text(n)) == Some(n)
  {
    ReadUnsignedText(n);
    TextSign(n);
  }

  lemma TextSign(n: Number)
    requires Valid(n)
    ensures Text(n) == SignText(n.negative) + (Mantissa(n) + ExponentText(n.exponent))
    ensures n.negative ==> Text(n)[0] == '-' && Text(n)[1..] == Mantissa(n) + ExponentText(n.exponent)
    ensures !n.negative ==> Text(n) == Mantissa(n) + ExponentText(n.exponent) && Text(n)[0] != '-'
  {
    SplitAt(SignText(n.negative), Mantissa(n) + ExponentText(n.exponent));
  }

  lemma FractionRead(s: string)
    requires ReadFraction(s).Some?
    ensures var (f, rest) := ReadFraction(s).value;
            s == FractionText(f) + rest && (f.Some? ==> f.value != "" && Digits(f.value))
  {
    if s != "" && s[0] == '.' {
      var k := Span(s[1..]);
      assert s == "." + s[1..][..k] + s[1..][k..];
    }
  }

  lemma ExponentRead(s: string)
    requires ReadExponent(s).Some?
    ensures var e := ReadExponent(s).value; s == ExponentText(e) && (e.Some? ==> ValidExponent(e.value))
  {
    if s != "" {
      var e := ReadExponent(s).value.value;
      assert e.digits[..|e.digits|] == e.digits;
      if e.sign == "" { assert s == [s[0]] + "" + s[1..]; } else { assert s == [s[0]] + [s[1]] + s[2..]; }
    }
  }

  lemma UnsignedRead(negative: bool, s: string)
    requires ReadUnsigned(negative, s).Some?
    ensures var n := ReadUnsigned(negative, s).value;
            Valid(n) && n.negative == negative && s == Mantissa(n) + ExponentText(n.exponent)
  {
    var k := Span(s);
    FractionRead(s[k..]);
    var (fraction, rest) := ReadFraction(s[k..]).value;
    ExponentRead(rest);
    Join(s, k, FractionText(fraction), rest);
  }

  lemma Join(s: string, k: nat, a: string, b: string)
    requires k <= |s| && s[k..] == a + b
    ensures s == s[..k] + a + b
  {
    assert s == s[..k] + s[k..];
  }

  lemma SignedText(n: Number, rest: string)
    requires rest == Mantissa(n) + ExponentText(n.exponent)
    ensures Text(n) == SignText(n.negative) + rest
  {
  }

  lemma NegativeRead(s: string)
    requires s != "" && s[0] == '-' && ReadUnsigned(true, s[1..]).Some?
    ensures var n := ReadUnsigned(true, s[1..]).value; Valid(n) && Text(n) == s
  {
    UnsignedRead(true, s[1..]);
    SignedText(ReadUnsigned(true, s[1..]).value, s[1..]);
    assert s == "-" + s[1..];
  }

  lemma PlainRead(s: string)
    requires ReadUnsigned(false, s).Some?
    ensures var n := ReadUnsigned(false, s).value; Valid(n) && Text(n) == s
  {
    UnsignedRead(false, s);
    SignedText(ReadUnsigned(false, s).value, s);
    assert s == "" + s;
  }

  /** And nothing else is read: what Read accepts is the text of the valid number it returns. */
  lemma TextRead(s: string)
    requires Read(s).Some?
    ensures Valid(Read(s).value) && Text(Read(s).value) == s
  {
    if s != "" && s[0] == '-' { NegativeRead(s); } else { PlainRead(s); }
  }

  // ----- values

  /** The number a string of digits denotes. */
  function Nat(s: string): nat
    requires Digits(s)
  {
    if s == "" then 0 else 10 * Nat(s[..|s| - 1]) + (s[|s| - 1] - '0') as nat
  }

  /** x times ten to the power e, which may be negative. */
  function Scale(x: real, e: int): real
    decreases if e < 0 then -e else e
  {
    if e == 0 then x else if e > 0 then 10.0 * Scale(x, e - 1) else Scale(x, e + 1) / 10.0
  }

  function ExponentValue(e: Option<Exponent>): int
    requires e.Some? ==> ValidExponent(e.value)
  {
    if e == None then 0 else if e.value.sign == "-" then -(Nat(e.value.digits) as int) else Nat(e.value.digits)
  }

  function Magnitude(n: Number): real
    requires Valid(n)
  {
    var fraction := if n.fraction.Some? then Scale(Nat(n.fraction.value) as real, -|n.fraction.value|) else 0.0;
    Scale(Nat(n.integer) as real + fraction, ExponentValue(n.exponent))
  }

  function Value(n: Number): real
    requires Valid(n)
  {
    if n.negative then -Magnitude(n) else Magnitude(n)
  }

  lemma ScaleNext(x: real, e: int)
    ensures Scale(x, e + 1) == 10.0 * Scale(x, e)
  {
  }

  /** Scaling twice adds the exponents. */
  lemma {:induction false} ScaleAdd(x: real, a: int, b: int)
    ensures Scale(Scale(x, a), b) == Scale(x, a + b)
    decreases if b < 0 then -b else b
  {
    if b > 0 {
      ScaleAdd(x, a, b - 1);
      ScaleNext(x, a + b - 1);
    } else if b < 0 {
      ScaleAdd(x, a, b + 1);
      ScaleNext(x, a + b);
    }
  }

  lemma {:induction false} ScaleSum(x: real, y: real, e: int)
    ensures Scale(x + y, e) == Scale(x, e) + Scale(y, e)
    decreases if e < 0 then -e else e
  {
    if e > 0 { ScaleSum(x, y, e - 1); } else if e < 0 { ScaleSum(x, y, e + 1); }
  }

  /** Appending digits shifts the first ones up. */
  lemma {:induction false} NatAppend(a: string, b: string)
    requires Digits(a) && Digits(b)
    ensures Digits(a + b)
    ensures Nat(a + b) as real == Scale(Nat(a) as real, |b|) + Nat(b) as real
  {
    if b == "" {
      assert a + b == a;
    } else {
      NatAppend(a, b[..|b| - 1]);
      assert (a + b)[..|a + b| - 1] == a + b[..|b| - 1];
    }
  }
}
