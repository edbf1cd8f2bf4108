/** internal/protocol/payload.go: rewriting a JSON number without an exponent, digit for digit. */
module DecimalExpansion {
  import opened Basics
  import opened JsonNumber
  import opened Strings

  const MAX_EXPANDED_DIGITS := 0x10_0000

  const MAX_INT := 0x7FFF_FFFF_FFFF_FFFF

  /** The sign, the digits, and how many of them stand before the point. */
  datatype Decimal = Decimal(negative: bool, digits: string, point: int)

  // ----- the code

  /** strconv.Atoi of a 64-bit int. */
  function Atoi(s: string): Option<int> {
    var signed := s != "" && (s[0] == '-' || s[0] == '+');
    var digits := if signed then s[1..] else s;
    if digits == "" || !Digits(digits) then None
    else
      var n := if signed && s[0] == '-' then -(Nat(digits) as int) else Nat(digits);
      if -MAX_INT - 1 <= n <= MAX_INT then Some(n) else None
  }

  function SplitSign(number: string): (bool, string) {
    if number != "" && number[0] == '-' then (true, number[1..]) else (false, number)
  }

  function SplitExponent(number: string): Option<(string, int)> {
    var index := IndexOf(number, {'e', 'E'});
    if index < 0 then Some((number, 0))
    else
      match Atoi(number[index + 1..])
      case None => None
      case Some(parsed) =>
        if parsed > MAX_EXPANDED_DIGITS || parsed < -MAX_EXPANDED_DIGITS then None
        else Some((number[..index], parsed))
  }

  function DropPoint(mantissa: string, exponent: int): (string, int) {
    var dot := IndexOf(mantissa, {'.'});
    if dot < 0 then (mantissa, |mantissa| + exponent)
    else (mantissa[..dot] + mantissa[dot + 1..], dot + exponent)
  }

  function Assemble(negative: bool, mantissa: string, exponent: int): Option<Decimal> {
    var (digits, point) := DropPoint(mantissa, exponent);
    if digits == "" || point < -MAX_EXPANDED_DIGITS || point > MAX_EXPANDED_DIGITS then None
    else Some(Decimal(negative, digits, point))
  }

  /** The text of a single JSON number, with the white space around it gone. */
  function NumberLiteral(raw: string): Option<string> {
    if Read(TrimSpace(raw)) == None then None else Some(TrimSpace(raw))
  }

  function ParseDecimal(raw: string): Option<Decimal> {
    match NumberLiteral(raw)
    case None => None
    case Some(literal) => ParseUnsigned(SplitSign(literal).0, SplitSign(literal).1)
  }

  function ParseUnsigned(negative: bool, unsigned: string): Option<Decimal> {
    match SplitExponent(unsigned)
    case None => None
    case Some((mantissa, exponent)) => Assemble(negative, mantissa, exponent)
  }

  function Zeros(k: nat): (z: string)
    ensures |z| == k && Digits(z)
  {
    seq(k, _ => '0')
  }

  function PlacePoint(digits: string, point: int): string {
    if point <= 0 then "0." + Zeros(-point) + digits
    else if point >= |digits| then digits + Zeros(point - |digits|)
    else digits[..point] + "." + digits[point..]
  }

  function TrimLeft(s: string): string {
    if s != "" && s[0] == '0' then TrimLeft(s[1..]) else s
  }

  /** The integer part without leading zeros, but never empty. */
  function TrimInteger(s: string): string {
    if TrimLeft(s) == "" then "0" else TrimLeft(s)
  }

  function TrimLeadingZeros(number: string): string {
    var dot := IndexOf(number, {'.'});
    if dot < 0 then TrimInteger(number) else TrimInteger(number[..dot]) + "." + number[dot + 1..]
  }

  function Render(d: Decimal): string {
    SignText(d.negative) + TrimLeadingZeros(PlacePoint(d.digits, d.point))
  }

  function ExpandDecimal(raw: string): Option<string> {
    match ParseDecimal(raw)
    case None => None
    case Some(d) => Some(Render(d))
  }

  // ----- parsing finds the parts of the number

  function IntegerAndFraction(n: Number): string {
    n.integer + if n.fraction.Some? then n.fraction.value else ""
  }

  /** The exponent as written, and the point it gives, are within 2^20 of zero. */
  predicate InRange(n: Number)
    requires Valid(n)
  {
    var e := ExponentValue(n.exponent);
    && -0x10_0000 <= e <= 0x10_0000
    && -0x10_0000 <= |n.integer| + e <= 0x10_0000
  }

  lemma MantissaChars(n: Number)
    requires Valid(n)
    ensures forall c :: c in Mantissa(n) ==> Digit(c) || c == '.'
  {
    forall c | c in Mantissa(n)
      ensures Digit(c) || c == '.'
    {
      var i :| 0 <= i < |Mantissa(n)| && Mantissa(n)[i] == c;
      if i > |n.integer| { assert c == n.fraction.value[i - |n.integer| - 1]; }
    }
  }

  lemma AtoiExponent(e: Exponent)
    requires ValidExponent(e)
    ensures var v := ExponentValue(Some(e));
            Atoi(e.sign + e.digits) == if -MAX_INT - 1 <= v <= MAX_INT then Some(v) else None
  {
    var s := e.sign + e.digits;
    if e.sign == "" { assert s == e.digits; } else { assert s[1..] == e.digits; }
  }

  lemma FindsExponent(a: string, mark: char, b: string)
    requires mark in {'e', 'E'} && forall c :: c in a ==> c !in {'e', 'E'}
    ensures var s := a + ([mark] + b);
            IndexOf(s, {'e', 'E'}) == |a| && s[..|a|] == a && s[|a| + 1..] == b
  {
    AfterIndex(a, mark, b);
    IndexAt(a, [mark] + b, {'e', 'E'});
  }

  lemma MarkFirst(e: Exponent)
    ensures ExponentText(Some(e)) == [e.mark] + (e.sign + e.digits)
  {
  }

  lemma CutsExponent(a: string, e: Exponent)
    requires ValidExponent(e) && forall c :: c in a ==> c !in {'e', 'E'}
    ensures SplitExponent(a + ExponentText(Some(e))) ==
            match Atoi(e.sign + e.digits)
            case None => None
            case Some(v) => if -MAX_EXPANDED_DIGITS <= v <= MAX_EXPANDED_DIGITS then Some((a, v)) else None
  {
    MarkFirst(e);
    FindsExponent(a, e.mark, e.sign + e.digits);
  }

  lemma SplitsExponent(n: Number)
    requires Valid(n)
    ensures var v := ExponentValue(n.exponent);
            SplitExponent(Mantissa(n) + ExponentText(n.exponent)) ==
              if -MAX_EXPANDED_DIGITS <= v <= MAX_EXPANDED_DIGITS then Some((Mantissa(n), v)) else None
  {
    MantissaChars(n);
    match n.exponent
    case Some(e) =>
      AtoiExponent(e);
      CutsExponent(Mantissa(n), e);
    case None =>
      IndexAt(Mantissa(n), "", {'e', 'E'});
      assert Mantissa(n) + "" == Mantissa(n);
  }

  lemma DropsPoint(n: Number, exponent: int)
    requires Valid(n)
    ensures DropPoint(Mantissa(n), exponent) == (IntegerAndFraction(n), |n.integer| + exponent)
  {
    var a, b := n.integer, FractionText(n.fraction);
    IndexAt(a, b, {'.'});
    if n.fraction.Some? {
      assert (a + b)[..|a|] == a && (a + b)[|a| + 1..] == n.fraction.value;
    } else {
      assert a + b == a;
    }
  }

  lemma SplitsSign(n: Number)
    requires Valid(n)
    ensures SplitSign(Text(n)) == (n.negative, Mantissa(n) + ExponentText(n.exponent))
  {
    TextSign(n);
  }

  lemma Assembles(n: Number, e: int)
    requires Valid(n)
    ensures Assemble(n.negative, Mantissa(n), e) ==
            if -MAX_EXPANDED_DIGITS <= |n.integer| + e <= MAX_EXPANDED_DIGITS
            then Some(Decimal(n.negative, IntegerAndFraction(n), |n.integer| + e)) else None
  {
    DropsPoint(n, e);
  }

  /** Parsing without a sign, from what its two steps give. */
  lemma ParseFromParts(negative: bool, unsigned: string, mantissa: string, e: int, d: Decimal)
    requires SplitExponent(unsigned) ==
             if -MAX_EXPANDED_DIGITS <= e <= MAX_EXPANDED_DIGITS then Some((mantissa, e)) else None
    requires Assemble(negative, mantissa, e) ==
             if -MAX_EXPANDED_DIGITS <= d.point <= MAX_EXPANDED_DIGITS then Some(d) else None
    ensures ParseUnsigned(negative, unsigned) ==
            if -0x10_0000 <= e <= 0x10_0000 && -0x10_0000 <= d.point <= 0x10_0000 then Some(d) else None
  {
  }

  lemma ParsesSplit(n: Number, unsigned: string, e: int)
    requires Valid(n)
    requires SplitExponent(unsigned) ==
             if -MAX_EXPANDED_DIGITS <= e <= MAX_EXPANDED_DIGITS then Some((Mantissa(n), e)) else None
    ensures ParseUnsigned(n.negative, unsigned) ==
            if -0x10_0000 <= e <= 0x10_0000 && -0x10_0000 <= |n.integer| + e <= 0x10_0000
            then Some(Decimal(n.negative, IntegerAndFraction(n), |n.integer| + e)) else None
  {
    Assembles(n, e);
    ParseFromParts(n.negative, unsigned, Mantissa(n), e, Decimal(n.negative, IntegerAndFraction(n), |n.integer| + e));
  }

  lemma ParsesUnsigned(n: Number)
    requires Valid(n)
    ensures ParseUnsigned(n.negative, Mantissa(n) + ExponentText(n.exponent)) ==
            if InRange(n)
            then Some(Decimal(n.negative, IntegerAndFraction(n), |n.integer| + ExponentValue(n.exponent))) else None
  {
    SplitsExponent(n);
    ParsesSplit(n, Mantissa(n) + ExponentText(n.exponent), ExponentValue(n.exponent));
  }

  lemma NothingToTrim(s: string)
    requires s != "" && !Space(s[0]) && !Space(s[|s| - 1])
    ensures TrimSpace(s) == s
  {
  }

  lemma StartsPlainly(n: Number)
    requires Valid(n)
    ensures Text(n) != "" && (Digit(Text(n)[0]) || Text(n)[0] == '-')
  {
    TextSign(n);
    if !n.negative { assert Text(n)[0] == n.integer[0]; }
  }

  lemma TextIsTrimmed(n: Number)
    requires Valid(n)
    ensures TrimSpace(Text(n)) == Text(n)
  {
    StartsPlainly(n);
    EndsInDigit(n);
    NothingToTrim(Text(n));
  }

  lemma EndsInDigit(n: Number)
    requires Valid(n)
    ensures Text(n) != "" && Digit(Text(n)[|Text(n)| - 1])
  {
    var tail := if n.exponent.Some? then n.exponent.value.digits
                else if n.fraction.Some? then n.fraction.value else n.integer;
    assert Text(n)[|Text(n)| - 1] == tail[|tail| - 1];
  }

  lemma ParseText(n: Number, raw: string)
    requires Valid(n) && TrimSpace(raw) == Text(n)
    ensures ParseDecimal(raw) ==
            if InRange(n)
            then Some(Decimal(n.negative, IntegerAndFraction(n), |n.integer| + ExponentValue(n.exponent))) else None
  {
    ReadText(n);
    SplitsSign(n);
    ParsesUnsigned(n);
  }

  /** Expansion accepts exactly the number literals whose exponent and point are in range. */
  lemma AcceptsExactly(raw: string)
    ensures ExpandDecimal(raw).Some? <==>
            Read(TrimSpace(raw)).Some? && Valid(Read(TrimSpace(raw)).value) && InRange(Read(TrimSpace(raw)).value)
  {
    if Read(TrimSpace(raw)).Some? {
      TextRead(TrimSpace(raw));
      ParseText(Read(TrimSpace(raw)).value, raw);
    }
  }

  // ----- the output is a number without an exponent

  /** The number that Render writes. */
  function Placed(d: Decimal): Number {
    if d.point <= 0 then Number(d.negative, "0", Some(Zeros(-d.point) + d.digits), None)
    else if d.point >= |d.digits|
    then Number(d.negative, TrimInteger(d.digits + Zeros(d.point - |d.digits|)), None, None)
    else Number(d.negative, TrimInteger(d.digits[..d.point]), Some(d.digits[d.point..]), None)
  }

  lemma {:induction false} TrimLeftKeeps(s: string)
    requires Digits(s)
    ensures Digits(TrimLeft(s)) && |TrimLeft(s)| <= |s| && (TrimLeft(s) != "" ==> TrimLeft(s)[0] != '0')
    ensures Nat(TrimLeft(s)) == Nat(s)
  {
    if s != "" && s[0] == '0' {
      TrimLeftKeeps(s[1..]);
      assert s == "0" + s[1..];
      NatAppend("0", s[1..]);
      ScaleZero(|s[1..]|);
    }
  }

  lemma {:induction false} ScaleZero(e: int)
    ensures Scale(0.0, e) == 0.0
    decreases if e < 0 then -e else e
  {
    if e > 0 { ScaleZero(e - 1); } else if e < 0 { ScaleZero(e + 1); }
  }

  /** Trimming keeps the value and gives a valid integer part. */
  lemma TrimIntegerKeeps(s: string)
    requires Digits(s) && s != ""
    ensures var t := TrimInteger(s); Digits(t) && 1 <= |t| <= |s| && (t[0] == '0' ==> |t| == 1) && Nat(t) == Nat(s)
  {
    TrimLeftKeeps(s);
  }

  lemma PlacedIsValid(d: Decimal)
    requires d.digits != "" && Digits(d.digits)
    ensures Valid(Placed(d))
  {
    if 0 < d.point {
      TrimIntegerKeeps(if d.point >= |d.digits| then d.digits + Zeros(d.point - |d.digits|) else d.digits[..d.point]);
    }
  }

  lemma DigitsHoldNoPoint(whole: string)
    requires Digits(whole)
    ensures forall c :: c in whole ==> c !in {'.'}
  {
    forall c | c in whole
      ensures c !in {'.'}
    {
      var i :| 0 <= i < |whole| && whole[i] == c;
      assert Digit(c);
    }
  }

  lemma TrimsInteger(whole: string)
    requires Digits(whole)
    ensures TrimLeadingZeros(whole) == TrimInteger(whole)
  {
    DigitsHoldNoPoint(whole);
    IndexAt(whole, "", {'.'});
    assert whole + "" == whole;
  }

  lemma TrimsBeforePoint(whole: string, f: string)
    requires Digits(whole)
    ensures TrimLeadingZeros(whole + (['.'] + f)) == TrimInteger(whole) + "." + f
  {
    DigitsHoldNoPoint(whole);
    IndexAt(whole, ['.'] + f, {'.'});
    AfterIndex(whole, '.', f);
  }

  lemma TrimsWhole(whole: string, f: Option<string>)
    requires Digits(whole)
    ensures TrimLeadingZeros(whole + FractionText(f)) == TrimInteger(whole) + FractionText(f)
  {
    match f
    case Some(digits) =>
      TrimsBeforePoint(whole, digits);
      assert FractionText(f) == ['.'] + digits;
      Associate(TrimInteger(whole), ".", digits);
    case None =>
      TrimsInteger(whole);
      assert whole + FractionText(f) == whole;
  }

  lemma RenderIsPlaced(d: Decimal)
    requires d.digits != "" && Digits(d.digits)
    ensures Render(d) == Text(Placed(d))
  {
    var f := Placed(d).fraction;
    var whole := if d.point <= 0 then "0" else if d.point >= |d.digits| then d.digits + Zeros(d.point - |d.digits|)
                 else d.digits[..d.point];
    PlacesPoint(d, whole);
    TrimsWhole(whole, f);
    assert TrimInteger("0") == "0" by { assert TrimLeft("0") == TrimLeft(""); }
  }

  lemma PlacesPoint(d: Decimal, whole: string)
    requires d.digits != "" && Digits(d.digits)
    requires whole == if d.point <= 0 then "0" else if d.point >= |d.digits| then d.digits + Zeros(d.point - |d.digits|)
                      else d.digits[..d.point]
    ensures Digits(whole) && PlacePoint(d.digits, d.point) == whole + FractionText(Placed(d).fraction)
  {
    if d.point <= 0 {
      assert "0." + Zeros(-d.point) + d.digits == "0" + ("." + (Zeros(-d.point) + d.digits));
    } else if d.point < |d.digits| {
      assert d.digits[..d.point] + "." + d.digits[d.point..] == whole + ("." + d.digits[d.point..]);
    }
  }

  // ----- the value

  /** What a sign, digits and a point denote. */
  function DecimalValue(d: Decimal): real
    requires Digits(d.digits)
  {
    var magnitude := Scale(Nat(d.digits) as real, d.point - |d.digits|);
    if d.negative then -magnitude else magnitude
  }

  /** Integer digits and fraction digits together, scaled down, denote the same as apart. */
  lemma PartsValue(a: string, b: string, e: int)
    requires Digits(a) && Digits(b)
    ensures Digits(a + b)
    ensures Scale(Nat(a) as real + Scale(Nat(b) as real, -|b|), e) == Scale(Nat(a + b) as real, e - |b|)
  {
    var x, y := Nat(a) as real, Nat(b) as real;
    NatAppend(a, b);
    ScaleSum(Scale(x, |b|), y, -|b|);
    ScaleAdd(x, |b|, -|b|);
    ScaleAdd(Nat(a + b) as real, -|b|, e);
  }

  lemma ParsedValue(n: Number, d: Decimal)
    requires Valid(n)
    requires d == Decimal(n.negative, IntegerAndFraction(n), |n.integer| + ExponentValue(n.exponent))
    ensures Digits(d.digits) && d.digits != "" && DecimalValue(d) == Value(n)
  {
    var e := ExponentValue(n.exponent);
    if n.fraction.Some? {
      PartsValue(n.integer, n.fraction.value, e);
    } else {
      assert d.digits == n.integer;
    }
  }

  lemma {:induction false} NatZeros(k: nat)
    ensures Nat(Zeros(k)) == 0
  {
    if k > 0 {
      assert Zeros(k)[..k - 1] == Zeros(k - 1);
      NatZeros(k - 1);
    }
  }

  /** Leading zeros add nothing to a fraction but places. */
  lemma SmallValue(zeros: nat, digits: string)
    requires Digits(digits)
    ensures Digits(Zeros(zeros) + digits) && Nat(Zeros(zeros) + digits) == Nat(digits)
  {
    NatZeros(zeros);
    NatAppend(Zeros(zeros), digits);
    ScaleZero(|digits|);
  }

  /** Trailing zeros multiply by ten each, and trimming the front changes nothing. */
  lemma LargeValue(digits: string, zeros: nat)
    requires digits != "" && Digits(digits)
    ensures var t := TrimInteger(digits + Zeros(zeros));
            Digits(t) && Nat(t) as real == Scale(Nat(digits) as real, zeros)
  {
    NatZeros(zeros);
    NatAppend(digits, Zeros(zeros));
    TrimIntegerKeeps(digits + Zeros(zeros));
  }

  lemma SplitValue(a: string, b: string)
    requires a != "" && Digits(a) && Digits(b)
    ensures var t := TrimInteger(a);
            Digits(t) && Digits(a + b) &&
              Nat(t) as real + Scale(Nat(b) as real, -|b|) == Scale(Nat(a + b) as real, -|b|)
  {
    TrimIntegerKeeps(a);
    PartsValue(a, b, 0);
  }

  lemma WholeMagnitude(n: Number)
    requires Valid(n) && n.exponent == None && n.fraction == None
    ensures Magnitude(n) == Nat(n.integer) as real
  {
  }

  lemma PartsMagnitude(n: Number)
    requires Valid(n) && n.exponent == None && n.fraction.Some?
    ensures Magnitude(n) == Nat(n.integer) as real + Scale(Nat(n.fraction.value) as real, -|n.fraction.value|)
  {
  }

  lemma PlacedSmall(d: Decimal)
    requires d.digits != "" && Digits(d.digits) && d.point <= 0
    ensures Valid(Placed(d)) && Magnitude(Placed(d)) == Scale(Nat(d.digits) as real, d.point - |d.digits|)
  {
    PlacedIsValid(d);
    PartsMagnitude(Placed(d));
    SmallValue(-d.point, d.digits);
    NatZeros(1);
    assert Zeros(1) == "0";
  }

  lemma PlacedLarge(d: Decimal)
    requires d.digits != "" && Digits(d.digits) && 0 < d.point && d.point >= |d.digits|
    ensures Valid(Placed(d)) && Magnitude(Placed(d)) == Scale(Nat(d.digits) as real, d.point - |d.digits|)
  {
    PlacedIsValid(d);
    WholeMagnitude(Placed(d));
    LargeValue(d.digits, d.point - |d.digits|);
  }

  lemma PlacedBetween(d: Decimal)
    requires Digits(d.digits) && 0 < d.point < |d.digits|
    ensures Valid(Placed(d)) && Magnitude(Placed(d)) == Scale(Nat(d.digits) as real, d.point - |d.digits|)
  {
    var a, b := d.digits[..d.point], d.digits[d.point..];
    PlacedIsValid(d);
    PartsMagnitude(Placed(d));
    SplitValue(a, b);
    assert a + b == d.digits && |b| == |d.digits| - d.point;
  }

  lemma PlacedValue(d: Decimal)
    requires d.digits != "" && Digits(d.digits)
    ensures Valid(Placed(d)) && Value(Placed(d)) == DecimalValue(d)
  {
    if d.point <= 0 {
      PlacedSmall(d);
    } else if d.point >= |d.digits| {
      PlacedLarge(d);
    } else {
      PlacedBetween(d);
    }
  }

  /**
   * Expansion is exact: what comes out is a valid number without an exponent, with the sign of
   * the number that went in and the same value.
   */
  lemma ExpansionIsExact(raw: string)
    requires ExpandDecimal(raw).Some?
    ensures Read(TrimSpace(raw)).Some? && Read(ExpandDecimal(raw).value).Some?
    ensures var n, m := Read(TrimSpace(raw)).value, Read(ExpandDecimal(raw).value).value;
            && Valid(n) && Valid(m) && m.exponent == None
            && m.negative == n.negative && Value(m) == Value(n)
  {
    TextRead(TrimSpace(raw));
    var n := Read(TrimSpace(raw)).value;
    ParseText(n, raw);
    var d := ParseDecimal(raw).value;
    ParsedValue(n, d);
    RenderIsPlaced(d);
    PlacedValue(d);
    ReadText(Placed(d));
    TextIsTrimmed(Placed(d));
  }

  /** The padding is bounded: the output is at most 2^20 + 2 characters longer than the input. */
  lemma ExpansionIsBounded(raw: string)
    requires ExpandDecimal(raw).Some?
    ensures |ExpandDecimal(raw).value| <= |raw| + 0x10_0000 + 2
  {
    TextRead(TrimSpace(raw));
    var n := Read(TrimSpace(raw)).value;
    ParseText(n, raw);
    var d := ParseDecimal(raw).value;
    ParsedValue(n, d);
    RenderIsPlaced(d);
    assert |d.digits| + |SignText(d.negative)| <= |raw|;
    PlacedLength(d);
  }

  lemma PlacedLength(d: Decimal)
    requires d.digits != "" && Digits(d.digits)
    requires -MAX_EXPANDED_DIGITS <= d.point <= MAX_EXPANDED_DIGITS
    ensures |Text(Placed(d))| <= |SignText(d.negative)| + |d.digits| + MAX_EXPANDED_DIGITS + 2
    ensures |Placed(d).integer| <= MAX_EXPANDED_DIGITS
  {
    if d.point > 0 {
      TrimIntegerKeeps(if d.point >= |d.digits| then d.digits + Zeros(d.point - |d.digits|) else d.digits[..d.point]);
    }
  }

  lemma {:induction false} TrimsNothing(s: string)
    requires s != "" && Digits(s) && (s[0] == '0' ==> |s| == 1)
    ensures TrimInteger(s) == s
  {
    if s[0] == '0' { assert s[1..] == "" && TrimLeft(s) == TrimLeft(s[1..]); }
  }

  /** A number without an exponent is left alone. */
  lemma PlainIsUnchanged(m: Number)
    requires Valid(m) && m.exponent == None && |m.integer| <= MAX_EXPANDED_DIGITS
    ensures ExpandDecimal(Text(m)) == Some(Text(m))
  {
    TextIsTrimmed(m);
    ParseText(m, Text(m));
    var d := Decimal(m.negative, IntegerAndFraction(m), |m.integer|);
    ParsedValue(m, d);
    RenderIsPlaced(d);
    TrimsNothing(m.integer);
    if m.fraction.Some? {
      SplitAt(m.integer, m.fraction.value);
    } else {
      assert d.digits + Zeros(0) == m.integer;
    }
    assert Placed(d) == m;
  }

  /** Expanding an expanded number gives it back unchanged. */
  lemma ExpansionIsIdempotent(raw: string)
    requires ExpandDecimal(raw).Some?
    ensures ExpandDecimal(ExpandDecimal(raw).value) == ExpandDecimal(raw)
  {
    TextRead(TrimSpace(raw));
    var n := Read(TrimSpace(raw)).value;
    ParseText(n, raw);
    var d := ParseDecimal(raw).value;
    ParsedValue(n, d);
    RenderIsPlaced(d);
    PlacedIsValid(d);
    PlacedLength(d);
    PlainIsUnchanged(Placed(d));
  }
}
