// What the number texts of the canonical form mean: reading one back gives the number it was
// written for, and two numbers are written alike exactly when they are equal.

module JcsDecimals {
  import opened Texts
  import opened Options
  import opened JcsNumbers

  // A number in lowest terms: zero, or digits without zeros at the ends and the position of
  // the decimal point.
  datatype Decimal = Nought | Decimal(negative: bool, digits: Text, point: int)

  predicate Lowest(x: Decimal) {
    x.Decimal? ==> ShortestDigits(x.digits)
  }

  // ----- Stripping zeros ------------------------------------------------------------------------

  function StripTrailing(t: Text): (r: Text)
    ensures |r| <= |t| && t == r + Zeros(|t| - |r|) && (r != [] ==> r[|r| - 1] != ZERO)
  {
    if t != [] && t[|t| - 1] == ZERO then
      var r := StripTrailing(t[..|t| - 1]);
      assert t == t[..|t| - 1] + [ZERO];
      assert t == r + Zeros(|t| - |r|);
      r
    else
      assert t + Zeros(0) == t;
      t
  }

  function StripLeading(t: Text): (r: Text)
    ensures |r| <= |t| && t == Zeros(|t| - |r|) + r && (r != [] ==> r[0] != ZERO)
  {
    if t != [] && t[0] == ZERO then
      var r := StripLeading(t[1..]);
      assert t == [ZERO] + t[1..];
      assert t == Zeros(|t| - |r|) + r;
      r
    else
      assert Zeros(0) + t == t;
      t
  }

  lemma {:induction false} StripsTrailing(t: Text, n: nat)
    requires t != [] && t[|t| - 1] != ZERO
    ensures StripTrailing(t + Zeros(n)) == t
    decreases n
  {
    var more := t + Zeros(n);
    if n > 0 {
      assert more[..|more| - 1] == t + Zeros(n - 1);
      StripsTrailing(t, n - 1);
    } else {
      assert more == t;
    }
  }

  lemma {:induction false} StripsLeading(t: Text, n: nat)
    requires t != [] && t[0] != ZERO
    ensures StripLeading(Zeros(n) + t) == t
    decreases n
  {
    var more := Zeros(n) + t;
    if n > 0 {
      assert more[1..] == Zeros(n - 1) + t;
      StripsLeading(t, n - 1);
    } else {
      assert more == t;
    }
  }

  // ----- Numbers in lowest terms -------------------------------------------------------------------

  const SAFE_INT_MAX := 9007199254740991   // 2^53 - 1

  predicate SafeInt(n: int) {
    -SAFE_INT_MAX <= n <= SAFE_INT_MAX
  }

  function OfInt(n: int): Decimal {
    if n == 0 then Nought
    else Decimal(n < 0, StripTrailing(Numeral(Abs(n))), |Numeral(Abs(n))|)
  }

  predicate FiniteNumber(x: Number) {
    x.Zero? || x.Finite?
  }

  function OfNumber(x: Number): Decimal
    requires FiniteNumber(x)
  {
    match x
    case Zero(_) => Nought
    case Finite(negative, d, point) => Decimal(negative, d, point)
  }

  function WriteDecimal(x: Decimal): Text
    requires Lowest(x)
  {
    match x
    case Nought => [ZERO]
    case Decimal(negative, d, point) => (if negative then [MINUS] else []) + EcmaDigits(d, point)
  }

  lemma SafeIntIsShort(n: nat)
    requires 0 < n <= SAFE_INT_MAX
    ensures |Numeral(n)| <= 16 && StripTrailing(Numeral(n)) != []
  {
    NumeralLength(n, 16);
    assert Pow10(16) == 1_0000_0000_0000_0000 by {
      assert Pow10(4) == 1_0000;
      assert Pow10(8) == 1_0000_0000;
      assert Pow10(12) == 1_0000_0000_0000;
    }
    var t := Numeral(n);
    assert t[0] != ZERO;
  }

  // The float branch writes a safe integer exactly as the integer branch does.
  lemma IntWrittenAsDecimal(n: int)
    requires SafeInt(n)
    ensures Lowest(OfInt(n)) && WriteDecimal(OfInt(n)) == IntText(n)
  {
    hide Numeral, StripTrailing, EcmaExponent;
    if n != 0 {
      SafeIntIsShort(Abs(n));
      var t, d := Numeral(Abs(n)), StripTrailing(Numeral(Abs(n)));
      assert forall i :: 0 <= i < |d| ==> d[i] == t[i];
      assert ShortestDigits(d);
      assert EcmaDigits(d, |t|) == t;
      assert [] + t == t;
    } else {
      ZeroText();
    }
  }

  lemma ZeroText()
    ensures IntText(0) == [ZERO]
  {
  }

  // ----- Reading a number text ------------------------------------------------------------------------

  // Again by code points (RFC 8259 section 6): 45 is the minus sign, 43 the plus sign, 46 the decimal
  // point, 101 the e of the exponent.
  predicate NumberChar(c: CodePoint) {
    IsDigit(c) || c == 45 || c == 43 || c == 46 || c == 101
  }

  predicate NumberText(t: Text) {
    && t != [] && (t[0] == 45 || IsDigit(t[0]))
    && forall i :: 0 <= i < |t| ==> NumberChar(t[i])
  }

  predicate ReadableExponent(t: Text) {
    |t| >= 3 && AllDigits(t[2..])
  }

  // The digits left and right of the point, and the power of ten they are scaled by.
  function Normalize(negative: bool, left: Text, right: Text, exponent: int): Decimal {
    var significant := StripLeading(left + right);
    var leading := |left + right| - |significant|;
    if significant == [] then Nought
    else Decimal(negative, StripTrailing(significant), |left| + exponent - leading)
  }

  function ReadMantissa(negative: bool, t: Text, exponent: int): Decimal {
    var p := Find(t, 46);
    if p == -1 then Normalize(negative, t, [], exponent)
    else Normalize(negative, t[..p], t[p + 1..], exponent)
  }

  function ReadUnsigned(negative: bool, t: Text): Option<Decimal> {
    var e := Find(t, 101);
    if e == -1 then Some(ReadMantissa(negative, t, 0))
    else if ReadableExponent(t[e..]) then Some(ReadMantissa(negative, t[..e], SignedValue(t[e + 1], t[e..][2..])))
    else None
  }

  // A decimal reading of `-12.5e+3` and the like, normalized.
  function ReadNumber(t: Text): Option<Decimal> {
    if t == [] then None
    else if t[0] == 45 then ReadUnsigned(true, t[1..])
    else ReadUnsigned(false, t)
  }

  lemma NormalizeDigits(negative: bool, d: Text, left: Text, right: Text, before: nat, after: nat, exponent: int)
    requires ShortestDigits(d) && left + right == Zeros(before) + (d + Zeros(after))
    ensures Normalize(negative, left, right, exponent) == Decimal(negative, d, |left| + exponent - before)
  {
    var body := d + Zeros(after);
    assert body[0] == d[0];
    StripsLeading(body, before);
    StripsTrailing(d, after);
  }

  // Reading the mantissa of each layout.
  lemma ReadWhole(negative: bool, d: Text, n: int)
    requires ShortestDigits(d) && |d| <= n
    ensures ReadMantissa(negative, d + Zeros(n - |d|), 0) == Decimal(negative, d, n)
  {
    hide Find, Normalize;
    var t := d + Zeros(n - |d|);
    DigitsHaveNo(t, DOT);
    assert t + [] == Zeros(0) + t;
    NormalizeDigits(negative, d, t, [], 0, n - |d|, 0);
  }

  lemma ReadWithPoint(negative: bool, d: Text, n: int)
    requires ShortestDigits(d) && 0 < n < |d|
    ensures ReadMantissa(negative, d[..n] + [DOT] + d[n..], 0) == Decimal(negative, d, n)
  {
    hide Find, Normalize;
    DigitsHaveNo(d[..n], DOT);
    SplitAtDot(d[..n] + [DOT] + d[n..], d[..n], d[n..]);
    assert d[..n] + d[n..] == Zeros(0) + (d + Zeros(0));
    NormalizeDigits(negative, d, d[..n], d[n..], 0, 0, 0);
  }

  lemma ReadSmall(negative: bool, d: Text, n: int)
    requires ShortestDigits(d) && n <= 0
    ensures ReadMantissa(negative, [ZERO, DOT] + Zeros(-n) + d, 0) == Decimal(negative, d, n)
  {
    hide Find, Normalize;
    var right := Zeros(-n) + d;
    assert [ZERO, DOT] + Zeros(-n) + d == [ZERO] + [DOT] + right;
    SplitAtDot([ZERO] + [DOT] + right, [ZERO], right);
    assert [ZERO] + right == Zeros(1 - n) + (d + Zeros(0));
    NormalizeDigits(negative, d, [ZERO], right, 1 - n, 0, 0);
  }

  lemma ReadShortMantissa(negative: bool, d: Text, n: int)
    requires ShortestDigits(d)
    ensures ReadMantissa(negative, Mantissa(d), n - 1) == Decimal(negative, d, n)
  {
    SplitMantissa(d);
    assert d[..1] + d[1..] == d && d + [] == d;
    assert d == Zeros(0) + (d + Zeros(0));
    if |d| == 1 {
      NormalizeDigits(negative, d, d, [], 0, 0, n - 1);
    } else {
      NormalizeDigits(negative, d, d[..1], d[1..], 0, 0, n - 1);
    }
  }

  lemma NoExponent(t: Text)
    requires forall i :: 0 <= i < |t| ==> IsDigit(t[i]) || t[i] == DOT
    ensures Find(t, LETTER_E) == -1
  {
  }

  // A positive number reads back as itself.
  lemma ReadEcmaDigits(negative: bool, d: Text, n: int)
    requires ShortestDigits(d)
    ensures ReadUnsigned(negative, EcmaDigits(d, n)) == Some(Decimal(negative, d, n))
    ensures EcmaDigits(d, n) != [] && IsDigit(EcmaDigits(d, n)[0])
    ensures forall i :: 0 <= i < |EcmaDigits(d, n)| ==> NumberChar(EcmaDigits(d, n)[i])
  {
    hide ReadMantissa, Find, SignedValue, Numeral;
    var t := EcmaDigits(d, n);
    if -6 < n <= 21 {
      NoExponent(t);
      if |d| <= n {
        ReadWhole(negative, d, n);
      } else if 0 < n {
        ReadWithPoint(negative, d, n);
      } else {
        ReadSmall(negative, d, n);
      }
    } else {
      ReadExponential(negative, d, n);
      ExponentialChars(d, n);
    }
  }

  lemma ExponentialText(d: Text, n: int)
    requires ShortestDigits(d) && (n > 21 || n <= -6)
    ensures EcmaDigits(d, n) == Mantissa(d) + EcmaExponent(n - 1)
  {
    hide EcmaExponent;
  }

  lemma PrefixAndRest(m: Text, x: Text)
    ensures (m + x)[..|m|] == m && (m + x)[|m|..] == x
  {
  }

  lemma SplitAtE(m: Text, x: Text)
    requires x != [] && x[0] == LETTER_E && LETTER_E !in m
    ensures Find(m + x, LETTER_E) == |m| && (m + x)[..|m|] == m && (m + x)[|m|..] == x
  {
    hide *;
    PrefixAndRest(m, x);
    FindAfter(m, LETTER_E, x[1..]);
    HeadAndRest(m, x);
  }

  lemma HeadAndRest(m: Text, x: Text)
    requires x != []
    ensures m + [x[0]] + x[1..] == m + x
  {
    assert x == [x[0]] + x[1..];
  }

  lemma MantissaChars(d: Text)
    requires ShortestDigits(d)
    ensures forall i :: 0 <= i < |Mantissa(d)| ==> IsDigit(Mantissa(d)[i]) || Mantissa(d)[i] == DOT
    ensures LETTER_E !in Mantissa(d)
  {
  }

  lemma ExponentChars(e: int)
    ensures EcmaExponent(e) != [] && EcmaExponent(e)[0] == LETTER_E
    ensures forall i :: 0 <= i < |EcmaExponent(e)| ==> NumberChar(EcmaExponent(e)[i])
  {
    hide Numeral;
  }

  lemma ReadSplit(negative: bool, m: Text, x: Text)
    requires LETTER_E !in m && ReadableExponent(x) && x[0] == LETTER_E
    ensures ReadUnsigned(negative, m + x) == Some(ReadMantissa(negative, m, SignedValue(x[1], x[2..])))
  {
    hide ReadMantissa, Find, SignedValue;
    SplitAtE(m, x);
    assert (m + x)[|m| + 1] == x[1];
  }

  lemma ExponentialChars(d: Text, n: int)
    requires ShortestDigits(d) && (n > 21 || n <= -6)
    ensures forall i :: 0 <= i < |EcmaDigits(d, n)| ==> NumberChar(EcmaDigits(d, n)[i])
    ensures EcmaDigits(d, n) != [] && EcmaDigits(d, n)[0] == d[0]
  {
    var m, x := Mantissa(d), EcmaExponent(n - 1);
    ExponentialText(d, n);
    MantissaChars(d);
    ExponentChars(n - 1);
    assert m != [] && m[0] == d[0];
    assert forall i :: 0 <= i < |m| ==> NumberChar(m[i]);
    hide *;
    assert forall i :: 0 <= i < |m + x| ==> (m + x)[i] == if i < |m| then m[i] else x[i - |m|];
  }

  lemma ReadExponential(negative: bool, d: Text, n: int)
    requires ShortestDigits(d) && (n > 21 || n <= -6)
    ensures ReadUnsigned(negative, EcmaDigits(d, n)) == Some(Decimal(negative, d, n))
  {
    var m, x := Mantissa(d), EcmaExponent(n - 1);
    ExponentReadsBack(n - 1);
    var value := SignedValue(x[1], x[2..]);
    assert ReadableExponent(x);
    hide *;
    ExponentialText(d, n);
    MantissaHasNoE(d);
    ExponentHead(n - 1);
    ReadSplit(negative, m, x);
    ReadShortMantissa(negative, d, n);
  }

  lemma MantissaHasNoE(d: Text)
    requires ShortestDigits(d)
    ensures LETTER_E !in Mantissa(d)
  {
    MantissaChars(d);
  }

  lemma ExponentHead(e: int)
    ensures EcmaExponent(e) != [] && EcmaExponent(e)[0] == LETTER_E
  {
  }

  // The layout of `repr` denotes the number, too.
  lemma ReadIntegral(negative: bool, d: Text, n: int)
    requires ShortestDigits(d) && |d| <= n
    ensures ReadMantissa(negative, (d + Zeros(n - |d|)) + [DOT] + [ZERO], 0) == Decimal(negative, d, n)
  {
    hide Find, Normalize;
    var left := d + Zeros(n - |d|);
    DigitsHaveNo(left, DOT);
    SplitAtDot(left + [DOT] + [ZERO], left, [ZERO]);
    assert left + [ZERO] == Zeros(0) + (d + Zeros(n - |d| + 1));
    NormalizeDigits(negative, d, left, [ZERO], 0, n - |d| + 1, 0);
  }

  lemma PythonExponentReadsBack(e: int)
    ensures var x := PythonExponent(e);
      ReadableExponent(x) && x[0] == LETTER_E && SignedValue(x[1], x[2..]) == e
  {
    ValueOfNumeral(Abs(e));
    var x, numeral := PythonExponent(e), Numeral(Abs(e));
    if Abs(e) < 10 {
      assert x[2..] == [ZERO] + numeral;
      assert ([ZERO] + numeral)[..1] == [ZERO] && [ZERO][..0] == [];
      assert ValueOf([ZERO] + numeral) == Abs(e);
    } else {
      assert x[2..] == numeral;
    }
  }

  lemma FixedHasNoE(d: Text, point: int)
    requires ShortestDigits(d) && -4 < point <= 16
    ensures Find(Repr(d, point), LETTER_E) == -1
  {
    hide Find;
    NoExponent(Repr(d, point));
  }

  lemma ReprReadsBack(d: Text, point: int)
    requires ShortestDigits(d)
    ensures ReadUnsigned(false, Repr(d, point)) == Some(Decimal(false, d, point))
  {
    hide ReadMantissa, Find, Mantissa, PythonExponent, SignedValue;
    if -4 < point <= 16 {
      FixedHasNoE(d, point);
      if |d| <= point {
        ReadIntegral(false, d, point);
      } else if 0 < point {
        ReadWithPoint(false, d, point);
      } else {
        ReadSmall(false, d, point);
        var z := Zeros(-point);
        assert [ZERO, DOT] + (z + d) == [ZERO, DOT] + z + d;
      }
    } else {
      MantissaHasNoE(d);
      PythonExponentReadsBack(point - 1);
      ReadSplit(false, Mantissa(d), PythonExponent(point - 1));
      ReadShortMantissa(false, d, point);
    }
  }

  // Reading inverts writing.
  lemma ReadWritten(x: Decimal)
    requires Lowest(x)
    ensures ReadNumber(WriteDecimal(x)) == Some(x)
    ensures NumberText(WriteDecimal(x))
  {
    match x {
      case Nought =>
        NoExponent([ZERO]);
        assert StripLeading([ZERO]) == [] by {
          assert [ZERO][1..] == [];
        }
        assert [ZERO] + [] == [ZERO];
      case Decimal(negative, d, n) =>
        hide EcmaDigits, ReadUnsigned;
        ReadEcmaDigits(negative, d, n);
        if negative {
          assert ([MINUS] + EcmaDigits(d, n))[1..] == EcmaDigits(d, n);
        } else {
          assert [] + EcmaDigits(d, n) == EcmaDigits(d, n);
        }
    }
  }

  // ----- Numeric equality ----------------------------------------------------------------------------------

  function Power(e: int): (p: real)
    ensures p > 0.0
  {
    if e >= 0 then Pow10(e) as real else 1.0 / Pow10(-e) as real
  }

  function Signed(negative: bool, n: nat): int {
    if negative then 0 - (n as int) else n
  }

  // p times the integer a.
  function Times(a: int, p: real): real {
    a as real * p
  }

  // The number a decimal stands for.
  function Value(x: Decimal): real
    requires Lowest(x)
  {
    match x
    case Nought => 0.0
    case Decimal(negative, d, point) => Times(Signed(negative, ValueOf(d)), Power(point - |d|))
  }

  lemma {:induction false} PowersAdd(a: nat, b: nat)
    ensures Pow10(a + b) == Pow10(a) * Pow10(b)
  {
    if a > 0 {
      PowersAdd(a - 1, b);
    }
  }

  lemma PowerOf(e: int)
    ensures e >= 0 ==> Power(e) == Times(Pow10(e), 1.0)
    ensures e < 0 ==> Times(Pow10(-e), Power(e)) == 1.0
  {
    hide Pow10;
  }

  lemma ShiftPower(e: int, k: nat)
    ensures Power(e + k) == Times(Pow10(k), Power(e))
  {
    hide *;
    PowerOf(e);
    PowerOf(e + k);
    if e >= 0 {
      PowersAdd(e, k);
      TimesTwice(Pow10(k), Pow10(e));
    } else if e + k >= 0 {
      PowersAdd(-e, e + k);
      Cancel(Power(e), Pow10(-e), Pow10(e + k), Pow10(k));
    } else {
      PowersAdd(-(e + k), k);
      CancelBelow(Power(e + k), Power(e), Pow10(-e), Pow10(-(e + k)), Pow10(k));
    }
  }

  lemma ProductAsReal(a: int, b: int)
    ensures (a * b) as real == a as real * b as real
  {
  }

  lemma TimesTwice(a: int, b: int)
    ensures Times(b * a, 1.0) == Times(a, Times(b, 1.0))
  {
    ProductAsReal(b, a);
  }

  lemma Cancel(p: real, a: nat, b: nat, c: nat)
    requires Times(a, p) == 1.0 && c == a * b
    ensures Times(b, 1.0) == Times(c, p)
  {
    ProductAsReal(a, b);
    assert p * c as real == (p * a as real) * b as real;
  }

  lemma CancelBelow(q: real, p: real, a: nat, b: nat, c: nat)
    requires Times(a, p) == 1.0 && Times(b, q) == 1.0 && a == b * c
    ensures q == Times(c, p)
  {
    ProductAsReal(b, c);
    assert q * (p * a as real) == (p * c as real) * (q * b as real);
  }

  lemma NonzeroLastDigit(d: Text)
    requires ShortestDigits(d)
    ensures ValueOf(d) % 10 != 0 && ValueOf(d) > 0
  {
    ValueIsPositive(d);
  }

  // Two numbers in lowest terms are equal only if they are written alike.
  lemma LowestTermsUnique(x: Decimal, y: Decimal)
    requires Lowest(x) && Lowest(y) && Value(x) == Value(y)
    ensures x == y
  {
    if x.Nought? || y.Nought? {
      NoughtIsZero(x);
      NoughtIsZero(y);
    } else if x.point - |x.digits| >= y.point - |y.digits| {
      SameDigits(x, y);
    } else {
      SameDigits(y, x);
    }
  }

  lemma NoughtIsZero(x: Decimal)
    requires Lowest(x)
    ensures Value(x) == 0.0 <==> x == Nought
  {
    if x.Decimal? {
      NonzeroLastDigit(x.digits);
      assert Signed(x.negative, ValueOf(x.digits)) != 0;
    }
  }

  lemma ValueOfDecimal(x: Decimal)
    requires Lowest(x) && x.Decimal?
    ensures Value(x) == Times(Signed(x.negative, ValueOf(x.digits)), Power(x.point - |x.digits|))
  {
  }

  lemma SignedUnits(negative: bool, n: nat)
    requires n % 10 != 0
    ensures Signed(negative, n) % 10 != 0 && (Signed(negative, n) < 0 <==> negative)
    ensures Abs(Signed(negative, n)) == n
  {
  }

  // Equal multiples of two powers of ten, the one of the lower power not a multiple of ten.
  lemma SameMultiple(a: int, b: int, d: int, e: int)
    requires d >= e && b % 10 != 0 && Times(a, Power(d)) == Times(b, Power(e))
    ensures d == e && a == b
  {
    hide *;
    var k: nat := d - e;
    ShiftPower(e, k);
    SameScale(a, b, Pow10(k), Power(e), Power(d));
    NoScale(a, b, k);
  }

  lemma SameDigits(x: Decimal, y: Decimal)
    requires Lowest(x) && Lowest(y) && x.Decimal? && y.Decimal? && Value(x) == Value(y)
    requires x.point - |x.digits| >= y.point - |y.digits|
    ensures x == y
  {
    NonzeroLastDigit(x.digits);
    NonzeroLastDigit(y.digits);
    NumeralOfValue(x.digits);
    NumeralOfValue(y.digits);
    hide *;
    ValueOfDecimal(x);
    ValueOfDecimal(y);
    SignedUnits(x.negative, ValueOf(x.digits));
    SignedUnits(y.negative, ValueOf(y.digits));
    SameMultiple(Signed(x.negative, ValueOf(x.digits)), Signed(y.negative, ValueOf(y.digits)),
                 x.point - |x.digits|, y.point - |y.digits|);
  }

  lemma NoScale(a: int, b: int, k: nat)
    requires b == a * Pow10(k) && b % 10 != 0
    ensures k == 0 && a == b
  {
    if k > 0 {
      MultipleOfTen(a, k);
      assert false;
    }
  }

  lemma MultipleOfTen(a: int, k: nat)
    requires k > 0
    ensures (a * Pow10(k)) % 10 == 0
  {
    var p := Pow10(k - 1);
    assert Pow10(k) == 10 * p;
    hide *;
    TenTimes(a, p);
  }

  lemma TenTimes(a: int, p: int)
    ensures a * (10 * p) == 10 * (a * p) && (a * (10 * p)) % 10 == 0
  {
    var x := a * p;
    assert a * (10 * p) == 10 * x;
  }

  lemma SameScale(a: int, b: int, k: int, p: real, q: real)
    requires p > 0.0 && q == Times(k, p) && Times(a, q) == Times(b, p)
    ensures b == a * k
  {
    assert a as real * k as real * p == b as real * p;
    assert a as real * k as real == b as real;
    assert (a * k) as real == a as real * k as real;
  }

  // An integer is the number its decimal stands for.
  lemma OfIntValue(n: int)
    requires SafeInt(n)
    ensures Lowest(OfInt(n)) && Value(OfInt(n)) == n as real
  {
    IntWrittenAsDecimal(n);
    if n != 0 {
      PositiveIntValue(n);
    }
  }

  lemma NonzeroInt(n: int)
    requires n != 0
    ensures var t, d := Numeral(Abs(n)), StripTrailing(Numeral(Abs(n)));
      && OfInt(n) == Decimal(n < 0, d, |t|)
      && AllDigits(d) && Abs(n) == ValueOf(d) * Pow10(|t| - |d|)
  {
    var t, d := Numeral(Abs(n)), StripTrailing(Numeral(Abs(n)));
    ValueOfNumeral(Abs(n));
    hide Numeral, StripTrailing, ValueOf, Pow10;
    assert forall i :: 0 <= i < |d| ==> d[i] == t[i];
    ValueWithZeros(d, |t| - |d|);
  }

  lemma PositiveIntValue(n: int)
    requires n != 0 && Lowest(OfInt(n))
    ensures Value(OfInt(n)) == n as real
  {
    var t, d := Numeral(Abs(n)), StripTrailing(Numeral(Abs(n)));
    var k: nat := |t| - |d|;
    NonzeroInt(n);
    ValueOfDecimal(OfInt(n));
    hide *;
    SignedProduct(n, ValueOf(d), k);
  }

  lemma SignedProduct(n: int, a: nat, k: nat)
    requires Abs(n) == a * Pow10(k)
    ensures n as real == Times(Signed(n < 0, a), Power(k))
  {
    hide Pow10;
    PowerOf(k);
    var b := Pow10(k);
    assert n == Signed(n < 0, a) * b;
    ProductAsReal(Signed(n < 0, a), b);
  }

  // The float branch agrees with the integer branch on every safe integer.
  lemma FloatsWriteIntegersAlike(x: Number, n: int)
    requires ValidNumber(x) && FiniteNumber(x) && SafeInt(n) && Value(OfNumber(x)) == n as real
    ensures EcmaNumber(x) == Some(IntText(n))
  {
    OfIntValue(n);
    IntWrittenAsDecimal(n);
    hide Value, OfInt, EcmaDigits, IntText;
    LowestTermsUnique(OfNumber(x), OfInt(n));
  }

  // ----- Which spelling ----------------------------------------------------------------------------------

  lemma PowerGrows(e: int, f: int)
    requires e <= f
    ensures Power(e) <= Power(f)
  {
    var k: nat := f - e;
    ShiftPower(e, k);
    hide Power, Pow10;
    AtLeastOnce(Pow10(k), Power(e));
  }

  lemma AtLeastOnce(a: int, p: real)
    requires a >= 1 && p > 0.0
    ensures Times(a, p) >= p
  {
  }

  lemma DigitsInRange(d: Text)
    requires ShortestDigits(d)
    ensures Pow10(|d| - 1) <= ValueOf(d) < Pow10(|d|)
  {
    NumeralOfValue(d);
    ValueIsPositive(d);
    hide ValueOf, Numeral;
    NumeralLength(ValueOf(d), |d|);
    if |d| >= 2 {
      NumeralLength(ValueOf(d), |d| - 1);
    }
  }

  lemma TimesGrows(a: int, b: int, p: real)
    requires p > 0.0 && a < b
    ensures Times(a, p) < Times(b, p)
  {
  }

  // A number lies between the powers of ten its decimal point shows.
  lemma MagnitudeOf(d: Text, point: int)
    requires ShortestDigits(d)
    ensures Power(point - 1) <= Times(ValueOf(d), Power(point - |d|)) < Power(point)
  {
    DigitsInRange(d);
    hide *;
    var p := Power(point - |d|);
    ShiftPower(point - |d|, |d|);
    ShiftPower(point - |d|, |d| - 1);
    TimesGrows(ValueOf(d), Pow10(|d|), p);
    if Pow10(|d| - 1) < ValueOf(d) {
      TimesGrows(Pow10(|d| - 1), ValueOf(d), p);
    }
  }

  lemma ExponentWindow()
    ensures Power(21) == 1_000_000_000_000_000_000_000.0 && Power(-6) == 0.000_001
  {
    assert Pow10(3) == 1_000;
    assert Pow10(6) == 1_000_000;
    PowersAdd(6, 6);
    PowersAdd(12, 6);
    PowersAdd(18, 3);
    assert Pow10(21) == 1_000_000_000_000_000_000_000;
    hide Pow10;
    assert Power(-6) == 1.0 / Pow10(6) as real;
  }

  lemma ExponentWritten(d: Text, n: int)
    requires ShortestDigits(d)
    ensures 101 in EcmaDigits(d, n) <==> n > 21 || n <= -6
  {
    var t := EcmaDigits(d, n);
    if -6 < n <= 21 {
      assert forall i :: 0 <= i < |t| ==> IsDigit(t[i]) || t[i] == 46;
    } else {
      ExponentialText(d, n);
      ExponentHead(n - 1);
      hide *;
      assert t[|Mantissa(d)|] == 101;
    }
  }

  // RFC 8785 section 3.2.2.3: a number is written with an exponent exactly if it is at least 10^21 or
  // less than 10^-6 in magnitude.
  lemma ExponentExactly(x: Decimal)
    requires Lowest(x)
    ensures 101 in WriteDecimal(x) <==>
      x != Nought &&
      (Value(x) >= 1_000_000_000_000_000_000_000.0 || Value(x) <= -1_000_000_000_000_000_000_000.0
       || -0.000_001 < Value(x) < 0.000_001)
  {
    if x.Nought? {
      assert WriteDecimal(x) == [ZERO];
    } else {
      var m := Times(ValueOf(x.digits), Power(x.point - |x.digits|));
      hide *;
      ValueOfDecimal(x);
      SignedTimes(x.negative, ValueOf(x.digits), Power(x.point - |x.digits|));
      WrittenDigits(x);
      ExponentWritten(x.digits, x.point);
      MagnitudeOf(x.digits, x.point);
      ExponentWindow();
      WindowOf(x.point, m, 21, -6);
      SignedWindow(Value(x), m, x.negative, Power(21), Power(-6));
    }
  }

  lemma SignedWindow(v: real, m: real, negative: bool, high: real, low: real)
    requires m > 0.0 && low < high && v == if negative then -m else m
    ensures m >= high || m < low <==> v >= high || v <= -high || -low < v < low
  {
  }

  lemma WrittenDigits(x: Decimal)
    requires Lowest(x) && x.Decimal?
    ensures 101 in WriteDecimal(x) <==> 101 in EcmaDigits(x.digits, x.point)
  {
    hide EcmaDigits;
  }

  lemma SignedTimes(negative: bool, n: nat, p: real)
    ensures Times(Signed(negative, n), p) == if negative then -Times(n, p) else Times(n, p)
  {
  }

  lemma WindowOf(n: int, m: real, high: int, low: int)
    requires Power(n - 1) <= m < Power(n)
    ensures n > high <==> m >= Power(high)
    ensures n <= low <==> m < Power(low)
  {
    hide Power;
    if n > high { PowerGrows(high, n - 1); } else { PowerGrows(n, high); }
    if n <= low { PowerGrows(n, low); } else { PowerGrows(low, n - 1); }
  }

  lemma ReprExponentWritten(d: Text, point: int)
    requires ShortestDigits(d)
    ensures 101 in Repr(d, point) <==> point > 16 || point <= -4
  {
    hide Repr, Mantissa, PythonExponent;
    ReprExponent(d, point);
  }

  // Python's `repr` goes over to an exponent earlier: from 10^16 on, and below 10^-4.
  lemma ReprExponentExactly(d: Text, point: int)
    requires ShortestDigits(d)
    ensures var v := Times(ValueOf(d), Power(point - |d|));
      101 in Repr(d, point) <==> v >= 10_000_000_000_000_000.0 || v < 0.000_1
  {
    hide Power, Pow10, ValueOf, Times, Repr;
    ReprExponentWritten(d, point);
    MagnitudeOf(d, point);
    ReprWindow();
    WindowOf(point, Times(ValueOf(d), Power(point - |d|)), 16, -4);
  }

  lemma ReprWindow()
    ensures Power(16) == 10_000_000_000_000_000.0 && Power(-4) == 0.000_1
  {
    assert Pow10(4) == 1_0000;
    PowersAdd(4, 4);
    PowersAdd(8, 8);
    assert Pow10(16) == 1_0000_0000_0000_0000;
    hide Pow10;
    assert Power(-4) == 1.0 / Pow10(4) as real;
  }

  // No zero is written that could be left out: none leads but before a point, none ends a fraction, none
  // leads an exponent; and an exponent follows one digit, or one digit and a fraction.
  predicate Tidy(t: Text) {
    && t != [] && IsDigit(t[0]) && (t[0] == 48 ==> |t| > 1 && t[1] == 46)
    && (forall i :: 0 <= i < |t| && t[i] == 46 ==> i + 1 < |t| && IsDigit(t[i + 1]))
    && (46 in t && 101 !in t ==> t[|t| - 1] != 48)
    && (forall i :: 0 <= i < |t| && t[i] == 101 ==>
          && i > 0 && (i > 1 ==> t[1] == 46 && t[i - 1] != 48) && t[0] != 48
          && i + 2 < |t| && (t[i + 1] == 43 || t[i + 1] == 45) && t[i + 2] != 48)
  }

  lemma WholeIsTidy(d: Text, zeros: Text)
    requires ShortestDigits(d) && AllDigits(zeros)
    ensures Tidy(d + zeros)
  {
    var t := d + zeros;
    assert AllDigits(t) && t[0] == d[0];
    DigitsHaveNo(t, 46);
    DigitsHaveNo(t, 101);
    hide AllDigits;
  }

  lemma FractionIsTidy(left: Text, right: Text)
    requires AllDigits(left) && AllDigits(right) && left != [] && right != []
    requires (left[0] == 48 ==> left == [48]) && right[|right| - 1] != 48
    ensures Tidy(left + [46] + right)
  {
    var t := left + [46] + right;
    assert forall i :: 0 <= i < |t| ==>
      t[i] == if i < |left| then left[i] else if i == |left| then 46 else right[i - |left| - 1];
    assert 101 !in t;
  }

  lemma ExponentialIsTidy(m: Text, x: Text)
    requires m != [] && IsDigit(m[0]) && m[0] != 48 && m[|m| - 1] != 48
    requires |m| > 1 ==> |m| > 2 && m[1] == 46
    requires forall i :: 0 <= i < |m| && i != 1 ==> IsDigit(m[i])
    requires |x| > 2 && x[0] == 101 && (x[1] == 43 || x[1] == 45) && x[2] != 48
    requires forall i :: 2 <= i < |x| ==> IsDigit(x[i])
    ensures Tidy(m + x)
  {
    var t := m + x;
    assert forall i :: 0 <= i < |t| ==> t[i] == if i < |m| then m[i] else x[i - |m|];
    assert t[|m|] == 101;
    forall i | 0 <= i < |t| && t[i] == 101 ensures i == |m| {
    }
    forall i | 0 <= i < |t| && t[i] == 46 ensures i == 1 && IsDigit(t[2]) {
    }
  }

  lemma ExponentialFormIsTidy(d: Text, n: int)
    requires ShortestDigits(d) && (n > 21 || n <= -6)
    ensures Tidy(EcmaDigits(d, n))
  {
    var x := EcmaExponent(n - 1);
    assert x[2..] == Numeral(Abs(n - 1));
    assert forall i :: 2 <= i < |x| ==> x[i] == x[2..][i - 2];
    hide Tidy, EcmaExponent, EcmaDigits, Numeral;
    ExponentialText(d, n);
    ExponentialIsTidy(Mantissa(d), x);
  }

  lemma SmallIsTidy(d: Text, n: int)
    requires ShortestDigits(d) && -6 < n <= 0
    ensures Tidy(EcmaDigits(d, n))
  {
    var right := Zeros(-n) + d;
    assert EcmaDigits(d, n) == [48] + [46] + right;
    hide Tidy, EcmaDigits;
    FractionIsTidy([48], right);
  }

  lemma NothingSuperfluous(d: Text, n: int)
    requires ShortestDigits(d)
    ensures Tidy(EcmaDigits(d, n))
  {
    hide Tidy;
    if |d| <= n <= 21 {
      WholeIsTidy(d, Zeros(n - |d|));
    } else if 0 < n <= 21 {
      FractionIsTidy(d[..n], d[n..]);
    } else if -6 < n <= 0 {
      hide EcmaDigits;
      SmallIsTidy(d, n);
    } else {
      hide EcmaDigits;
      ExponentialFormIsTidy(d, n);
    }
  }
}
