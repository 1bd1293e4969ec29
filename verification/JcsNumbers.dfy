// Number formatting of src/a2a/utils/_jcs.py:132-140, 172-228: from the text of Python's
// `repr` to ECMAScript's Number::toString, as RFC 8785 section 3.2.2.3 requires.
//
// A finite float is given by its sign, its shortest round-tripping digits d1...dk, and the
// position of the decimal point: its value is 0.d1...dk * 10^point. That `repr` finds the
// shortest digits is assumed; how it lays them out is modelled.

module JcsNumbers {
  import opened Options
  import opened Texts

  datatype Number =
    | NotANumber
    | Infinity(negative: bool)
    | Zero(negative: bool)
    | Finite(negative: bool, digits: Text, point: int)

  // Shortest digits of a double: at most 17, no zero at either end.
  predicate ShortestDigits(d: Text) {
    1 <= |d| <= 17 && AllDigits(d) && d[0] != ZERO && d[|d| - 1] != ZERO
  }

  predicate ValidNumber(x: Number) {
    x.Finite? ==> ShortestDigits(x.digits)
  }

  function Abs(n: int): nat {
    if n < 0 then -n else n
  }

  function SignOf(n: int): CodePoint {
    if n < 0 then MINUS else PLUS
  }

  // ----- Python's `repr` of a positive float ----------------------------------------------------

  // The exponent has a sign and at least two digits.
  function PythonExponent(e: int): Text {
    [LETTER_E, SignOf(e)] + (if Abs(e) < 10 then [ZERO] else []) + Numeral(Abs(e))
  }

  // d1[.d2...dk]
  function Mantissa(d: Text): Text
    requires d != []
  {
    if |d| == 1 then d else d[..1] + [DOT] + d[1..]
  }

  // Fixed notation from 1e-4 up to, but not including, 1e16; exponential notation elsewhere.
  function Repr(d: Text, point: int): Text
    requires ShortestDigits(d)
  {
    if -4 < point <= 0 then [ZERO, DOT] + (Zeros(-point) + d)
    else if 0 < point < |d| && point <= 16 then d[..point] + [DOT] + d[point..]
    else if |d| <= point <= 16 then (d + Zeros(point - |d|)) + [DOT] + [ZERO]
    else Mantissa(d) + PythonExponent(point - 1)
  }

  // ----- ECMA-262 Number::toString (section 7.1.12.1) of a positive number ------------------------

  function EcmaExponent(e: int): Text {
    [LETTER_E, SignOf(e)] + Numeral(Abs(e))
  }

  function EcmaDigits(d: Text, n: int): Text
    requires ShortestDigits(d)
  {
    if |d| <= n <= 21 then d + Zeros(n - |d|)                            // step 6
    else if 0 < n <= 21 then d[..n] + [DOT] + d[n..]                     // step 7
    else if -6 < n <= 0 then [ZERO, DOT] + Zeros(-n) + d                 // step 8
    else if |d| == 1 then d + EcmaExponent(n - 1)                        // step 9
    else d[..1] + [DOT] + d[1..] + EcmaExponent(n - 1)                   // step 10
  }

  function EcmaNumber(x: Number): Option<Text>
    requires ValidNumber(x)
  {
    match x
    case NotANumber => None
    case Infinity(_) => None
    case Zero(_) => Some([ZERO])
    case Finite(negative, d, n) => Some((if negative then [MINUS] else []) + EcmaDigits(d, n))
  }

  // ----- Python's string operations ------------------------------------------------------------------

  // `int` of a sign and a numeral.
  function SignedValue(sign: CodePoint, numeral: Text): int
    requires AllDigits(numeral)
  {
    if sign == 45 then 0 - (ValueOf(numeral) as int) else ValueOf(numeral)
  }

  // `'0' * n`
  function Repeat(n: int): Text {
    if n <= 0 then [] else Zeros(n)
  }

  // ----- The rewriting ----------------------------------------------------------------------------------

  lemma DigitsHaveNo(t: Text, c: CodePoint)
    requires AllDigits(t) && !IsDigit(c)
    ensures c !in t
  {
  }

  // Where the `e` stands in the text of `repr`, and what is on either side of it.
  lemma ReprExponent(d: Text, point: int)
    requires ShortestDigits(d)
    ensures var t, i := Repr(d, point), Find(Repr(d, point), LETTER_E);
      if -4 < point <= 16 then i == -1
      else i == |Mantissa(d)| && t[..i] == Mantissa(d) && t[i..] == PythonExponent(point - 1)
  {
    DigitsHaveNo(d, LETTER_E);
    var t := Repr(d, point);
    if -4 < point <= 16 {
      assert forall c :: c in t ==> c == DOT || c in d || c == ZERO;
    } else {
      var tail := PythonExponent(point - 1)[1..];
      assert forall c :: c in Mantissa(d) ==> c == DOT || c in d;
      assert t == Mantissa(d) + [LETTER_E] + tail;
      FindAfter(Mantissa(d), LETTER_E, tail);
    }
  }

  // Dropping Python's padding leaves the ECMAScript exponent.
  lemma ExponentUnpadded(e: int)
    requires e != 0
    ensures var x := PythonExponent(e);
      && |x| >= 4 && (if x[2..3] == [ZERO] then x[..2] + x[3..] else x) == EcmaExponent(e)
  {
    if Abs(e) < 10 {
      assert PythonExponent(e)[3..] == Numeral(Abs(e));
    } else {
      assert PythonExponent(e)[2..3] == [Numeral(Abs(e))[0]];
    }
  }

  // ... which reads back as the number.
  lemma ExponentReadsBack(e: int)
    ensures var y := EcmaExponent(e);
      |y| >= 3 && AllDigits(y[2..]) && SignedValue(y[1], y[2..]) == e
  {
    ValueOfNumeral(Abs(e));
    assert EcmaExponent(e)[2..] == Numeral(Abs(e));
  }

  // Splitting the mantissa, or the whole text in fixed notation, at the point.
  lemma SplitAtDot(t: Text, left: Text, right: Text)
    requires t == left + [DOT] + right && DOT !in left && left != []
    ensures Find(t, DOT) == |left| > 0 && t[..|left|] == left && t[|left| + 1..] == right
  {
    FindAfter(left, DOT, right);
  }

  lemma SplitMantissa(d: Text)
    requires ShortestDigits(d)
    ensures var m := Mantissa(d);
      if |d| == 1 then Find(m, DOT) == -1 && m == d
      else Find(m, DOT) == 1 && m[..1] == d[..1] && m[2..] == d[1..]
  {
    DigitsHaveNo(d, DOT);
    if |d| > 1 {
      assert DOT !in d[..1];
      SplitAtDot(Mantissa(d), d[..1], d[1..]);
    }
  }

  // What is left and right of the point in the text, exponent removed.
  function LeftPart(d: Text, point: int): Text
    requires ShortestDigits(d)
  {
    if -4 < point <= 0 then [ZERO]
    else if 0 < point < |d| && point <= 16 then d[..point]
    else if |d| <= point <= 16 then d + Zeros(point - |d|)
    else d[..1]
  }

  function RightPart(d: Text, point: int): Text
    requires ShortestDigits(d)
  {
    if -4 < point <= 0 then Zeros(-point) + d
    else if 0 < point < |d| && point <= 16 then d[point..]
    else if |d| <= point <= 16 then [ZERO]
    else d[1..]
  }

  lemma FixedSplits(d: Text, point: int)
    requires ShortestDigits(d) && -4 < point <= 16
    ensures var t, left, right := Repr(d, point), LeftPart(d, point), RightPart(d, point);
      Find(t, DOT) == |left| > 0 && t[..|left|] == left && t[|left| + 1..] == right
    ensures RightPart(d, point) == [ZERO] <==> |d| <= point
  {
    var left, right := LeftPart(d, point), RightPart(d, point);
    DigitsHaveNo(d, DOT);
    assert AllDigits(left);
    DigitsHaveNo(left, DOT);
    assert Repr(d, point) == left + [DOT] + right;
    SplitAtDot(Repr(d, point), left, right);
    if point < |d| {
      assert right[|right| - 1] == d[|d| - 1];
    }
  }

  // `_format_number`. The result is what ECMAScript writes; no padding count is negative.
  method FormatNumber(x: Number) returns (r: Option<Text>)
    requires ValidNumber(x)
    ensures r == EcmaNumber(x)
    decreases x.Finite? && x.negative
  {
    match x {
      case NotANumber => return None;
      case Infinity(_) => return None;
      case Zero(_) => return Some([ZERO]);
      case Finite(negative, d, point) =>
        if negative {
          var positive := FormatNumber(Finite(false, d, point));
          assert [] + EcmaDigits(d, point) == EcmaDigits(d, point);
          return Some([MINUS] + positive.value);
        }
        var text := FormatPositive(d, point);
        assert [] + EcmaDigits(d, point) == EcmaDigits(d, point);
        return Some(text);
    }
  }

  // f'{first}{dot}{last}{exponent_str}'
  function Assembled(first: Text, dot: Text, last: Text, exponentStr: Text): Text {
    first + dot + last + exponentStr
  }

  // The text of `repr` taken apart.
  predicate Pieces(d: Text, point: int, first: Text, dot: Text, last: Text, exponentStr: Text, exponentValue: int)
    requires ShortestDigits(d)
  {
    && first == LeftPart(d, point)
    && last == (if |d| <= point <= 16 then [] else RightPart(d, point))
    && dot == (if last == [] then [] else [DOT])
    && exponentStr == (if -4 < point <= 16 then [] else EcmaExponent(point - 1))
    && exponentValue == (if -4 < point <= 16 then 0 else point - 1)
  }

  method FormatPositive(d: Text, point: int) returns (r: Text)
    requires ShortestDigits(d)
    ensures r == EcmaDigits(d, point)
  {
    var first, dot, last, exponentStr, exponentValue := TakeApart(d, point);
    hide *;
    if 0 < exponentValue < 21 {
      PiecesAbove(d, point, first, dot, last, exponentStr, exponentValue);
      first := first + last;
      last := [];
      dot := [];
      exponentStr := [];
      assert exponentValue - |first| + 1 >= 0;
      first := first + Repeat(exponentValue - |first| + 1);
    } else if -7 < exponentValue < 0 {
      PiecesBelow(d, point, first, dot, last, exponentStr, exponentValue);
      last := first + last;
      first := [ZERO];
      dot := [DOT];
      exponentStr := [];
      assert -exponentValue - 1 >= 0;
      last := Repeat(-exponentValue - 1) + last;
    } else {
      PiecesKept(d, point, first, dot, last, exponentStr, exponentValue);
    }
    r := Assembled(first, dot, last, exponentStr);
  }

  method TakeApart(d: Text, point: int)
      returns (first: Text, dot: Text, last: Text, exponentStr: Text, exponentValue: int)
    requires ShortestDigits(d)
    ensures Pieces(d, point, first, dot, last, exponentStr, exponentValue)
  {
    hide LeftPart, RightPart, EcmaExponent;
    var stringified;
    stringified, exponentStr, exponentValue := CutExponent(d, point);
    first, dot, last := CutAtPoint(d, point, stringified);
  }

  lemma PiecesAbove(d: Text, point: int, first: Text, dot: Text, last: Text, exponentStr: Text, exponentValue: int)
    requires ShortestDigits(d) && 0 < exponentValue < 21
    requires Pieces(d, point, first, dot, last, exponentStr, exponentValue)
    ensures first + last == d && exponentValue - |d| + 1 >= 0
    ensures Assembled(d + Repeat(exponentValue - |d| + 1), [], [], []) == EcmaDigits(d, point)
  {
    assert exponentValue == point - 1 && 16 < point <= 21 && last == RightPart(d, point) && |d| <= 17;
    hide *;
    ExpandedAbove(d, point);
  }

  lemma PiecesBelow(d: Text, point: int, first: Text, dot: Text, last: Text, exponentStr: Text, exponentValue: int)
    requires ShortestDigits(d) && -7 < exponentValue < 0
    requires Pieces(d, point, first, dot, last, exponentStr, exponentValue)
    ensures first + last == d && -exponentValue - 1 >= 0
    ensures Assembled([ZERO], [DOT], Repeat(-exponentValue - 1) + d, []) == EcmaDigits(d, point)
  {
    assert exponentValue == point - 1 && -6 < point <= -4 && last == RightPart(d, point);
    hide *;
    ExpandedBelow(d, point);
  }

  lemma PiecesKept(d: Text, point: int, first: Text, dot: Text, last: Text, exponentStr: Text, exponentValue: int)
    requires ShortestDigits(d) && !(0 < exponentValue < 21) && !(-7 < exponentValue < 0)
    requires Pieces(d, point, first, dot, last, exponentStr, exponentValue)
    ensures Assembled(first, dot, last, exponentStr) == EcmaDigits(d, point)
  {
    assert -4 < point <= 16 || point > 21 || point <= -6;
    hide LeftPart, RightPart, EcmaExponent, EcmaDigits, Assembled;
    NotExpanded(d, point);
  }

  // The pieces put together, in the three ways the code does it. Written out in full to the left
  // of the point:
  lemma ExpandedAbove(d: Text, point: int)
    requires ShortestDigits(d) && 16 < point <= 21
    ensures LeftPart(d, point) + RightPart(d, point) == d
    ensures Assembled(d + Repeat(point - 1 - |d| + 1), [], [], []) == EcmaDigits(d, point)
  {
    assert d[..1] + d[1..] == d;
    assert point - 1 - |d| + 1 == point - |d|;
    assert Repeat(point - |d|) == Zeros(point - |d|);
    var t := d + Zeros(point - |d|);
    assert Assembled(t, [], [], []) == t;
  }

  // ... to the right of it:
  lemma ExpandedBelow(d: Text, point: int)
    requires ShortestDigits(d) && -6 < point <= -4
    ensures LeftPart(d, point) + RightPart(d, point) == d
    ensures Assembled([ZERO], [DOT], Repeat(-(point - 1) - 1) + d, []) == EcmaDigits(d, point)
  {
    assert d[..1] + d[1..] == d;
    assert Repeat(-(point - 1) - 1) == Zeros(-point);
    var z := Zeros(-point);
    assert Assembled([ZERO], [DOT], z + d, []) == [ZERO, DOT] + z + d;
  }

  // ... and as it is.
  lemma NotExpanded(d: Text, point: int)
    requires ShortestDigits(d) && (-4 < point <= 16 || point > 21 || point <= -6)
    ensures var last := if |d| <= point <= 16 then [] else RightPart(d, point);
      Assembled(LeftPart(d, point), if last == [] then [] else [DOT], last,
                if -4 < point <= 16 then [] else EcmaExponent(point - 1)) == EcmaDigits(d, point)
  {
    hide EcmaExponent;
    if -4 < point <= 16 {
      FixedAssembled(d, point);
    } else if |d| == 1 {
      assert d[..1] == d && d[1..] == [];
      assert Assembled(d, [], [], EcmaExponent(point - 1)) == d + EcmaExponent(point - 1);
    }
  }

  lemma FixedAssembled(d: Text, point: int)
    requires ShortestDigits(d) && -4 < point <= 16
    ensures var last := if |d| <= point then [] else RightPart(d, point);
      Assembled(LeftPart(d, point), if last == [] then [] else [DOT], last, []) == EcmaDigits(d, point)
  {
    if |d| <= point {
      var t := d + Zeros(point - |d|);
      assert Assembled(t, [], [], []) == t;
    } else if 0 < point {
      assert Assembled(d[..point], [DOT], d[point..], []) == d[..point] + [DOT] + d[point..];
    } else {
      var z := Zeros(-point);
      assert Assembled([ZERO], [DOT], z + d, []) == [ZERO, DOT] + z + d;
    }
  }

  method CutExponent(d: Text, point: int) returns (stringified: Text, exponentStr: Text, exponentValue: int)
    requires ShortestDigits(d)
    ensures exponentStr == if -4 < point <= 16 then [] else EcmaExponent(point - 1)
    ensures exponentValue == if -4 < point <= 16 then 0 else point - 1
    ensures stringified == if -4 < point <= 16 then Repr(d, point) else Mantissa(d)
  {
    assert |Mantissa(d)| > 0;
    ReprExponent(d, point);
    stringified, exponentStr, exponentValue := Repr(d, point), [], 0;
    var separator := Find(stringified, LETTER_E);
    hide *;
    if separator > 0 {
      exponentStr := stringified[separator..];
      ExponentUnpadded(point - 1);
      if exponentStr[2..3] == [ZERO] {
        exponentStr := exponentStr[..2] + exponentStr[3..];
      }
      ExponentReadsBack(point - 1);
      stringified := stringified[..separator];
      exponentValue := SignedValue(exponentStr[1], exponentStr[2..]);
    }
  }

  method CutAtPoint(d: Text, point: int, stringified: Text) returns (first: Text, dot: Text, last: Text)
    requires ShortestDigits(d)
    requires stringified == if -4 < point <= 16 then Repr(d, point) else Mantissa(d)
    ensures first == LeftPart(d, point)
    ensures last == if |d| <= point <= 16 then [] else RightPart(d, point)
    ensures dot == if last == [] then [] else [DOT]
  {
    if -4 < point <= 16 {
      FixedSplits(d, point);
    } else {
      SplitMantissa(d);
    }
    first, dot, last := stringified, [], [];
    var separator := Find(stringified, DOT);
    if separator > 0 {
      dot := [DOT];
      first := stringified[..separator];
      last := stringified[separator + 1..];
    }
    if last == [ZERO] {
      dot := [];
      last := [];
    }
  }
}
