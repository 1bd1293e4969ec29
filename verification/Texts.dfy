// Python text: sequences of code points, surrogates included, and decimal numerals in it.

module Texts {

  type CodePoint = c: int | 0 <= c < 0x11_0000

  type Text = seq<CodePoint>

  const ZERO: CodePoint := 48
  const MINUS: CodePoint := 45
  const PLUS: CodePoint := 43
  const DOT: CodePoint := 46
  const LETTER_E: CodePoint := 101

  predicate IsSurrogate(c: CodePoint) {
    0xD800 <= c < 0xE000
  }

  // Valid Unicode: what has a UTF-8 and a UTF-16 encoding.
  predicate SurrogateFree(t: Text) {
    forall i :: 0 <= i < |t| ==> !IsSurrogate(t[i])
  }

  predicate IsDigit(c: CodePoint) {
    48 <= c <= 57
  }

  predicate AllDigits(t: Text) {
    forall i :: 0 <= i < |t| ==> IsDigit(t[i])
  }

  // `str.find` of one character.
  function Find(t: Text, c: CodePoint): (i: int)
    ensures i == -1 <==> c !in t
    ensures i != -1 ==> 0 <= i < |t| && t[i] == c && c !in t[..i]
  {
    if t == [] then -1
    else if t[0] == c then 0
    else var rest := Find(t[1..], c);
      assert t == [t[0]] + t[1..];
      if rest == -1 then -1 else
      assert t[..rest + 1] == [t[0]] + t[1..][..rest];
      rest + 1
  }

  lemma FindAfter(before: Text, c: CodePoint, after: Text)
    requires c !in before
    ensures Find(before + [c] + after, c) == |before|
  {
    var t := before + [c] + after;
    assert t[|before|] == c;
    assert forall k :: 0 <= k < |before| ==> t[k] == before[k];
    assert forall k :: 0 <= k < Find(t, c) ==> t[..Find(t, c)][k] == t[k];
  }

  function Zeros(n: nat): (t: Text)
    ensures |t| == n && AllDigits(t) && forall i :: 0 <= i < n ==> t[i] == ZERO
  {
    seq(n, _ => ZERO)
  }

  // The decimal numeral of n, as `str(n)` writes it.
  function Numeral(n: nat): (t: Text)
    ensures t != [] && AllDigits(t) && (n > 0 ==> t[0] != ZERO)
    ensures n < 10 <==> |t| == 1
  {
    if n < 10 then [ZERO + n] else Numeral(n / 10) + [ZERO + n % 10]
  }

  function IntText(n: int): Text {
    if n < 0 then [MINUS] + Numeral(-n) else Numeral(n)
  }

  // The number a string of digits denotes.
  function ValueOf(t: Text): nat
    requires AllDigits(t)
  {
    if t == [] then 0 else 10 * ValueOf(t[..|t| - 1]) + (t[|t| - 1] - 48)
  }

  lemma {:induction false} ValueOfNumeral(n: nat)
    ensures ValueOf(Numeral(n)) == n
  {
    if n >= 10 {
      ValueOfNumeral(n / 10);
      assert Numeral(n)[..|Numeral(n)| - 1] == Numeral(n / 10);
    }
  }

  lemma {:induction false} ValueIsPositive(t: Text)
    requires AllDigits(t) && t != [] && t[0] != ZERO
    ensures ValueOf(t) > 0
    decreases |t|
  {
    if |t| > 1 {
      ValueIsPositive(t[..|t| - 1]);
    } else {
      assert t[..0] == [];
    }
  }

  // A numeral is the only string of digits with its value and no leading zero.
  lemma {:induction false} NumeralOfValue(t: Text)
    requires AllDigits(t) && t != [] && t[0] != ZERO
    ensures Numeral(ValueOf(t)) == t
    decreases |t|
  {
    var front, last := t[..|t| - 1], t[|t| - 1];
    if front == [] {
      assert t == [last];
    } else {
      NumeralOfValue(front);
      ValueIsPositive(front);
      assert ValueOf(t) / 10 == ValueOf(front) && ValueOf(t) % 10 == last - ZERO;
    }
  }

  function Pow10(n: nat): (p: nat)
    ensures p > 0
  {
    if n == 0 then 1 else 10 * Pow10(n - 1)
  }

  // Trailing zeros multiply the value.
  lemma {:induction false} ValueWithZeros(t: Text, n: nat)
    requires AllDigits(t)
    ensures AllDigits(t + Zeros(n)) && ValueOf(t + Zeros(n)) == ValueOf(t) * Pow10(n)
    decreases n
  {
    if n == 0 {
      assert t + Zeros(0) == t;
    } else {
      ValueWithZeros(t, n - 1);
      var more := t + Zeros(n);
      assert more[..|more| - 1] == t + Zeros(n - 1);
    }
  }

  // A numeral has more than d digits exactly when its number exceeds 10^d - 1.
  lemma {:induction false} NumeralLength(n: nat, d: nat)
    requires d >= 1
    ensures n > Pow10(d) - 1 <==> |Numeral(n)| > d
    decreases n
  {
    if n >= 10 {
      if d >= 2 {
        NumeralLength(n / 10, d - 1);
        assert n >= 10 * Pow10(d - 1) <==> n / 10 >= Pow10(d - 1);
      } else {
        assert Pow10(1) == 10;
      }
    } else {
      assert Pow10(d) == 10 * Pow10(d - 1);
    }
  }
}
