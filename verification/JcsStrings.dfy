// String literals of src/a2a/utils/_jcs.py:45-59, 167-169 (RFC 8785 section 3.2.2.2), and the
// reading of JSON string literals (RFC 8259 section 7).

module JcsStrings {
  import opened Texts
  import opened Options

  const QUOTE: CodePoint := 34
  const BACKSLASH: CodePoint := 92
  const LETTER_U: CodePoint := 117

  function HexDigit(n: nat): CodePoint
    requires n < 16
  {
    if n < 10 then ZERO + n else 87 + n
  }

  // The letter after the backslash, for the seven characters that have one.
  function ShortEscape(c: CodePoint): Option<CodePoint> {
    if c == BACKSLASH || c == QUOTE then Some(c)
    else if c == 8 then Some(98)     // \b
    else if c == 12 then Some(102)   // \f
    else if c == 10 then Some(110)   // \n
    else if c == 13 then Some(114)   // \r
    else if c == 9 then Some(116)    // \t
    else None
  }

  function Escape(c: CodePoint): Text {
    if ShortEscape(c).Some? then [BACKSLASH, ShortEscape(c).value]
    else if c < 0x20 then [BACKSLASH, LETTER_U, ZERO, ZERO, HexDigit(c / 16), HexDigit(c % 16)]
    else [c]
  }

  function Escaped(t: Text): Text {
    if t == [] then [] else Escape(t[0]) + Escaped(t[1..])
  }

  // `_quote`
  function Quote(t: Text): Text {
    [QUOTE] + Escaped(t) + [QUOTE]
  }

  // ----- Reading a string literal ---------------------------------------------------------------

  // The reader names every character by its code point, as RFC 8259 section 7 does: 34 is the quotation
  // mark, 92 the reverse solidus, 47 the solidus, 117 the u of a four-digit escape.

  datatype Read<T> = NoRead | Read(item: T, rest: Text)

  function HexValue(c: CodePoint): Option<nat> {
    if IsDigit(c) then Some(c - 48)
    else if 97 <= c <= 102 then Some(c - 87)
    else if 65 <= c <= 70 then Some(c - 55)
    else None
  }

  function Unescape(letter: CodePoint): Option<CodePoint> {
    if letter == 34 || letter == 92 || letter == 47 then Some(letter)
    else if letter == 98 then Some(8)   // \b
    else if letter == 102 then Some(12)   // \f
    else if letter == 110 then Some(10)   // \n
    else if letter == 114 then Some(13)   // \r
    else if letter == 116 then Some(9)   // \t
    else None
  }

  // One character of a literal, escaped or not.
  function ReadChar(t: Text): (r: Read<CodePoint>)
    ensures r.Read? ==> |r.rest| < |t|
  {
    if t == [] || t[0] == 34 || t[0] < 0x20 then NoRead
    else if t[0] != 92 then Read(t[0], t[1..])
    else if |t| == 1 then NoRead
    else if t[1] != 117 then
      if Unescape(t[1]).Some? then Read(Unescape(t[1]).value, t[2..]) else NoRead
    else if |t| >= 6 && HexValue(t[2]).Some? && HexValue(t[3]).Some? && HexValue(t[4]).Some? &&
        HexValue(t[5]).Some? then
      Read(HexValue(t[2]).value * 0x1000 + HexValue(t[3]).value * 0x100 + HexValue(t[4]).value * 0x10 +
          HexValue(t[5]).value,
           t[6..])
    else NoRead
  }

  // What follows the opening quote, up to and including the closing one.
  function ReadChars(t: Text): (r: Read<Text>)
    ensures r.Read? ==> |r.rest| < |t|
    decreases |t|
  {
    if t != [] && t[0] == 34 then Read([], t[1..])
    else
      var first := ReadChar(t);
      if first.NoRead? then NoRead else
      var others := ReadChars(first.rest);
      if others.NoRead? then NoRead else Read([first.item] + others.item, others.rest)
  }

  lemma ReadEscaped(c: CodePoint, rest: Text)
    ensures Escape(c)[0] != 34
    ensures ReadChar(Escape(c) + rest) == Read(c, rest)
  {
    var x := Escape(c);
    assert (x + rest)[|x|..] == rest;
    assert forall i :: 0 <= i < |x| ==> (x + rest)[i] == x[i];
  }

  predicate LowerCaseHex(x: Text) {
    forall i :: 0 <= i < |x| ==> !(65 <= x[i] <= 70)
  }

  // Of all spellings of a character the code writes the shortest, in lower case where it is an
  // escape: the one RFC 8785 prescribes.
  lemma SpellingIsShortest(c: CodePoint, x: Text)
    requires ReadChar(x) == Read(c, [])
    ensures |x| >= |Escape(c)|
    ensures |x| == |Escape(c)| && (x[0] == 92 ==> LowerCaseHex(x)) ==> x == Escape(c)
  {
    if |x| == 6 && x[0] == BACKSLASH && |Escape(c)| == 6 && LowerCaseHex(x) {
      var a, b, d, e := HexValue(x[2]).value, HexValue(x[3]).value, HexValue(x[4]).value, HexValue(x[5]).value;
      assert a < 16 && b < 16 && d < 16 && e < 16 && c == a * 0x1000 + b * 0x100 + d * 0x10 + e < 0x20;
      assert a == 0 && b == 0 && d == c / 16 && e == c % 16;
      HexInverts(x[2]);
      HexInverts(x[3]);
      HexInverts(x[4]);
      HexInverts(x[5]);
      assert x == [x[0], x[1], x[2], x[3], x[4], x[5]];
    }
  }

  lemma HexInverts(h: CodePoint)
    requires HexValue(h).Some? && !(65 <= h <= 70)
    ensures HexValue(h).value < 16 && HexDigit(HexValue(h).value) == h
  {
  }

  // Reading inverts quoting, whatever follows.
  lemma {:induction false} ReadQuoted(t: Text, rest: Text)
    ensures ReadChars(Escaped(t) + [QUOTE] + rest) == Read(t, rest)
    decreases |t|
  {
    if t == [] {
      assert ([QUOTE] + rest)[1..] == rest;
      assert Escaped(t) + [QUOTE] + rest == [QUOTE] + rest;
    } else {
      var more := Escaped(t[1..]) + [QUOTE] + rest;
      assert Escaped(t) + [QUOTE] + rest == Escape(t[0]) + more;
      ReadEscaped(t[0], more);
      ReadQuoted(t[1..], rest);
      assert t == [t[0]] + t[1..];
    }
  }

  // A literal contains no control character, and has an encoding exactly when its text has.
  lemma {:induction false} EscapedIsClean(t: Text)
    ensures forall i :: 0 <= i < |Escaped(t)| ==> Escaped(t)[i] >= 0x20
    ensures SurrogateFree(Escaped(t)) <==> SurrogateFree(t)
  {
    if t != [] {
      EscapedIsClean(t[1..]);
      assert SurrogateFree(Escape(t[0])) <==> !IsSurrogate(t[0]) by {
        if Escape(t[0]) == [t[0]] {
          assert IsSurrogate(t[0]) ==> IsSurrogate(Escape(t[0])[0]);
        }
      }
      SurrogateFreeParts(Escape(t[0]), Escaped(t[1..]));
      SurrogateFreeParts([t[0]], t[1..]);
      assert t == [t[0]] + t[1..];
      assert IsSurrogate(t[0]) <==> !SurrogateFree([t[0]]) by {
        assert [t[0]][0] == t[0];
      }
    }
  }

  lemma SurrogateFreeParts(a: Text, b: Text)
    ensures SurrogateFree(a + b) <==> SurrogateFree(a) && SurrogateFree(b)
  {
    if SurrogateFree(a + b) {
      assert forall i :: 0 <= i < |a| ==> a[i] == (a + b)[i];
      assert forall i :: 0 <= i < |b| ==> b[i] == (a + b)[|a| + i];
    }
  }
}
