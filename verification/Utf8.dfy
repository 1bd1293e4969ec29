// UTF-8 (RFC 3629 section 3): Python's strict encoder and decoder.

module Utf8 {
  import opened Texts
  import opened Options

  function EncodeChar(c: CodePoint): seq<int> {
    if c < 0x80 then [c]
    else if c < 0x800 then [0xC0 + c / 0x40, 0x80 + c % 0x40]
    else if c < 0x1_0000 then [0xE0 + c / 0x1000, 0x80 + c / 0x40 % 0x40, 0x80 + c % 0x40]
    else [0xF0 + c / 0x4_0000, 0x80 + c / 0x1000 % 0x40, 0x80 + c / 0x40 % 0x40, 0x80 + c % 0x40]
  }

  function EncodeChars(t: Text): seq<int> {
    if t == [] then [] else EncodeChar(t[0]) + EncodeChars(t[1..])
  }

  // `t.encode('utf-8')`; None is the UnicodeEncodeError.
  function Encode(t: Text): Option<seq<int>> {
    if SurrogateFree(t) then Some(EncodeChars(t)) else None
  }

  predicate IsTail(b: int) {
    0x80 <= b < 0xC0
  }

  datatype Char = NoChar | Char(c: CodePoint, length: nat)

  // The first character and how many bytes it takes: no continuation byte first, none missing,
  // nothing longer than it need be, no surrogate, nothing above U+10FFFF.
  function DecodeChar(b: seq<int>): (r: Char)
    ensures r.Char? ==> 0 < r.length <= |b|
  {
    if b == [] then NoChar
    else if 0 <= b[0] < 0x80 then Char(b[0], 1)
    else if 0xC2 <= b[0] < 0xE0 then
      if |b| >= 2 && IsTail(b[1]) then Char((b[0] - 0xC0) * 0x40 + (b[1] - 0x80), 2) else NoChar
    else if 0xE0 <= b[0] < 0xF0 then
      if |b| >= 3 && IsTail(b[1]) && IsTail(b[2]) then
        var c := (b[0] - 0xE0) * 0x1000 + (b[1] - 0x80) * 0x40 + (b[2] - 0x80);
        if c < 0x800 || IsSurrogate(c) then NoChar else Char(c, 3)
      else NoChar
    else if 0xF0 <= b[0] < 0xF5 then
      if |b| >= 4 && IsTail(b[1]) && IsTail(b[2]) && IsTail(b[3]) then
        var c := (b[0] - 0xF0) * 0x4_0000 + (b[1] - 0x80) * 0x1000 + (b[2] - 0x80) * 0x40 + (b[3] - 0x80);
        if c < 0x1_0000 || c >= 0x11_0000 then NoChar else Char(c, 4)
      else NoChar
    else NoChar
  }

  // `b.decode('utf-8')`; None is the UnicodeDecodeError.
  function Decode(b: seq<int>): Option<Text>
    decreases |b|
  {
    if b == [] then Some([])
    else
      var first := DecodeChar(b);
      if first.NoChar? then None else
      var others := Decode(b[first.length..]);
      if others.None? then None else Some([first.c] + others.value)
  }

  lemma DecodeEncodedChar(c: CodePoint, rest: seq<int>)
    requires !IsSurrogate(c)
    ensures DecodeChar(EncodeChar(c) + rest) == Char(c, |EncodeChar(c)|)
  {
    var b := EncodeChar(c) + rest;
    assert forall i :: 0 <= i < |EncodeChar(c)| ==> b[i] == EncodeChar(c)[i];
    if c >= 0x1_0000 {
      Base64Digits(c);
    } else if c >= 0x800 {
      Base64Digits(c);
    }
  }

  // The digits of a number to the base 64.
  lemma Base64Digits(c: nat)
    ensures c == c / 0x1000 * 0x1000 + c / 0x40 % 0x40 * 0x40 + c % 0x40
    ensures c == c / 0x4_0000 * 0x4_0000 + c / 0x1000 % 0x40 * 0x1000 + c / 0x40 % 0x40 * 0x40 + c % 0x40
  {
    assert c / 0x40 / 0x40 == c / 0x1000;
    assert c / 0x1000 / 0x40 == c / 0x4_0000;
  }

  // The table of RFC 3629 section 3: how many bytes a character takes, where its bytes lie, and the bits
  // they carry.
  lemma BytesOfChar(c: CodePoint)
    ensures var b := EncodeChar(c);
      && (c < 0x80 ==> b == [c])
      && (0x80 <= c < 0x800 ==>
            |b| == 2 && 0xC2 <= b[0] <= 0xDF && 0x80 <= b[1] <= 0xBF && c == (b[0] - 0xC0) * 0x40 + (b[1] - 0x80))
      && (0x800 <= c < 0x1_0000 ==>
            && |b| == 3 && 0xE0 <= b[0] <= 0xEF && 0x80 <= b[1] <= 0xBF && 0x80 <= b[2] <= 0xBF
            && c == (b[0] - 0xE0) * 0x1000 + (b[1] - 0x80) * 0x40 + (b[2] - 0x80))
      && (0x1_0000 <= c ==>
            && |b| == 4 && 0xF0 <= b[0] <= 0xF4 && 0x80 <= b[1] <= 0xBF && 0x80 <= b[2] <= 0xBF
            && 0x80 <= b[3] <= 0xBF
            && c == (b[0] - 0xF0) * 0x4_0000 + (b[1] - 0x80) * 0x1000 + (b[2] - 0x80) * 0x40 + (b[3] - 0x80))
  {
    Base64Digits(c);
  }

  lemma DigitsOf(x: nat, y: nat, z: nat, w: nat, c: nat)
    requires y < 0x40 && z < 0x40 && w < 0x40 && c == x * 0x4_0000 + y * 0x1000 + z * 0x40 + w
    ensures c / 0x4_0000 == x && c / 0x1000 % 0x40 == y && c / 0x40 % 0x40 == z && c % 0x40 == w
    ensures c / 0x1000 == x * 0x40 + y
  {
    assert c / 0x40 == x * 0x1000 + y * 0x40 + z;
    assert c / 0x1000 == x * 0x40 + y;
  }

  lemma EncodeDecodedChar(b: seq<int>)
    requires DecodeChar(b).Char?
    ensures !IsSurrogate(DecodeChar(b).c) && EncodeChar(DecodeChar(b).c) == b[..DecodeChar(b).length]
  {
    var r := DecodeChar(b);
    if r.length == 4 {
      DigitsOf(b[0] - 0xF0, b[1] - 0x80, b[2] - 0x80, b[3] - 0x80, r.c);
      assert b[..4] == [b[0], b[1], b[2], b[3]];
    } else if r.length == 3 {
      DigitsOf(0, b[0] - 0xE0, b[1] - 0x80, b[2] - 0x80, r.c);
      assert b[..3] == [b[0], b[1], b[2]];
    } else if r.length == 2 {
      assert b[..2] == [b[0], b[1]];
    } else {
      assert b[..1] == [b[0]];
    }
  }

  lemma DecodeFirst(c: CodePoint, rest: seq<int>)
    requires !IsSurrogate(c)
    ensures Decode(EncodeChar(c) + rest) == if Decode(rest).None? then None else Some([c] + Decode(rest).value)
  {
    DecodeEncodedChar(c, rest);
    var b, n := EncodeChar(c) + rest, |EncodeChar(c)|;
    assert b[n..] == rest;
    hide DecodeChar, EncodeChar;
  }

  lemma {:induction false} EncodedDecodes(t: Text)
    requires SurrogateFree(t)
    ensures Decode(EncodeChars(t)) == Some(t)
  {
    if t != [] {
      assert !IsSurrogate(t[0]) && SurrogateFree(t[1..]);
      EncodedDecodes(t[1..]);
      DecodeFirst(t[0], EncodeChars(t[1..]));
      hide Decode, EncodeChar, SurrogateFree;
      assert t == [t[0]] + t[1..];
    }
  }

  lemma EncodeFirst(c: CodePoint, others: Text)
    ensures EncodeChars([c] + others) == EncodeChar(c) + EncodeChars(others)
    ensures !IsSurrogate(c) && SurrogateFree(others) ==> SurrogateFree([c] + others)
  {
    hide EncodeChar;
    assert ([c] + others)[1..] == others;
  }

  lemma DecodeSteps(b: seq<int>)
    requires b != [] && Decode(b).Some?
    ensures var first := DecodeChar(b);
      first.Char? && Decode(b[first.length..]).Some? && Decode(b).value == [first.c] + Decode(b[first.length..]).value
  {
    hide DecodeChar;
  }

  lemma {:induction false} DecodedEncodes(b: seq<int>)
    requires Decode(b).Some?
    ensures SurrogateFree(Decode(b).value) && EncodeChars(Decode(b).value) == b
    decreases |b|
  {
    if b != [] {
      hide *;
      DecodeSteps(b);
      var first := DecodeChar(b);
      EncodeDecodedChar(b);
      DecodedEncodes(b[first.length..]);
      EncodeFirst(first.c, Decode(b[first.length..]).value);
      assert b == b[..first.length] + b[first.length..];
    }
  }

  // A byte string decodes to a text exactly when it is the encoding of the text.
  lemma DecodesWhatItEncodes(t: Text, b: seq<int>)
    ensures Decode(b) == Some(t) <==> Encode(t) == Some(b)
  {
    if SurrogateFree(t) {
      EncodedDecodes(t);
    }
    if Decode(b).Some? {
      DecodedEncodes(b);
    }
    hide Decode, EncodeChars, SurrogateFree;
  }

  lemma {:induction false} AsciiEncodesAsItself(t: Text)
    requires forall i :: 0 <= i < |t| ==> t[i] < 0x80
    ensures Encode(t) == Some(t)
  {
    if t != [] {
      AsciiEncodesAsItself(t[1..]);
      assert t == [t[0]] + t[1..];
    }
  }
}
