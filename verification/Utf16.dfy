// UTF-16 of text, and the order RFC 8785 section 3.2.3 sorts object keys by.

module Utf16 {
  import opened Options
  import opened Texts
  import opened Sorting

  function CodeUnits(c: CodePoint): seq<int> {
    if c < 0x1_0000 then [c]
    else [0xD800 + (c - 0x1_0000) / 0x400, 0xDC00 + (c - 0x1_0000) % 0x400]
  }

  function Units(t: Text): seq<int> {
    if t == [] then [] else CodeUnits(t[0]) + Units(t[1..])
  }

  function BigEndian(units: seq<int>): seq<int> {
    if units == [] then [] else [units[0] / 256, units[0] % 256] + BigEndian(units[1..])
  }

  // `t.encode('utf-16-be')`, which fails on surrogates.
  function Encode(t: Text): seq<int>
    requires SurrogateFree(t)
  {
    BigEndian(Units(t))
  }

  predicate AreUnits(u: seq<int>) {
    forall i :: 0 <= i < |u| ==> 0 <= u[i] < 0x1_0000
  }

  lemma {:induction false} UnitsOfText(t: Text)
    ensures AreUnits(Units(t))
  {
    if t != [] {
      UnitsOfText(t[1..]);
    }
  }

  // RFC 2781 section 2.2: what code units stand for. A unit that is no surrogate is the character; a high
  // surrogate and a low one hold ten bits each of what the character exceeds 0x10000 by.
  function Characters(u: seq<int>): Option<Text> {
    if u == [] then Some([])
    else if 0 <= u[0] < 0xD800 || 0xE000 <= u[0] < 0x1_0000 then
      var others := Characters(u[1..]);
      if others.None? then None else Some([u[0]] + others.value)
    else if 0xD800 <= u[0] < 0xDC00 && |u| > 1 && 0xDC00 <= u[1] < 0xE000 then
      var others := Characters(u[2..]);
      if others.None? then None
      else Some([0x1_0000 + (u[0] - 0xD800) * 0x400 + (u[1] - 0xDC00)] + others.value)
    else None
  }

  lemma {:induction false} UnitsReadBack(t: Text)
    requires SurrogateFree(t)
    ensures Characters(Units(t)) == Some(t)
  {
    if t != [] {
      assert !IsSurrogate(t[0]) && SurrogateFree(t[1..]);
      UnitsReadBack(t[1..]);
      var u := CodeUnits(t[0]);
      assert (u + Units(t[1..]))[|u|..] == Units(t[1..]);
      assert t == [t[0]] + t[1..];
      hide Units;
    }
  }

  // The big-endian bytes: two for each unit, the higher eight bits first.
  lemma {:induction false} BytesOfUnits(u: seq<int>, i: nat)
    requires AreUnits(u) && i < |u|
    ensures var b := BigEndian(u);
      && |b| == 2 * |u| && 0 <= b[2 * i] < 256 && 0 <= b[2 * i + 1] < 256
      && u[i] == 256 * b[2 * i] + b[2 * i + 1]
  {
    HeadBytes(u);
    var rest := BigEndian(u[1..]);
    assert BigEndian(u) == [u[0] / 256, u[0] % 256] + rest;
    if i > 0 {
      BytesOfUnits(u[1..], i - 1);
    } else if |u| > 1 {
      BytesOfUnits(u[1..], 0);
    } else {
      assert rest == [];
    }
    hide BigEndian;
  }

  lemma {:induction false} UnitsDetermineText(a: Text, b: Text)
    requires SurrogateFree(a) && SurrogateFree(b) && Units(a) == Units(b)
    ensures a == b
  {
    if a == [] || b == [] {
      assert a == [] && b == [];
    } else {
      var u, v := CodeUnits(a[0]), CodeUnits(b[0]);
      assert Units(a)[0] == u[0] && Units(b)[0] == v[0];
      assert |u| == |v|;
      if |u| == 2 {
        assert Units(a)[1] == u[1] && Units(b)[1] == v[1];
        SamePair(a[0], b[0]);
      }
      assert a[0] == b[0];
      assert Units(a)[|u|..] == Units(a[1..]) && Units(b)[|u|..] == Units(b[1..]);
      UnitsDetermineText(a[1..], b[1..]);
      assert a == [a[0]] + a[1..] && b == [b[0]] + b[1..];
    }
  }

  lemma SamePair(c: CodePoint, d: CodePoint)
    requires c >= 0x1_0000 && d >= 0x1_0000 && CodeUnits(c) == CodeUnits(d)
    ensures c == d
  {
    assert CodeUnits(c)[0] == CodeUnits(d)[0] && CodeUnits(c)[1] == CodeUnits(d)[1];
  }

  // Comparing big-endian bytes is comparing code units.
  lemma {:induction false} BytewiseIsUnitwise(u: seq<int>, v: seq<int>)
    requires AreUnits(u) && AreUnits(v)
    ensures Below(BigEndian(u), BigEndian(v)) <==> Below(u, v)
    ensures BigEndian(u) == BigEndian(v) <==> u == v
  {
    if u == [] || v == [] {
    } else {
      BytewiseIsUnitwise(u[1..], v[1..]);
      HeadBytes(u);
      HeadBytes(v);
      assert u == [u[0]] + u[1..] && v == [v[0]] + v[1..];
      hide BigEndian;
    }
  }

  lemma TwoFirst(high: int, low: int, rest: seq<int>)
    ensures var x := [high, low] + rest;
      && |x| >= 2 && x[0] == high && x[1] == low && x[1..][0] == low
      && x[1..][1..] == rest && x == [high] + ([low] + rest)
  {
  }

  lemma HeadBytes(u: seq<int>)
    requires u != [] && AreUnits(u)
    ensures var x := BigEndian(u);
      && |x| >= 2 && x[0] == u[0] / 256 && x[1] == u[0] % 256 && x[1..][0] == x[1]
      && x[1..][1..] == BigEndian(u[1..]) && x == [u[0] / 256] + ([u[0] % 256] + BigEndian(u[1..]))
  {
    TwoFirst(u[0] / 256, u[0] % 256, BigEndian(u[1..]));
  }

  // The key the code sorts by is injective, and orders keys by UTF-16 code unit.
  lemma EncodingOrders(a: Text, b: Text)
    requires SurrogateFree(a) && SurrogateFree(b)
    ensures Encode(a) == Encode(b) <==> a == b
    ensures Below(Encode(a), Encode(b)) <==> Below(Units(a), Units(b))
  {
    UnitsOfText(a);
    UnitsOfText(b);
    BytewiseIsUnitwise(Units(a), Units(b));
    if Encode(a) == Encode(b) {
      UnitsDetermineText(a, b);
    }
  }

  // Code point order differs: U+1F600 comes after U+FB33, but its first code unit is smaller.
  lemma CodePointOrderDiffers()
    ensures var a: Text, b: Text := [0xFB33], [0x1_F600];
      SurrogateFree(a) && SurrogateFree(b) && Below(a, b) && Below(Encode(b), Encode(a)) && !Below(Encode(a), Encode(b))
  {
    var a: Text, b: Text := [0xFB33], [0x1_F600];
    EncodingOrders(a, b);
    EncodingOrders(b, a);
    assert a[1..] == [] && b[1..] == [];
    assert Units(a)[0] == 0xFB33 && Units(b)[0] == 0xD83D;
  }
}
