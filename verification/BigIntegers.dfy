// Large integers as strings: src/a2a/utils/proto_utils.py:94-151.

module BigIntegers {
  import opened Texts
  import opened Options
  import opened JcsNumbers
  import opened Json

  // CPython converts at most this many digits between int and str, and raises ValueError beyond.
  const MAX_STR_DIGITS := 4300

  // The Unicode database, as far as `str.isdigit` and `int` look at it: which characters are
  // digits, and which of them have a decimal value. Superscript two, for one, has none.
  datatype DigitTable = DigitTable(isDigit: CodePoint -> bool, decimal: CodePoint -> Option<nat>) {
    ghost predicate Valid() {
      && (forall c: CodePoint :: decimal(c).Some? ==> isDigit(c) && decimal(c).value < 10)
      && (forall c: CodePoint :: c < 0x80 ==> isDigit(c) == IsDigit(c))
      && (forall c: CodePoint :: IsDigit(c) ==> decimal(c) == Some(c - ZERO))
    }
  }

  // ----- Encoding -----------------------------------------------------------------------------------

  // "True"
  const TRUE_NAME: Text := [84, 114, 117, 101]

  // `str` of an integer
  function PyStr(n: int): Option<Text> {
    if |Numeral(Abs(n))| <= MAX_STR_DIGITS then Some(IntText(n)) else None
  }

  // `_normalize`; None is the ValueError. A bool is an int too, and True exceeds a limit of 0.
  function Normalized(v: Json, digits: nat): Option<Json>
    decreases v, 1
  {
    match v
    case Int(n) =>
      if Abs(n) > Pow10(digits) - 1 then
        var t := PyStr(n);
        if t.None? then None else Some(Str(t.value))
      else Some(v)
    case Bool(b) => Some(if b && 1 > Pow10(digits) - 1 then Str(TRUE_NAME) else v)
    case Dict(ms) => var r := NormalizedMembers(ms, digits); if r.None? then None else Some(Dict(r.value))
    case Array(_, items) => var r := NormalizedItems(items, digits); if r.None? then None
        else Some(Array(false, r.value))
    case _ => Some(v)
  }

  function NormalizedItems(items: seq<Json>, digits: nat): Option<seq<Json>>
    decreases items, 0
  {
    if items == [] then Some([]) else
    var first, others := Normalized(items[0], digits), NormalizedItems(items[1..], digits);
    if first.None? || others.None? then None else Some([first.value] + others.value)
  }

  function NormalizedMembers(ms: seq<Member>, digits: nat): Option<seq<Member>>
    decreases ms, 0
  {
    if ms == [] then Some([]) else
    assert ms[0].value < ms[0];
    var first, others := Normalized(ms[0].value, digits), NormalizedMembers(ms[1..], digits);
    if first.None? || others.None? then None else Some([Member(ms[0].key, first.value)] + others.value)
  }

  // ----- Decoding -----------------------------------------------------------------------------------

  // `value.lstrip('-')`
  function Unsigned(t: Text): (r: Text)
    ensures |r| <= |t|
  {
    if t != [] && t[0] == MINUS then Unsigned(t[1..]) else t
  }

  predicate AreDigits(t: Text, table: DigitTable) {
    t != [] && forall i :: 0 <= i < |t| ==> table.isDigit(t[i])
  }

  // What the decoder takes for an integer that was too long.
  predicate LooksLong(t: Text, digits: nat, table: DigitTable) {
    AreDigits(Unsigned(t), table) && |Unsigned(t)| > digits
  }

  function DecimalValue(t: Text, table: DigitTable): Option<nat> {
    if t == [] then Some(0)
    else
      var front, last := DecimalValue(t[..|t| - 1], table), table.decimal(t[|t| - 1]);
      if front.None? || last.None? then None else Some(10 * front.value + last.value)
  }

  // `int` of minus signs and digits: one sign at most, and every digit a decimal one.
  function PyInt(t: Text, table: DigitTable): Option<int> {
    var n := DecimalValue(Unsigned(t), table);
    if |t| - |Unsigned(t)| > 1 || |Unsigned(t)| > MAX_STR_DIGITS || n.None? then None
    else Some(if |Unsigned(t)| < |t| then 0 - (n.value as int) else n.value)
  }

  // `parse_string_integers_in_dict`; None is the ValueError.
  function Parsed(v: Json, digits: nat, table: DigitTable): Option<Json>
    decreases v, 1
  {
    match v
    case Dict(ms) => var r := ParsedMembers(ms, digits, table); if r.None? then None else Some(Dict(r.value))
    case Array(_, items) => var r := ParsedItems(items, digits, table); if r.None? then None
        else Some(Array(false, r.value))
    case Str(t) =>
      if LooksLong(t, digits, table) then
        var n := PyInt(t, table);
        if n.None? then None else Some(Int(n.value))
      else Some(v)
    case _ => Some(v)
  }

  function ParsedItems(items: seq<Json>, digits: nat, table: DigitTable): Option<seq<Json>>
    decreases items, 0
  {
    if items == [] then Some([]) else
    var first, others := Parsed(items[0], digits, table), ParsedItems(items[1..], digits, table);
    if first.None? || others.None? then None else Some([first.value] + others.value)
  }

  function ParsedMembers(ms: seq<Member>, digits: nat, table: DigitTable): Option<seq<Member>>
    decreases ms, 0
  {
    if ms == [] then Some([]) else
    assert ms[0].value < ms[0];
    var first, others := Parsed(ms[0].value, digits, table), ParsedMembers(ms[1..], digits, table);
    if first.None? || others.None? then None else Some([Member(ms[0].key, first.value)] + others.value)
  }

  // ----- Round trip ---------------------------------------------------------------------------------

  // The value with its tuples turned into lists: all a round trip can give back.
  function Listed(v: Json): Json
    decreases v, 1
  {
    match v
    case Dict(ms) => Dict(ListedMembers(ms))
    case Array(_, items) => Array(false, ListedItems(items))
    case _ => v
  }

  function ListedItems(items: seq<Json>): seq<Json>
    decreases items, 0
  {
    if items == [] then [] else [Listed(items[0])] + ListedItems(items[1..])
  }

  function ListedMembers(ms: seq<Member>): seq<Member>
    decreases ms, 0
  {
    if ms == [] then [] else
    assert ms[0].value < ms[0];
    [Member(ms[0].key, Listed(ms[0].value))] + ListedMembers(ms[1..])
  }

  function RoundTrip(v: Json, digits: nat, table: DigitTable): Option<Json> {
    var n := Normalized(v, digits);
    if n.None? then None else Parsed(n.value, digits, table)
  }

  // No string looks like an integer that was too long, no such integer is too long for `str`,
  // and with a limit of no digits there is no True.
  predicate Unambiguous(v: Json, digits: nat, table: DigitTable) {
    match v
    case Int(n) => |Numeral(Abs(n))| <= digits || |Numeral(Abs(n))| <= 4300
    case Bool(b) => b ==> digits >= 1
    case Str(t) => !LooksLong(t, digits, table)
    case Array(_, items) => forall i :: 0 <= i < |items| ==> Unambiguous(items[i], digits, table)
    case Dict(ms) => forall i :: 0 <= i < |ms| ==> Unambiguous(ms[i].value, digits, table)
    case _ => true
  }

  lemma {:induction false} AsciiDecimal(t: Text, table: DigitTable)
    requires table.Valid() && AllDigits(t)
    ensures DecimalValue(t, table) == Some(ValueOf(t))
    decreases |t|
  {
    if t != [] {
      AsciiDecimal(t[..|t| - 1], table);
    }
  }

  lemma UnsignedInt(n: int)
    ensures Unsigned(IntText(n)) == Numeral(Abs(n)) && |IntText(n)| == |Numeral(Abs(n))| + (if n < 0 then 1 else 0)
  {
    hide Numeral;
    var numeral := Numeral(Abs(n));
    assert IsDigit(numeral[0]);
    assert Unsigned(numeral) == numeral;
    assert n < 0 ==> ([MINUS] + numeral)[1..] == numeral;
  }

  lemma DigitsAreDigits(t: Text, table: DigitTable)
    requires table.Valid() && AllDigits(t) && t != []
    ensures AreDigits(t, table)
  {
    assert forall i :: 0 <= i < |t| ==> IsDigit(t[i]) && table.isDigit(t[i]);
  }

  // `str` of an integer looks long exactly when it has more digits than the limit, and reads back.
  lemma IntReadsBack(n: int, digits: nat, table: DigitTable)
    requires table.Valid()
    ensures LooksLong(IntText(n), digits, table) <==> |Numeral(Abs(n))| > digits
    ensures |Numeral(Abs(n))| <= 4300 ==> PyInt(IntText(n), table) == Some(n)
  {
    UnsignedInt(n);
    DigitsAreDigits(Numeral(Abs(n)), table);
    AsciiDecimal(Numeral(Abs(n)), table);
    ValueOfNumeral(Abs(n));
    hide Numeral, ValueOf, DecimalValue, IntText, Unsigned, AreDigits, DigitTable.Valid;
  }

  lemma UnsignedDigits(t: Text)
    requires t != [] && AllDigits(t)
    ensures Unsigned(t) == t && Unsigned([45] + t) == t && Unsigned([45, 45] + t) == t
  {
    assert IsDigit(t[0]);
    assert ([45] + t)[1..] == t && ([45, 45] + t)[1..] == [45] + t;
    assert Unsigned([45, 45] + t) == Unsigned([45] + t) == Unsigned(t);
  }

  lemma SignedDigits(u: Text, t: Text, n: nat, table: DigitTable)
    requires Unsigned(u) == t && DecimalValue(t, table) == Some(n)
    ensures PyInt(u, table) == if |u| - |t| > 1 || |t| > 4300 then None
                               else Some(if |t| < |u| then 0 - (n as int) else n)
  {
    hide Unsigned, DecimalValue;
  }

  // Any string of ASCII digits denotes what it spells, leading zeros or not; one minus sign (code point 45)
  // negates it, and a second one is an error, as is a string of more than 4300 digits.
  lemma DigitsDenoteInt(t: Text, table: DigitTable)
    requires table.Valid() && t != [] && AllDigits(t)
    ensures PyInt(t, table) == if |t| <= 4300 then Some(ValueOf(t)) else None
    ensures PyInt([45] + t, table) == if |t| <= 4300 then Some(0 - (ValueOf(t) as int)) else None
    ensures PyInt([45, 45] + t, table) == None
  {
    hide *;
    AsciiDecimal(t, table);
    UnsignedDigits(t);
    SignedDigits(t, t, ValueOf(t), table);
    SignedDigits([45] + t, t, ValueOf(t), table);
    SignedDigits([45, 45] + t, t, ValueOf(t), table);
  }

  lemma LimitIsLength(n: nat, digits: nat)
    ensures n > Pow10(digits) - 1 ==> |Numeral(n)| > digits
    ensures digits >= 1 || n > 0 ==> (n > Pow10(digits) - 1 <==> |Numeral(n)| > digits)
  {
    if digits >= 1 {
      NumeralLength(n, digits);
    }
  }

  lemma IntRoundTrip(n: int, digits: nat, table: DigitTable)
    requires table.Valid()
    ensures RoundTrip(Int(n), digits, table) == Some(Int(n)) <==> Unambiguous(Int(n), digits, table)
  {
    IntReadsBack(n, digits, table);
    LimitIsLength(Abs(n), digits);
    hide Numeral, PyInt, LooksLong, Pow10, IntText;
    assert Pow10(0) == 1 by { PowZero(); }
    if digits == 0 && n == 0 {
      assert |Numeral(0)| == 1;
    }
  }

  lemma PowZero()
    ensures Pow10(0) == 1
  {
  }

  lemma BoolRoundTrip(b: bool, digits: nat, table: DigitTable)
    requires table.Valid()
    ensures RoundTrip(Bool(b), digits, table) == Some(Bool(b)) <==> Unambiguous(Bool(b), digits, table)
  {
    assert digits >= 1 ==> Pow10(digits) >= 10;
    assert Unsigned(TRUE_NAME) == TRUE_NAME;
    assert !table.isDigit(TRUE_NAME[0]);
    assert !AreDigits(TRUE_NAME, table);
  }

  // For every value and every limit: encoding and decoding give the value back, its tuples as
  // lists, exactly when the value is unambiguous.
  lemma {:induction false} RoundTripsExactly(v: Json, digits: nat, table: DigitTable)
    requires table.Valid()
    ensures RoundTrip(v, digits, table) == Some(Listed(v)) <==> Unambiguous(v, digits, table)
    decreases v, 1
  {
    match v {
      case Int(n) => IntRoundTrip(n, digits, table);
      case Bool(b) => BoolRoundTrip(b, digits, table);
      case Dict(ms) => MembersRoundTrip(ms, digits, table);
      case Array(_, items) => ItemsRoundTrip(items, digits, table);
      case _ =>
    }
  }

  lemma {:induction false} ItemsRoundTrip(items: seq<Json>, digits: nat, table: DigitTable)
    requires table.Valid()
    ensures (NormalizedItems(items, digits).Some?
             && ParsedItems(NormalizedItems(items, digits).value, digits, table) == Some(ListedItems(items)))
       <==> forall i :: 0 <= i < |items| ==> Unambiguous(items[i], digits, table)
    decreases items, 0
  {
    if items != [] {
      RoundTripsExactly(items[0], digits, table);
      ItemsRoundTrip(items[1..], digits, table);
      assert items == [items[0]] + items[1..];
      hide Unambiguous, Normalized, Parsed, Listed;
      var first, others := Normalized(items[0], digits), NormalizedItems(items[1..], digits);
      if first.Some? && others.Some? {
        ParsedHead(first.value, others.value, digits, table);
        var a, b := Parsed(first.value, digits, table), ParsedItems(others.value, digits, table);
        if a.Some? && b.Some? {
          SameHeadAndTail(a.value, b.value, Listed(items[0]), ListedItems(items[1..]));
        }
      }
    }
  }

  lemma SameHeadAndTail<T>(x: T, s: seq<T>, y: T, t: seq<T>)
    ensures [x] + s == [y] + t <==> x == y && s == t
  {
    assert ([x] + s)[0] == x && ([y] + t)[0] == y;
    assert ([x] + s)[1..] == s && ([y] + t)[1..] == t;
  }

  lemma ParsedHead(first: Json, others: seq<Json>, digits: nat, table: DigitTable)
    ensures var r, a, b := ParsedItems([first] + others, digits, table), Parsed(first, digits, table),
        ParsedItems(others, digits, table);
      r == if a.None? || b.None? then None else Some([a.value] + b.value)
  {
    hide Parsed;
    assert ([first] + others)[1..] == others;
  }

  lemma {:induction false} MembersRoundTrip(ms: seq<Member>, digits: nat, table: DigitTable)
    requires table.Valid()
    ensures (NormalizedMembers(ms, digits).Some?
             && ParsedMembers(NormalizedMembers(ms, digits).value, digits, table) == Some(ListedMembers(ms)))
       <==> forall i :: 0 <= i < |ms| ==> Unambiguous(ms[i].value, digits, table)
    decreases ms, 0
  {
    if ms != [] {
      assert ms[0].value < ms[0];
      RoundTripsExactly(ms[0].value, digits, table);
      MembersRoundTrip(ms[1..], digits, table);
      assert ms == [ms[0]] + ms[1..];
      hide Unambiguous, Normalized, Parsed, Listed;
      var first, others := Normalized(ms[0].value, digits), NormalizedMembers(ms[1..], digits);
      if first.Some? && others.Some? {
        ParsedFirst(Member(ms[0].key, first.value), others.value, digits, table);
        var a, b := Parsed(first.value, digits, table), ParsedMembers(others.value, digits, table);
        if a.Some? && b.Some? {
          SameHeadAndTail(Member(ms[0].key, a.value), b.value, Member(ms[0].key, Listed(ms[0].value)),
              ListedMembers(ms[1..]));
        }
      }
    }
  }

  lemma ParsedFirst(first: Member, others: seq<Member>, digits: nat, table: DigitTable)
    ensures var r, a, b := ParsedMembers([first] + others, digits, table), Parsed(first.value, digits, table),
        ParsedMembers(others, digits, table);
      r == if a.None? || b.None? then None else Some([Member(first.key, a.value)] + b.value)
  {
    hide Parsed;
    assert ([first] + others)[1..] == others;
  }

  // ----- What encoding is for -------------------------------------------------------------------------

  // No integer above the limit anywhere.
  predicate Fits(v: Json, digits: nat) {
    match v
    case Int(n) => Abs(n) <= Pow10(digits) - 1
    case Array(_, items) => forall i :: 0 <= i < |items| ==> Fits(items[i], digits)
    case Dict(ms) => forall i :: 0 <= i < |ms| ==> Fits(ms[i].value, digits)
    case _ => true
  }

  // After encoding no integer exceeds the limit, and what had none, and no tuple, was left alone.
  lemma {:induction false} EncodedFits(v: Json, digits: nat)
    requires Normalized(v, digits).Some?
    ensures Fits(Normalized(v, digits).value, digits)
    ensures Fits(v, digits) && digits >= 1 ==> Normalized(v, digits).value == Listed(v)
    decreases v, 1
  {
    assert digits >= 1 ==> Pow10(digits) >= 10;
    match v {
      case Dict(ms) => EncodedMembersFit(ms, digits);
      case Array(_, items) => EncodedItemsFit(items, digits);
      case _ =>
    }
  }

  lemma {:induction false} EncodedItemsFit(items: seq<Json>, digits: nat)
    requires NormalizedItems(items, digits).Some?
    ensures forall x :: x in NormalizedItems(items, digits).value ==> Fits(x, digits)
    ensures (forall i :: 0 <= i < |items| ==> Fits(items[i], digits)) && digits >= 1
        ==> NormalizedItems(items, digits).value == ListedItems(items)
    decreases items, 0
  {
    if items != [] {
      EncodedFits(items[0], digits);
      EncodedItemsFit(items[1..], digits);
      hide Fits, Normalized, Listed, Pow10;
    }
  }

  lemma {:induction false} EncodedMembersFit(ms: seq<Member>, digits: nat)
    requires NormalizedMembers(ms, digits).Some?
    ensures forall m :: m in NormalizedMembers(ms, digits).value ==> Fits(m.value, digits)
    ensures (forall i :: 0 <= i < |ms| ==> Fits(ms[i].value, digits)) && digits >= 1
        ==> NormalizedMembers(ms, digits).value == ListedMembers(ms)
    decreases ms, 0
  {
    if ms != [] {
      assert ms[0].value < ms[0];
      EncodedFits(ms[0].value, digits);
      EncodedMembersFit(ms[1..], digits);
      hide Fits, Normalized, Listed, Pow10;
    }
  }
}
