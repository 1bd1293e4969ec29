// JSON values as Python holds them, their normal form, and the canonical text of the normal
// form (RFC 8785 section 3.2). Source: src/a2a/utils/_jcs.py:98-164.

module Json {
  import opened Texts
  import opened Options
  import opened JcsNumbers
  import opened JcsDecimals
  import opened JcsStrings
  import opened Sorting
  import opened Utf16

  type Double = x: Number | ValidNumber(x) witness Zero(false)

  // A dict lists its members in insertion order. Other stands for any value, and NotString for
  // any key, of a type JSON has no form for.
  datatype Json =
    | Null
    | Bool(b: bool)
    | Int(n: int)
    | Float(x: Double)
    | Str(text: Text)
    | Array(tuple: bool, items: seq<Json>)
    | Dict(members: seq<Member>)
    | Other

  datatype Member = Member(key: Key, value: Json)

  datatype Key = Name(text: Text) | NotString

  predicate DistinctNames(ms: seq<Member>) {
    forall i, j :: 0 <= i < j < |ms| && ms[i].key.Name? ==> ms[i].key != ms[j].key
  }

  // What holds of every Python value: no two members of a dict have the same name.
  predicate Proper(j: Json) {
    match j
    case Array(_, items) => forall i :: 0 <= i < |items| ==> Proper(items[i])
    case Dict(ms) => DistinctNames(ms) && forall i :: 0 <= i < |ms| ==> Proper(ms[i].value)
    case _ => true
  }

  function Max(a: nat, b: nat): nat {
    if a < b then b else a
  }

  function Deepest(heights: seq<nat>): (d: nat)
    ensures forall i :: 0 <= i < |heights| ==> heights[i] < d
    ensures d > 0 ==> exists i :: 0 <= i < |heights| && heights[i] == d - 1
  {
    if heights == [] then 0
    else
      var d := Deepest(heights[1..]);
      assert heights == [heights[0]] + heights[1..];
      assert d > Max(heights[0] + 1, 0) ==>
        exists i :: 0 <= i < |heights[1..]| && heights[1..][i] == d - 1 && heights[i + 1] == d - 1;
      Max(heights[0] + 1, d)
  }

  // The number of containers around the innermost value.
  function Height(j: Json): nat {
    match j
    case Array(_, items) => Deepest(seq(|items|, i requires 0 <= i < |items| => Height(items[i])))
    case Dict(ms) => Deepest(seq(|ms|, i requires 0 <= i < |ms| => Height(ms[i].value)))
    case _ => 0
  }

  lemma HeightOfArray(tuple: bool, items: seq<Json>, bound: nat)
    ensures Height(Array(tuple, items)) <= bound <==> forall i :: 0 <= i < |items| ==> Height(items[i]) < bound
  {
    var heights := seq(|items|, i requires 0 <= i < |items| => Height(items[i]));
    assert Height(Array(tuple, items)) == Deepest(heights);
    assert forall i :: 0 <= i < |items| ==> heights[i] == Height(items[i]);
    hide Height;
  }

  lemma HeightOfDict(ms: seq<Member>, bound: nat)
    ensures Height(Dict(ms)) <= bound <==> forall i :: 0 <= i < |ms| ==> Height(ms[i].value) < bound
  {
    var heights := seq(|ms|, i requires 0 <= i < |ms| => Height(ms[i].value));
    assert Height(Dict(ms)) == Deepest(heights);
    assert forall i :: 0 <= i < |ms| ==> heights[i] == Height(ms[i].value);
    hide Height;
  }

  // No value out of range and no key out of order; text is not looked at.
  predicate Formable(j: Json) {
    match j
    case Int(n) => SafeInt(n)
    case Float(x) => FiniteNumber(x)
    case Array(_, items) => forall i :: 0 <= i < |items| ==> Formable(items[i])
    case Dict(ms) =>
      forall i :: 0 <= i < |ms| ==> ms[i].key.Name? && SurrogateFree(ms[i].key.text) && Formable(ms[i].value)
    case Other => false
    case _ => true
  }

  // All integers safe, all floats finite, all keys strings, all text valid Unicode.
  predicate HasCanonicalForm(j: Json) {
    match j
    case Int(n) => SafeInt(n)
    case Float(x) => FiniteNumber(x)
    case Str(t) => SurrogateFree(t)
    case Array(_, items) => forall i :: 0 <= i < |items| ==> HasCanonicalForm(items[i])
    case Dict(ms) =>
      forall i :: 0 <= i < |ms| ==> ms[i].key.Name? && SurrogateFree(ms[i].key.text) && HasCanonicalForm(ms[i].value)
    case Other => false
    case _ => true
  }

  // ----- Normal form --------------------------------------------------------------------------------

  type LowestDecimal = x: Decimal | Lowest(x) witness Nought

  datatype Norm =
    | NNull
    | NBool(b: bool)
    | NNum(x: LowestDecimal)
    | NStr(text: Text)
    | NArr(items: seq<Norm>)
    | NObj(fields: seq<Field>)

  datatype Field = Field(name: Text, value: Norm)

  function NameOf(key: Key): Text {
    if key.Name? then key.text else []
  }

  function MemberKey(m: Member): seq<int> {
    BigEndian(Units(NameOf(m.key)))
  }

  function FieldKey(f: Field): seq<int> {
    BigEndian(Units(f.name))
  }

  function IntNorm(n: int): Norm {
    if SafeInt(n) then
      IntWrittenAsDecimal(n);
      NNum(OfInt(n))
    else NNull
  }

  // Members in key order, tuples as lists, numbers in lowest terms.
  function Normal(j: Json): Norm {
    match j
    case Null => NNull
    case Bool(b) => NBool(b)
    case Int(n) => IntNorm(n)
    case Float(x) => if FiniteNumber(x) then NNum(OfNumber(x)) else NNull
    case Str(t) => NStr(t)
    case Array(_, items) => NArr(seq(|items|, i requires 0 <= i < |items| => Normal(items[i])))
    case Dict(ms) =>
      NObj(Sorted(seq(|ms|, i requires 0 <= i < |ms| => Field(NameOf(ms[i].key), Normal(ms[i].value))), FieldKey))
    case Other => NNull
  }

  function NormalFields(ms: seq<Member>): (fs: seq<Field>)
    ensures |fs| == |ms|
    ensures forall i :: 0 <= i < |ms| ==> fs[i] == Field(NameOf(ms[i].key), Normal(ms[i].value))
  {
    seq(|ms|, i requires 0 <= i < |ms| => Field(NameOf(ms[i].key), Normal(ms[i].value)))
  }

  lemma NormalOfDict(ms: seq<Member>)
    ensures Normal(Dict(ms)) == NObj(Sorted(NormalFields(ms), FieldKey))
  {
    assert NormalFields(ms) == seq(|ms|, i requires 0 <= i < |ms| => Field(NameOf(ms[i].key), Normal(ms[i].value)));
  }

  // Sorting the members and then writing their values is writing the sorted fields.
  lemma {:induction false} InsertCommutes(m: Member, ms: seq<Member>)
    ensures NormalFields(Insert(m, ms, MemberKey)) == Insert(Field(NameOf(m.key), Normal(m.value)), NormalFields(ms),
        FieldKey)
  {
    hide Normal;
    if ms != [] {
      InsertCommutes(m, ms[1..]);
      assert NormalFields(ms)[1..] == NormalFields(ms[1..]);
      assert NormalFields([ms[0]] + Insert(m, ms[1..], MemberKey))
          == [NormalFields(ms)[0]] + NormalFields(Insert(m, ms[1..], MemberKey));
    }
  }

  lemma {:induction false} SortCommutes(ms: seq<Member>)
    ensures NormalFields(Sorted(ms, MemberKey)) == Sorted(NormalFields(ms), FieldKey)
  {
    hide Normal;
    if ms != [] {
      var front := ms[..|ms| - 1];
      SortCommutes(front);
      InsertCommutes(ms[|ms| - 1], Sorted(front, MemberKey));
      assert NormalFields(ms)[..|ms| - 1] == NormalFields(front);
    }
  }

  // ----- Canonical text ----------------------------------------------------------------------------------

  const NULL_TEXT: Text := [110, 117, 108, 108]
  const TRUE_TEXT: Text := [116, 114, 117, 101]
  const FALSE_TEXT: Text := [102, 97, 108, 115, 101]
  const COMMA: CodePoint := 44
  const COLON: CodePoint := 58
  const OPEN_BRACKET: CodePoint := 91
  const CLOSE_BRACKET: CodePoint := 93
  const OPEN_BRACE: CodePoint := 123
  const CLOSE_BRACE: CodePoint := 125

  function CommaJoined(parts: seq<Text>): Text {
    if parts == [] then []
    else if |parts| == 1 then parts[0]
    else parts[0] + [COMMA] + CommaJoined(parts[1..])
  }

  lemma {:induction false} JoinOneMore(parts: seq<Text>, last: Text)
    ensures CommaJoined(parts + [last]) == CommaJoined(parts) + (if parts == [] then [] else [COMMA]) + last
  {
    if |parts| >= 1 {
      JoinOneMore(parts[1..], last);
      assert (parts + [last])[1..] == parts[1..] + [last];
      assert |parts| == 1 ==> CommaJoined(parts[1..] + [last]) == last by {
        assert parts[1..] + [last] == [last] || |parts| > 1;
      }
    } else {
      assert parts + [last] == [last];
    }
  }

  function Print(n: Norm): Text {
    match n
    case NNull => NULL_TEXT
    case NBool(b) => if b then TRUE_TEXT else FALSE_TEXT
    case NNum(x) => WriteDecimal(x)
    case NStr(t) => Quote(t)
    case NArr(items) =>
      [OPEN_BRACKET] + CommaJoined(seq(|items|, i requires 0 <= i < |items| => Print(items[i]))) + [CLOSE_BRACKET]
    case NObj(fields) =>
      [OPEN_BRACE]
      + CommaJoined(seq(|fields|, i requires 0 <= i < |fields| =>
          Quote(fields[i].name) + [COLON] + Print(fields[i].value)))
      + [CLOSE_BRACE]
  }

  function ItemTexts(items: seq<Norm>): (ts: seq<Text>)
    ensures |ts| == |items| && forall i :: 0 <= i < |items| ==> ts[i] == Print(items[i])
  {
    seq(|items|, i requires 0 <= i < |items| => Print(items[i]))
  }

  function FieldText(f: Field): Text {
    Quote(f.name) + [COLON] + Print(f.value)
  }

  function FieldTexts(fields: seq<Field>): (ts: seq<Text>)
    ensures |ts| == |fields| && forall i :: 0 <= i < |fields| ==> ts[i] == FieldText(fields[i])
  {
    seq(|fields|, i requires 0 <= i < |fields| => FieldText(fields[i]))
  }

  lemma PrintOfArray(items: seq<Norm>)
    ensures Print(NArr(items)) == [OPEN_BRACKET] + CommaJoined(ItemTexts(items)) + [CLOSE_BRACKET]
  {
    assert ItemTexts(items) == seq(|items|, i requires 0 <= i < |items| => Print(items[i]));
  }

  lemma PrintOfObject(fields: seq<Field>)
    ensures Print(NObj(fields)) == [OPEN_BRACE] + CommaJoined(FieldTexts(fields)) + [CLOSE_BRACE]
  {
    assert FieldTexts(fields)
        == seq(|fields|, i requires 0 <= i < |fields| => Quote(fields[i].name) + [COLON] + Print(fields[i].value));
  }

  const MAX_DEPTH := 128

  // The canonical form of a value, if it has one.
  function CanonicalText(j: Json): Option<Text> {
    if Height(j) <= MAX_DEPTH && HasCanonicalForm(j) then Some(Print(Normal(j))) else None
  }
}
