// The canonicalizer of src/a2a/utils/_jcs.py:66-122: a recursive writer that appends to a
// buffer, and the final check that the text is valid Unicode.

module JcsWriter {
  import opened Texts
  import opened Options
  import opened JcsNumbers
  import opened JcsDecimals
  import opened JcsStrings
  import opened Sorting
  import opened Json

  function Concat(pieces: seq<Text>): Text {
    if pieces == [] then [] else Concat(pieces[..|pieces| - 1]) + pieces[|pieces| - 1]
  }

  class TextBuffer {
    var pieces: seq<Text>

    ghost function Joined(): Text
      reads this
    {
      Concat(pieces)
    }

    constructor ()
      ensures Joined() == []
    {
      pieces := [];
    }

    method Append(t: Text)
      modifies this
      ensures Joined() == old(Joined()) + t
    {
      pieces := pieces + [t];
      assert pieces[..|pieces| - 1] == old(pieces);
    }
  }

  // ----- Scalars ---------------------------------------------------------------------------------

  method FormatScalar(j: Json) returns (r: Option<Text>)
    requires !j.Array? && !j.Dict?
    ensures r == if Formable(j) then Some(Print(Normal(j))) else None
    ensures match j
            case Null => r == Some([110, 117, 108, 108])
            case Bool(b) => r == Some(if b then [116, 114, 117, 101] else [102, 97, 108, 115, 101])
            case Int(n) => r.Some? <==> -9007199254740991 <= n <= 9007199254740991
            case Float(x) => r.Some? <==> !x.NotANumber? && !x.Infinity?
            case Str(t) => r.Some? && r.value != [] && r.value[0] == 34 && ReadChars(r.value[1..]) == Read(t, [])
            case _ => true
  {
    match j {
      case Null => return Some(NULL_TEXT);
      case Bool(b) => return Some(if b then TRUE_TEXT else FALSE_TEXT);
      case Int(n) =>
        if !SafeInt(n) {
          return None;
        }
        IntWrittenAsDecimal(n);
        return Some(IntText(n));
      case Float(x) =>
        r := FormatNumber(x);
        EcmaIsDecimal(x);
      case Str(t) =>
        ReadQuoted(t, []);
        assert Quote(t)[1..] == Escaped(t) + [QUOTE] + [];
        return Some(Quote(t));
      case Other => return None;
    }
  }

  lemma EcmaIsDecimal(x: Double)
    ensures EcmaNumber(x) == if FiniteNumber(x) then Some(WriteDecimal(OfNumber(x))) else None
  {
    hide EcmaDigits;
  }

  // ----- Object members in key order ----------------------------------------------------------------

  predicate EncodableKeys(ms: seq<Member>) {
    forall i :: 0 <= i < |ms| ==> ms[i].key.Name? && SurrogateFree(ms[i].key.text)
  }

  // `_sorted_items`: encoding a key fails if it is not a string, or not valid Unicode.
  function SortedItems(ms: seq<Member>): Option<seq<Member>> {
    if EncodableKeys(ms) then Some(Sorted(ms, MemberKey)) else None
  }

  // ----- The depth bound -----------------------------------------------------------------------------

  // What the writer accepts at a depth.
  predicate Writable(j: Json, depth: nat) {
    depth + Height(j) <= 128 && Formable(j)
  }

  lemma WritableArray(tuple: bool, items: seq<Json>, depth: nat)
    ensures Writable(Array(tuple, items), depth)
       <==> depth <= MAX_DEPTH && forall i :: 0 <= i < |items| ==> Writable(items[i], depth + 1)
  {
    hide Formable;
    var heights := seq(|items|, i requires 0 <= i < |items| => Height(items[i]));
    assert Height(Array(tuple, items)) == Deepest(heights);
    FormableArray(tuple, items);
    assert forall i :: 0 <= i < |items| ==> heights[i] == Height(items[i]);
    hide Height;
  }

  lemma FormableArray(tuple: bool, items: seq<Json>)
    ensures Formable(Array(tuple, items)) <==> forall i :: 0 <= i < |items| ==> Formable(items[i])
  {
  }

  lemma WritableDict(ms: seq<Member>, depth: nat)
    ensures Writable(Dict(ms), depth)
       <==> depth <= MAX_DEPTH && EncodableKeys(ms) && AllWritable(ms, depth + 1)
  {
    hide Formable;
    var heights := seq(|ms|, i requires 0 <= i < |ms| => Height(ms[i].value));
    assert Height(Dict(ms)) == Deepest(heights);
    FormableDict(ms);
    assert forall i :: 0 <= i < |ms| ==> heights[i] == Height(ms[i].value);
    hide Height;
  }

  lemma FormableDict(ms: seq<Member>)
    ensures Formable(Dict(ms)) <==> EncodableKeys(ms) && forall i :: 0 <= i < |ms| ==> Formable(ms[i].value)
  {
  }

  // ----- The writer ------------------------------------------------------------------------------------

  function NormalItems(items: seq<Json>): (ns: seq<Norm>)
    ensures |ns| == |items| && forall i :: 0 <= i < |items| ==> ns[i] == Normal(items[i])
  {
    seq(|items|, i requires 0 <= i < |items| => Normal(items[i]))
  }

  lemma NormalOfArray(tuple: bool, items: seq<Json>)
    ensures Normal(Array(tuple, items)) == NArr(NormalItems(items))
  {
    assert NormalItems(items) == seq(|items|, i requires 0 <= i < |items| => Normal(items[i]));
  }

  // `_write`
  method Write(j: Json, out: TextBuffer, depth: nat) returns (ok: bool)
    modifies out
    ensures ok <==> Writable(j, depth)
    ensures ok ==> out.Joined() == old(out.Joined()) + Print(Normal(j))
    decreases j, 1
  {
    hide Normal, Print, Height, Formable, Concat;
    if depth > MAX_DEPTH {
      return false;
    }
    match j {
      case Array(tuple, items) =>
        WritableArray(tuple, items, depth);
        NormalOfArray(tuple, items);
        PrintOfArray(NormalItems(items));
        ok := WriteItems(items, out, depth);
      case Dict(ms) =>
        WritableDict(ms, depth);
        NormalOfDict(ms);
        SortCommutes(ms);
        PrintOfObject(Sorted(NormalFields(ms), FieldKey));
        ok := WriteMembers(ms, out, depth);
      case _ =>
        var text := FormatScalar(j);
        ScalarIsFlat(j);
        if text.None? {
          return false;
        }
        out.Append(text.value);
        return true;
    }
  }

  lemma ScalarIsFlat(j: Json)
    requires !j.Array? && !j.Dict?
    ensures Height(j) == 0
  {
  }

  method WriteItems(items: seq<Json>, out: TextBuffer, depth: nat) returns (ok: bool)
    modifies out
    ensures ok <==> forall i :: 0 <= i < |items| ==> Writable(items[i], depth + 1)
    ensures ok ==> out.Joined() == old(out.Joined())
                   + ([OPEN_BRACKET] + CommaJoined(ItemTexts(NormalItems(items))) + [CLOSE_BRACKET])
    decreases items, 0
  {
    hide *;
    ghost var start := out.Joined();
    ghost var texts := ItemTexts(NormalItems(items));
    out.Append([OPEN_BRACKET]);
    assert start + [OPEN_BRACKET] == start + [OPEN_BRACKET] + CommaJoined(texts[..0]) by { JoinNone(texts[..0]); }
    for i := 0 to |items|
      invariant forall k :: 0 <= k < i ==> Writable(items[k], depth + 1)
      invariant out.Joined() == start + [OPEN_BRACKET] + CommaJoined(texts[..i])
    {
      if i > 0 {
        out.Append([COMMA]);
      }
      ok := Write(items[i], out, depth + 1);
      if !ok {
        return false;
      }
      JoinNext(start + [OPEN_BRACKET], texts, i);
    }
    assert texts[..|items|] == texts;
    out.Append([CLOSE_BRACKET]);
    assert out.Joined() == start + [OPEN_BRACKET] + CommaJoined(texts) + [CLOSE_BRACKET];
    return true;
  }

  lemma JoinNone(texts: seq<Text>)
    requires texts == []
    ensures CommaJoined(texts) == []
  {
  }

  // One more text, after a comma unless it is the first.
  lemma JoinNext(start: Text, texts: seq<Text>, i: nat)
    requires i < |texts|
    ensures i == 0 ==> start + CommaJoined(texts[..i]) + texts[i] == start + CommaJoined(texts[..i + 1])
    ensures i > 0 ==> start + CommaJoined(texts[..i]) + [COMMA] + texts[i] == start + CommaJoined(texts[..i + 1])
  {
    JoinOneMore(texts[..i], texts[i]);
    hide CommaJoined;
    assert texts[..i + 1] == texts[..i] + [texts[i]];
  }

  predicate AllWritable(ms: seq<Member>, depth: nat) {
    forall i :: 0 <= i < |ms| ==> Writable(ms[i].value, depth)
  }

  method WriteMembers(ms: seq<Member>, out: TextBuffer, depth: nat) returns (ok: bool)
    modifies out
    ensures ok <==> EncodableKeys(ms) && AllWritable(ms, depth + 1)
    ensures ok ==> out.Joined() == old(out.Joined())
                   + ([OPEN_BRACE] + CommaJoined(FieldTexts(NormalFields(Sorted(ms, MemberKey)))) + [CLOSE_BRACE])
    decreases ms, 0
  {
    hide Sorted, FieldTexts, NormalFields, TextBuffer.Joined, EncodableKeys, AllWritable, CommaJoined;
    out.Append([OPEN_BRACE]);
    var items := SortedItems(ms);
    if items.None? {
      return false;
    }
    var sorted := items.value;
    AllWritableSorted(ms, depth + 1);
    hide *;
    ghost var texts := FieldTexts(NormalFields(sorted));
    ghost var start := out.Joined();
    assert start == start + CommaJoined(texts[..0]) by { JoinNone(texts[..0]); }
    for i := 0 to |sorted|
      invariant AllWritable(sorted[..i], depth + 1)
      invariant out.Joined() == start + CommaJoined(texts[..i])
    {
      if i > 0 {
        out.Append([COMMA]);
      }
      ghost var k := SortedElement(ms, i);
      ok := WriteMember(sorted[i], out, depth);
      OneMoreWritable(sorted, i, depth + 1);
      if !ok {
        return false;
      }
      FieldTextOf(sorted, i);
      JoinNext(start, texts, i);
    }
    assert texts[..|sorted|] == texts && sorted[..|sorted|] == sorted;
    out.Append([CLOSE_BRACE]);
    return true;
  }

  method WriteMember(m: Member, out: TextBuffer, depth: nat) returns (ok: bool)
    modifies out
    ensures ok <==> Writable(m.value, depth + 1)
    ensures ok ==> out.Joined() == old(out.Joined()) + (Quote(NameOf(m.key)) + [COLON] + Print(Normal(m.value)))
    decreases m
  {
    hide *;
    out.Append(Quote(NameOf(m.key)));
    out.Append([COLON]);
    ok := Write(m.value, out, depth + 1);
  }

  lemma OneMoreWritable(ms: seq<Member>, i: nat, depth: nat)
    requires i < |ms| && AllWritable(ms[..i], depth)
    ensures AllWritable(ms[..i + 1], depth) <==> Writable(ms[i].value, depth)
    ensures AllWritable(ms, depth) ==> Writable(ms[i].value, depth)
  {
    hide Writable;
    assert ms[..i + 1] == ms[..i] + [ms[i]];
  }

  lemma SortedElement(ms: seq<Member>, i: nat) returns (k: nat)
    requires i < |Sorted(ms, MemberKey)|
    ensures k < |ms| && ms[k] == Sorted(ms, MemberKey)[i]
  {
    SortedIsPermutation(ms, MemberKey);
    hide *;
    var m := Sorted(ms, MemberKey)[i];
    assert m in Sorted(ms, MemberKey);
    assert m in multiset(ms);
    k :| 0 <= k < |ms| && ms[k] == m;
  }

  lemma AllWritableSorted(ms: seq<Member>, depth: nat)
    ensures AllWritable(Sorted(ms, MemberKey), depth) <==> AllWritable(ms, depth)
    ensures AllWritable(Sorted(ms, MemberKey)[..0], depth)
  {
    SortedKeepsMembers(ms);
    hide Sorted, Writable;
    var sorted := Sorted(ms, MemberKey);
    assert forall i :: 0 <= i < |ms| ==> ms[i] in sorted;
    assert forall i :: 0 <= i < |ms| ==> sorted[i] in ms;
  }

  lemma FieldTextOf(sorted: seq<Member>, i: nat)
    requires i < |sorted|
    ensures FieldTexts(NormalFields(sorted))[i]
         == Quote(NameOf(sorted[i].key)) + [COLON] + Print(Normal(sorted[i].value))
  {
    hide Print, Normal, Quote;
  }

  lemma SortedKeepsMembers(ms: seq<Member>)
    ensures |Sorted(ms, MemberKey)| == |ms|
    ensures forall m :: m in Sorted(ms, MemberKey) <==> m in ms
  {
    SortedIsPermutation(ms, MemberKey);
    assert forall m :: m in Sorted(ms, MemberKey) <==> m in multiset(Sorted(ms, MemberKey));
    assert forall m :: m in ms <==> m in multiset(ms);
  }

  // ----- Valid Unicode ---------------------------------------------------------------------------------

  predicate ValidText(n: Norm) {
    match n
    case NStr(t) => SurrogateFree(t)
    case NArr(items) => forall i :: 0 <= i < |items| ==> ValidText(items[i])
    case NObj(fields) => forall i :: 0 <= i < |fields| ==> SurrogateFree(fields[i].name) && ValidText(fields[i].value)
    case _ => true
  }

  lemma {:induction false} JoinedIsValid(parts: seq<Text>)
    ensures SurrogateFree(CommaJoined(parts)) <==> forall i :: 0 <= i < |parts| ==> SurrogateFree(parts[i])
  {
    hide SurrogateFree;
    if |parts| > 1 {
      JoinedIsValid(parts[1..]);
      SurrogateFreeParts(parts[0] + [COMMA], CommaJoined(parts[1..]));
      SurrogateFreeParts(parts[0], [COMMA]);
      AsciiIsValid([COMMA]);
      assert parts == [parts[0]] + parts[1..];
    } else {
      AsciiIsValid([]);
    }
  }

  lemma AsciiIsValid(t: Text)
    requires forall i :: 0 <= i < |t| ==> t[i] < 0x80
    ensures SurrogateFree(t)
  {
  }

  lemma Bracketed(open: CodePoint, t: Text, close: CodePoint)
    requires open < 0x80 && close < 0x80
    ensures SurrogateFree([open] + t + [close]) <==> SurrogateFree(t)
  {
    SurrogateFreeParts([open] + t, [close]);
    SurrogateFreeParts([open], t);
    AsciiIsValid([open]);
    AsciiIsValid([close]);
  }

  lemma QuotedIsValid(t: Text)
    ensures SurrogateFree(Quote(t)) <==> SurrogateFree(t)
  {
    hide SurrogateFree, Escaped;
    EscapedIsClean(t);
    Bracketed(QUOTE, Escaped(t), QUOTE);
  }

  lemma {:induction false} PrintIsValid(n: Norm)
    ensures SurrogateFree(Print(n)) <==> ValidText(n)
    decreases n
  {
    hide SurrogateFree, CommaJoined, Quote;
    match n {
      case NNum(x) =>
        ReadWritten(x);
        AsciiIsValid(WriteDecimal(x));
      case NStr(t) => QuotedIsValid(t);
      case NArr(items) =>
        PrintOfArray(items);
        var texts := ItemTexts(items);
        Bracketed(OPEN_BRACKET, CommaJoined(texts), CLOSE_BRACKET);
        JoinedIsValid(texts);
        forall i | 0 <= i < |items| ensures SurrogateFree(texts[i]) <==> ValidText(items[i]) {
          PrintIsValid(items[i]);
        }
      case NObj(fields) =>
        PrintOfObject(fields);
        var texts := FieldTexts(fields);
        Bracketed(OPEN_BRACE, CommaJoined(texts), CLOSE_BRACE);
        JoinedIsValid(texts);
        forall i | 0 <= i < |fields|
          ensures SurrogateFree(texts[i]) <==> SurrogateFree(fields[i].name) && ValidText(fields[i].value)
        {
          PrintIsValid(fields[i].value);
          FieldIsValid(fields[i]);
        }
      case _ => AsciiIsValid(Print(n));
    }
  }

  lemma FieldIsValid(f: Field)
    ensures SurrogateFree(FieldText(f)) <==> SurrogateFree(f.name) && SurrogateFree(Print(f.value))
  {
    hide SurrogateFree, Print, Quote;
    SurrogateFreeParts(Quote(f.name) + [COLON], Print(f.value));
    SurrogateFreeParts(Quote(f.name), [COLON]);
    AsciiIsValid([COLON]);
    QuotedIsValid(f.name);
  }

  // For what the writer accepts, the text is valid Unicode exactly when every string is.
  lemma {:induction false} NormalIsValid(j: Json)
    requires Formable(j)
    ensures ValidText(Normal(j)) <==> HasCanonicalForm(j)
    decreases j
  {
    hide SurrogateFree;
    match j {
      case Array(tuple, items) =>
        NormalOfArray(tuple, items);
        forall i | 0 <= i < |items| ensures ValidText(Normal(items[i])) <==> HasCanonicalForm(items[i]) {
          NormalIsValid(items[i]);
        }
      case Dict(ms) =>
        forall i | 0 <= i < |ms| ensures ValidText(Normal(ms[i].value)) <==> HasCanonicalForm(ms[i].value) {
          NormalIsValid(ms[i].value);
        }
        DictIsValid(ms);
      case _ =>
    }
  }

  lemma DictIsValid(ms: seq<Member>)
    requires EncodableKeys(ms)
    ensures ValidText(Normal(Dict(ms))) <==> forall i :: 0 <= i < |ms| ==> ValidText(Normal(ms[i].value))
  {
    NormalOfDict(ms);
    var fields, sorted := NormalFields(ms), Sorted(NormalFields(ms), FieldKey);
    SortedIsPermutation(fields, FieldKey);
    hide Normal, Sorted, SurrogateFree;
    forall f ensures f in sorted <==> f in fields {
      assert f in multiset(sorted) <==> f in multiset(fields);
    }
    assert forall i :: 0 <= i < |ms| ==> fields[i] in sorted;
    assert forall i :: 0 <= i < |ms| ==> sorted[i] in fields;
  }

  lemma {:induction false} CanonicalIsFormable(j: Json)
    requires HasCanonicalForm(j)
    ensures Formable(j)
  {
    match j {
      case Array(_, items) =>
        forall i | 0 <= i < |items| ensures Formable(items[i]) { CanonicalIsFormable(items[i]); }
      case Dict(ms) =>
        forall i | 0 <= i < |ms| ensures Formable(ms[i].value) { CanonicalIsFormable(ms[i].value); }
      case _ =>
    }
  }

  // `canonicalize`
  method Canonicalize(j: Json) returns (r: Option<Text>)
    ensures r == CanonicalText(j)
    ensures r.Some? <==> Height(j) <= 128 && HasCanonicalForm(j)
  {
    var out := new TextBuffer();
    var written := Write(j, out, 0);
    ghost var text := Print(Normal(j));
    if HasCanonicalForm(j) {
      CanonicalIsFormable(j);
    }
    if !written {
      return None;
    }
    NormalIsValid(j);
    PrintIsValid(Normal(j));
    var canonical := Concat(out.pieces);
    assert [] + text == text;
    if !SurrogateFree(canonical) {
      return None;
    }
    return Some(canonical);
  }
}
