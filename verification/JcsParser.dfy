// A JSON reader for the canonical text. It inverts the printer, so the text determines the
// normal form.

module JcsParser {
  import opened Texts
  import opened JcsDecimals
  import opened JcsStrings
  import opened Json

  function StartsWith(t: Text, prefix: Text): bool {
    |prefix| <= |t| && t[..|prefix|] == prefix
  }

  // The longest run of characters numbers are made of.
  function NumberSpan(t: Text): (n: nat)
    ensures n <= |t|
  {
    if t != [] && NumberChar(t[0]) then 1 + NumberSpan(t[1..]) else 0
  }

  function ParseNumber(t: Text): (r: Read<Norm>)
    ensures r.Read? ==> |r.rest| < |t|
  {
    var n := NumberSpan(t);
    var x := ReadNumber(t[..n]);
    if n > 0 && x.Some? && Lowest(x.value) then Read(NNum(x.value), t[n..]) else NoRead
  }

  // The grammar of RFC 8259 sections 2 to 5, every token by its code points: 34 is the quotation mark,
  // 44 the comma, 58 the colon, 91 and 93 the square brackets, 123 and 125 the curly ones.
  function ParseValue(t: Text): (r: Read<Norm>)
    ensures r.Read? ==> |r.rest| < |t|
    decreases |t|, 0
  {
    if t == [] then NoRead
    else if StartsWith(t, [110, 117, 108, 108]) then Read(NNull, t[4..])               // null
    else if StartsWith(t, [116, 114, 117, 101]) then Read(NBool(true), t[4..])         // true
    else if StartsWith(t, [102, 97, 108, 115, 101]) then Read(NBool(false), t[5..])   // false
    else if t[0] == 34 then
      var s := ReadChars(t[1..]);
      if s.NoRead? then NoRead else Read(NStr(s.item), s.rest)
    else if t[0] == 91 then
      if |t| > 1 && t[1] == 93 then Read(NArr([]), t[2..])
      else
        var r := ParseItems(t[1..]);
        if r.NoRead? then NoRead else Read(NArr(r.item), r.rest)
    else if t[0] == 123 then
      if |t| > 1 && t[1] == 125 then Read(NObj([]), t[2..])
      else
        var r := ParseFields(t[1..]);
        if r.NoRead? then NoRead else Read(NObj(r.item), r.rest)
    else ParseNumber(t)
  }

  // Values separated by commas, up to the closing bracket.
  function ParseItems(t: Text): (r: Read<seq<Norm>>)
    ensures r.Read? ==> |r.rest| < |t|
    decreases |t|, 1
  {
    var first := ParseValue(t);
    if first.NoRead? || first.rest == [] then NoRead
    else if first.rest[0] == 93 then Read([first.item], first.rest[1..])
    else if first.rest[0] != 44 then NoRead
    else
      var others := ParseItems(first.rest[1..]);
      if others.NoRead? then NoRead else Read([first.item] + others.item, others.rest)
  }

  function ParseField(t: Text): (r: Read<Field>)
    ensures r.Read? ==> |r.rest| < |t|
    decreases |t|, 1
  {
    if t == [] || t[0] != 34 then NoRead
    else
      var name := ReadChars(t[1..]);
      if name.NoRead? || name.rest == [] || name.rest[0] != 58 then NoRead
      else
        var value := ParseValue(name.rest[1..]);
        if value.NoRead? then NoRead else Read(Field(name.item, value.item), value.rest)
  }

  function ParseFields(t: Text): (r: Read<seq<Field>>)
    ensures r.Read? ==> |r.rest| < |t|
    decreases |t|, 2
  {
    var first := ParseField(t);
    if first.NoRead? || first.rest == [] then NoRead
    else if first.rest[0] == 125 then Read([first.item], first.rest[1..])
    else if first.rest[0] != 44 then NoRead
    else
      var others := ParseFields(first.rest[1..]);
      if others.NoRead? then NoRead else Read([first.item] + others.item, others.rest)
  }

  // ----- Reading what was printed --------------------------------------------------------------------

  // What may follow a value: not a continuation of a number.
  predicate Ends(rest: Text) {
    rest == [] || !NumberChar(rest[0])
  }

  lemma {:induction false} SpanOfNumber(x: Text, rest: Text)
    requires (forall i :: 0 <= i < |x| ==> NumberChar(x[i])) && Ends(rest)
    ensures NumberSpan(x + rest) == |x|
  {
    if x != [] {
      SpanOfNumber(x[1..], rest);
      assert (x + rest)[1..] == x[1..] + rest;
    } else {
      assert x + rest == rest;
    }
  }

  lemma ParseUnworded(t: Text)
    requires t != [] && (t[0] == MINUS || IsDigit(t[0]))
    ensures ParseValue(t) == ParseNumber(t)
  {
    NotAWord(t, NULL_TEXT);
    NotAWord(t, TRUE_TEXT);
    NotAWord(t, FALSE_TEXT);
    hide ParseNumber, ParseItems, ParseFields, ReadChars, StartsWith;
  }

  lemma ParseWrittenNumber(x: LowestDecimal, rest: Text)
    requires Ends(rest)
    ensures ParseValue(WriteDecimal(x) + rest) == Read(NNum(x), rest)
  {
    hide WriteDecimal, ReadNumber, ParseValue, NumberSpan;
    var w := WriteDecimal(x);
    ReadWritten(x);
    SpanOfNumber(w, rest);
    var t := w + rest;
    assert t[..|w|] == w && t[|w|..] == rest && t[0] == w[0];
    ParseUnworded(t);
  }

  lemma NotAWord(t: Text, word: Text)
    requires t != [] && word != [] && t[0] != word[0]
    ensures !StartsWith(t, word)
  {
    assert |word| <= |t| ==> t[..|word|][0] == t[0];
  }

  lemma ParseWord(n: Norm, rest: Text)
    requires n.NNull? || n.NBool?
    ensures ParseValue(Print(n) + rest) == Read(n, rest)
  {
    var w := Print(n);
    var t := w + rest;
    assert t[..|w|] == w && t[|w|..] == rest && t[0] == w[0];
    if w == NULL_TEXT {
    } else if w == TRUE_TEXT {
      NotAWord(t, NULL_TEXT);
    } else {
      NotAWord(t, NULL_TEXT);
      NotAWord(t, TRUE_TEXT);
    }
  }

  // What ParseValue does with a text that opens with a quote, a bracket or a brace.
  lemma ParseOpened(t: Text, inner: Text)
    requires t != [] && inner == t[1..]
    ensures t[0] == QUOTE ==>
      ParseValue(t) == var s := ReadChars(inner); if s.NoRead? then NoRead else Read(NStr(s.item), s.rest)
    ensures t[0] == OPEN_BRACKET && inner != [] && inner[0] == CLOSE_BRACKET
        ==> ParseValue(t) == Read(NArr([]), inner[1..])
    ensures t[0] == OPEN_BRACE && inner != [] && inner[0] == CLOSE_BRACE ==> ParseValue(t) == Read(NObj([]), inner[1..])
    ensures t[0] == OPEN_BRACKET && !(inner != [] && inner[0] == CLOSE_BRACKET) ==>
      ParseValue(t) == var r := ParseItems(inner); if r.NoRead? then NoRead else Read(NArr(r.item), r.rest)
    ensures t[0] == OPEN_BRACE && !(inner != [] && inner[0] == CLOSE_BRACE) ==>
      ParseValue(t) == var r := ParseFields(inner); if r.NoRead? then NoRead else Read(NObj(r.item), r.rest)
  {
    if t[0] == QUOTE || t[0] == OPEN_BRACKET || t[0] == OPEN_BRACE {
      NotAWord(t, NULL_TEXT);
      NotAWord(t, TRUE_TEXT);
      NotAWord(t, FALSE_TEXT);
      hide ParseItems, ParseFields, ReadChars, StartsWith;
      assert |t| > 1 ==> t[1] == inner[0] && t[2..] == inner[1..];
    }
  }

  // A printed value begins with neither closing bracket.
  lemma FirstOfPrinted(n: Norm)
    ensures Print(n) != [] && Print(n)[0] != CLOSE_BRACKET && Print(n)[0] != CLOSE_BRACE
  {
    if n.NNum? {
      hide WriteDecimal;
      ReadWritten(n.x);
    }
  }

  lemma {:induction false} ParsePrinted(n: Norm, rest: Text)
    requires Ends(rest)
    ensures ParseValue(Print(n) + rest) == Read(n, rest)
    decreases n
  {
    hide ParseValue, ParseItems, ParseFields, Print, ReadChars;
    match n {
      case NNull => ParseWord(n, rest);
      case NBool(_) => ParseWord(n, rest);
      case NNum(x) =>
        PrintOfNumber(x);
        ParseWrittenNumber(x, rest);
      case NStr(s) =>
        PrintOfString(s);
        ParseQuoted(s, rest);
      case NArr(items) =>
        PrintOfArray(items);
        if items != [] {
          ParsePrintedItems(items, 0, rest);
          FirstOfPrinted(items[0]);
        }
        ParsePrintedArray(items, rest);
      case NObj(fields) =>
        PrintOfObject(fields);
        if fields != [] {
          ParsePrintedFields(fields, 0, rest);
        }
        ParsePrintedObject(fields, rest);
    }
  }

  lemma PrintOfNumber(x: LowestDecimal)
    ensures Print(NNum(x)) == WriteDecimal(x)
  {
  }

  lemma PrintOfString(s: Text)
    ensures Print(NStr(s)) == Quote(s)
  {
  }

  lemma ParseQuoted(s: Text, rest: Text)
    ensures ParseValue(Quote(s) + rest) == Read(NStr(s), rest)
  {
    var t := Quote(s) + rest;
    var inner := Escaped(s) + [QUOTE] + rest;
    assert t == [QUOTE] + inner;
    ReadQuoted(s, rest);
    hide *;
    assert t[1..] == inner;
    ParseOpened(t, inner);
  }

  function ItemsText(items: seq<Norm>, from: nat, rest: Text): Text
    requires from <= |items|
  {
    CommaJoined(ItemTexts(items[from..])) + ([CLOSE_BRACKET] + rest)
  }

  function FieldsText(fields: seq<Field>, from: nat, rest: Text): Text
    requires from <= |fields|
  {
    CommaJoined(FieldTexts(fields[from..])) + ([CLOSE_BRACE] + rest)
  }

  lemma ParsePrintedArray(items: seq<Norm>, rest: Text)
    requires items != [] ==> ParseItems(ItemsText(items, 0, rest)) == Read(items, rest)
    requires items != [] ==> Print(items[0]) != [] && Print(items[0])[0] != CLOSE_BRACKET
    ensures ParseValue([OPEN_BRACKET] + CommaJoined(ItemTexts(items)) + [CLOSE_BRACKET] + rest)
        == Read(NArr(items), rest)
  {
    hide ParseValue, ParseItems, Print;
    var inner := ItemsText(items, 0, rest);
    assert items[0..] == items;
    var t := [OPEN_BRACKET] + CommaJoined(ItemTexts(items)) + [CLOSE_BRACKET] + rest;
    assert t == [OPEN_BRACKET] + inner;
    assert t[1..] == inner;
    ParseOpened(t, inner);
    if items == [] {
      assert inner == [CLOSE_BRACKET] + rest && inner[1..] == rest;
    } else {
      assert inner[0] == Print(items[0])[0];
    }
  }

  lemma ParsePrintedObject(fields: seq<Field>, rest: Text)
    requires fields != [] ==> ParseFields(FieldsText(fields, 0, rest)) == Read(fields, rest)
    ensures ParseValue([OPEN_BRACE] + CommaJoined(FieldTexts(fields)) + [CLOSE_BRACE] + rest)
        == Read(NObj(fields), rest)
  {
    hide ParseValue, ParseFields, Print;
    var inner := FieldsText(fields, 0, rest);
    assert fields[0..] == fields;
    var t := [OPEN_BRACE] + CommaJoined(FieldTexts(fields)) + [CLOSE_BRACE] + rest;
    assert t == [OPEN_BRACE] + inner;
    assert t[1..] == inner;
    ParseOpened(t, inner);
    if fields == [] {
      assert inner == [CLOSE_BRACE] + rest && inner[1..] == rest;
    } else {
      assert inner[0] == QUOTE;
    }
  }

  // Joined texts from one place on: the first, then a comma or the closing bracket.
  function ItemsTail(items: seq<Norm>, from: nat, rest: Text): Text
    requires from < |items|
  {
    if from + 1 == |items| then [CLOSE_BRACKET] + rest else [COMMA] + ItemsText(items, from + 1, rest)
  }

  function FieldsTail(fields: seq<Field>, from: nat, rest: Text): Text
    requires from < |fields|
  {
    if from + 1 == |fields| then [CLOSE_BRACE] + rest else [COMMA] + FieldsText(fields, from + 1, rest)
  }

  lemma JoinedFrom(parts: seq<Text>, after: Text)
    requires parts != []
    ensures |parts| == 1 ==> CommaJoined(parts) + after == parts[0] + after
    ensures |parts| > 1 ==> CommaJoined(parts) + after == parts[0] + ([COMMA] + (CommaJoined(parts[1..]) + after))
  {
    if |parts| > 1 {
      var more := CommaJoined(parts[1..]);
      assert CommaJoined(parts) == parts[0] + [COMMA] + more;
      hide CommaJoined;
    }
  }

  lemma ItemTextsFrom(items: seq<Norm>, from: nat)
    requires from < |items|
    ensures var parts := ItemTexts(items[from..]);
      |parts| == |items| - from && parts[0] == Print(items[from]) && parts[1..] == ItemTexts(items[from + 1..])
  {
    hide *;
    assert items[from] == items[from..][0];
    assert forall i :: from < i < |items| ==> items[from..][i - from] == items[i] == items[from + 1..][i - from - 1];
  }

  lemma FieldTextsFrom(fields: seq<Field>, from: nat)
    requires from < |fields|
    ensures var parts := FieldTexts(fields[from..]);
      |parts| == |fields| - from && parts[0] == FieldText(fields[from]) && parts[1..] == FieldTexts(fields[from + 1..])
  {
    hide *;
    assert fields[from] == fields[from..][0];
    assert forall i :: from < i < |fields| ==>
      fields[from..][i - from] == fields[i] == fields[from + 1..][i - from - 1];
  }

  lemma JoinedItems(items: seq<Norm>, from: nat, rest: Text)
    requires from < |items|
    ensures ItemsText(items, from, rest) == Print(items[from]) + ItemsTail(items, from, rest)
  {
    hide Print, ItemTexts, CommaJoined;
    ItemTextsFrom(items, from);
    JoinedFrom(ItemTexts(items[from..]), [CLOSE_BRACKET] + rest);
  }

  lemma JoinedFields(fields: seq<Field>, from: nat, rest: Text)
    requires from < |fields|
    ensures FieldsText(fields, from, rest) == FieldText(fields[from]) + FieldsTail(fields, from, rest)
  {
    hide FieldText, FieldTexts, CommaJoined;
    FieldTextsFrom(fields, from);
    JoinedFrom(FieldTexts(fields[from..]), [CLOSE_BRACE] + rest);
  }

  lemma ItemsTailShape(items: seq<Norm>, from: nat, rest: Text)
    requires from < |items|
    ensures var tail := ItemsTail(items, from, rest);
      && tail != [] && Ends(tail)
      && (from + 1 == |items| ==> tail[0] == CLOSE_BRACKET && tail[1..] == rest)
      && (from + 1 < |items| ==> tail[0] == COMMA && tail[1..] == ItemsText(items, from + 1, rest))
  {
    hide ItemsText;
  }

  lemma FieldsTailShape(fields: seq<Field>, from: nat, rest: Text)
    requires from < |fields|
    ensures var tail := FieldsTail(fields, from, rest);
      && tail != [] && Ends(tail)
      && (from + 1 == |fields| ==> tail[0] == CLOSE_BRACE && tail[1..] == rest)
      && (from + 1 < |fields| ==> tail[0] == COMMA && tail[1..] == FieldsText(fields, from + 1, rest))
  {
    hide FieldsText;
  }

  lemma Prepended<T>(s: seq<T>, from: nat)
    requires from < |s|
    ensures s[from..] == [s[from]] + s[from + 1..]
    ensures from + 1 == |s| ==> s[from..] == [s[from]]
  {
  }

  lemma ItemsStep(t: Text, v: Norm, tail: Text, others: seq<Norm>, rest: Text)
    requires ParseValue(t) == Read(v, tail) && tail != []
    ensures tail[0] == CLOSE_BRACKET ==> ParseItems(t) == Read([v], tail[1..])
    ensures tail[0] == COMMA && ParseItems(tail[1..]) == Read(others, rest)
        ==> ParseItems(t) == Read([v] + others, rest)
  {
    hide ParseValue;
  }

  lemma FieldsStep(t: Text, f: Field, tail: Text, others: seq<Field>, rest: Text)
    requires ParseField(t) == Read(f, tail) && tail != []
    ensures tail[0] == CLOSE_BRACE ==> ParseFields(t) == Read([f], tail[1..])
    ensures tail[0] == COMMA && ParseFields(tail[1..]) == Read(others, rest)
        ==> ParseFields(t) == Read([f] + others, rest)
  {
    hide ParseField;
  }

  lemma {:induction false} ParsePrintedItems(items: seq<Norm>, from: nat, rest: Text)
    requires from < |items|
    ensures ParseItems(ItemsText(items, from, rest)) == Read(items[from..], rest)
    decreases items, |items| - from
  {
    hide *;
    var tail := ItemsTail(items, from, rest);
    ItemsTailShape(items, from, rest);
    JoinedItems(items, from, rest);
    ParsePrinted(items[from], tail);
    if from + 1 < |items| {
      ParsePrintedItems(items, from + 1, rest);
    }
    ItemsStep(ItemsText(items, from, rest), items[from], tail, items[from + 1..], rest);
    Prepended(items, from);
  }

  lemma {:induction false} ParsePrintedFields(fields: seq<Field>, from: nat, rest: Text)
    requires from < |fields|
    ensures ParseFields(FieldsText(fields, from, rest)) == Read(fields[from..], rest)
    decreases fields, |fields| - from
  {
    hide *;
    var tail := FieldsTail(fields, from, rest);
    FieldsTailShape(fields, from, rest);
    JoinedFields(fields, from, rest);
    ParsePrinted(fields[from].value, tail);
    ParsePrintedField(fields[from], tail);
    if from + 1 < |fields| {
      ParsePrintedFields(fields, from + 1, rest);
    }
    FieldsStep(FieldsText(fields, from, rest), fields[from], tail, fields[from + 1..], rest);
    Prepended(fields, from);
  }

  lemma FieldTextOpened(f: Field, rest: Text)
    ensures var t, after := FieldText(f) + rest, [COLON] + (Print(f.value) + rest);
      t != [] && t[0] == QUOTE && t[1..] == Escaped(f.name) + [QUOTE] + after
  {
    hide Print, Escaped;
  }

  lemma ParsePrintedField(f: Field, rest: Text)
    requires ParseValue(Print(f.value) + rest) == Read(f.value, rest)
    ensures ParseField(FieldText(f) + rest) == Read(f, rest)
  {
    hide ParseValue, Print, ReadChars, FieldText, Escaped;
    var after := [COLON] + (Print(f.value) + rest);
    FieldTextOpened(f, rest);
    ReadQuoted(f.name, after);
    assert after[1..] == Print(f.value) + rest;
  }

  // The canonical text determines the normal form.
  lemma PrintIsInjective(a: Norm, b: Norm)
    requires Print(a) == Print(b)
    ensures a == b
  {
    hide *;
    assert Ends([]) by { EndsEmpty(); }
    ParsePrinted(a, []);
    ParsePrinted(b, []);
  }

  lemma EndsEmpty()
    ensures Ends([])
  {
  }
}
