// What the canonical text says of the value: two values have the same text exactly when they
// are the same JSON value. Source: src/a2a/utils/_jcs.py:66-122, 148-164.

module JcsIdentity {
  import opened Texts
  import opened JcsDecimals
  import opened Sorting
  import opened Utf16
  import opened Json
  import opened JcsParser

  predicate IsNumber(j: Json) {
    j.Int? || j.Float?
  }

  // The number a JSON number stands for; 0 for a float that is not finite.
  ghost function NumberValue(j: Json): real
    requires IsNumber(j)
  {
    if j.Int? then j.n as real
    else if FiniteNumber(j.x) then Value(OfNumber(j.x))
    else 0.0
  }

  // The same JSON value: equal up to the order of members, list against tuple, and the
  // spelling of numbers.
  ghost predicate SameJson(a: Json, b: Json)
    decreases a
  {
    match a
    case Null => b.Null?
    case Bool(x) => b == a
    case Int(_) => IsNumber(b) && NumberValue(a) == NumberValue(b)
    case Float(_) => IsNumber(b) && NumberValue(a) == NumberValue(b)
    case Str(_) => b == a
    case Array(_, items) =>
      b.Array? && |items| == |b.items| && forall i :: 0 <= i < |items| ==> SameJson(items[i], b.items[i])
    case Dict(ms) =>
      && b.Dict? && |ms| == |b.members|
      && forall i :: 0 <= i < |ms| ==>
        exists k :: 0 <= k < |b.members| && ms[i].key == b.members[k].key && SameJson(ms[i].value, b.members[k].value)
    case Other => b.Other?
  }

  lemma IntNumber(n: int)
    requires SafeInt(n)
    ensures Lowest(OfInt(n)) && Normal(Int(n)) == NNum(OfInt(n)) && Value(OfInt(n)) == NumberValue(Int(n))
  {
    OfIntValue(n);
    hide Value, OfInt;
  }

  lemma FloatNumber(x: Double)
    requires FiniteNumber(x)
    ensures Lowest(OfNumber(x)) && Normal(Float(x)) == NNum(OfNumber(x)) && Value(OfNumber(x)) == NumberValue(Float(x))
  {
    hide Value;
  }

  // Numbers have the same normal form exactly when they are numerically equal: 1 and 1.0, 0 and -0.0.
  lemma NumbersAgree(a: Json, b: Json)
    requires IsNumber(a) && IsNumber(b) && HasCanonicalForm(a) && HasCanonicalForm(b)
    ensures Normal(a) == Normal(b) <==> NumberValue(a) == NumberValue(b)
  {
    var x := if a.Int? then OfInt(a.n) else OfNumber(a.x);
    var y := if b.Int? then OfInt(b.n) else OfNumber(b.x);
    if a.Int? { IntNumber(a.n); } else { FloatNumber(a.x); }
    if b.Int? { IntNumber(b.n); } else { FloatNumber(b.x); }
    hide *;
    if NumberValue(a) == NumberValue(b) {
      LowestTermsUnique(x, y);
    }
  }

  lemma NumberIsNum(a: Json)
    requires IsNumber(a) && HasCanonicalForm(a)
    ensures Normal(a).NNum?
  {
    if a.Int? { IntNumber(a.n); } else { FloatNumber(a.x); }
  }

  lemma ShapeOfNormal(a: Json)
    requires HasCanonicalForm(a)
    ensures a.Null? <==> Normal(a).NNull?
    ensures a.Bool? <==> Normal(a).NBool?
    ensures IsNumber(a) <==> Normal(a).NNum?
    ensures a.Str? <==> Normal(a).NStr?
    ensures a.Array? <==> Normal(a).NArr?
    ensures a.Dict? <==> Normal(a).NObj?
  {
    if IsNumber(a) {
      NumberIsNum(a);
    }
    hide OfInt, OfNumber, Sorted;
  }

  // The keys the canonicalizer sorts by are distinct, since the names are.
  lemma KeysAreDistinct(ms: seq<Member>)
    requires DistinctNames(ms)
    requires forall i :: 0 <= i < |ms| ==> ms[i].key.Name? && SurrogateFree(ms[i].key.text)
    ensures DistinctKeys(NormalFields(ms), FieldKey)
  {
    var fields := NormalFields(ms);
    hide Normal, NormalFields, SurrogateFree, Units, BigEndian;
    forall i, j | 0 <= i < j < |fields| ensures FieldKey(fields[i]) != FieldKey(fields[j]) {
      assert ms[i].key != ms[j].key;
      EncodingOrders(ms[i].key.text, ms[j].key.text);
    }
  }

  // RFC 8785 section 3.2.3: the keys of an object come out strictly increasing by UTF-16 code unit.
  lemma KeysIncrease(ms: seq<Member>, i: nat, j: nat)
    requires Proper(Dict(ms)) && HasCanonicalForm(Dict(ms)) && i < j < |Normal(Dict(ms)).fields|
    ensures var fields := Normal(Dict(ms)).fields;
      Below(Units(fields[i].name), Units(fields[j].name))
  {
    NormalOfDict(ms);
    KeysAreDistinct(ms);
    var fields, sorted := NormalFields(ms), Sorted(NormalFields(ms), FieldKey);
    SortedAscends(fields, FieldKey);
    SortedIsPermutation(fields, FieldKey);
    NamesAreValid(ms);
    hide Normal, NormalFields, Sorted, SurrogateFree, Units, BigEndian;
    ElementOf(sorted, fields, sorted[i]);
    ElementOf(sorted, fields, sorted[j]);
    EncodingOrders(sorted[i].name, sorted[j].name);
  }

  lemma NamesAreValid(ms: seq<Member>)
    requires HasCanonicalForm(Dict(ms))
    ensures forall f :: f in NormalFields(ms) ==> SurrogateFree(f.name)
  {
    hide Normal, SurrogateFree;
  }

  // Objects: the same sorted fields exactly when each field of one is a field of the other.
  lemma SameFields(a: seq<Member>, b: seq<Member>)
    requires Proper(Dict(a)) && HasCanonicalForm(Dict(a)) && Proper(Dict(b)) && HasCanonicalForm(Dict(b))
    ensures Normal(Dict(a)) == Normal(Dict(b))
       <==> |a| == |b| && forall i :: 0 <= i < |a| ==> NormalFields(a)[i] in NormalFields(b)
  {
    NormalOfDict(a);
    NormalOfDict(b);
    KeysAreDistinct(a);
    KeysAreDistinct(b);
    var fa, fb := NormalFields(a), NormalFields(b);
    hide Normal, NormalFields, Proper, HasCanonicalForm, Sorted, FieldKey;
    SortedIsPermutation(fa, FieldKey);
    SortedIsPermutation(fb, FieldKey);
    if Sorted(fa, FieldKey) == Sorted(fb, FieldKey) {
      forall i | 0 <= i < |a| ensures fa[i] in fb {
        ElementOf(fa, fb, fa[i]);
      }
    }
    if |a| == |b| && forall i :: 0 <= i < |a| ==> fa[i] in fb {
      assert forall i, j :: 0 <= i < j < |fa| ==> FieldKey(fa[i]) != FieldKey(fa[j]);
      SameElements(fa, fb);
      OrderDoesNotMatter(fa, fb, FieldKey);
    }
  }

  lemma {:induction false} SameIsSameNormal(a: Json, b: Json)
    requires Proper(a) && HasCanonicalForm(a) && Proper(b) && HasCanonicalForm(b)
    ensures SameJson(a, b) <==> Normal(a) == Normal(b)
    decreases a
  {
    ShapeOfNormal(a);
    ShapeOfNormal(b);
    if IsNumber(a) && IsNumber(b) {
      NumbersAgree(a, b);
    } else if a.Array? && b.Array? {
      if |a.items| == |b.items| {
        forall i | 0 <= i < |a.items| ensures SameJson(a.items[i], b.items[i])
            <==> Normal(a.items[i]) == Normal(b.items[i]) {
          SameIsSameNormal(a.items[i], b.items[i]);
        }
      }
      SameArrays(a, b);
    } else if a.Dict? && b.Dict? {
      forall i, k | 0 <= i < |a.members| && 0 <= k < |b.members|
        ensures SameJson(a.members[i].value, b.members[k].value)
           <==> Normal(a.members[i].value) == Normal(b.members[k].value)
      {
        SameIsSameNormal(a.members[i].value, b.members[k].value);
      }
      SameDicts(a, b);
    } else {
      SameScalars(a, b);
    }
  }

  lemma SameScalars(a: Json, b: Json)
    requires HasCanonicalForm(a) && HasCanonicalForm(b)
    requires !(IsNumber(a) && IsNumber(b)) && !(a.Array? && b.Array?) && !(a.Dict? && b.Dict?)
    ensures SameJson(a, b) <==> Normal(a) == Normal(b)
  {
    ShapeOfNormal(a);
    ShapeOfNormal(b);
    hide NumberValue;
  }

  lemma SameArrays(a: Json, b: Json)
    requires a.Array? && b.Array?
    requires |a.items| == |b.items| ==> forall i :: 0 <= i < |a.items| ==>
      (SameJson(a.items[i], b.items[i]) <==> Normal(a.items[i]) == Normal(b.items[i]))
    ensures SameJson(a, b) <==> Normal(a) == Normal(b)
  {
    var na, nb := Normal(a).items, Normal(b).items;
    assert forall i :: 0 <= i < |a.items| ==> na[i] == Normal(a.items[i]);
    assert forall i :: 0 <= i < |b.items| ==> nb[i] == Normal(b.items[i]);
    assert Normal(a) == Normal(b) <==> na == nb;
    hide Normal;
    if |a.items| == |b.items| && SameJson(a, b) {
      assert forall i :: 0 <= i < |a.items| ==> na[i] == nb[i];
    }
  }

  lemma SameDicts(a: Json, b: Json)
    requires a.Dict? && b.Dict?
    requires Proper(a) && HasCanonicalForm(a) && Proper(b) && HasCanonicalForm(b)
    requires forall i, k :: 0 <= i < |a.members| && 0 <= k < |b.members| ==>
      (SameJson(a.members[i].value, b.members[k].value) <==> Normal(a.members[i].value) == Normal(b.members[k].value))
    ensures SameJson(a, b) <==> Normal(a) == Normal(b)
  {
    SameFields(a.members, b.members);
    var fa, fb := NormalFields(a.members), NormalFields(b.members);
    forall i | 0 <= i < |a.members|
      ensures fa[i] in fb
         <==> exists k :: 0 <= k < |b.members| && a.members[i].key == b.members[k].key
                          && SameJson(a.members[i].value, b.members[k].value)
    {
      hide Normal, SameJson, Proper, NormalFields;
      assert forall k :: 0 <= k < |b.members| ==> (fa[i] == fb[k]
        <==> a.members[i].key == b.members[k].key && SameJson(a.members[i].value, b.members[k].value));
      if fa[i] in fb {
        var k :| 0 <= k < |fb| && fb[k] == fa[i];
        assert a.members[i].key == b.members[k].key;
      }
    }
    hide Normal, Proper, NormalFields, HasCanonicalForm;
  }

  // The canonical text determines the value, and the value the text.
  lemma TextDeterminesValue(a: Json, b: Json)
    requires Proper(a) && Proper(b) && CanonicalText(a).Some? && CanonicalText(b).Some?
    ensures CanonicalText(a) == CanonicalText(b) <==> SameJson(a, b)
  {
    hide Height, HasCanonicalForm, Normal, Print, Proper, SameJson;
    SameIsSameNormal(a, b);
    if Print(Normal(a)) == Print(Normal(b)) {
      PrintIsInjective(Normal(a), Normal(b));
    }
  }

  // ----- What the text says ---------------------------------------------------------------------------

  // The real number a finite float is: its sign, its digits, and the place of the decimal point.
  ghost function FloatValue(x: Double): real
    requires FiniteNumber(x)
  {
    if x.Zero? then 0.0
    else (if x.negative then -1.0 else 1.0) * ValueOf(x.digits) as real * Power(x.point - |x.digits|)
  }

  // What was read stands for the Python value: the same literal, the same real number, the same text,
  // the elements one by one, and for each member the field of its name. There are no other fields.
  ghost predicate Stands(j: Json, n: Norm)
    decreases j, 0
  {
    match j
    case Null => n.NNull?
    case Bool(b) => n.NBool? && n.b == b
    case Int(k) => n.NNum? && Value(n.x) == k as real
    case Float(x) => n.NNum? && FiniteNumber(x) && Value(n.x) == FloatValue(x)
    case Str(t) => n.NStr? && n.text == t
    case Array(_, items) =>
      n.NArr? && |n.items| == |items| && forall i :: 0 <= i < |items| ==> Stands(items[i], n.items[i])
    case Dict(ms) =>
      n.NObj? && |n.fields| == |ms| && forall i :: 0 <= i < |ms| ==> HasField(ms[i], n.fields)
    case Other => false
  }

  // Some field bears the name of the member, and its value stands for the member's.
  ghost predicate HasField(m: Member, fields: seq<Field>)
    decreases m.value, 1
  {
    exists k :: 0 <= k < |fields| && m.key == Name(fields[k].name) && Stands(m.value, fields[k].value)
  }

  lemma {:induction false} NormalStands(j: Json)
    requires HasCanonicalForm(j)
    ensures Stands(j, Normal(j))
    decreases j
  {
    match j {
      case Int(n) => IntNumber(n);
      case Float(x) => FloatStands(x);
      case Array(_, items) =>
        forall i | 0 <= i < |items| ensures Stands(items[i], Normal(items[i])) {
          NormalStands(items[i]);
        }
      case Dict(ms) =>
        forall i | 0 <= i < |ms| ensures Stands(ms[i].value, Normal(ms[i].value)) {
          NormalStands(ms[i].value);
        }
        DictStands(ms);
      case _ =>
    }
  }

  lemma FloatStands(x: Double)
    requires FiniteNumber(x)
    ensures Normal(Float(x)).NNum? && Value(Normal(Float(x)).x) == FloatValue(x)
  {
    hide Power, ValueOf;
  }

  lemma FieldStands(ms: seq<Member>, i: nat)
    requires HasCanonicalForm(Dict(ms)) && i < |ms| && Stands(ms[i].value, Normal(ms[i].value))
    ensures HasField(ms[i], Sorted(NormalFields(ms), FieldKey))
  {
    var fields, sorted := NormalFields(ms), Sorted(NormalFields(ms), FieldKey);
    assert ms[i].key == Name(fields[i].name) && fields[i].value == Normal(ms[i].value);
    hide Normal, NormalFields, Sorted, Stands, HasCanonicalForm;
    SortedIsPermutation(fields, FieldKey);
    ElementOf(fields, sorted, fields[i]);
    var k :| 0 <= k < |sorted| && sorted[k] == fields[i];
    assert ms[i].key == Name(sorted[k].name) && Stands(ms[i].value, sorted[k].value);
  }

  lemma DictStands(ms: seq<Member>)
    requires HasCanonicalForm(Dict(ms)) && forall i :: 0 <= i < |ms| ==> Stands(ms[i].value, Normal(ms[i].value))
    ensures Stands(Dict(ms), Normal(Dict(ms)))
  {
    NormalOfDict(ms);
    var sorted := Sorted(NormalFields(ms), FieldKey);
    SortedIsPermutation(NormalFields(ms), FieldKey);
    assert |sorted| == |multiset(sorted)| == |multiset(NormalFields(ms))| == |ms|;
    forall i | 0 <= i < |ms| ensures HasField(ms[i], sorted) {
      FieldStands(ms, i);
    }
    hide Normal, NormalFields, Sorted, HasField;
  }

  // Whoever reads the canonical text of a value as JSON gets that value.
  lemma CanonicalReadsBack(j: Json)
    requires CanonicalText(j).Some?
    ensures var r := ParseValue(CanonicalText(j).value); r.Read? && r.rest == [] && Stands(j, r.item)
  {
    hide Height, HasCanonicalForm, Normal, Print, Stands, ParseValue;
    NormalStands(j);
    EndsEmpty();
    ParsePrinted(Normal(j), []);
    assert Print(Normal(j)) + [] == Print(Normal(j));
  }

  // ----- Member order ---------------------------------------------------------------------------------

  predicate Permuted(ms: seq<Member>, ns: seq<Member>) {
    multiset(ms) == multiset(ns)
  }

  // The same value up to the order of members, at every depth: the values of a dict reordered one by
  // one, and then its members permuted.
  ghost predicate Reordered(a: Json, b: Json)
    decreases a
  {
    match a
    case Array(tuple, items) =>
      b.Array? && b.tuple == tuple && |items| == |b.items|
      && forall i :: 0 <= i < |items| ==> Reordered(items[i], b.items[i])
    case Dict(ms) =>
      b.Dict? && exists ns: seq<Member> ::
        && Permuted(ns, b.members) && |ns| == |ms|
        && forall i :: 0 <= i < |ms| ==> ns[i].key == ms[i].key && Reordered(ms[i].value, ns[i].value)
    case _ => b == a
  }

  // What the canonicalizer sees of a value.
  ghost predicate Alike(a: Json, b: Json) {
    && Height(a) == Height(b)
    && (HasCanonicalForm(a) <==> HasCanonicalForm(b))
    && (HasCanonicalForm(a) ==> Normal(a) == Normal(b))
  }

  lemma ItemsAlike(tuple: bool, xs: seq<Json>, ys: seq<Json>)
    requires |xs| == |ys| && forall i :: 0 <= i < |xs| ==> Alike(xs[i], ys[i])
    ensures Alike(Array(tuple, xs), Array(tuple, ys))
  {
    assert seq(|xs|, i requires 0 <= i < |xs| => Height(xs[i])) == seq(|ys|, i requires 0 <= i < |ys| => Height(ys[i]));
    if HasCanonicalForm(Array(tuple, xs)) {
      assert seq(|xs|, i requires 0 <= i < |xs| => Normal(xs[i]))
          == seq(|ys|, i requires 0 <= i < |ys| => Normal(ys[i]));
    }
  }

  lemma MembersAlike(ms: seq<Member>, ns: seq<Member>)
    requires |ms| == |ns| && forall i :: 0 <= i < |ms| ==> ns[i].key == ms[i].key && Alike(ms[i].value, ns[i].value)
    ensures Alike(Dict(ms), Dict(ns))
  {
    assert seq(|ms|, i requires 0 <= i < |ms| => Height(ms[i].value))
        == seq(|ns|, i requires 0 <= i < |ns| => Height(ns[i].value));
    DictForm(ms);
    DictForm(ns);
    if HasCanonicalForm(Dict(ms)) {
      hide Height, Normal, HasCanonicalForm;
      assert NormalFields(ms) == NormalFields(ns);
      NormalOfDict(ms);
      NormalOfDict(ns);
    }
  }

  lemma DictForm(ms: seq<Member>)
    ensures HasCanonicalForm(Dict(ms)) <==>
      forall i :: 0 <= i < |ms| ==>
        ms[i].key.Name? && SurrogateFree(ms[i].key.text) && HasCanonicalForm(ms[i].value)
  {
  }

  lemma HeightOfPart(a: seq<Member>, b: seq<Member>)
    requires forall i :: 0 <= i < |a| ==> a[i] in b
    ensures Height(Dict(a)) <= Height(Dict(b))
  {
    var ha := seq(|a|, i requires 0 <= i < |a| => Height(a[i].value));
    var hb := seq(|b|, i requires 0 <= i < |b| => Height(b[i].value));
    assert Height(Dict(a)) == Deepest(ha) && Height(Dict(b)) == Deepest(hb);
    if Deepest(ha) > 0 {
      var i :| 0 <= i < |ha| && ha[i] == Deepest(ha) - 1;
      var k :| 0 <= k < |b| && b[k] == a[i];
      assert hb[k] == ha[i];
    }
  }

  lemma PartHasForm(a: seq<Member>, b: seq<Member>)
    requires forall i :: 0 <= i < |a| ==> a[i] in b
    requires HasCanonicalForm(Dict(b))
    ensures HasCanonicalForm(Dict(a))
    ensures forall i :: 0 <= i < |a| ==> NormalFields(a)[i] in NormalFields(b)
  {
    hide Normal, SurrogateFree;
    forall i | 0 <= i < |a| ensures NormalFields(a)[i] in NormalFields(b) {
      var k :| 0 <= k < |b| && b[k] == a[i];
      assert NormalFields(b)[k] == NormalFields(a)[i];
    }
  }

  lemma PermutedAlike(a: seq<Member>, b: seq<Member>)
    requires Proper(Dict(a)) && Proper(Dict(b)) && Permuted(a, b)
    ensures Alike(Dict(a), Dict(b))
  {
    hide Normal, NormalFields, Proper, HasCanonicalForm, Height;
    assert |a| == |multiset(a)| == |multiset(b)| == |b|;
    forall i | 0 <= i < |b| ensures b[i] in a { ElementOf(b, a, b[i]); }
    forall i | 0 <= i < |a| ensures a[i] in b { ElementOf(a, b, a[i]); }
    HeightOfPart(a, b);
    HeightOfPart(b, a);
    if HasCanonicalForm(Dict(a)) { PartHasForm(b, a); }
    if HasCanonicalForm(Dict(b)) {
      PartHasForm(a, b);
      SameFields(a, b);
    }
  }

  // The dict between the two steps is a proper one.
  lemma BetweenIsProper(ms: seq<Member>, ns: seq<Member>, b: Json)
    requires b.Dict? && Permuted(ns, b.members) && |ns| == |ms| && Proper(Dict(ms)) && Proper(b)
    requires forall i :: 0 <= i < |ms| ==> ns[i].key == ms[i].key
    ensures Proper(Dict(ns)) && forall i :: 0 <= i < |ns| ==> Proper(ns[i].value)
  {
    forall i | 0 <= i < |ns| ensures Proper(ns[i].value) {
      ElementOf(ns, b.members, ns[i]);
    }
  }

  lemma {:induction false} ReorderedAlike(a: Json, b: Json)
    requires Proper(a) && Proper(b) && Reordered(a, b)
    ensures Alike(a, b)
    decreases a
  {
    hide Alike;
    match a {
      case Array(tuple, items) =>
        forall i | 0 <= i < |items| ensures Alike(items[i], b.items[i]) {
          ReorderedAlike(items[i], b.items[i]);
        }
        hide Reordered, Proper;
        ItemsAlike(tuple, items, b.items);
      case Dict(ms) =>
        var ns: seq<Member> :| Permuted(ns, b.members) && |ns| == |ms| &&
          forall i :: 0 <= i < |ms| ==> ns[i].key == ms[i].key && Reordered(ms[i].value, ns[i].value);
        BetweenIsProper(ms, ns, b);
        forall i | 0 <= i < |ms| ensures Alike(ms[i].value, ns[i].value) {
          ReorderedAlike(ms[i].value, ns[i].value);
        }
        hide Reordered, Proper;
        MembersAlike(ms, ns);
        PermutedAlike(ns, b.members);
        AlikeIsTransitive(a, Dict(ns), b);
      case _ => AlikeIsReflexive(a);
    }
  }

  lemma AlikeIsReflexive(a: Json)
    ensures Alike(a, a)
  {
  }

  lemma AlikeIsTransitive(a: Json, b: Json, c: Json)
    requires Alike(a, b) && Alike(b, c)
    ensures Alike(a, c)
  {
  }

  // The order in which members were put into dicts, at any depth, does not show: neither in the text
  // nor in whether there is one.
  lemma InsertionOrderDoesNotShow(a: Json, b: Json)
    requires Proper(a) && Proper(b) && Reordered(a, b)
    ensures CanonicalText(a) == CanonicalText(b)
  {
    ReorderedAlike(a, b);
    hide Height, HasCanonicalForm, Normal, Print, Proper, Reordered;
  }
}