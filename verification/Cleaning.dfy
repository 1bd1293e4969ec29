// `_clean_empty` of src/a2a/utils/signing.py:167-195: removing what is empty before signing.

module Cleaning {
  import opened Options
  import opened Json

  // None stands for the depth error, Null for the None that means "nothing left".
  // Tuples, like scalars, are returned as they are.
  function CleanEmpty(j: Json, depth: nat): Option<Json>
    decreases j, 1
  {
    if depth > MAX_DEPTH then None
    else match j
      case Dict(ms) =>
        var kept := CleanMembers(ms, depth + 1);
        if kept.None? then None else Some(if kept.value == [] then Null else Dict(kept.value))
      case Array(tuple, items) =>
        if tuple then Some(j) else
        var kept := CleanItems(items, depth + 1);
        if kept.None? then None else Some(if kept.value == [] then Null else Array(false, kept.value))
      case Str(t) => Some(if t == [] then Null else j)
      case _ => Some(j)
  }

  function CleanItems(items: seq<Json>, depth: nat): Option<seq<Json>>
    decreases items, 0
  {
    if items == [] then Some([]) else
    var first, others := CleanEmpty(items[0], depth), CleanItems(items[1..], depth);
    if first.None? || others.None? then None
    else Some((if first.value == Null then [] else [first.value]) + others.value)
  }

  function CleanMembers(ms: seq<Member>, depth: nat): Option<seq<Member>>
    decreases ms, 0
  {
    if ms == [] then Some([]) else
    assert ms[0].value < ms[0];
    var first, others := CleanEmpty(ms[0].value, depth), CleanMembers(ms[1..], depth);
    if first.None? || others.None? then None
    else Some((if first.value == Null then [] else [Member(ms[0].key, first.value)]) + others.value)
  }

  // ----- What cleaning means, without the depth bound --------------------------------------------

  function Cleaned(j: Json): Json
    decreases j, 1
  {
    match j
    case Dict(ms) => var kept := KeptMembers(ms); if kept == [] then Null else Dict(kept)
    case Array(tuple, items) => if tuple then j else var kept := KeptItems(items); if kept == [] then Null
        else Array(false, kept)
    case Str(t) => if t == [] then Null else j
    case _ => j
  }

  function KeptItems(items: seq<Json>): seq<Json>
    decreases items, 0
  {
    if items == [] then []
    else (if Cleaned(items[0]) == Null then [] else [Cleaned(items[0])]) + KeptItems(items[1..])
  }

  function KeptMembers(ms: seq<Member>): seq<Member>
    decreases ms, 0
  {
    if ms == [] then [] else
    assert ms[0].value < ms[0];
    (if Cleaned(ms[0].value) == Null then [] else [Member(ms[0].key, Cleaned(ms[0].value))]) + KeptMembers(ms[1..])
  }

  // Nesting of lists and dicts alone: what the cleaner descends into.
  function ListHeight(j: Json): nat {
    match j
    case Array(tuple, items) =>
      if tuple then 0 else Deepest(seq(|items|, i requires 0 <= i < |items| => ListHeight(items[i])))
    case Dict(ms) => Deepest(seq(|ms|, i requires 0 <= i < |ms| => ListHeight(ms[i].value)))
    case _ => 0
  }

  lemma ListHeightOfList(items: seq<Json>, bound: nat)
    ensures ListHeight(Array(false, items)) <= bound
       <==> forall i :: 0 <= i < |items| ==> ListHeight(items[i]) < bound
  {
    var heights := seq(|items|, i requires 0 <= i < |items| => ListHeight(items[i]));
    assert ListHeight(Array(false, items)) == Deepest(heights);
    assert forall i :: 0 <= i < |items| ==> heights[i] == ListHeight(items[i]);
    hide ListHeight;
  }

  lemma ListHeightOfDict(ms: seq<Member>, bound: nat)
    ensures ListHeight(Dict(ms)) <= bound <==> forall i :: 0 <= i < |ms| ==> ListHeight(ms[i].value) < bound
  {
    var heights := seq(|ms|, i requires 0 <= i < |ms| => ListHeight(ms[i].value));
    assert ListHeight(Dict(ms)) == Deepest(heights);
    assert forall i :: 0 <= i < |ms| ==> heights[i] == ListHeight(ms[i].value);
    hide ListHeight;
  }

  // The cleaner fails exactly on lists and dicts nested too deep, and otherwise cleans.
  lemma {:induction false} CleanEmptyMeaning(j: Json, depth: nat)
    ensures CleanEmpty(j, depth) == if depth + ListHeight(j) <= 128 then Some(Cleaned(j)) else None
    decreases j, 1
  {
    hide ListHeight, CleanMembers, KeptMembers, CleanItems, KeptItems;
    if depth <= MAX_DEPTH {
      match j {
        case Dict(ms) =>
          CleanMembersMeaning(ms, depth + 1);
          ListHeightOfDict(ms, MAX_DEPTH - depth);
        case Array(tuple, items) =>
          if tuple {
            FlatListHeight(j);
          } else {
            CleanItemsMeaning(items, depth + 1);
            ListHeightOfList(items, MAX_DEPTH - depth);
          }
        case _ => FlatListHeight(j);
      }
    }
  }

  lemma FlatListHeight(j: Json)
    requires !j.Dict? && (j.Array? ==> j.tuple)
    ensures ListHeight(j) == 0
  {
  }

  lemma {:induction false} CleanItemsMeaning(items: seq<Json>, depth: nat)
    ensures CleanItems(items, depth)
         == if forall i :: 0 <= i < |items| ==> depth + ListHeight(items[i]) <= MAX_DEPTH then Some(KeptItems(items))
             else None
    decreases items, 0
  {
    if items != [] {
      CleanEmptyMeaning(items[0], depth);
      CleanItemsMeaning(items[1..], depth);
      assert items == [items[0]] + items[1..];
      hide ListHeight, Cleaned, CleanEmpty;
    }
  }

  lemma {:induction false} CleanMembersMeaning(ms: seq<Member>, depth: nat)
    ensures CleanMembers(ms, depth)
         == if forall i :: 0 <= i < |ms| ==> depth + ListHeight(ms[i].value) <= MAX_DEPTH then Some(KeptMembers(ms))
             else None
    decreases ms, 0
  {
    if ms != [] {
      assert ms[0].value < ms[0];
      CleanEmptyMeaning(ms[0].value, depth);
      CleanMembersMeaning(ms[1..], depth);
      assert ms == [ms[0]] + ms[1..];
      hide ListHeight, Cleaned, CleanEmpty;
    }
  }

  // ----- Normal form --------------------------------------------------------------------------------

  // Nothing empty and no null anywhere inside.
  predicate Solid(j: Json) {
    match j
    case Null => false
    case Str(t) => t != []
    case Array(tuple, items) => tuple || (items != [] && forall i :: 0 <= i < |items| ==> Solid(items[i]))
    case Dict(ms) => ms != [] && forall i :: 0 <= i < |ms| ==> Solid(ms[i].value)
    case _ => true
  }

  lemma {:induction false} CleanedIsSolid(j: Json)
    ensures Cleaned(j) == Null || Solid(Cleaned(j))
    decreases j, 1
  {
    match j {
      case Dict(ms) => KeptMembersSolid(ms);
      case Array(tuple, items) =>
        if !tuple {
          KeptItemsSolid(items);
        }
      case _ =>
    }
  }

  lemma {:induction false} KeptItemsSolid(items: seq<Json>)
    ensures forall x :: x in KeptItems(items) ==> Solid(x)
    decreases items, 0
  {
    if items != [] {
      CleanedIsSolid(items[0]);
      KeptItemsSolid(items[1..]);
      hide Cleaned, Solid;
    }
  }

  lemma {:induction false} KeptMembersSolid(ms: seq<Member>)
    ensures forall m :: m in KeptMembers(ms) ==> Solid(m.value)
    decreases ms, 0
  {
    if ms != [] {
      assert ms[0].value < ms[0];
      CleanedIsSolid(ms[0].value);
      KeptMembersSolid(ms[1..]);
      hide Cleaned, Solid;
    }
  }

  lemma {:induction false} SolidIsClean(j: Json)
    requires Solid(j)
    ensures Cleaned(j) == j
    decreases j, 1
  {
    match j {
      case Dict(ms) => SolidMembers(ms);
      case Array(tuple, items) =>
        if !tuple {
          SolidItems(items);
        }
      case _ =>
    }
  }

  lemma {:induction false} SolidItems(items: seq<Json>)
    requires forall i :: 0 <= i < |items| ==> Solid(items[i])
    ensures KeptItems(items) == items
    decreases items, 0
  {
    if items != [] {
      SolidIsClean(items[0]);
      SolidItems(items[1..]);
    }
  }

  lemma {:induction false} SolidMembers(ms: seq<Member>)
    requires forall i :: 0 <= i < |ms| ==> Solid(ms[i].value)
    ensures KeptMembers(ms) == ms
    decreases ms, 0
  {
    if ms != [] {
      assert ms[0].value < ms[0];
      SolidIsClean(ms[0].value);
      SolidMembers(ms[1..]);
    }
  }

  // Cleaning is idempotent: its results are the values it leaves alone.
  lemma CleaningIsIdempotent(j: Json)
    ensures Cleaned(Cleaned(j)) == Cleaned(j)
    ensures Cleaned(j) == j <==> j == Null || Solid(j)
  {
    CleanedIsSolid(j);
    if Cleaned(j) != Null {
      SolidIsClean(Cleaned(j));
    }
    if Solid(j) {
      SolidIsClean(j);
    }
  }

  // ----- Deleting empty parts beforehand -------------------------------------------------------------

  function Children(j: Json): seq<Json> {
    match j
    case Array(tuple, items) => if tuple then [] else items
    case Dict(ms) => seq(|ms|, i requires 0 <= i < |ms| => ms[i].value)
    case _ => []
  }

  // A path to a part inside: at each step the index of a list item or dict member.
  predicate PathIn(j: Json, path: seq<nat>)
    decreases path
  {
    path != [] && path[0] < |Children(j)| && (|path| == 1 || PathIn(Children(j)[path[0]], path[1..]))
  }

  function PartAt(j: Json, path: seq<nat>): Json
    requires PathIn(j, path)
    decreases path
  {
    if |path| == 1 then Children(j)[path[0]] else PartAt(Children(j)[path[0]], path[1..])
  }

  function DeleteAt(j: Json, path: seq<nat>): Json
    requires PathIn(j, path)
    decreases path
  {
    var i := path[0];
    if j.Dict? then
      if |path| == 1 then Dict(j.members[..i] + j.members[i + 1..])
      else Dict(j.members[i := Member(j.members[i].key, DeleteAt(j.members[i].value, path[1..]))])
    else
      if |path| == 1 then Array(false, j.items[..i] + j.items[i + 1..])
      else Array(false, j.items[i := DeleteAt(j.items[i], path[1..])])
  }

  lemma KeptItemsFirst(x: Json, rest: seq<Json>)
    ensures KeptItems([x] + rest) == KeptItems([x]) + KeptItems(rest)
  {
    hide Cleaned;
    assert ([x] + rest)[1..] == rest && [x][1..] == [];
    var head := if Cleaned(x) == Null then [] else [Cleaned(x)];
    assert head + [] == head;
  }

  lemma {:induction false} KeptItemsOfSum(a: seq<Json>, b: seq<Json>)
    ensures KeptItems(a + b) == KeptItems(a) + KeptItems(b)
  {
    NoItems();
    hide *;
    if a == [] {
      assert a + b == b;
    } else {
      KeptItemsOfSum(a[1..], b);
      KeptItemsFirst(a[0], a[1..]);
      KeptItemsFirst(a[0], a[1..] + b);
      assert a == [a[0]] + a[1..] && a + b == [a[0]] + (a[1..] + b);
    }
  }

  lemma KeptMembersFirst(m: Member, rest: seq<Member>)
    ensures KeptMembers([m] + rest) == KeptMembers([m]) + KeptMembers(rest)
  {
    hide Cleaned;
    assert ([m] + rest)[1..] == rest && [m][1..] == [];
    var head := if Cleaned(m.value) == Null then [] else [Member(m.key, Cleaned(m.value))];
    assert head + [] == head;
  }

  lemma {:induction false} KeptMembersOfSum(a: seq<Member>, b: seq<Member>)
    ensures KeptMembers(a + b) == KeptMembers(a) + KeptMembers(b)
  {
    NoMembers();
    hide *;
    if a == [] {
      assert a + b == b;
    } else {
      KeptMembersOfSum(a[1..], b);
      KeptMembersFirst(a[0], a[1..]);
      KeptMembersFirst(a[0], a[1..] + b);
      assert a == [a[0]] + a[1..] && a + b == [a[0]] + (a[1..] + b);
    }
  }

  // A list is cleaned piece by piece around one of its items.
  lemma AroundItem(items: seq<Json>, i: nat, part: seq<Json>)
    requires i < |items|
    requires KeptItems(part) == KeptItems([items[i]])
    ensures KeptItems(items[..i] + part + items[i + 1..]) == KeptItems(items)
  {
    KeptItemsOfSum(items[..i] + part, items[i + 1..]);
    KeptItemsOfSum(items[..i], part);
    KeptItemsOfSum(items[..i] + [items[i]], items[i + 1..]);
    KeptItemsOfSum(items[..i], [items[i]]);
    assert items == items[..i] + [items[i]] + items[i + 1..];
    hide KeptItems;
  }

  lemma AroundMember(ms: seq<Member>, i: nat, part: seq<Member>)
    requires i < |ms|
    requires KeptMembers(part) == KeptMembers([ms[i]])
    ensures KeptMembers(ms[..i] + part + ms[i + 1..]) == KeptMembers(ms)
  {
    KeptMembersOfSum(ms[..i] + part, ms[i + 1..]);
    KeptMembersOfSum(ms[..i], part);
    KeptMembersOfSum(ms[..i] + [ms[i]], ms[i + 1..]);
    KeptMembersOfSum(ms[..i], [ms[i]]);
    assert ms == ms[..i] + [ms[i]] + ms[i + 1..];
    hide KeptMembers;
  }

  // What replacing or deleting one child does.
  lemma MemberReplaced(ms: seq<Member>, i: nat, v: Json)
    requires i < |ms|
    ensures Cleaned(v) == Cleaned(ms[i].value) ==> KeptMembers(ms[i := Member(ms[i].key, v)]) == KeptMembers(ms)
    ensures Cleaned(ms[i].value) == Null ==> KeptMembers(ms[..i] + ms[i + 1..]) == KeptMembers(ms)
  {
    hide KeptMembers, Cleaned;
    var n := Member(ms[i].key, v);
    OneMember(n);
    OneMember(ms[i]);
    if Cleaned(v) == Cleaned(ms[i].value) {
      AroundMember(ms, i, [n]);
      assert ms[..i] + [n] + ms[i + 1..] == ms[i := n];
    }
    if Cleaned(ms[i].value) == Null {
      NoMembers();
      AroundMember(ms, i, []);
      assert ms[..i] + [] + ms[i + 1..] == ms[..i] + ms[i + 1..];
    }
  }

  lemma NoMembers()
    ensures KeptMembers([]) == []
  {
  }

  lemma ItemReplaced(items: seq<Json>, i: nat, v: Json)
    requires i < |items|
    ensures Cleaned(v) == Cleaned(items[i]) ==> KeptItems(items[i := v]) == KeptItems(items)
    ensures Cleaned(items[i]) == Null ==> KeptItems(items[..i] + items[i + 1..]) == KeptItems(items)
  {
    hide KeptItems, Cleaned;
    OneItem(v);
    OneItem(items[i]);
    if Cleaned(v) == Cleaned(items[i]) {
      AroundItem(items, i, [v]);
      assert items[..i] + [v] + items[i + 1..] == items[i := v];
    }
    if Cleaned(items[i]) == Null {
      NoItems();
      AroundItem(items, i, []);
      assert items[..i] + [] + items[i + 1..] == items[..i] + items[i + 1..];
    }
  }

  lemma NoItems()
    ensures KeptItems([]) == []
  {
  }

  // Depth aside, deleting any part that cleans to nothing does not change the outcome.
  lemma {:induction false} DeletingEmptyPartsFirst(j: Json, path: seq<nat>)
    requires PathIn(j, path) && Cleaned(PartAt(j, path)) == Null
    ensures Cleaned(DeleteAt(j, path)) == Cleaned(j)
    decreases path
  {
    hide KeptItems, KeptMembers;
    var i := path[0];
    var child := Children(j)[i];
    if |path| > 1 {
      assert PartAt(j, path) == PartAt(child, path[1..]) by { hide Cleaned; }
      DeletingEmptyPartsFirst(child, path[1..]);
    }
    var v := if |path| > 1 then DeleteAt(child, path[1..]) else child;
    if j.Dict? {
      MemberReplaced(j.members, i, v);
    } else {
      ItemReplaced(j.items, i, v);
    }
  }

  // What a list or dict loses in height with one child, or with a part of one child.
  lemma MemberGone(ms: seq<Member>, i: nat, bound: nat)
    requires i < |ms|
    ensures ListHeight(Dict(ms)) <= bound
       <==> ListHeight(Dict(ms[..i] + ms[i + 1..])) <= bound && 1 + ListHeight(ms[i].value) <= bound
  {
    hide ListHeight;
    var rest := ms[..i] + ms[i + 1..];
    ListHeightOfDict(ms, bound);
    ListHeightOfDict(rest, bound);
    assert forall k :: i < k < |ms| ==> rest[k - 1] == ms[k];
    assert forall k :: 0 <= k < i ==> rest[k] == ms[k];
  }

  lemma MemberShrunk(ms: seq<Member>, i: nat, v: Json, part: bool, bound: nat)
    requires i < |ms|
    requires ListHeight(ms[i].value) < bound <==> ListHeight(v) < bound && part
    ensures ListHeight(Dict(ms)) <= bound <==> ListHeight(Dict(ms[i := Member(ms[i].key, v)])) <= bound && part
  {
    hide ListHeight;
    var rest := ms[i := Member(ms[i].key, v)];
    ListHeightOfDict(ms, bound);
    ListHeightOfDict(rest, bound);
    assert rest[i].value == v && forall k :: 0 <= k < |ms| && k != i ==> rest[k] == ms[k];
  }

  lemma ItemGone(items: seq<Json>, i: nat, bound: nat)
    requires i < |items|
    ensures ListHeight(Array(false, items)) <= bound
       <==> ListHeight(Array(false, items[..i] + items[i + 1..])) <= bound && 1 + ListHeight(items[i]) <= bound
  {
    hide ListHeight;
    var rest := items[..i] + items[i + 1..];
    ListHeightOfList(items, bound);
    ListHeightOfList(rest, bound);
    assert forall k :: i < k < |items| ==> rest[k - 1] == items[k];
    assert forall k :: 0 <= k < i ==> rest[k] == items[k];
  }

  lemma ItemShrunk(items: seq<Json>, i: nat, v: Json, part: bool, bound: nat)
    requires i < |items|
    requires ListHeight(items[i]) < bound <==> ListHeight(v) < bound && part
    ensures ListHeight(Array(false, items)) <= bound <==> ListHeight(Array(false, items[i := v])) <= bound && part
  {
    hide ListHeight;
    var rest := items[i := v];
    ListHeightOfList(items, bound);
    ListHeightOfList(rest, bound);
    assert rest[i] == v && forall k :: 0 <= k < |items| && k != i ==> rest[k] == items[k];
  }

  // The deleted part and what is left share out the height.
  lemma {:induction false} DeletedHeight(j: Json, path: seq<nat>, bound: nat)
    requires PathIn(j, path)
    ensures ListHeight(j) <= bound
       <==> ListHeight(DeleteAt(j, path)) <= bound && |path| + ListHeight(PartAt(j, path)) <= bound
    decreases path
  {
    hide ListHeight;
    var i := path[0];
    if |path| == 1 {
      if j.Dict? {
        MemberGone(j.members, i, bound);
      } else {
        ItemGone(j.items, i, bound);
      }
    } else {
      var child := Children(j)[i];
      var v, part := DeleteAt(child, path[1..]), |path| + ListHeight(PartAt(child, path[1..])) <= bound;
      if bound > 0 {
        DeletedHeight(child, path[1..], bound - 1);
      }
      if j.Dict? {
        MemberShrunk(j.members, i, v, part, bound);
      } else {
        ItemShrunk(j.items, i, v, part, bound);
      }
    }
  }

  // Deleting beforehand any part the cleaner turns into nothing, wherever it is, does not change the
  // outcome, an error included.
  lemma DeletionKeepsOutcome(j: Json, path: seq<nat>)
    requires PathIn(j, path) && CleanEmpty(PartAt(j, path), |path|) == Some(Null)
    ensures CleanEmpty(DeleteAt(j, path), 0) == CleanEmpty(j, 0)
  {
    CleanEmptyMeaning(PartAt(j, path), |path|);
    hide CleanEmpty, ListHeight, Cleaned;
    DeletionOutcomeExactly(j, path);
  }

  // A part that would clean to nothing but for its depth: deleting it changes the outcome exactly when
  // the part alone is too deep and what remains fits.
  lemma DeletionOutcomeExactly(j: Json, path: seq<nat>)
    requires PathIn(j, path) && Cleaned(PartAt(j, path)) == Null
    ensures CleanEmpty(DeleteAt(j, path), 0) != CleanEmpty(j, 0)
       <==> |path| + ListHeight(PartAt(j, path)) > 128 && ListHeight(DeleteAt(j, path)) <= 128
  {
    DeletingEmptyPartsFirst(j, path);
    DeletedHeight(j, path, MAX_DEPTH);
    CleanEmptyMeaning(j, 0);
    CleanEmptyMeaning(DeleteAt(j, path), 0);
    hide CleanEmpty, ListHeight, Cleaned;
  }

  // k is what is left of j after deleting parts, each of which cleaned to nothing when it went.
  ghost predicate Prunes(j: Json, paths: seq<seq<nat>>, k: Json)
    decreases paths
  {
    if paths == [] then j == k
    else PathIn(j, paths[0]) && Cleaned(PartAt(j, paths[0])) == Null && Prunes(DeleteAt(j, paths[0]), paths[1..], k)
  }

  // However the empty parts are deleted, once nothing empty is left the result is the cleaned value.
  lemma {:induction false} NormalFormIsUnique(j: Json, paths: seq<seq<nat>>, k: Json)
    requires Prunes(j, paths, k)
    ensures Cleaned(k) == Cleaned(j)
    ensures Solid(k) ==> k == Cleaned(j)
    decreases paths
  {
    if paths != [] {
      DeletingEmptyPartsFirst(j, paths[0]);
      NormalFormIsUnique(DeleteAt(j, paths[0]), paths[1..], k);
    } else if Solid(k) {
      SolidIsClean(k);
    }
  }

  lemma OneMember(m: Member)
    ensures KeptMembers([m]) == if Cleaned(m.value) == Null then [] else [Member(m.key, Cleaned(m.value))]
  {
    hide Cleaned;
    assert [m][1..] == [];
  }

  lemma OneItem(x: Json)
    ensures KeptItems([x]) == if Cleaned(x) == Null then [] else [Cleaned(x)]
  {
    hide Cleaned;
    assert [x][1..] == [];
  }

  // ----- Names stay distinct ---------------------------------------------------------------------------

  lemma {:induction false} CleanedIsProper(j: Json)
    requires Proper(j)
    ensures Proper(Cleaned(j))
    decreases j, 1
  {
    match j {
      case Dict(ms) => KeptMembersProper(ms);
      case Array(tuple, items) =>
        if !tuple {
          KeptItemsProper(items);
        }
      case _ =>
    }
  }

  lemma {:induction false} KeptItemsProper(items: seq<Json>)
    requires forall i :: 0 <= i < |items| ==> Proper(items[i])
    ensures forall x :: x in KeptItems(items) ==> Proper(x)
    decreases items, 0
  {
    if items != [] {
      CleanedIsProper(items[0]);
      KeptItemsProper(items[1..]);
      hide Cleaned, Proper;
    }
  }

  predicate HasKey(ms: seq<Member>, key: Key) {
    exists i :: 0 <= i < |ms| && ms[i].key == key
  }

  lemma {:induction false} KeptMembersProper(ms: seq<Member>)
    requires DistinctNames(ms) && forall i :: 0 <= i < |ms| ==> Proper(ms[i].value)
    ensures forall m :: m in KeptMembers(ms) ==> Proper(m.value) && HasKey(ms, m.key)
    ensures DistinctNames(KeptMembers(ms))
    decreases ms, 0
  {
    if ms != [] {
      assert ms[0].value < ms[0];
      CleanedIsProper(ms[0].value);
      KeptMembersProper(ms[1..]);
      hide Cleaned, Proper;
      var kept := KeptMembers(ms[1..]);
      forall i | 0 <= i < |kept| ensures HasKey(ms, kept[i].key) && (ms[0].key.Name? ==> kept[i].key != ms[0].key) {
        assert kept[i] in kept;
        var k :| 0 <= k < |ms[1..]| && ms[1..][k].key == kept[i].key;
        assert ms[k + 1].key == kept[i].key;
      }
      assert HasKey(ms, ms[0].key);
    }
  }

  // ----- Height ----------------------------------------------------------------------------------------

  predicate TupleFree(j: Json) {
    match j
    case Array(tuple, items) => !tuple && forall i :: 0 <= i < |items| ==> TupleFree(items[i])
    case Dict(ms) => forall i :: 0 <= i < |ms| ==> TupleFree(ms[i].value)
    case _ => true
  }

  // Cleaning never makes a value higher.
  lemma {:induction false} CleaningKeepsHeight(j: Json)
    ensures Height(Cleaned(j)) <= Height(j)
    decreases j, 1
  {
    match j {
      case Dict(ms) =>
        HeightOfDict(ms, Height(j));
        KeptMembersHeight(ms, Height(j));
        HeightOfDict(KeptMembers(ms), Height(j));
      case Array(tuple, items) =>
        if !tuple {
          HeightOfArray(tuple, items, Height(j));
          KeptItemsHeight(items, Height(j));
          HeightOfArray(tuple, KeptItems(items), Height(j));
        }
      case _ =>
    }
  }

  lemma {:induction false} KeptItemsHeight(items: seq<Json>, bound: nat)
    requires forall i :: 0 <= i < |items| ==> Height(items[i]) < bound
    ensures forall x :: x in KeptItems(items) ==> Height(x) < bound
    decreases items, 0
  {
    if items != [] {
      CleaningKeepsHeight(items[0]);
      KeptItemsHeight(items[1..], bound);
      hide Cleaned, Height;
    }
  }

  lemma {:induction false} KeptMembersHeight(ms: seq<Member>, bound: nat)
    requires forall i :: 0 <= i < |ms| ==> Height(ms[i].value) < bound
    ensures forall m :: m in KeptMembers(ms) ==> Height(m.value) < bound
    decreases ms, 0
  {
    if ms != [] {
      assert ms[0].value < ms[0];
      CleaningKeepsHeight(ms[0].value);
      KeptMembersHeight(ms[1..], bound);
      hide Cleaned, Height;
    }
  }

  lemma {:induction false} TupleFreeHeight(j: Json)
    requires TupleFree(j)
    ensures ListHeight(j) == Height(j)
    decreases j
  {
    match j {
      case Dict(ms) =>
        forall i | 0 <= i < |ms| ensures ListHeight(ms[i].value) == Height(ms[i].value)
            { TupleFreeHeight(ms[i].value); }
        assert seq(|ms|, i requires 0 <= i < |ms| => ListHeight(ms[i].value))
            == seq(|ms|, i requires 0 <= i < |ms| => Height(ms[i].value));
      case Array(_, items) =>
        forall i | 0 <= i < |items| ensures ListHeight(items[i]) == Height(items[i]) { TupleFreeHeight(items[i]); }
        assert seq(|items|, i requires 0 <= i < |items| => ListHeight(items[i]))
            == seq(|items|, i requires 0 <= i < |items| => Height(items[i]));
      case _ =>
    }
  }

  // Every tuple, which the cleaner does not look into, is within the writer's bound.
  predicate TuplesFit(j: Json, depth: nat) {
    match j
    case Array(tuple, items) =>
      if tuple then depth + Height(j) <= MAX_DEPTH
      else forall i :: 0 <= i < |items| ==> TuplesFit(items[i], depth + 1)
    case Dict(ms) => forall i :: 0 <= i < |ms| ==> TuplesFit(ms[i].value, depth + 1)
    case _ => true
  }

  lemma {:induction false} HeightFromTuples(j: Json, depth: nat)
    ensures depth + Height(j) <= MAX_DEPTH <==> depth + ListHeight(j) <= MAX_DEPTH && TuplesFit(j, depth)
    decreases j
  {
    hide Height, ListHeight;
    match j {
      case Dict(ms) =>
        forall i | 0 <= i < |ms|
          ensures depth + 1 + Height(ms[i].value) <= MAX_DEPTH
             <==> depth + 1 + ListHeight(ms[i].value) <= MAX_DEPTH && TuplesFit(ms[i].value, depth + 1)
        {
          HeightFromTuples(ms[i].value, depth + 1);
        }
        if depth <= MAX_DEPTH {
          HeightOfDict(ms, MAX_DEPTH - depth);
          ListHeightOfDict(ms, MAX_DEPTH - depth);
        }
      case Array(tuple, items) =>
        if tuple {
          FlatListHeight(j);
        } else {
          forall i | 0 <= i < |items|
            ensures depth + 1 + Height(items[i]) <= MAX_DEPTH
               <==> depth + 1 + ListHeight(items[i]) <= MAX_DEPTH && TuplesFit(items[i], depth + 1)
          {
            HeightFromTuples(items[i], depth + 1);
          }
          if depth <= MAX_DEPTH {
            HeightOfArray(tuple, items, MAX_DEPTH - depth);
            ListHeightOfList(items, MAX_DEPTH - depth);
          }
        }
      case _ =>
        FlatListHeight(j);
        FlatHeight(j);
    }
  }

  lemma FlatHeight(j: Json)
    requires !j.Dict? && !j.Array?
    ensures Height(j) == 0
  {
  }

  // Cleaning keeps the tuples, each at its depth.
  lemma {:induction false} CleaningKeepsTuples(j: Json, depth: nat)
    ensures TuplesFit(Cleaned(j), depth) <==> TuplesFit(j, depth)
    decreases j, 1
  {
    hide Height;
    match j {
      case Dict(ms) => KeptMembersTuples(ms, depth + 1);
      case Array(tuple, items) =>
        if !tuple {
          KeptItemsTuples(items, depth + 1);
        }
      case _ =>
    }
  }

  predicate ItemsFit(items: seq<Json>, depth: nat) {
    forall i :: 0 <= i < |items| ==> TuplesFit(items[i], depth)
  }

  predicate MembersFit(ms: seq<Member>, depth: nat) {
    forall i :: 0 <= i < |ms| ==> TuplesFit(ms[i].value, depth)
  }

  lemma OneMoreFits(x: Json, rest: seq<Json>, m: Member, others: seq<Member>, depth: nat)
    ensures ItemsFit([x] + rest, depth) <==> TuplesFit(x, depth) && ItemsFit(rest, depth)
    ensures MembersFit([m] + others, depth) <==> TuplesFit(m.value, depth) && MembersFit(others, depth)
  {
    hide TuplesFit;
    assert ([x] + rest)[0] == x && ([m] + others)[0] == m;
    assert forall i :: 0 <= i < |rest| ==> ([x] + rest)[i + 1] == rest[i];
    assert forall i :: 0 <= i < |others| ==> ([m] + others)[i + 1] == others[i];
  }

  lemma {:induction false} KeptItemsTuples(items: seq<Json>, depth: nat)
    ensures ItemsFit(KeptItems(items), depth) <==> ItemsFit(items, depth)
    decreases items, 0
  {
    if items != [] {
      CleaningKeepsTuples(items[0], depth);
      KeptItemsTuples(items[1..], depth);
      assert TuplesFit(Null, depth);
      hide Cleaned, TuplesFit, ItemsFit;
      assert items == [items[0]] + items[1..];
      OneMoreFits(items[0], items[1..], Member(NotString, Null), [], depth);
      OneMoreFits(Cleaned(items[0]), KeptItems(items[1..]), Member(NotString, Null), [], depth);
      assert [] + KeptItems(items[1..]) == KeptItems(items[1..]);
    }
  }

  lemma {:induction false} KeptMembersTuples(ms: seq<Member>, depth: nat)
    ensures MembersFit(KeptMembers(ms), depth) <==> MembersFit(ms, depth)
    decreases ms, 0
  {
    if ms != [] {
      assert ms[0].value < ms[0];
      CleaningKeepsTuples(ms[0].value, depth);
      KeptMembersTuples(ms[1..], depth);
      assert TuplesFit(Null, depth);
      hide Cleaned, TuplesFit, MembersFit;
      assert ms == [ms[0]] + ms[1..];
      OneMoreFits(Null, [], ms[0], ms[1..], depth);
      OneMoreFits(Null, [], Member(ms[0].key, Cleaned(ms[0].value)), KeptMembers(ms[1..]), depth);
      assert [] + KeptMembers(ms[1..]) == KeptMembers(ms[1..]);
    }
  }

  // For every value the cleaner accepts: the writer can fail on depth afterwards exactly if some tuple
  // in the value reaches too deep.
  lemma WriterDepthExactly(j: Json)
    requires CleanEmpty(j, 0).Some?
    ensures Height(CleanEmpty(j, 0).value) <= 128 <==> TuplesFit(j, 0)
  {
    CleanEmptyMeaning(j, 0);
    CleaningKeepsTuples(j, 0);
    HeightFromTuples(Cleaned(j), 0);
    CleaningKeepsListHeight(j, MAX_DEPTH);
    hide CleanEmpty, Height, ListHeight, Cleaned, TuplesFit;
  }

  lemma {:induction false} CleaningKeepsListHeight(j: Json, bound: nat)
    requires ListHeight(j) <= bound
    ensures ListHeight(Cleaned(j)) <= bound
    decreases j, 1
  {
    hide ListHeight;
    match j {
      case Dict(ms) =>
        ListHeightOfDict(ms, bound);
        KeptMembersListHeight(ms, bound);
        ListHeightOfDict(KeptMembers(ms), bound);
        FlatListHeight(Null);
      case Array(tuple, items) =>
        if !tuple {
          ListHeightOfList(items, bound);
          KeptItemsListHeight(items, bound);
          ListHeightOfList(KeptItems(items), bound);
          FlatListHeight(Null);
        }
      case _ => FlatListHeight(Null);
    }
  }

  lemma {:induction false} KeptItemsListHeight(items: seq<Json>, bound: nat)
    requires forall i :: 0 <= i < |items| ==> ListHeight(items[i]) < bound
    ensures forall x :: x in KeptItems(items) ==> ListHeight(x) < bound
    decreases items, 0
  {
    if items != [] {
      CleaningKeepsListHeight(items[0], bound - 1);
      KeptItemsListHeight(items[1..], bound);
      hide Cleaned, ListHeight;
    }
  }

  lemma {:induction false} KeptMembersListHeight(ms: seq<Member>, bound: nat)
    requires forall i :: 0 <= i < |ms| ==> ListHeight(ms[i].value) < bound
    ensures forall m :: m in KeptMembers(ms) ==> ListHeight(m.value) < bound
    decreases ms, 0
  {
    if ms != [] {
      assert ms[0].value < ms[0];
      CleaningKeepsListHeight(ms[0].value, bound - 1);
      KeptMembersListHeight(ms[1..], bound);
      hide Cleaned, ListHeight;
    }
  }

  // Once a value without tuples has been cleaned, writing it cannot fail on depth.
  lemma CleanedFitsTheWriter(j: Json)
    requires TupleFree(j)
    ensures CleanEmpty(j, 0).Some? <==> Height(j) <= 128
    ensures CleanEmpty(j, 0).Some? ==> Height(CleanEmpty(j, 0).value) <= 128
  {
    CleanEmptyMeaning(j, 0);
    TupleFreeHeight(j);
    CleaningKeepsHeight(j);
    hide CleanEmpty, Height, ListHeight, Cleaned;
  }
}
