// Python's `sorted(items, key=...)` for keys that are bytes objects.

module Sorting {

  // Lexicographic order, as Python compares bytes objects.
  predicate Below(a: seq<int>, b: seq<int>) {
    if b == [] then false
    else if a == [] then true
    else if a[0] != b[0] then a[0] < b[0]
    else Below(a[1..], b[1..])
  }

  lemma {:induction false} BelowIsTotal(a: seq<int>, b: seq<int>)
    ensures Below(a, b) || Below(b, a) || a == b
    ensures !(Below(a, b) && Below(b, a)) && !Below(a, a)
  {
    if a != [] {
      BelowIsTotal(a[1..], a[1..]);
      if b != [] {
        BelowIsTotal(a[1..], b[1..]);
        assert a == [a[0]] + a[1..] && b == [b[0]] + b[1..];
      }
    }
  }

  lemma {:induction false} BelowIsTransitive(a: seq<int>, b: seq<int>, c: seq<int>)
    requires Below(a, b) && Below(b, c)
    ensures Below(a, c)
  {
    if a != [] && a[0] == b[0] == c[0] {
      BelowIsTransitive(a[1..], b[1..], c[1..]);
    }
  }

  // Stable insertion: after the elements that are not above x.
  function Insert<T>(x: T, s: seq<T>, key: T -> seq<int>): seq<T> {
    if s == [] then [x]
    else if Below(key(x), key(s[0])) then [x] + s
    else [s[0]] + Insert(x, s[1..], key)
  }

  function Sorted<T>(s: seq<T>, key: T -> seq<int>): seq<T> {
    if s == [] then [] else Insert(s[|s| - 1], Sorted(s[..|s| - 1], key), key)
  }

  ghost predicate Ascending<T>(s: seq<T>, key: T -> seq<int>) {
    forall i, j :: 0 <= i < j < |s| ==> Below(key(s[i]), key(s[j]))
  }

  ghost predicate DistinctKeys<T>(s: seq<T>, key: T -> seq<int>) {
    forall i, j :: 0 <= i < j < |s| ==> key(s[i]) != key(s[j])
  }

  lemma {:induction false} InsertAdds<T>(x: T, s: seq<T>, key: T -> seq<int>)
    ensures multiset(Insert(x, s, key)) == multiset(s) + multiset{x}
  {
    if s != [] {
      InsertAdds(x, s[1..], key);
      assert s == [s[0]] + s[1..];
    }
  }

  lemma {:induction false} SortedIsPermutation<T>(s: seq<T>, key: T -> seq<int>)
    ensures multiset(Sorted(s, key)) == multiset(s) && |Sorted(s, key)| == |s|
  {
    if s != [] {
      var front := s[..|s| - 1];
      SortedIsPermutation(front, key);
      InsertAdds(s[|s| - 1], Sorted(front, key), key);
      assert s == front + [s[|s| - 1]];
    }
    assert |multiset(Sorted(s, key))| == |multiset(s)|;
  }

  lemma ElementOf<T>(a: seq<T>, b: seq<T>, x: T)
    requires multiset(a) == multiset(b) && x in a
    ensures x in b
  {
    assert x in multiset(a);
  }

  lemma {:induction false} InsertAscends<T>(x: T, s: seq<T>, key: T -> seq<int>)
    requires Ascending(s, key) && forall y :: y in s ==> key(y) != key(x)
    ensures Ascending(Insert(x, s, key), key)
  {
    if s != [] {
      BelowIsTotal(key(x), key(s[0]));
      if Below(key(x), key(s[0])) {
        forall j | 0 < j < |s| ensures Below(key(x), key(s[j])) {
          BelowIsTransitive(key(x), key(s[0]), key(s[j]));
        }
      } else {
        InsertAscends(x, s[1..], key);
        InsertAdds(x, s[1..], key);
        var rest := Insert(x, s[1..], key);
        forall j | 0 <= j < |rest| ensures Below(key(s[0]), key(rest[j])) {
          assert rest[j] in multiset(s[1..]) + multiset{x};
          assert rest[j] == x || rest[j] in s[1..];
        }
      }
    }
  }

  lemma {:induction false} SortedAscends<T>(s: seq<T>, key: T -> seq<int>)
    requires DistinctKeys(s, key)
    ensures Ascending(Sorted(s, key), key)
  {
    if s != [] {
      var front := s[..|s| - 1];
      SortedAscends(front, key);
      SortedIsPermutation(front, key);
      forall y | y in Sorted(front, key) ensures key(y) != key(s[|s| - 1]) {
        ElementOf(Sorted(front, key), front, y);
      }
      InsertAscends(s[|s| - 1], Sorted(front, key), key);
    }
  }

  // There is only one way to order the same elements strictly.
  lemma {:induction false} AscendingIsUnique<T>(a: seq<T>, b: seq<T>, key: T -> seq<int>)
    requires Ascending(a, key) && Ascending(b, key) && multiset(a) == multiset(b)
    ensures a == b
  {
    assert |multiset(a)| == |multiset(b)|;
    if a != [] {
      ElementOf(a, b, a[0]);
      ElementOf(b, a, b[0]);
      BelowIsTotal(key(a[0]), key(b[0]));
      assert a[0] == b[0];
      assert a == [a[0]] + a[1..] && b == [b[0]] + b[1..];
      assert multiset(a[1..]) == multiset(a) - multiset{a[0]};
      assert multiset(b[1..]) == multiset(b) - multiset{b[0]};
      AscendingIsUnique(a[1..], b[1..], key);
    }
  }

  lemma OrderDoesNotMatter<T>(a: seq<T>, b: seq<T>, key: T -> seq<int>)
    requires multiset(a) == multiset(b) && DistinctKeys(a, key) && DistinctKeys(b, key)
    ensures Sorted(a, key) == Sorted(b, key)
  {
    SortedIsPermutation(a, key);
    SortedIsPermutation(b, key);
    SortedAscends(a, key);
    SortedAscends(b, key);
    AscendingIsUnique(Sorted(a, key), Sorted(b, key), key);
  }

  // Distinct elements, each of them in another sequence of the same length: a permutation.
  lemma {:induction false} SameElements<T>(a: seq<T>, b: seq<T>)
    requires |a| == |b| && (forall x :: x in a ==> x in b)
    requires forall i, j :: 0 <= i < j < |a| ==> a[i] != a[j]
    ensures multiset(a) == multiset(b)
  {
    if a != [] {
      assert a[0] in a;
      var k :| 0 <= k < |b| && b[k] == a[0];
      var others := b[..k] + b[k + 1..];
      assert b == b[..k] + [b[k]] + b[k + 1..];
      forall x | x in a[1..] ensures x in others {
        assert x in b && x != b[k];
      }
      SameElements(a[1..], others);
      assert a == [a[0]] + a[1..];
    }
  }
}
