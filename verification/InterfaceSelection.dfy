// Choosing an interface of an Agent Card: src/a2a/client/client_factory.py:91-256, 298-364 and
// src/a2a/compat/v0_3/versions.py:8-18.

module InterfaceSelection {
  import opened Options

  datatype Interface = Interface(binding: string, version: string, url: string, tenant: string)

  const JSONRPC := "JSONRPC"
  const HTTP_JSON := "HTTP+JSON"
  const GRPC := "GRPC"
  const VERSION_1_0 := "1.0"
  const VERSION_0_3 := "0.3"

  // `packaging.version.Version`, as far as it is used: versions compare like numbers, and a
  // text that is not a version has none.
  datatype Versions = Versions(key: string -> Option<real>) {
    predicate Valid() {
      key("0.3").Some? && key("1.0").Some? && key("0.3").value < key("1.0").value
    }

    predicate AboveCurrent(version: string)
      requires Valid()
    {
      key(version).Some? && key(version).value > key(VERSION_1_0).value
    }

    predicate AtLeastOldest(version: string)
      requires Valid()
    {
      key(version).Some? && key(version).value >= key(VERSION_0_3).value
    }

    // `is_legacy_version`
    predicate IsLegacy(version: string)
      requires Valid()
    {
      version != "" && AtLeastOldest(version) && key(version).value < key(VERSION_1_0).value
    }

    // How good an interface of this version is, best first; UNUSABLE is never chosen.
    function Rank(version: string): nat
      requires Valid()
    {
      if version == VERSION_1_0 then 0
      else if version == "" then 3
      else if AboveCurrent(version) then 1
      else if AtLeastOldest(version) then 2
      else UNUSABLE
    }
  }

  const UNUSABLE: nat := 4

  // ----- The best interface ------------------------------------------------------------------------

  predicate Matches(i: Interface, bindings: Option<seq<string>>, url: Option<string>) {
    && (bindings.None? || i.binding in bindings.value)
    && (url.None? || i.url == url.value)
  }

  function Candidates(interfaces: seq<Interface>, bindings: Option<seq<string>>, url: Option<string>): seq<Interface> {
    if interfaces == [] then []
    else
      var last := interfaces[|interfaces| - 1];
      Candidates(interfaces[..|interfaces| - 1], bindings, url) + (if Matches(last, bindings, url) then [last] else [])
  }

  function FirstOfRank(cs: seq<Interface>, rank: nat, versions: Versions): Option<Interface>
    requires versions.Valid()
  {
    if cs == [] then None
    else
      var earlier, last := FirstOfRank(cs[..|cs| - 1], rank, versions), cs[|cs| - 1];
      if earlier.Some? then earlier
      else if versions.Rank(last.version) == rank then Some(last)
      else None
  }

  function BestFrom(cs: seq<Interface>, rank: nat, versions: Versions): Option<Interface>
    requires versions.Valid()
    decreases UNUSABLE - rank
  {
    if rank >= UNUSABLE then None
    else if FirstOfRank(cs, rank, versions).Some? then FirstOfRank(cs, rank, versions)
    else BestFrom(cs, rank + 1, versions)
  }

  // The first of the best rank there is.
  function Best(interfaces: seq<Interface>, bindings: Option<seq<string>>, url: Option<string>,
      versions: Versions): Option<Interface>
    requires versions.Valid()
  {
    BestFrom(Candidates(interfaces, bindings, url), 0, versions)
  }

  // `_find_best_interface`
  method FindBestInterface(interfaces: seq<Interface>, bindings: Option<seq<string>>, url: Option<string>,
      versions: Versions)
    returns (r: Option<Interface>)
    requires versions.Valid()
    ensures r == Best(interfaces, bindings, url, versions)
  {
    var candidates := Candidates(interfaces, bindings, url);
    NoneYet(candidates, versions);
    UnfoldBest(candidates, versions);
    assert Best(interfaces, bindings, url, versions) == BestFrom(candidates, 0, versions);
    hide Candidates, FirstOfRank, BestFrom, Best;
    if candidates == [] {
      assert candidates == candidates[..0];
      return None;
    }
    for k := 0 to |candidates|
      invariant FirstOfRank(candidates[..k], 0, versions) == None
    {
      NextOfRank(candidates, k, 0, versions);
      if candidates[k].version == VERSION_1_0 {
        FirstStays(candidates, k + 1, 0, versions);
        return Some(candidates[k]);
      }
    }
    assert candidates[..|candidates|] == candidates;
    var bestAbove, bestAtLeast, bestNoVersion := None, None, None;
    for k := 0 to |candidates|
      invariant bestAbove == FirstOfRank(candidates[..k], 1, versions)
      invariant bestAbove == None ==> bestAtLeast == FirstOfRank(candidates[..k], 2, versions)
      invariant bestNoVersion == FirstOfRank(candidates[..k], 3, versions)
    {
      var i := candidates[k];
      NoneOfRank(candidates, k, 0, versions);
      NextOfRank(candidates, k, 1, versions);
      NextOfRank(candidates, k, 2, versions);
      NextOfRank(candidates, k, 3, versions);
      if i.version == "" {
        if bestNoVersion == None {
          bestNoVersion := Some(i);
        }
        continue;
      }
      var v := versions.key(i.version);
      if v.Some? {
        if bestAbove == None && v.value > versions.key(VERSION_1_0).value {
          bestAbove := Some(i);
        }
        if bestAtLeast == None && v.value >= versions.key(VERSION_0_3).value {
          bestAtLeast := Some(i);
        }
      }
    }
    r := if bestAbove.Some? then bestAbove else if bestAtLeast.Some? then bestAtLeast else bestNoVersion;
  }

  lemma NoneYet(cs: seq<Interface>, versions: Versions)
    requires versions.Valid()
    ensures forall rank :: FirstOfRank(cs[..0], rank, versions) == None
  {
  }

  // One more candidate.
  lemma NextOfRank(cs: seq<Interface>, k: nat, rank: nat, versions: Versions)
    requires versions.Valid() && k < |cs|
    ensures var earlier := FirstOfRank(cs[..k], rank, versions);
      FirstOfRank(cs[..k + 1], rank, versions)
      == if earlier.Some? then earlier else if versions.Rank(cs[k].version) == rank then Some(cs[k]) else None
  {
    assert cs[..k + 1][..k] == cs[..k];
    hide Versions.Rank;
  }

  lemma UnfoldBest(cs: seq<Interface>, versions: Versions)
    requires versions.Valid()
    ensures BestFrom(cs, 0, versions)
         == if FirstOfRank(cs, 0, versions).Some? then FirstOfRank(cs, 0, versions)
            else if FirstOfRank(cs, 1, versions).Some? then FirstOfRank(cs, 1, versions)
            else if FirstOfRank(cs, 2, versions).Some? then FirstOfRank(cs, 2, versions)
            else FirstOfRank(cs, 3, versions)
  {
    hide FirstOfRank;
    assert BestFrom(cs, 4, versions) == None;
    assert BestFrom(cs, 3, versions) == FirstOfRank(cs, 3, versions);
    assert BestFrom(cs, 2, versions) == if FirstOfRank(cs, 2, versions).Some? then FirstOfRank(cs, 2, versions)
        else BestFrom(cs, 3, versions);
    assert BestFrom(cs, 1, versions) == if FirstOfRank(cs, 1, versions).Some? then FirstOfRank(cs, 1, versions)
        else BestFrom(cs, 2, versions);
  }

  lemma {:induction false} FirstStays(cs: seq<Interface>, n: nat, rank: nat, versions: Versions)
    requires versions.Valid() && n <= |cs| && FirstOfRank(cs[..n], rank, versions).Some?
    ensures FirstOfRank(cs, rank, versions) == FirstOfRank(cs[..n], rank, versions)
    decreases |cs|
  {
    if n == |cs| {
      assert cs[..n] == cs;
    } else {
      assert cs[..|cs| - 1][..n] == cs[..n];
      FirstStays(cs[..|cs| - 1], n, rank, versions);
    }
  }

  // Where the first of a rank stands, and what no first means.
  lemma {:induction false} WhereFirst(cs: seq<Interface>, rank: nat, versions: Versions)
    requires versions.Valid()
    ensures var r := FirstOfRank(cs, rank, versions);
      if r.None? then forall k :: 0 <= k < |cs| ==> versions.Rank(cs[k].version) != rank
      else exists k :: 0 <= k < |cs| && cs[k] == r.value && versions.Rank(cs[k].version) == rank
                       && forall i :: 0 <= i < k ==> versions.Rank(cs[i].version) != rank
    decreases |cs|
  {
    if cs != [] {
      var n := |cs| - 1;
      WhereFirst(cs[..n], rank, versions);
      var earlier := FirstOfRank(cs[..n], rank, versions);
      if earlier.Some? {
        var k :| 0 <= k < n && cs[..n][k] == earlier.value && versions.Rank(cs[..n][k].version) == rank
                 && forall i :: 0 <= i < k ==> versions.Rank(cs[..n][i].version) != rank;
        assert cs[k] == earlier.value && forall i :: 0 <= i < k ==> cs[i] == cs[..n][i];
      } else {
        assert forall i :: 0 <= i < n ==> cs[i] == cs[..n][i];
        assert versions.Rank(cs[n].version) == rank ==> cs[n] == FirstOfRank(cs, rank, versions).value;
      }
    }
  }

  lemma NoneOfRank(cs: seq<Interface>, k: nat, rank: nat, versions: Versions)
    requires versions.Valid() && k < |cs| && FirstOfRank(cs[..|cs|], rank, versions) == None
    ensures versions.Rank(cs[k].version) != rank
  {
    assert cs[..|cs|] == cs;
    WhereFirst(cs, rank, versions);
  }

  // ----- What is chosen ------------------------------------------------------------------------------

  predicate IsBestAt(cs: seq<Interface>, k: nat, versions: Versions)
    requires versions.Valid() && k < |cs|
  {
    && versions.Rank(cs[k].version) < UNUSABLE
    && (forall i :: 0 <= i < |cs| ==> versions.Rank(cs[i].version) >= versions.Rank(cs[k].version))
    && (forall i :: 0 <= i < k ==> versions.Rank(cs[i].version) > versions.Rank(cs[k].version))
  }

  // The answer r is right for the candidates: the first of the best rank, or none if all are unusable.
  predicate Answers(cs: seq<Interface>, r: Option<Interface>, versions: Versions)
    requires versions.Valid()
  {
    if r.None? then forall i :: 0 <= i < |cs| ==> versions.Rank(cs[i].version) == UNUSABLE
    else exists k :: 0 <= k < |cs| && cs[k] == r.value && IsBestAt(cs, k, versions)
  }

  lemma {:induction false} BestFromMeaning(cs: seq<Interface>, rank: nat, versions: Versions)
    requires versions.Valid() && forall i :: 0 <= i < |cs| ==> versions.Rank(cs[i].version) >= rank
    ensures Answers(cs, BestFrom(cs, rank, versions), versions)
    decreases UNUSABLE - rank
  {
    hide FirstOfRank, Versions.Valid;
    if rank < UNUSABLE {
      WhereFirst(cs, rank, versions);
      if FirstOfRank(cs, rank, versions).None? {
        BestFromMeaning(cs, rank + 1, versions);
      } else {
        var k :| 0 <= k < |cs| && cs[k] == FirstOfRank(cs, rank, versions).value && versions.Rank(cs[k].version) == rank
                 && forall i :: 0 <= i < k ==> versions.Rank(cs[i].version) != rank;
        assert IsBestAt(cs, k, versions);
      }
    }
  }

  // Of the matching interfaces the first of the best rank is chosen, and none only if all are unusable.
  lemma BestMeaning(interfaces: seq<Interface>, bindings: Option<seq<string>>, url: Option<string>, versions: Versions)
    requires versions.Valid()
    ensures Answers(Candidates(interfaces, bindings, url), Best(interfaces, bindings, url, versions), versions)
    ensures Best(interfaces, bindings, url, versions).Some? ==>
        Matches(Best(interfaces, bindings, url, versions).value, bindings, url)
  {
    var cs, r := Candidates(interfaces, bindings, url), Best(interfaces, bindings, url, versions);
    BestFromMeaning(cs, 0, versions);
    CandidatesMatch(interfaces, bindings, url);
    hide IsBestAt;
    if r.Some? {
      var k :| 0 <= k < |cs| && cs[k] == r.value && IsBestAt(cs, k, versions);
      assert cs[k] in cs;
    }
  }

  // The candidates are the interfaces that match.
  lemma {:induction false} CandidatesMatch(interfaces: seq<Interface>, bindings: Option<seq<string>>,
      url: Option<string>)
    ensures forall i :: i in Candidates(interfaces, bindings, url) <==> i in interfaces && Matches(i, bindings, url)
    decreases |interfaces|
  {
    if interfaces != [] {
      var n := |interfaces| - 1;
      CandidatesMatch(interfaces[..n], bindings, url);
      hide Matches;
      assert interfaces == interfaces[..n] + [interfaces[n]];
    }
  }

  // ----- The order of preference ------------------------------------------------------------------------

  // Interface k is of the bindings and at the URL asked for, and its version is as wanted.
  ghost predicate Hit(interfaces: seq<Interface>, k: nat, bindings: Option<seq<string>>, url: Option<string>,
                      wanted: string -> bool)
    requires k < |interfaces|
  {
    && (bindings.Some? ==> interfaces[k].binding in bindings.value)
    && (url.Some? ==> interfaces[k].url == url.value)
    && wanted(interfaces[k].version)
  }

  ghost predicate AnyHit(interfaces: seq<Interface>, bindings: Option<seq<string>>, url: Option<string>,
                         wanted: string -> bool) {
    exists k :: 0 <= k < |interfaces| && Hit(interfaces, k, bindings, url, wanted)
  }

  // r is the first hit in the order of the card.
  ghost predicate IsFirstHit(interfaces: seq<Interface>, r: Option<Interface>, bindings: Option<seq<string>>,
                             url: Option<string>, wanted: string -> bool) {
    exists k :: 0 <= k < |interfaces| && Hit(interfaces, k, bindings, url, wanted) && r == Some(interfaces[k])
                && forall i :: 0 <= i < k ==> !Hit(interfaces, i, bindings, url, wanted)
  }

  ghost function OfRank(rank: nat, versions: Versions): string -> bool
    requires versions.Valid()
  {
    version => versions.Valid() && versions.Rank(version) == rank
  }

  // r is the first hit if there is one, and none otherwise.
  ghost predicate FirstOrNone(interfaces: seq<Interface>, r: Option<Interface>, bindings: Option<seq<string>>,
                              url: Option<string>, wanted: string -> bool) {
    if AnyHit(interfaces, bindings, url, wanted) then IsFirstHit(interfaces, r, bindings, url, wanted) else r == None
  }

  lemma HitsStay(front: seq<Interface>, last: Interface, k: nat, bindings: Option<seq<string>>, url: Option<string>,
                 wanted: string -> bool)
    requires k < |front|
    ensures Hit(front + [last], k, bindings, url, wanted) <==> Hit(front, k, bindings, url, wanted)
  {
  }

  lemma FirstOfMore(front: seq<Interface>, last: Interface, r: Option<Interface>, bindings: Option<seq<string>>,
                    url: Option<string>, wanted: string -> bool)
    requires FirstOrNone(front, r, bindings, url, wanted)
    ensures var n := |front|;
      FirstOrNone(front + [last], if r.Some? then r
                                  else if Hit(front + [last], n, bindings, url, wanted) then Some(last)
                                  else None, bindings, url, wanted)
  {
    hide Hit;
    var more, n := front + [last], |front|;
    forall k: nat | k < n ensures Hit(more, k, bindings, url, wanted) <==> Hit(front, k, bindings, url, wanted) {
      HitsStay(front, last, k, bindings, url, wanted);
    }
    if r.Some? {
      var k :| 0 <= k < n && Hit(front, k, bindings, url, wanted) && r == Some(front[k])
               && forall i :: 0 <= i < k ==> !Hit(front, i, bindings, url, wanted);
      assert Hit(more, k, bindings, url, wanted) && more[k] == front[k];
      assert IsFirstHit(more, r, bindings, url, wanted);
    } else if Hit(more, n, bindings, url, wanted) {
      assert more[n] == last;
      assert IsFirstHit(more, Some(last), bindings, url, wanted);
    }
  }

  lemma NextCandidate(front: seq<Interface>, last: Interface, bindings: Option<seq<string>>, url: Option<string>,
                      rank: nat, versions: Versions)
    requires versions.Valid()
    ensures var r := FirstOfRank(Candidates(front, bindings, url), rank, versions);
      FirstOfRank(Candidates(front + [last], bindings, url), rank, versions) ==
        if r.Some? then r
        else if Hit(front + [last], |front|, bindings, url, OfRank(rank, versions)) then Some(last)
        else None
  {
    var cs := Candidates(front, bindings, url);
    assert (front + [last])[..|front|] == front;
    hide Versions.Rank;
    if Matches(last, bindings, url) {
      assert (cs + [last])[..|cs|] == cs;
    } else {
      assert cs + [] == cs;
    }
  }

  lemma {:induction false} FirstInCard(interfaces: seq<Interface>, bindings: Option<seq<string>>, url: Option<string>,
                                       rank: nat, versions: Versions)
    requires versions.Valid()
    ensures FirstOrNone(interfaces, FirstOfRank(Candidates(interfaces, bindings, url), rank, versions), bindings, url,
                        OfRank(rank, versions))
    decreases |interfaces|
  {
    if interfaces != [] {
      var front, last := interfaces[..|interfaces| - 1], interfaces[|interfaces| - 1];
      assert interfaces == front + [last];
      FirstInCard(front, bindings, url, rank, versions);
      hide *;
      NextCandidate(front, last, bindings, url, rank, versions);
      FirstOfMore(front, last, FirstOfRank(Candidates(front, bindings, url), rank, versions), bindings, url,
                  OfRank(rank, versions));
    }
  }

  lemma RanksMean(version: string, versions: Versions)
    requires versions.Valid()
    ensures versions.Rank(version) == 0 <==> version == "1.0"
    ensures versions.Rank(version) == 1 <==>
      version != "" && versions.key(version).Some? && versions.key(version).value > versions.key("1.0").value
    ensures versions.Rank(version) == 3 <==> version == ""
    ensures versions.Rank(version) == 2 <==>
      && version != "" && version != "1.0" && versions.key(version).Some?
      && versions.key("0.3").value <= versions.key(version).value <= versions.key("1.0").value
  {
  }

  // The wishes, best first: version 1.0, a newer one, one from 0.3 on, none at all.
  ghost function IsCurrent(): string -> bool {
    version => version == "1.0"
  }

  ghost function IsNewer(versions: Versions): string -> bool {
    version => version != "" && versions.key(version).Some? && versions.key("1.0").Some?
               && versions.key(version).value > versions.key("1.0").value
  }

  ghost function IsSupported(versions: Versions): string -> bool {
    version => version != "" && versions.key(version).Some? && versions.key("0.3").Some?
               && versions.key(version).value >= versions.key("0.3").value
  }

  ghost function IsUnversioned(): string -> bool {
    version => version == ""
  }

  // The first wish that some interface of the card meets decides, and of those that meet it the first one
  // in the card is chosen.
  lemma PreferenceOrder(interfaces: seq<Interface>, bindings: Option<seq<string>>, url: Option<string>,
                        versions: Versions)
    requires versions.Valid()
    ensures var r := Best(interfaces, bindings, url, versions);
      if AnyHit(interfaces, bindings, url, IsCurrent()) then IsFirstHit(interfaces, r, bindings, url, IsCurrent())
      else if AnyHit(interfaces, bindings, url, IsNewer(versions)) then
        IsFirstHit(interfaces, r, bindings, url, IsNewer(versions))
      else if AnyHit(interfaces, bindings, url, IsSupported(versions)) then
        IsFirstHit(interfaces, r, bindings, url, IsSupported(versions))
      else if AnyHit(interfaces, bindings, url, IsUnversioned()) then
        IsFirstHit(interfaces, r, bindings, url, IsUnversioned())
      else r == None
  {
    UnfoldBest(Candidates(interfaces, bindings, url), versions);
    WishesAreRanks(interfaces, bindings, url, versions);
    FirstInCard(interfaces, bindings, url, 0, versions);
    FirstInCard(interfaces, bindings, url, 1, versions);
    FirstInCard(interfaces, bindings, url, 2, versions);
    FirstInCard(interfaces, bindings, url, 3, versions);
    hide AnyHit, IsFirstHit, OfRank, IsCurrent, IsNewer, IsSupported, IsUnversioned, BestFrom, FirstOfRank, Candidates;
  }

  lemma SameHits(interfaces: seq<Interface>, bindings: Option<seq<string>>, url: Option<string>,
                 wanted: string -> bool, same: string -> bool)
    requires forall k :: 0 <= k < |interfaces| ==>
      (Hit(interfaces, k, bindings, url, wanted) <==> Hit(interfaces, k, bindings, url, same))
    ensures AnyHit(interfaces, bindings, url, wanted) <==> AnyHit(interfaces, bindings, url, same)
    ensures forall r :: IsFirstHit(interfaces, r, bindings, url, wanted) <==>
        IsFirstHit(interfaces, r, bindings, url, same)
  {
    hide Hit;
  }

  // What a rank means on a card on which no better wish is met.
  lemma WishesAreRanks(interfaces: seq<Interface>, bindings: Option<seq<string>>, url: Option<string>,
                       versions: Versions)
    requires versions.Valid()
    ensures AnyHit(interfaces, bindings, url, IsCurrent()) <==> AnyHit(interfaces, bindings, url, OfRank(0, versions))
    ensures forall r :: IsFirstHit(interfaces, r, bindings, url, IsCurrent())
              <==> IsFirstHit(interfaces, r, bindings, url, OfRank(0, versions))
    ensures AnyHit(interfaces, bindings, url, IsNewer(versions)) <==>
        AnyHit(interfaces, bindings, url, OfRank(1, versions))
    ensures forall r :: IsFirstHit(interfaces, r, bindings, url, IsNewer(versions))
              <==> IsFirstHit(interfaces, r, bindings, url, OfRank(1, versions))
    ensures !AnyHit(interfaces, bindings, url, IsCurrent()) && !AnyHit(interfaces, bindings, url, IsNewer(versions)) ==>
      && (AnyHit(interfaces, bindings, url, IsSupported(versions)) <==>
          AnyHit(interfaces, bindings, url, OfRank(2, versions)))
      && forall r :: IsFirstHit(interfaces, r, bindings, url, IsSupported(versions))
              <==> IsFirstHit(interfaces, r, bindings, url, OfRank(2, versions))
    ensures AnyHit(interfaces, bindings, url, IsUnversioned()) <==>
        AnyHit(interfaces, bindings, url, OfRank(3, versions))
    ensures forall r :: IsFirstHit(interfaces, r, bindings, url, IsUnversioned())
              <==> IsFirstHit(interfaces, r, bindings, url, OfRank(3, versions))
  {
    forall k | 0 <= k < |interfaces|
      ensures Hit(interfaces, k, bindings, url, IsCurrent()) <==> Hit(interfaces, k, bindings, url, OfRank(0, versions))
      ensures Hit(interfaces, k, bindings, url, IsNewer(versions)) <==>
          Hit(interfaces, k, bindings, url, OfRank(1, versions))
      ensures Hit(interfaces, k, bindings, url, IsUnversioned()) <==>
          Hit(interfaces, k, bindings, url, OfRank(3, versions))
      ensures !Hit(interfaces, k, bindings, url, IsCurrent()) && !Hit(interfaces, k, bindings, url, IsNewer(versions))
          ==>
        (Hit(interfaces, k, bindings, url, IsSupported(versions)) <==>
            Hit(interfaces, k, bindings, url, OfRank(2, versions)))
    {
      RanksMean(interfaces[k].version, versions);
      hide Versions.Rank;
    }
    SameHits(interfaces, bindings, url, IsCurrent(), OfRank(0, versions));
    SameHits(interfaces, bindings, url, IsNewer(versions), OfRank(1, versions));
    SameHits(interfaces, bindings, url, IsUnversioned(), OfRank(3, versions));
    if !AnyHit(interfaces, bindings, url, IsCurrent()) && !AnyHit(interfaces, bindings, url, IsNewer(versions)) {
      SameHits(interfaces, bindings, url, IsSupported(versions), OfRank(2, versions));
    }
    hide Hit, IsFirstHit;
  }

  // ----- Stability -----------------------------------------------------------------------------------

  lemma {:induction false} FilterAgain(interfaces: seq<Interface>, bindings: Option<seq<string>>, url: string)
    ensures Candidates(interfaces, bindings, Some(url)) == Candidates(Candidates(interfaces, bindings, None), None,
        Some(url))
    decreases |interfaces|
  {
    if interfaces != [] {
      var front, last := interfaces[..|interfaces| - 1], interfaces[|interfaces| - 1];
      FilterAgain(front, bindings, url);
      var cs := Candidates(front, bindings, None);
      if Matches(last, bindings, None) {
        assert (cs + [last])[..|cs|] == cs;
      } else {
        assert cs + [] == cs;
      }
    }
  }

  lemma {:induction false} FilterKeepsFirst(cs: seq<Interface>, url: string, rank: nat, versions: Versions)
    requires versions.Valid()
    ensures var r, s := FirstOfRank(cs, rank, versions), FirstOfRank(Candidates(cs, None, Some(url)), rank, versions);
      && (r.None? ==> s.None?)
      && (r.Some? && r.value.url == url ==> s == r)
    decreases |cs|
  {
    if cs != [] {
      var front, last := cs[..|cs| - 1], cs[|cs| - 1];
      FilterKeepsFirst(front, url, rank, versions);
      var kept := Candidates(front, None, Some(url));
      if last.url == url {
        assert (kept + [last])[..|kept|] == kept;
      } else {
        assert kept + [] == kept;
      }
    }
  }

  lemma {:induction false} FilterKeepsBest(cs: seq<Interface>, rank: nat, versions: Versions)
    requires versions.Valid() && BestFrom(cs, rank, versions).Some?
    ensures var r := BestFrom(cs, rank, versions);
      BestFrom(Candidates(cs, None, Some(r.value.url)), rank, versions) == r
    decreases UNUSABLE - rank
  {
    hide FirstOfRank, Candidates, Versions.Valid;
    var url := BestFrom(cs, rank, versions).value.url;
    FilterKeepsFirst(cs, url, rank, versions);
    if FirstOfRank(cs, rank, versions).None? {
      FilterKeepsBest(cs, rank + 1, versions);
    }
  }

  // Choosing again among the interfaces of the chosen binding and URL gives the same interface.
  lemma ChoiceIsStable(interfaces: seq<Interface>, bindings: Option<seq<string>>, versions: Versions)
    requires versions.Valid() && Best(interfaces, bindings, None, versions).Some?
    ensures var chosen := Best(interfaces, bindings, None, versions);
      Best(interfaces, bindings, Some(chosen.value.url), versions) == chosen
  {
    hide BestFrom, Candidates;
    FilterAgain(interfaces, bindings, Best(interfaces, bindings, None, versions).value.url);
    FilterKeepsBest(Candidates(interfaces, bindings, None), 0, versions);
  }

  // ----- Creating a client ----------------------------------------------------------------------------

  // The interface `create` selects: for each binding in the client's order the best interface until
  // there is one, or the best of the first binding in the server's order that the client has.
  function SelectByClient(interfaces: seq<Interface>, clientSet: seq<string>, versions: Versions): Option<Interface>
    requires versions.Valid()
  {
    if clientSet == [] then None
    else
      var best := Best(interfaces, Some([clientSet[0]]), None, versions);
      if best.Some? then best else SelectByClient(interfaces, clientSet[1..], versions)
  }

  function SelectByServer(interfaces: seq<Interface>, from: nat, clientSet: seq<string>,
      versions: Versions): Option<Interface>
    requires versions.Valid() && from <= |interfaces|
    decreases |interfaces| - from
  {
    if from == |interfaces| then None
    else if interfaces[from].binding in clientSet then Best(interfaces, Some([interfaces[from].binding]), None,
        versions)
    else SelectByServer(interfaces, from + 1, clientSet, versions)
  }

  function Select(interfaces: seq<Interface>, clientSet: seq<string>, preferClient: bool,
      versions: Versions): Option<Interface>
    requires versions.Valid()
  {
    if preferClient then SelectByClient(interfaces, clientSet, versions)
    else SelectByServer(interfaces, 0, clientSet, versions)
  }

  datatype Producer = Default(binding: string) | Custom(id: nat)

  datatype Transport = Transport(binding: string, legacy: bool, url: string) | CustomTransport(id: nat, url: string)

  datatype Outcome = Client(transport: Transport, tenant: Option<string>)
      | NoCompatibleTransport | NoClientFor(binding: string)

  class ClientFactory {
    const versions: Versions
    const supportedBindings: seq<string>
    const useClientPreference: bool
    const grpcInstalled: bool
    const compatGrpcInstalled: bool
    var registry: map<string, Producer>

    // A default producer is registered under its own binding.
    ghost predicate Valid()
      reads this
    {
      versions.Valid() && forall b :: b in registry && registry[b].Default? ==> registry[b].binding == b
    }

    constructor (versions: Versions, supportedBindings: seq<string>, useClientPreference: bool,
                 grpcInstalled: bool, compatGrpcInstalled: bool)
      requires versions.Valid()
      ensures Valid() && registry == map[]
      ensures this.versions == versions && this.supportedBindings == supportedBindings
      ensures this.useClientPreference == useClientPreference
      ensures this.grpcInstalled == grpcInstalled && this.compatGrpcInstalled == compatGrpcInstalled
    {
      this.versions, this.supportedBindings, this.useClientPreference :=
          versions, supportedBindings, useClientPreference;
      this.grpcInstalled, this.compatGrpcInstalled := grpcInstalled, compatGrpcInstalled;
      registry := map[];
    }

    // `register`
    method Register(name: string, producer: Producer)
      requires Valid() && (producer.Default? ==> producer.binding == name)
      modifies this
      ensures Valid() && registry == old(registry)[name := producer]
    {
      registry := registry[name := producer];
    }

    // `_register_defaults`; no means the ImportError for a gRPC that is not installed.
    method RegisterDefaults() returns (ok: bool)
      requires Valid() && registry == map[]
      modifies this
      ensures Valid() && (!ok <==> "GRPC" in supportedBindings && !grpcInstalled)
      ensures forall b :: b in registry <==>
        (b == "JSONRPC" && ("JSONRPC" in supportedBindings || supportedBindings == []))
        || (b == "HTTP+JSON" && "HTTP+JSON" in supportedBindings)
        || (b == "GRPC" && "GRPC" in supportedBindings && grpcInstalled)
      ensures forall b :: b in registry ==> registry[b] == Default(b)
    {
      if JSONRPC in supportedBindings || supportedBindings == [] {
        Register(JSONRPC, Default(JSONRPC));
      }
      if HTTP_JSON in supportedBindings {
        Register(HTTP_JSON, Default(HTTP_JSON));
      }
      if GRPC in supportedBindings {
        if !grpcInstalled {
          return false;
        }
        Register(GRPC, Default(GRPC));
      }
      return true;
    }

    // The client's bindings; none means JSON-RPC.
    function ClientSet(): seq<string> {
      if supportedBindings == [] then [JSONRPC] else supportedBindings
    }

    // From 0.3 on and below 1.0 a version is legacy; for gRPC that only shows if the legacy transport is
    // installed.
    ghost predicate MadeLegacy(binding: string, version: string)
      requires versions.Valid()
    {
      && version != "" && versions.key(version).Some?
      && versions.key("0.3").value <= versions.key(version).value < versions.key("1.0").value
      && (binding == "GRPC" ==> compatGrpcInstalled)
    }

    // The default producers: they are given a URL and look the interface up again.
    method Produce(producer: Producer, interfaces: seq<Interface>, url: string) returns (t: Transport)
      requires versions.Valid()
      ensures producer.Custom? ==> t == CustomTransport(producer.id, url)
      ensures producer.Default? ==>
        var i := Best(interfaces, Some([producer.binding]), Some(url), versions);
        t == Transport(producer.binding, MadeLegacy(producer.binding, if i.Some? then i.value.version else "1.0"), url)
    {
      match producer {
        case Custom(id) => return CustomTransport(id, url);
        case Default(binding) =>
          var found := FindBestInterface(interfaces, Some([binding]), Some(url), versions);
          var version := if found.Some? then found.value.version else VERSION_1_0;
          var legacy := versions.IsLegacy(version);
          if binding == GRPC {
            legacy := legacy && compatGrpcInstalled;
          }
          return Transport(binding, legacy, url);
      }
    }

    // The outer loops of `create`.
    method SelectInterface(interfaces: seq<Interface>) returns (transportProtocol: string, selected: Option<Interface>)
      requires versions.Valid()
      ensures selected == Select(interfaces, ClientSet(), useClientPreference, versions)
      ensures selected.Some? ==> transportProtocol == selected.value.binding
    {
      hide Best;
      transportProtocol, selected := "", None;
      var clientSet := ClientSet();
      if useClientPreference {
        for k := 0 to |clientSet|
          invariant SelectByClient(interfaces, clientSet, versions)
              == SelectByClient(interfaces, clientSet[k..], versions)
          invariant selected == None
        {
          assert clientSet[k..][0] == clientSet[k] && clientSet[k..][1..] == clientSet[k + 1..];
          selected := FindBestInterface(interfaces, Some([clientSet[k]]), None, versions);
          if selected.Some? {
            transportProtocol := clientSet[k];
            HasBinding(interfaces, clientSet[k], None, versions);
            return;
          }
        }
      } else {
        for k := 0 to |interfaces|
          invariant SelectByServer(interfaces, 0, clientSet, versions)
              == SelectByServer(interfaces, k, clientSet, versions)
          invariant selected == None
        {
          if interfaces[k].binding in clientSet {
            transportProtocol := interfaces[k].binding;
            selected := FindBestInterface(interfaces, Some([transportProtocol]), None, versions);
            if selected.Some? {
              HasBinding(interfaces, transportProtocol, None, versions);
            }
            return;
          }
        }
      }
    }

    // `create`. The default producers make the transport for the version of the selected interface.
    method Create(interfaces: seq<Interface>) returns (r: Outcome)
      requires Valid()
      ensures var selected := Select(interfaces, ClientSet(), useClientPreference, versions);
        if selected.None? || selected.value.binding == "" then r == NoCompatibleTransport
        else var i := selected.value;
          if i.binding !in registry then r == NoClientFor(i.binding)
          else
            && r.Client?
            && r.tenant == (if i.tenant == "" then None else Some(i.tenant))
            && r.transport == match registry[i.binding]
               case Custom(id) => CustomTransport(id, i.url)
               case Default(_) => Transport(i.binding, MadeLegacy(i.binding, i.version), i.url)
    {
      hide Best;
      var transportProtocol, selected := SelectInterface(interfaces);
      if selected.None? || transportProtocol == "" {
        return NoCompatibleTransport;
      }
      if transportProtocol !in registry {
        return NoClientFor(transportProtocol);
      }
      SelectedIsStable(interfaces, ClientSet(), useClientPreference, versions);
      hide Select;
      var transport := Produce(registry[transportProtocol], interfaces, selected.value.url);
      return Client(transport, if selected.value.tenant == "" then None else Some(selected.value.tenant));
    }
  }

  lemma HasBinding(interfaces: seq<Interface>, binding: string, url: Option<string>, versions: Versions)
    requires versions.Valid() && Best(interfaces, Some([binding]), url, versions).Some?
    ensures Best(interfaces, Some([binding]), url, versions).value.binding == binding
    ensures Best(interfaces, Some([binding]), url, versions).value in interfaces
  {
    BestMeaning(interfaces, Some([binding]), url, versions);
    CandidatesMatch(interfaces, Some([binding]), url);
    hide Best, Candidates, IsBestAt;
  }

  // The interface `create` selects is the one the producer of its binding finds again by its URL.
  lemma SelectedIsStable(interfaces: seq<Interface>, clientSet: seq<string>, preferClient: bool, versions: Versions)
    requires versions.Valid() && Select(interfaces, clientSet, preferClient, versions).Some?
    ensures var i := Select(interfaces, clientSet, preferClient, versions).value;
      Best(interfaces, Some([i.binding]), Some(i.url), versions) == Some(i)
  {
    var binding := SelectedBinding(interfaces, clientSet, preferClient, versions);
    HasBinding(interfaces, binding, None, versions);
    ChoiceIsStable(interfaces, Some([binding]), versions);
  }

  lemma SelectedBinding(interfaces: seq<Interface>, clientSet: seq<string>, preferClient: bool, versions: Versions)
    returns (binding: string)
    requires versions.Valid() && Select(interfaces, clientSet, preferClient, versions).Some?
    ensures binding in clientSet
    ensures Select(interfaces, clientSet, preferClient, versions) == Best(interfaces, Some([binding]), None, versions)
  {
    hide Best;
    if preferClient {
      binding := BindingOfClient(interfaces, clientSet, versions);
    } else {
      binding := BindingOfServer(interfaces, 0, clientSet, versions);
    }
  }

  lemma {:induction false} BindingOfClient(interfaces: seq<Interface>, clientSet: seq<string>, versions: Versions)
    returns (binding: string)
    requires versions.Valid() && SelectByClient(interfaces, clientSet, versions).Some?
    ensures binding in clientSet
    ensures SelectByClient(interfaces, clientSet, versions) == Best(interfaces, Some([binding]), None, versions)
  {
    hide Best;
    binding := clientSet[0];
    if Best(interfaces, Some([binding]), None, versions).None? {
      binding := BindingOfClient(interfaces, clientSet[1..], versions);
    }
  }

  lemma {:induction false} BindingOfServer(interfaces: seq<Interface>, from: nat, clientSet: seq<string>,
      versions: Versions)
    returns (binding: string)
    requires versions.Valid() && from <= |interfaces| && SelectByServer(interfaces, from, clientSet, versions).Some?
    ensures binding in clientSet
    ensures SelectByServer(interfaces, from, clientSet, versions) == Best(interfaces, Some([binding]), None, versions)
    decreases |interfaces| - from
  {
    hide Best;
    binding := interfaces[from].binding;
    if binding !in clientSet {
      binding := BindingOfServer(interfaces, from + 1, clientSet, versions);
    }
  }

  // ----- When a client can be created ------------------------------------------------------------------

  predicate Usable(interfaces: seq<Interface>, binding: string, versions: Versions)
    requires versions.Valid()
  {
    exists k :: 0 <= k < |interfaces| && interfaces[k].binding == binding
        && versions.Rank(interfaces[k].version) < UNUSABLE
  }

  predicate SomeUsable(cs: seq<Interface>, versions: Versions)
    requires versions.Valid()
  {
    exists k :: 0 <= k < |cs| && versions.Rank(cs[k].version) < UNUSABLE
  }

  lemma AnswerExists(cs: seq<Interface>, r: Option<Interface>, versions: Versions)
    requires versions.Valid() && Answers(cs, r, versions)
    ensures r.Some? <==> SomeUsable(cs, versions)
  {
  }

  lemma UsableCandidates(interfaces: seq<Interface>, binding: string, versions: Versions)
    requires versions.Valid()
    ensures SomeUsable(Candidates(interfaces, Some([binding]), None), versions) <==>
        Usable(interfaces, binding, versions)
  {
    CandidatesMatch(interfaces, Some([binding]), None);
    hide Candidates, Versions.Rank, Versions.Valid;
    var cs := Candidates(interfaces, Some([binding]), None);
    if SomeUsable(cs, versions) {
      var k :| 0 <= k < |cs| && versions.Rank(cs[k].version) < UNUSABLE;
      assert cs[k] in interfaces;
    }
    if Usable(interfaces, binding, versions) {
      var k :| 0 <= k < |interfaces| && interfaces[k].binding == binding
          && versions.Rank(interfaces[k].version) < UNUSABLE;
      assert interfaces[k] in cs;
    }
  }

  lemma BestExists(interfaces: seq<Interface>, binding: string, versions: Versions)
    requires versions.Valid()
    ensures Best(interfaces, Some([binding]), None, versions).Some? <==> Usable(interfaces, binding, versions)
  {
    hide *;
    BestMeaning(interfaces, Some([binding]), None, versions);
    AnswerExists(Candidates(interfaces, Some([binding]), None), Best(interfaces, Some([binding]), None, versions),
        versions);
    UsableCandidates(interfaces, binding, versions);
  }

  // In the client's order an interface is found exactly when some binding has a usable one.
  lemma {:induction false} ClientOrderIsExhaustive(interfaces: seq<Interface>, clientSet: seq<string>,
      versions: Versions)
    requires versions.Valid()
    ensures SelectByClient(interfaces, clientSet, versions).Some? <==>
        exists b :: b in clientSet && Usable(interfaces, b, versions)
  {
    if clientSet != [] {
      BestExists(interfaces, clientSet[0], versions);
      ClientOrderIsExhaustive(interfaces, clientSet[1..], versions);
      hide Best, Usable;
      assert clientSet == [clientSet[0]] + clientSet[1..];
    }
  }

  predicate FirstSupported(interfaces: seq<Interface>, k: nat, clientSet: seq<string>)
    requires k < |interfaces|
  {
    interfaces[k].binding in clientSet && forall i :: 0 <= i < k ==> interfaces[i].binding !in clientSet
  }

  // In the server's order only the first binding the client has counts: an interface is found exactly
  // when that binding has a usable one.
  lemma ServerOrderStopsEarly(interfaces: seq<Interface>, clientSet: seq<string>, versions: Versions)
    requires versions.Valid()
    ensures SelectByServer(interfaces, 0, clientSet, versions).Some?
       <==> exists k :: 0 <= k < |interfaces| &&
              FirstSupported(interfaces, k, clientSet) && Usable(interfaces, interfaces[k].binding, versions)
  {
    ServerOrderFrom(interfaces, 0, clientSet, versions);
  }

  lemma {:induction false} ServerOrderFrom(interfaces: seq<Interface>, from: nat, clientSet: seq<string>,
      versions: Versions)
    requires versions.Valid() && from <= |interfaces| && forall i :: 0 <= i < from ==>
        interfaces[i].binding !in clientSet
    ensures SelectByServer(interfaces, from, clientSet, versions).Some?
       <==> exists k :: 0 <= k < |interfaces| &&
              FirstSupported(interfaces, k, clientSet) && Usable(interfaces, interfaces[k].binding, versions)
    decreases |interfaces| - from
  {
    hide Best, Usable;
    if from < |interfaces| {
      if interfaces[from].binding in clientSet {
        BestExists(interfaces, interfaces[from].binding, versions);
        assert FirstSupported(interfaces, from, clientSet);
        assert forall k :: 0 <= k < |interfaces| && FirstSupported(interfaces, k, clientSet) ==> k == from;
      } else {
        ServerOrderFrom(interfaces, from + 1, clientSet, versions);
      }
    }
  }

  // Which binding it is: the first one in the client's order that has a usable interface, or the first one
  // in the server's order that the client has; and the interface is the best one of that binding.
  lemma {:induction false} ClientOrderDecides(interfaces: seq<Interface>, clientSet: seq<string>, k: nat,
                                              versions: Versions)
    requires versions.Valid() && k < |clientSet| && Usable(interfaces, clientSet[k], versions)
    requires forall i :: 0 <= i < k ==> !Usable(interfaces, clientSet[i], versions)
    ensures SelectByClient(interfaces, clientSet, versions) == Best(interfaces, Some([clientSet[k]]), None, versions)
  {
    BestExists(interfaces, clientSet[0], versions);
    hide Best, Usable;
    if k > 0 {
      ClientOrderDecides(interfaces, clientSet[1..], k - 1, versions);
    }
  }

  lemma {:induction false} ServerOrderDecides(interfaces: seq<Interface>, from: nat, clientSet: seq<string>, k: nat,
                                              versions: Versions)
    requires versions.Valid() && from <= k < |interfaces| && FirstSupported(interfaces, k, clientSet)
    ensures SelectByServer(interfaces, from, clientSet, versions)
         == Best(interfaces, Some([interfaces[k].binding]), None, versions)
    decreases k - from
  {
    hide Best;
    if from < k {
      ServerOrderDecides(interfaces, from + 1, clientSet, k, versions);
    }
  }

  // So the server's order can fail on a card that the client's order has a client for.
  lemma ServerOrderMissesAnInterface(versions: Versions)
    requires versions.Valid() && versions.key("latest").None?
    ensures var interfaces := [Interface(GRPC, "latest", "a", ""), Interface(JSONRPC, VERSION_1_0, "b", "")];
      && SelectByServer(interfaces, 0, [GRPC, JSONRPC], versions) == None
      && SelectByClient(interfaces, [GRPC, JSONRPC], versions).Some?
  {
    var interfaces, clientSet := [Interface(GRPC, "latest", "a", ""), Interface(JSONRPC, VERSION_1_0, "b", "")],
        [GRPC, JSONRPC];
    assert GRPC[0] != JSONRPC[0];
    ServerOrderStopsEarly(interfaces, clientSet, versions);
    ClientOrderIsExhaustive(interfaces, clientSet, versions);
    hide SelectByServer, SelectByClient;
    assert versions.Rank("latest") == UNUSABLE;
    assert forall k :: 0 <= k < |interfaces| && FirstSupported(interfaces, k, clientSet) ==> k == 0;
    assert !Usable(interfaces, GRPC, versions);
    assert interfaces[1].binding == JSONRPC && JSONRPC in clientSet;
    assert Usable(interfaces, JSONRPC, versions);
  }
}
