// Agent Card signatures: src/a2a/utils/signing.py:71-98, 118-164, 198-208. The JSON Web
// Signature operations are parameters; what they are applied to is what matters here.

module Signing {
  import opened Texts
  import opened Options
  import opened Json
  import opened JcsIdentity
  import opened JcsWriter
  import opened Cleaning

  datatype Signature = Signature(protected: Text, signature: Text, header: Json)

  // "signatures"
  const SIGNATURES: Key := Name([115, 105, 103, 110, 97, 116, 117, 114, 101, 115])

  // "protected", "signature" and "header"
  const PROTECTED: Key := Name([112, 114, 111, 116, 101, 99, 116, 101, 100])
  const SIGNATURE: Key := Name([115, 105, 103, 110, 97, 116, 117, 114, 101])
  const HEADER: Key := Name([104, 101, 97, 100, 101, 114])

  // No field is called "signatures".
  predicate OtherFields(ms: seq<Member>) {
    forall i :: 0 <= i < |ms| ==> ms[i].key != Name([115, 105, 103, 110, 97, 116, 117, 114, 101, 115])
  }

  function SignatureJson(s: Signature): Json {
    Dict([Member(PROTECTED, Str(s.protected)), Member(SIGNATURE, Str(s.signature)), Member(HEADER, s.header)])
  }

  // A card: the fields before and after `signatures` in JSON form, and the signatures.
  class AgentCard {
    const before: seq<Member>
    const after: seq<Member>
    var signatures: seq<Signature>

    predicate Valid() {
      OtherFields(before) && OtherFields(after)
    }

    constructor (before: seq<Member>, after: seq<Member>)
      requires OtherFields(before) && OtherFields(after)
      ensures Valid() && this.before == before && this.after == after && signatures == []
    {
      this.before, this.after, signatures := before, after, [];
    }

    // `MessageToDict`: an empty repeated field does not appear.
    function ToDict(): seq<Member>
      reads this
    {
      before
      + (if signatures == [] then []
         else [Member(SIGNATURES, Array(false, seq(|signatures|, i requires 0 <= i < |signatures| reads this =>
             SignatureJson(signatures[i]))))])
      + after
    }
  }

  // `card_dict.pop('signatures', None)`
  function Without(ms: seq<Member>, key: Key): seq<Member> {
    if ms == [] then []
    else if ms[0].key == key then ms[1..]
    else [ms[0]] + Without(ms[1..], key)
  }

  lemma {:induction false} WithoutFindsIt(a: seq<Member>, m: Member, b: seq<Member>)
    requires OtherFields(a) && m.key == SIGNATURES
    ensures Without(a + [m] + b, SIGNATURES) == a + b
  {
    if a == [] {
      assert ([m] + b)[1..] == b;
      assert a + [m] + b == [m] + b && a + b == b;
    } else {
      WithoutFindsIt(a[1..], m, b);
      assert (a + [m] + b)[1..] == a[1..] + [m] + b;
      assert a + b == [a[0]] + (a[1..] + b);
    }
  }

  lemma {:induction false} WithoutFindsNothing(a: seq<Member>)
    requires OtherFields(a)
    ensures Without(a, SIGNATURES) == a
  {
    if a != [] {
      WithoutFindsNothing(a[1..]);
    }
  }

  // What is signed for the fields of a card, if it has a canonical form.
  function Payload(fields: seq<Member>): Option<Text> {
    var cleaned := CleanEmpty(Dict(fields), 0);
    if cleaned.None? then None else CanonicalText(cleaned.value)
  }

  // `_canonicalize_agent_card`: the payload does not depend on the signatures.
  method CanonicalizeAgentCard(card: AgentCard) returns (r: Option<Text>)
    requires card.Valid()
    ensures r == Payload(card.before + card.after)
  {
    var cardDict := card.ToDict();
    var popped := Without(cardDict, SIGNATURES);
    assert popped == card.before + card.after by {
      hide Without;
      if card.signatures == [] {
        assert cardDict == card.before + card.after;
        WithoutFindsNothing(card.before + card.after);
      } else {
        WithoutFindsIt(card.before, cardDict[|card.before|], card.after);
        assert cardDict == card.before + [cardDict[|card.before|]] + card.after;
      }
    }
    hide CleanEmpty, CanonicalText, Without;
    var cleaned := CleanEmpty(Dict(popped), 0);
    if cleaned.None? {
      return None;
    }
    r := Canonicalize(cleaned.value);
  }

  // A card without tuples has a payload exactly when it is not nested too deep and what is left of
  // it has a canonical form; only the cleaner can reject it for its depth.
  lemma PayloadExists(fields: seq<Member>)
    requires TupleFree(Dict(fields))
    ensures Payload(fields).Some? <==> Height(Dict(fields)) <= 128 && HasCanonicalForm(Cleaned(Dict(fields)))
  {
    CleanedFitsTheWriter(Dict(fields));
    CleanEmptyMeaning(Dict(fields), 0);
    TupleFreeHeight(Dict(fields));
    hide CleanEmpty, Height, ListHeight, Cleaned, HasCanonicalForm, Normal, Print;
  }

  // What a signature covers: two cards have the same payload exactly when, cleaned, they are the
  // same JSON value.
  lemma PayloadDeterminesContent(a: seq<Member>, b: seq<Member>)
    requires Proper(Dict(a)) && Proper(Dict(b)) && Payload(a).Some? && Payload(b).Some?
    ensures Payload(a) == Payload(b) <==> SameJson(Cleaned(Dict(a)), Cleaned(Dict(b)))
  {
    CleanEmptyMeaning(Dict(a), 0);
    CleanEmptyMeaning(Dict(b), 0);
    CleanedIsProper(Dict(a));
    CleanedIsProper(Dict(b));
    hide CleanEmpty, CanonicalText, Cleaned, ListHeight, Proper, SameJson;
    TextDeterminesValue(Cleaned(Dict(a)), Cleaned(Dict(b)));
  }

  // A part that the cleaner turns into nothing can be left out of a card, wherever it is, without
  // changing what is signed or whether the card can be signed.
  lemma EmptyFieldsAreNotSigned(fields: seq<Member>, path: seq<nat>)
    requires PathIn(Dict(fields), path) && CleanEmpty(PartAt(Dict(fields), path), |path|) == Some(Null)
    ensures DeleteAt(Dict(fields), path).Dict?
    ensures Payload(DeleteAt(Dict(fields), path).members) == Payload(fields)
  {
    DeletionKeepsOutcome(Dict(fields), path);
    hide CleanEmpty, CanonicalText;
  }

  // ----- Compact serializations ----------------------------------------------------------------------

  // `t.split('.')`
  function SplitAtDots(t: Text): (parts: seq<Text>)
    ensures parts != []
    decreases |t|
  {
    var i := Find(t, DOT);
    if i == -1 then [t] else [t[..i]] + SplitAtDots(t[i + 1..])
  }

  // HEADER.PAYLOAD.SIGNATURE, none of the three with a full stop (code point 46) in it.
  ghost predicate Compact(token: Text, protected: Text, payload: Text, signature: Text) {
    && 46 !in protected && 46 !in payload && 46 !in signature
    && token == protected + [46] + payload + [46] + signature
  }

  ghost predicate IsCompact(token: Text) {
    exists a, b, c :: Compact(token, a, b, c)
  }

  lemma SplitOff(before: Text, after: Text)
    requires DOT !in before
    ensures SplitAtDots(before + [DOT] + after) == [before] + SplitAtDots(after)
  {
    FindAfter(before, DOT, after);
    var t := before + [DOT] + after;
    assert t[..|before|] == before && t[|before| + 1..] == after;
  }

  lemma WholeIsOnePart(t: Text)
    ensures SplitAtDots(t) == [t] <==> DOT !in t
    ensures |SplitAtDots(t)| == 1 <==> DOT !in t
  {
  }

  lemma SplitCompact(token: Text, a: Text, b: Text, c: Text)
    requires Compact(token, a, b, c)
    ensures SplitAtDots(token) == [a, b, c]
  {
    hide SplitAtDots;
    assert token == a + [DOT] + (b + [DOT] + c);
    SplitOff(a, b + [DOT] + c);
    SplitOff(b, c);
    WholeIsOnePart(c);
  }

  lemma FirstPart(t: Text)
    ensures var i := Find(t, DOT);
      if i == -1 then SplitAtDots(t) == [t]
      else SplitAtDots(t) == [t[..i]] + SplitAtDots(t[i + 1..]) && t == t[..i] + [DOT] + t[i + 1..] && DOT !in t[..i]
  {
    hide Find;
    if Find(t, DOT) != -1 {
      AroundPlace(t, Find(t, DOT));
    }
  }

  lemma AroundPlace(t: Text, i: nat)
    requires i < |t|
    ensures t == t[..i] + [t[i]] + t[i + 1..]
  {
  }

  lemma ThreeAreCompact(token: Text)
    requires |SplitAtDots(token)| == 3
    ensures var parts := SplitAtDots(token); Compact(token, parts[0], parts[1], parts[2])
  {
    hide *;
    var i := Find(token, DOT);
    FirstPart(token);
    var rest := token[i + 1..];
    var j := Find(rest, DOT);
    FirstPart(rest);
    WholeIsOnePart(rest[j + 1..]);
    CompactOfParts(token, token[..i], rest, rest[..j], rest[j + 1..]);
  }

  lemma CompactOfParts(token: Text, a: Text, rest: Text, b: Text, c: Text)
    requires token == a + [DOT] + rest && rest == b + [DOT] + c && DOT !in a && DOT !in b && DOT !in c
    ensures Compact(token, a, b, c)
  {
    assert a + [DOT] + (b + [DOT] + c) == a + [DOT] + b + [DOT] + c;
  }

  // The three parts a token is split into are the ones it is made of.
  lemma ThreeParts(token: Text)
    ensures |SplitAtDots(token)| == 3 <==> IsCompact(token)
    ensures |SplitAtDots(token)| == 3 ==>
      var parts := SplitAtDots(token); Compact(token, parts[0], parts[1], parts[2])
  {
    hide SplitAtDots, Compact;
    if |SplitAtDots(token)| == 3 {
      ThreeAreCompact(token);
    }
    if IsCompact(token) {
      var a, b, c :| Compact(token, a, b, c);
      SplitCompact(token, a, b, c);
    }
  }

  // ----- Signing ------------------------------------------------------------------------------------

  // A signer: `api_jws.encode` with its key and headers, which gives a compact serialization, and the
  // unprotected header it adds.
  datatype Signer = Signer(encode: Text -> Option<Text>, header: Json)

  // The signature holds the outer parts of the token the signer made for the payload, and its header.
  ghost predicate MadeBy(sig: Signature, signer: Signer, payload: Option<Text>) {
    && payload.Some? && signer.encode(payload.value).Some? && sig.header == signer.header
    && exists middle :: Compact(signer.encode(payload.value).value, sig.protected, middle, sig.signature)
  }

  // `agent_card_signer`: appends one signature made over the payload, or fails and leaves the card
  // alone. It fails if there is no payload, or no token, or one that is not in three parts.
  method SignCard(card: AgentCard, signer: Signer) returns (ok: bool)
    requires card.Valid()
    modifies card
    ensures card.Valid()
    ensures ok <==> var payload := Payload(card.before + card.after);
      payload.Some? && signer.encode(payload.value).Some? && IsCompact(signer.encode(payload.value).value)
    ensures |card.signatures| == |old(card.signatures)| + if ok then 1 else 0
    ensures card.signatures[..|old(card.signatures)|] == old(card.signatures)
    ensures ok ==> MadeBy(card.signatures[|old(card.signatures)|], signer, Payload(card.before + card.after))
  {
    hide Payload;
    var canonicalPayload := CanonicalizeAgentCard(card);
    if canonicalPayload.None? {
      return false;
    }
    var jwsString := signer.encode(canonicalPayload.value);
    if jwsString.None? {
      return false;
    }
    var parts := SplitAtDots(jwsString.value);
    ThreeParts(jwsString.value);
    if |parts| != 3 {
      return false;
    }
    hide SplitAtDots, Compact;
    var protected, signature := parts[0], parts[2];
    card.signatures := card.signatures + [Signature(protected, signature, signer.header)];
    return true;
  }

  // Any chain of signers: every one of them signs the payload the finished card has.
  method SignInTurn(card: AgentCard, signers: seq<Signer>) returns (ok: bool)
    requires card.Valid()
    modifies card
    ensures card.Valid()
    ensures ok ==> |card.signatures| == |old(card.signatures)| + |signers|
    ensures ok ==> forall k :: 0 <= k < |signers| ==>
      MadeBy(card.signatures[|old(card.signatures)| + k], signers[k], Payload(card.before + card.after))
    ensures old(card.signatures) <= card.signatures
  {
    hide Payload, MadeBy, IsCompact;
    ghost var n := |card.signatures|;
    for i := 0 to |signers|
      invariant old(card.signatures) <= card.signatures && |card.signatures| == n + i
      invariant forall k :: 0 <= k < i ==>
        MadeBy(card.signatures[n + k], signers[k], Payload(card.before + card.after))
    {
      ghost var before := card.signatures;
      ok := SignCard(card, signers[i]);
      assert forall k :: 0 <= k < |before| ==> card.signatures[k] == card.signatures[..|before|][k];
      if !ok {
        return false;
      }
    }
    return true;
  }

  // ----- Verifying ----------------------------------------------------------------------------------

  // What checking one token does: succeed, raise a PyJWTError, or raise anything else.
  datatype Check = Accepted | Refused | Broken

  datatype Verdict = Verified | NoSignature | InvalidSignatures | Propagated

  // A verifier: `base64url_encode` of the payload's UTF-8, and `jwt.decode` of a token with the key that
  // the protected header names.
  datatype Verifier = Verifier(encoded: Text -> Text, check: (Text, Text) -> Check)

  // The token put together again from the signature and the payload of the card at hand.
  function TokenOf(sig: Signature, encodedPayload: Text): Text {
    sig.protected + [DOT] + encodedPayload + [DOT] + sig.signature
  }

  function CheckOf(v: Verifier, sig: Signature, payload: Text): Check {
    v.check(sig.protected, TokenOf(sig, v.encoded(payload)))
  }

  predicate RefusedBefore(sigs: seq<Signature>, payload: Text, v: Verifier, k: nat)
    requires k <= |sigs|
  {
    forall i :: 0 <= i < k ==> CheckOf(v, sigs[i], payload) == Refused
  }

  // `signature_verifier`: the first signature that is not refused decides.
  method VerifyCard(card: AgentCard, v: Verifier) returns (verdict: Verdict)
    requires card.Valid()
    ensures verdict == NoSignature <==> card.signatures == []
    ensures verdict == InvalidSignatures <==>
      card.signatures != [] && (Payload(card.before + card.after).None?
        || RefusedBefore(card.signatures, Payload(card.before + card.after).value, v, |card.signatures|))
    ensures verdict == Verified <==>
      exists k :: 0 <= k < |card.signatures| && Decides(card.signatures, Payload(card.before + card.after), v,
          k, Accepted)
    ensures verdict == Propagated <==>
      exists k :: 0 <= k < |card.signatures| && Decides(card.signatures, Payload(card.before + card.after), v,
          k, Broken)
  {
    hide Payload;
    if card.signatures == [] {
      return NoSignature;
    }
    var canonicalPayload := CanonicalizeAgentCard(card);
    if canonicalPayload.None? {
      return InvalidSignatures;
    }
    var encodedPayload := v.encoded(canonicalPayload.value);
    for i := 0 to |card.signatures|
      invariant RefusedBefore(card.signatures, canonicalPayload.value, v, i)
    {
      var signature := card.signatures[i];
      var token := signature.protected + [DOT] + encodedPayload + [DOT] + signature.signature;
      var outcome := v.check(signature.protected, token);
      assert outcome == CheckOf(v, signature, canonicalPayload.value);
      assert outcome != Refused ==> Decides(card.signatures, canonicalPayload, v, i, outcome);
      match outcome {
        case Accepted => return Verified;
        case Refused =>
        case Broken => return Propagated;
      }
    }
    return InvalidSignatures;
  }

  predicate Decides(sigs: seq<Signature>, payload: Option<Text>, v: Verifier, k: nat, outcome: Check)
    requires k < |sigs|
  {
    payload.Some? && RefusedBefore(sigs, payload.value, v, k) && CheckOf(v, sigs[k], payload.value) == outcome
  }

  // One valid signature is not enough: if the check of an earlier one raises another error, that error
  // comes out of the verifier.
  lemma BrokenSignatureHidesValidOne(broken: Signature, valid: Signature, payload: Text, encoded: Text -> Text)
    requires broken.protected != valid.protected
    ensures var v := Verifier(encoded, (protected, token) => if protected == valid.protected then Accepted else Broken);
      && CheckOf(v, valid, payload) == Accepted
      && Decides([broken, valid], Some(payload), v, 0, Broken)
      && !exists k :: 0 <= k < 2 && Decides([broken, valid], Some(payload), v, k, Accepted)
  {
    var v := Verifier(encoded, (protected, token) => if protected == valid.protected then Accepted else Broken);
    assert [broken, valid][0] == broken && CheckOf(v, broken, payload) == Broken;
    assert !RefusedBefore([broken, valid], payload, v, 1);
  }

  // What the verifier makes of the very token a signer makes for the payload, which carries the encoded
  // payload in the middle.
  ghost predicate TokenGives(signer: Signer, payload: Option<Text>, v: Verifier, outcomes: set<Check>) {
    payload.Some? && signer.encode(payload.value).Some? ==>
      var token := signer.encode(payload.value).value;
      forall a, b, c :: Compact(token, a, b, c) ==> b == v.encoded(payload.value) && v.check(a, token) in outcomes
  }

  // So the verifier puts the signer's token together again.
  lemma TokenComesBack(sig: Signature, signer: Signer, payload: Option<Text>, v: Verifier, outcomes: set<Check>)
    requires MadeBy(sig, signer, payload) && TokenGives(signer, payload, v, outcomes)
    ensures CheckOf(v, sig, payload.value) in outcomes
  {
    var token := signer.encode(payload.value).value;
    var middle :| Compact(token, sig.protected, middle, sig.signature);
    assert token == TokenOf(sig, middle);
  }

  // A verifier that accepts the token one signer makes for the payload verifies the card after any chain
  // of signers with that one among them, unless it chokes on a signature before the first accepted one.
  method SignThenVerify(card: AgentCard, signers: seq<Signer>, k: nat, v: Verifier)
    returns (signed: bool, verdict: Verdict)
    requires card.Valid() && k < |signers|
    requires TokenGives(signers[k], Payload(card.before + card.after), v, {Accepted})
    modifies card
    ensures signed ==> Payload(card.before + card.after).Some?
    ensures signed ==> verdict == Verified || verdict == Propagated
    ensures signed ==> (verdict == Propagated <==>
      exists i :: 0 <= i < |card.signatures| && Decides(card.signatures, Payload(card.before + card.after), v, i,
          Broken))
    ensures signed && NoneBroken(old(card.signatures), signers[..k], Payload(card.before + card.after), v) ==>
      verdict == Verified
  {
    hide Payload, TokenGives, CheckOf;
    ghost var n := |card.signatures|;
    signed := SignInTurn(card, signers);
    verdict := VerifyCard(card, v);
    ghost var payload := Payload(card.before + card.after);
    if signed {
      assert MadeBy(card.signatures[n + k], signers[k], payload);
      TokenComesBack(card.signatures[n + k], signers[k], payload, v, {Accepted});
      if NoneBroken(old(card.signatures), signers[..k], payload, v) {
        forall i | 0 <= i < n + k ensures CheckOf(v, card.signatures[i], payload.value) != Broken {
          if i < n {
            assert card.signatures[i] == old(card.signatures)[i];
          } else {
            assert signers[..k][i - n] == signers[i - n];
            assert MadeBy(card.signatures[i], signers[i - n], payload);
            TokenComesBack(card.signatures[i], signers[i - n], payload, v, {Accepted, Refused});
          }
        }
      }
      hide MadeBy;
    }
  }

  // The verifier raises no error of its own on the signatures there were, nor on those of the signers.
  ghost predicate NoneBroken(sigs: seq<Signature>, signers: seq<Signer>, payload: Option<Text>, v: Verifier) {
    && (payload.Some? ==> forall i :: 0 <= i < |sigs| ==> CheckOf(v, sigs[i], payload.value) != Broken)
    && (forall j :: 0 <= j < |signers| ==> TokenGives(signers[j], payload, v, {Accepted, Refused}))
  }
}
