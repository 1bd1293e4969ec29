// Page tokens: src/a2a/utils/task.py:90-121. A token is the base64 (RFC 4648 section 4) of the
// UTF-8 of a task id.

module PageToken {
  import opened Texts
  import opened Options
  import opened Utf8

  const PAD: CodePoint := 61

  // ----- base64 ---------------------------------------------------------------------------------

  function Letter(n: nat): CodePoint
    requires n < 64
  {
    if n < 26 then 65 + n         // A-Z
    else if n < 52 then 71 + n    // a-z
    else if n < 62 then n - 4     // 0-9
    else if n == 62 then 43       // +
    else 47                       // /
  }

  function Sextet(c: int): Option<nat> {
    if 65 <= c <= 90 then Some(c - 65)
    else if 97 <= c <= 122 then Some(c - 71)
    else if 48 <= c <= 57 then Some(c + 4)
    else if c == 43 then Some(62)
    else if c == 47 then Some(63)
    else None
  }

  predicate AreBytes(b: seq<int>) {
    forall i :: 0 <= i < |b| ==> 0 <= b[i] < 256
  }

  // `b64encode`
  function B64Encode(b: seq<int>): Text
    requires AreBytes(b)
  {
    if b == [] then []
    else if |b| == 1 then [Letter(b[0] / 4), Letter(b[0] % 4 * 16), PAD, PAD]
    else if |b| == 2 then [Letter(b[0] / 4), Letter(b[0] % 4 * 16 + b[1] / 16), Letter(b[1] % 16 * 4), PAD]
    else [Letter(b[0] / 4), Letter(b[0] % 4 * 16 + b[1] / 16), Letter(b[1] % 16 * 4 + b[2] / 64), Letter(b[2] % 64)]
         + B64Encode(b[3..])
  }

  // `binascii.a2b_base64`, not strict: characters outside the alphabet are skipped, and so is a pad
  // that does not complete a group of four; one that does ends the data. The arguments are the
  // characters still to come, how many of the current group were read, the bits left over from
  // the last of them, and the pads since.
  function A2B(s: seq<int>, quad: nat, left: nat, pads: nat): Option<seq<int>>
    requires quad < 4
    decreases |s|
  {
    if s == [] then
      if quad == 0 then Some([]) else None
    else if s[0] == PAD then
      if quad >= 2 then
        if quad + pads + 1 >= 4 then Some([]) else A2B(s[1..], quad, left, pads + 1)
      else A2B(s[1..], quad, left, pads)
    else
      var x := Sextet(s[0]);
      if x.None? then A2B(s[1..], quad, left, pads)
      else if quad == 0 then A2B(s[1..], 1, x.value, 0)
      else if quad == 1 then Then(left * 4 + x.value / 16, A2B(s[1..], 2, x.value % 16, 0))
      else if quad == 2 then Then(left * 16 + x.value / 4, A2B(s[1..], 3, x.value % 4, 0))
      else Then(left * 64 + x.value, A2B(s[1..], 0, 0, 0))
  }

  function Then(b: int, others: Option<seq<int>>): Option<seq<int>> {
    if others.None? then None else Some([b] + others.value)
  }

  function B64Decode(s: seq<int>): Option<seq<int>> {
    A2B(s, 0, 0, 0)
  }

  lemma LetterInverts(n: nat)
    requires n < 64
    ensures Sextet(Letter(n)) == Some(n) && Letter(n) != PAD && Letter(n) < 0x80
  {
  }

  // One step of the decoder on a letter.
  lemma OneLetter(n: nat, rest: seq<int>, quad: nat, left: nat, pads: nat)
    requires n < 64 && quad < 4
    ensures A2B([Letter(n)] + rest, quad, left, pads)
         == if quad == 0 then A2B(rest, 1, n, 0)
            else if quad == 1 then Then(left * 4 + n / 16, A2B(rest, 2, n % 16, 0))
            else if quad == 2 then Then(left * 16 + n / 4, A2B(rest, 3, n % 4, 0))
            else Then(left * 64 + n, A2B(rest, 0, 0, 0))
  {
    LetterInverts(n);
    hide Sextet, Letter, Then;
    assert ([Letter(n)] + rest)[1..] == rest;
  }

  lemma Padding(left: nat)
    ensures A2B([PAD, PAD], 2, left, 0) == Some([]) && A2B([PAD], 3, left, 0) == Some([])
  {
    assert [PAD, PAD][1..] == [PAD];
  }

  lemma Nothing()
    ensures A2B([], 0, 0, 0) == Some([])
  {
  }

  lemma SextetsHoldBytes(b0: int, b1: int, b2: int)
    requires 0 <= b0 < 256 && 0 <= b1 < 256 && 0 <= b2 < 256
    ensures var x0, x1, x2, x3 := b0 / 4, b0 % 4 * 16 + b1 / 16, b1 % 16 * 4 + b2 / 64, b2 % 64;
      && 0 <= x0 < 64 && 0 <= x1 < 64 && 0 <= x2 < 64 && 0 <= x3 < 64
      && x0 * 4 + x1 / 16 == b0 && x1 % 16 * 16 + x2 / 4 == b1 && x2 % 4 * 64 + x3 == b2
  {
  }

  // A full group of three bytes.
  lemma OneGroup(b0: int, b1: int, b2: int, rest: seq<int>)
    requires 0 <= b0 < 256 && 0 <= b1 < 256 && 0 <= b2 < 256
    ensures A2B([Letter(b0 / 4), Letter(b0 % 4 * 16 + b1 / 16), Letter(b1 % 16 * 4 + b2 / 64), Letter(b2 % 64)] +
        rest, 0, 0, 0)
         == Then(b0, Then(b1, Then(b2, A2B(rest, 0, 0, 0))))
  {
    hide *;
    var x0, x1, x2, x3 := b0 / 4, b0 % 4 * 16 + b1 / 16, b1 % 16 * 4 + b2 / 64, b2 % 64;
    SextetsHoldBytes(b0, b1, b2);
    var r3, r2, r1 := [Letter(x3)] + rest, [Letter(x2)] + ([Letter(x3)] + rest), [Letter(x1)] +
        ([Letter(x2)] + ([Letter(x3)] + rest));
    assert [Letter(x0), Letter(x1), Letter(x2), Letter(x3)] + rest == [Letter(x0)] + r1;
    OneLetter(x0, r1, 0, 0, 0);
    OneLetter(x1, r2, 1, x0, 0);
    OneLetter(x2, r3, 2, x1 % 16, 0);
    OneLetter(x3, rest, 3, x2 % 4, 0);
  }

  lemma OneByte(b: int)
    requires 0 <= b < 256
    ensures A2B([Letter(b / 4), Letter(b % 4 * 16), PAD, PAD], 0, 0, 0) == Some([b])
  {
    assert b / 4 * 4 + b % 4 * 16 / 16 == b && b % 4 * 16 % 16 == 0;
    Padding(0);
    hide A2B, Letter;
    assert [Letter(b / 4), Letter(b % 4 * 16), PAD, PAD] == [Letter(b / 4)] + ([Letter(b % 4 * 16)] + [PAD, PAD]);
    OneLetter(b / 4, [Letter(b % 4 * 16)] + [PAD, PAD], 0, 0, 0);
    OneLetter(b % 4 * 16, [PAD, PAD], 1, b / 4, 0);
    assert [b] + [] == [b];
  }

  lemma TwoBytes(b: int, c: int)
    requires 0 <= b < 256 && 0 <= c < 256
    ensures A2B([Letter(b / 4), Letter(b % 4 * 16 + c / 16), Letter(c % 16 * 4), PAD], 0, 0, 0) == Some([b, c])
  {
    var x, y, z := b / 4, b % 4 * 16 + c / 16, c % 16 * 4;
    assert x * 4 + y / 16 == b && y % 16 * 16 + z / 4 == c && z % 4 == 0;
    Padding(0);
    hide A2B, Letter;
    var r2, r1 := [Letter(z)] + [PAD], [Letter(y)] + ([Letter(z)] + [PAD]);
    assert [Letter(x), Letter(y), Letter(z), PAD] == [Letter(x)] + r1;
    OneLetter(x, r1, 0, 0, 0);
    OneLetter(y, r2, 1, x, 0);
    OneLetter(z, [PAD], 2, y % 16, 0);
    assert [b] + ([c] + []) == [b, c];
  }

  lemma {:induction false} B64RoundTrip(b: seq<int>)
    requires AreBytes(b)
    ensures B64Decode(B64Encode(b)) == Some(b)
  {
    if b == [] {
      Nothing();
    } else if |b| == 1 {
      OneByte(b[0]);
      assert b == [b[0]];
    } else if |b| == 2 {
      TwoBytes(b[0], b[1]);
      assert b == [b[0], b[1]];
    } else {
      B64RoundTrip(b[3..]);
      OneGroup(b[0], b[1], b[2], B64Encode(b[3..]));
      hide A2B, Letter;
      assert b == [b[0]] + ([b[1]] + ([b[2]] + b[3..]));
    }
  }

  // The encoding is ASCII, in groups of four, with at most two pads, all at the end.
  lemma {:induction false} B64Shape(b: seq<int>)
    requires AreBytes(b)
    ensures var t := B64Encode(b);
      && |t| % 4 == 0 && (forall i :: 0 <= i < |t| ==> t[i] < 0x80)
      && forall i :: 0 <= i < |t| - 2 ==> t[i] != PAD
  {
    if |b| > 2 {
      B64Shape(b[3..]);
    }
  }

  // The alphabet of RFC 4648 section 4: the capital letters, the small ones, the digits, plus and solidus.
  lemma LettersAreTheAlphabet(n: nat)
    requires n < 64
    ensures n < 26 ==> Letter(n) == 'A' as int + n
    ensures 26 <= n < 52 ==> Letter(n) == 'a' as int + (n - 26)
    ensures 52 <= n < 62 ==> Letter(n) == '0' as int + (n - 52)
    ensures n == 62 ==> Letter(n) == '+' as int
    ensures n == 63 ==> Letter(n) == '/' as int
  {
  }

  // The test vectors of its section 10: one, two and three bytes of "foobar".
  lemma TestVectors()
    ensures B64Encode([102]) == [90, 103, 61, 61]                                         // Zg==
    ensures B64Encode([102, 111]) == [90, 109, 56, 61]                                    // Zm8=
    ensures B64Encode([102, 111, 111]) == [90, 109, 57, 118]                              // Zm9v
    ensures B64Encode([102, 111, 111, 98, 97, 114]) == [90, 109, 57, 118, 89, 109, 70, 121]  // Zm9vYmFy
  {
    assert [102, 111, 111][3..] == [];
    assert [102, 111, 111, 98, 97, 114][3..] == [98, 97, 114] && [98, 97, 114][3..] == [];
  }

  predicate Foreign(c: int) {
    !(65 <= c <= 90) && !(97 <= c <= 122) && !(48 <= c <= 57) && c != 43 && c != 47 && c != 61
  }

  // The decoder is not strict: characters outside the alphabet change nothing, wherever they stand.
  lemma {:induction false} ForeignCharactersAreSkipped(a: seq<int>, c: int, b: seq<int>, quad: nat, left: nat,
      pads: nat)
    requires Foreign(c) && quad < 4
    ensures A2B(a + [c] + b, quad, left, pads) == A2B(a + b, quad, left, pads)
    decreases |a|
  {
    if a == [] {
      assert a + [c] + b == [c] + b && ([c] + b)[1..] == b && a + b == b;
    } else {
      var x, rest := Sextet(a[0]), a[1..];
      assert (a + [c] + b)[1..] == rest + [c] + b && (a + b)[1..] == rest + b;
      ForeignCharactersAreSkipped(rest, c, b, quad, left, pads);
      ForeignCharactersAreSkipped(rest, c, b, quad, left, pads + 1);
      if x.Some? {
        ForeignCharactersAreSkipped(rest, c, b, 1, x.value, 0);
        ForeignCharactersAreSkipped(rest, c, b, 2, x.value % 16, 0);
        ForeignCharactersAreSkipped(rest, c, b, 3, x.value % 4, 0);
        ForeignCharactersAreSkipped(rest, c, b, 0, 0, 0);
      }
      hide Sextet;
    }
  }

  // ----- Tokens ----------------------------------------------------------------------------------

  lemma {:induction false} EncodingIsBytes(t: Text)
    ensures AreBytes(EncodeChars(t))
  {
    if t != [] {
      EncodingIsBytes(t[1..]);
    }
  }

  // `encode_page_token`; None is the UnicodeEncodeError.
  function EncodePageToken(taskId: Text): Option<Text> {
    if !SurrogateFree(taskId) then None
    else
      EncodingIsBytes(taskId);
      Some(B64Encode(EncodeChars(taskId)))
  }

  // The task id, the InvalidParamsError, or an encoding error of the token itself, which is not
  // turned into one.
  datatype Decoded = TaskId(text: Text) | InvalidParams | EncodeError

  function Padded(token: Text): Text {
    token + seq((4 - |token| % 4) % 4, _ => PAD)
  }

  function DecodedToken(token: Text): Decoded {
    var bytes := Encode(Padded(token));
    if bytes.None? then EncodeError else
    var data := B64Decode(bytes.value);
    if data.None? then InvalidParams else
    var text := Decode(data.value);
    if text.None? then InvalidParams else TaskId(text.value)
  }

  predicate EndsInPads(t: Text, n: nat) {
    n <= |t| && forall i :: |t| - n <= i < |t| ==> t[i] == PAD
  }

  // For every task id of valid Unicode, decoding its token gives the id back, whatever number of
  // the trailing pads was removed.
  lemma TokensRoundTrip(taskId: Text, stripped: nat)
    requires SurrogateFree(taskId) && EndsInPads(EncodePageToken(taskId).value, stripped)
    ensures var token := EncodePageToken(taskId).value;
      DecodedToken(token[..|token| - stripped]) == TaskId(taskId)
  {
    EncodingIsBytes(taskId);
    var bytes := EncodeChars(taskId);
    var token := B64Encode(bytes);
    B64Shape(bytes);
    B64RoundTrip(bytes);
    AsciiEncodesAsItself(token);
    DecodesWhatItEncodes(taskId, bytes);
    hide EncodeChars, B64Encode, B64Decode, Decode, Encode;
    RestorePads(token, stripped);
    assert Encode(taskId) == Some(bytes) by { EncodesTo(taskId); }
  }

  lemma EncodesTo(t: Text)
    requires SurrogateFree(t)
    ensures Encode(t) == Some(EncodeChars(t))
  {
  }

  lemma PadAt(t: Text, n: nat, k: nat)
    requires EndsInPads(t, n) && 1 <= k <= n
    ensures t[|t| - k] == PAD
  {
  }

  lemma RestorePads(token: Text, stripped: nat)
    requires |token| % 4 == 0 && EndsInPads(token, stripped)
    requires forall i :: 0 <= i < |token| - 2 ==> token[i] != PAD
    ensures Padded(token[..|token| - stripped]) == token
  {
    if stripped >= 3 {
      PadAt(token, stripped, 3);
      assert false;
    }
    var short := token[..|token| - stripped];
    assert (4 - |short| % 4) % 4 == stripped;
  }

  // Decoding fails with an encoding error exactly for tokens that are not valid Unicode, and a
  // task id it returns is valid Unicode, so it has a token of its own.
  lemma DecodingOutcomes(token: Text)
    ensures DecodedToken(token).EncodeError? <==> !SurrogateFree(token)
    ensures DecodedToken(token).TaskId? ==> EncodePageToken(DecodedToken(token).text).Some?
  {
    hide A2B, EncodeChars, Decode;
    var padded := Padded(token);
    assert forall i :: 0 <= i < |token| ==> padded[i] == token[i];
    if DecodedToken(token).TaskId? {
      DecodesWhatItEncodes(DecodedToken(token).text, B64Decode(Encode(padded).value).value);
    }
  }

  // The token of a task id, some of its trailing pads perhaps removed.
  ghost predicate IsTokenOf(token: Text, taskId: Text) {
    SurrogateFree(taskId) && exists n: nat :: IsStripped(token, EncodePageToken(taskId).value, n)
  }

  predicate IsStripped(token: Text, whole: Text, n: nat) {
    EndsInPads(whole, n) && token == whole[..|whole| - n]
  }

  // The padded token is base64 for the UTF-8 bytes of the id.
  predicate Denotes(token: Text, taskId: Text) {
    SurrogateFree(token) && SurrogateFree(taskId) && B64Decode(EncodeChars(Padded(token))) == Some(EncodeChars(taskId))
  }

  lemma DecodedExactly(token: Text, taskId: Text)
    ensures DecodedToken(token) == TaskId(taskId) <==> Denotes(token, taskId)
  {
    DecodingOutcomes(token);
    hide A2B, EncodeChars, Decode;
    var padded := Padded(token);
    assert SurrogateFree(token) ==> SurrogateFree(padded);
    var data := B64Decode(EncodeChars(padded));
    if data.Some? {
      DecodesWhatItEncodes(taskId, data.value);
    }
  }

  // `decode_page_token`. Every task id comes back from its token, trailing pads or not; an id is
  // returned exactly if the padded token is base64 for its bytes, and has a token of its own; tokens
  // that are not valid Unicode, and only they, fail outside the handled errors.
  method DecodePageToken(token: Text) returns (r: Decoded)
    ensures forall taskId :: IsTokenOf(token, taskId) ==> r == TaskId(taskId)
    ensures forall taskId :: r == TaskId(taskId) <==> Denotes(token, taskId)
    ensures r.TaskId? ==> EncodePageToken(r.text).Some?
    ensures r.EncodeError? <==> !SurrogateFree(token)
  {
    DecodingOutcomes(token);
    forall taskId | IsTokenOf(token, taskId) ensures DecodedToken(token) == TaskId(taskId) {
      TokenOfDecodes(token, taskId);
    }
    forall taskId ensures DecodedToken(token) == TaskId(taskId) <==> Denotes(token, taskId) {
      DecodedExactly(token, taskId);
    }
    hide Encode, A2B, Decode, IsTokenOf, Denotes, SurrogateFree, EncodeChars, EncodePageToken;
    var encodedStr := token;
    var missingPadding := |encodedStr| % 4;
    if missingPadding != 0 {
      encodedStr := encodedStr + seq(4 - missingPadding, _ => PAD);
    }
    assert encodedStr == Padded(token);
    var bytes := Encode(encodedStr);
    if bytes.None? {
      return EncodeError;
    }
    var data := B64Decode(bytes.value);
    if data.None? {
      return InvalidParams;
    }
    var text := Decode(data.value);
    return if text.None? then InvalidParams else TaskId(text.value);
  }

  lemma TokenOfDecodes(token: Text, taskId: Text)
    requires IsTokenOf(token, taskId)
    ensures DecodedToken(token) == TaskId(taskId)
  {
    hide DecodedToken, SurrogateFree, B64Encode, EncodeChars;
    var n: nat :| IsStripped(token, EncodePageToken(taskId).value, n);
    TokensRoundTrip(taskId, n);
  }
}
