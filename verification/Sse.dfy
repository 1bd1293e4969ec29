// Server-sent events: `parse_sse_stream`, src/a2a/client/transports/http_helpers.py:66-103
// (WHATWG HTML section 9.2.6).

module Sse {
  import opened Options
  import opened Texts

  const COLON: CodePoint := 58
  const SPACE: CodePoint := 32
  const LF: CodePoint := 10
  const CR: CodePoint := 13

  const MESSAGE: Text := [109, 101, 115, 115, 97, 103, 101]
  const EVENT: Text := [101, 118, 101, 110, 116]
  const DATA: Text := [100, 97, 116, 97]

  datatype Event = Event(name: Text, data: Text)

  // The parser between two lines, and what it has yielded.
  datatype Parser = Parser(name: Text, chunks: seq<Text>, sent: seq<Event>)

  const FRESH := Parser(MESSAGE, [], [])

  // `line.rstrip('\r\n')`
  function Stripped(t: Text): (r: Text)
    ensures |r| <= |t| && r == t[..|r|]
    ensures r != [] ==> r[|r| - 1] != LF && r[|r| - 1] != CR
  {
    if t != [] && (t[|t| - 1] == LF || t[|t| - 1] == CR) then Stripped(t[..|t| - 1]) else t
  }

  // `'\n'.join(chunks)`
  function Lines(chunks: seq<Text>): Text {
    if chunks == [] then []
    else if |chunks| == 1 then chunks[0]
    else chunks[0] + [LF] + Lines(chunks[1..])
  }

  function FieldName(raw: Text): Text {
    var i := Find(raw, COLON);
    if i == -1 then raw else raw[..i]
  }

  function FieldValue(raw: Text): Text {
    var i := Find(raw, COLON);
    if i == -1 then []
    else if i + 1 < |raw| && raw[i + 1] == SPACE then raw[i + 2..]
    else raw[i + 1..]
  }

  // What one line does.
  function Feed(p: Parser, line: Text): Parser {
    var raw := Stripped(line);
    if raw == [] then
      Parser(MESSAGE, [], if p.chunks == [] then p.sent else p.sent + [Event(p.name, Lines(p.chunks))])
    else if raw[0] == COLON then p
    else if FieldName(raw) == EVENT then p.(name := FieldValue(raw))
    else if FieldName(raw) == DATA then p.(chunks := p.chunks + [FieldValue(raw)])
    else p
  }

  function FeedAll(p: Parser, lines: seq<Text>): Parser {
    if lines == [] then p else Feed(FeedAll(p, lines[..|lines| - 1]), lines[|lines| - 1])
  }

  // The loop of `parse_sse_stream`. What is pending when the stream ends is not yielded.
  method ParseSseStream(lines: seq<Text>) returns (events: seq<Event>)
    ensures events == FeedAll(FRESH, lines).sent
  {
    hide Stripped, Find, Lines;
    var eventName, payloadChunks := MESSAGE, [];
    events := [];
    for i := 0 to |lines|
      invariant Parser(eventName, payloadChunks, events) == FeedAll(FRESH, lines[..i])
    {
      assert lines[..i + 1][..i] == lines[..i];
      var rawLine := Stripped(lines[i]);
      if rawLine == [] {
        if payloadChunks != [] {
          events := events + [Event(eventName, Lines(payloadChunks))];
        }
        eventName, payloadChunks := MESSAGE, [];
        continue;
      }
      if rawLine[0] == COLON {
        continue;
      }
      var colon := Find(rawLine, COLON);
      var key := if colon == -1 then rawLine else rawLine[..colon];
      var val := if colon == -1 then [] else rawLine[colon + 1..];
      if val != [] && val[0] == SPACE {
        val := val[1..];
      }
      if key == EVENT {
        eventName := val;
      } else if key == DATA {
        payloadChunks := payloadChunks + [val];
      }
    }
    assert lines[..|lines|] == lines;
  }

  // ----- Streams in parts ---------------------------------------------------------------------------

  lemma {:induction false} FeedInTurn(p: Parser, a: seq<Text>, b: seq<Text>)
    ensures FeedAll(p, a + b) == FeedAll(FeedAll(p, a), b)
    decreases |b|
  {
    hide Feed;
    if b == [] {
      assert a + b == a;
    } else {
      FeedInTurn(p, a, b[..|b| - 1]);
      assert (a + b)[..|a + b| - 1] == a + b[..|b| - 1];
    }
  }

  // What was yielded before does not matter for what comes.
  lemma {:induction false} EarlierEventsStay(p: Parser, earlier: seq<Event>, lines: seq<Text>)
    ensures var q := FeedAll(p, lines);
      FeedAll(p.(sent := earlier + p.sent), lines) == q.(sent := earlier + q.sent)
    decreases |lines|
  {
    hide Stripped, Find, Lines, FieldName, FieldValue;
    if lines != [] {
      EarlierEventsStay(p, earlier, lines[..|lines| - 1]);
    }
  }

  // Nothing but line feeds (code point 10) and carriage returns (13).
  predicate Blank(line: Text) {
    forall i :: 0 <= i < |line| ==> line[i] == 10 || line[i] == 13
  }

  lemma {:induction false} BlankIsStripped(line: Text)
    ensures Blank(line) <==> Stripped(line) == []
    decreases |line|
  {
    if line != [] {
      var front := line[..|line| - 1];
      BlankIsStripped(front);
      if Blank(front) && Blank([line[|line| - 1]]) {
        assert [line[|line| - 1]][0] == line[|line| - 1];
      }
      assert Blank(line) <==> Blank(front) && (line[|line| - 1] == 10 || line[|line| - 1] == 13) by {
        assert line == front + [line[|line| - 1]];
      }
    }
  }

  // Only a blank line yields an event: what is pending at the end of the stream is not.
  lemma {:induction false} OnlyBlankLinesYield(p: Parser, lines: seq<Text>)
    requires forall i :: 0 <= i < |lines| ==> !Blank(lines[i])
    ensures FeedAll(p, lines).sent == p.sent
    decreases |lines|
  {
    if lines != [] {
      OnlyBlankLinesYield(p, lines[..|lines| - 1]);
      BlankIsStripped(lines[|lines| - 1]);
      hide Blank, Stripped, FieldName, FieldValue;
    }
  }

  // Parsing distributes over concatenation at blank lines.
  lemma BlankLinesSeparate(a: seq<Text>, blank: Text, b: seq<Text>)
    requires Blank(blank)
    ensures FeedAll(FRESH, a + [blank] + b).sent == FeedAll(FRESH, a + [blank]).sent + FeedAll(FRESH, b).sent
  {
    var p := FeedAll(FRESH, a + [blank]);
    BlankIsStripped(blank);
    assert (a + [blank])[..|a|] == a;
    assert p == Parser(MESSAGE, [], p.sent);
    FeedInTurn(FRESH, a + [blank], b);
    EarlierEventsStay(FRESH, p.sent, b);
    assert p.sent + [] == p.sent;
  }

  // A comment, which begins with a colon (code point 58), or a field other than "event" and "data".
  predicate Ignored(line: Text) {
    var raw := Stripped(line);
    && raw != []
    && (raw[0] == 58 || (FieldName(raw) != [101, 118, 101, 110, 116] && FieldName(raw) != [100, 97, 116, 97]))
  }

  // Comments and unknown fields change nothing, wherever they stand.
  lemma IgnoredLinesChangeNothing(p: Parser, a: seq<Text>, line: Text, b: seq<Text>)
    requires Ignored(line)
    ensures FeedAll(p, a + [line] + b) == FeedAll(p, a + b)
  {
    FeedInTurn(p, a + [line], b);
    FeedInTurn(p, a, b);
    assert (a + [line])[..|a|] == a;
    hide FieldName, FieldValue, Stripped;
  }

  // ----- Framing --------------------------------------------------------------------------------------

  // An event to be sent: its name, if it is to have one, and its lines of data.
  datatype Framed = Framed(name: Option<Text>, data: seq<Text>)

  // The framing of WHATWG HTML section 9.2.6, by code points: 58 is the colon, 32 the optional space
  // after it, 10 the line feed that joins the lines of data.
  function FieldLine(key: Text, value: Text, spaced: bool): Text {
    key + [58] + (if spaced then [32] else []) + value
  }

  // data: value
  function DataLine(value: Text, spaced: bool): Text {
    FieldLine([100, 97, 116, 97], value, spaced)
  }

  // event: value
  function EventLine(value: Text, spaced: bool): Text {
    FieldLine([101, 118, 101, 110, 116], value, spaced)
  }

  function DataLines(data: seq<Text>, spaced: bool): seq<Text> {
    seq(|data|, i requires 0 <= i < |data| => DataLine(data[i], spaced))
  }

  function NameLines(name: Option<Text>, spaced: bool): seq<Text> {
    if name.Some? then [EventLine(name.value, spaced)] else []
  }

  function Frame(f: Framed, spaced: bool): seq<Text> {
    NameLines(f.name, spaced) + DataLines(f.data, spaced) + [[]]
  }

  function Frames(fs: seq<Framed>, spaced: bool): seq<Text> {
    if fs == [] then [] else Frames(fs[..|fs| - 1], spaced) + Frame(fs[|fs| - 1], spaced)
  }

  // An event without a name is a "message".
  function NameOf(name: Option<Text>): Text {
    if name.Some? then name.value else [109, 101, 115, 115, 97, 103, 101]
  }

  function Joined(data: seq<Text>): Text {
    if data == [] then []
    else if |data| == 1 then data[0]
    else Joined(data[..|data| - 1]) + [10] + data[|data| - 1]
  }

  lemma {:induction false} LinesOneMore(data: seq<Text>, last: Text)
    requires data != []
    ensures Lines(data + [last]) == Lines(data) + [LF] + last
  {
    if |data| > 1 {
      LinesOneMore(data[1..], last);
      assert (data + [last])[1..] == data[1..] + [last];
    } else {
      assert (data + [last])[1..] == [last];
    }
  }

  lemma {:induction false} LinesAreJoined(data: seq<Text>)
    ensures Lines(data) == Joined(data)
    decreases |data|
  {
    if |data| > 1 {
      var front := data[..|data| - 1];
      LinesAreJoined(front);
      LinesOneMore(front, data[|data| - 1]);
      assert data == front + [data[|data| - 1]];
    }
  }

  // What arrives of a value.
  function Received(value: Text, spaced: bool): (r: Text)
    ensures |r| <= |value|
  {
    var s := Stripped(value);
    if !spaced && s != [] && s[0] == SPACE then s[1..] else s
  }

  function ReceivedLines(data: seq<Text>, spaced: bool): (r: seq<Text>)
    ensures |r| == |data| && forall i :: 0 <= i < |data| ==> r[i] == Received(data[i], spaced)
  {
    seq(|data|, i requires 0 <= i < |data| => Received(data[i], spaced))
  }

  function ReceivedEvent(f: Framed, spaced: bool): Event {
    Event(if f.name.Some? then Received(f.name.value, spaced) else MESSAGE, Lines(ReceivedLines(f.data, spaced)))
  }

  lemma {:induction false} StrippedTail(before: Text, value: Text)
    requires before != [] && before[|before| - 1] != LF && before[|before| - 1] != CR
    ensures Stripped(before + value) == before + Stripped(value)
    decreases |value|
  {
    var t := before + value;
    if value == [] {
      assert t == before;
    } else if value[|value| - 1] == LF || value[|value| - 1] == CR {
      StrippedTail(before, value[..|value| - 1]);
      assert t[..|t| - 1] == before + value[..|value| - 1];
    } else {
      assert t[|t| - 1] == value[|value| - 1];
    }
  }

  lemma SplitField(key: Text, after: Text)
    requires key != [] && COLON !in key
    ensures var raw := key + [COLON] + after;
      && raw != [] && raw[0] != COLON && FieldName(raw) == key
      && FieldValue(raw) == if after != [] && after[0] == SPACE then after[1..] else after
  {
    FindAfter(key, COLON, after);
    hide Find;
    var raw := key + [COLON] + after;
    assert raw[..|key|] == key && raw[|key| + 1..] == after && raw[0] == key[0];
    if after != [] {
      assert raw[|key| + 1] == after[0] && raw[|key| + 2..] == after[1..];
    }
  }

  lemma FieldArrives(key: Text, value: Text, spaced: bool)
    requires key != [] && COLON !in key
    ensures var raw := Stripped(FieldLine(key, value, spaced));
      raw != [] && raw[0] != COLON && FieldName(raw) == key && FieldValue(raw) == Received(value, spaced)
  {
    hide Stripped, FieldName, FieldValue;
    var s := Stripped(value);
    if spaced {
      var before := key + [COLON] + [SPACE];
      StrippedTail(before, value);
      SplitField(key, [SPACE] + s);
      assert before + s == key + [COLON] + ([SPACE] + s);
    } else {
      var before := key + [COLON];
      StrippedTail(before, value);
      SplitField(key, s);
      assert before + [] == before;
    }
  }

  lemma FeedData(p: Parser, value: Text, spaced: bool)
    ensures Feed(p, DataLine(value, spaced)) == p.(chunks := p.chunks + [Received(value, spaced)])
  {
    FieldArrives(DATA, value, spaced);
    hide Stripped, FieldName, FieldValue, Received, Lines, FieldLine;
  }

  lemma FeedEvent(p: Parser, value: Text, spaced: bool)
    ensures Feed(p, EventLine(value, spaced)) == p.(name := Received(value, spaced))
  {
    FieldArrives(EVENT, value, spaced);
    hide Stripped, FieldName, FieldValue, Received, Lines, FieldLine;
  }

  lemma {:induction false} DataArrives(p: Parser, data: seq<Text>, spaced: bool)
    ensures FeedAll(p, DataLines(data, spaced)) == p.(chunks := p.chunks + ReceivedLines(data, spaced))
    decreases |data|
  {
    hide Feed, Received, FieldLine, ReceivedLines;
    if data == [] {
      assert p.chunks + ReceivedLines(data, spaced) == p.chunks;
    } else {
      var n := |data| - 1;
      DataArrives(p, data[..n], spaced);
      FeedData(FeedAll(p, DataLines(data[..n], spaced)), data[n], spaced);
      assert DataLines(data, spaced)[..n] == DataLines(data[..n], spaced);
      assert ReceivedLines(data, spaced) == ReceivedLines(data[..n], spaced) + [Received(data[n], spaced)];
    }
  }

  // One frame yields one event.
  lemma FrameArrives(f: Framed, spaced: bool, sent: seq<Event>)
    requires f.data != []
    ensures FeedAll(Parser(MESSAGE, [], sent), Frame(f, spaced))
        == Parser(MESSAGE, [], sent + [ReceivedEvent(f, spaced)])
  {
    var p, head, lines := Parser(MESSAGE, [], sent), NameLines(f.name, spaced), DataLines(f.data, spaced);
    var named := p.(name := if f.name.Some? then Received(f.name.value, spaced) else MESSAGE);
    NameArrives(p, f.name, spaced);
    FeedInTurn(p, head, lines);
    DataArrives(named, f.data, spaced);
    hide Feed, Find, FieldName, FieldValue, Received, Lines, FieldLine, DataLines, NameLines;
    FeedInTurn(p, head + lines, [[]]);
    var full := FeedAll(p, head + lines);
    OneLine(full, []);
    BlankLine(full);
    assert [] + ReceivedLines(f.data, spaced) == ReceivedLines(f.data, spaced);
  }

  lemma NameArrives(p: Parser, name: Option<Text>, spaced: bool)
    requires p.name == MESSAGE
    ensures FeedAll(p, NameLines(name, spaced))
        == p.(name := if name.Some? then Received(name.value, spaced) else MESSAGE)
  {
    if name.Some? {
      FeedEvent(p, name.value, spaced);
      OneLine(p, EventLine(name.value, spaced));
    }
    hide Feed, EventLine, Received;
  }

  lemma OneLine(p: Parser, line: Text)
    ensures FeedAll(p, [line]) == Feed(p, line)
  {
    hide Feed;
    assert [line][..0] == [];
  }

  lemma BlankLine(p: Parser)
    ensures Feed(p, []) == Parser(MESSAGE, [], if p.chunks == [] then p.sent
        else p.sent + [Event(p.name, Lines(p.chunks))])
  {
  }

  function ReceivedEvents(fs: seq<Framed>, spaced: bool): (es: seq<Event>)
    ensures |es| == |fs| && forall i :: 0 <= i < |fs| ==> es[i] == ReceivedEvent(fs[i], spaced)
  {
    seq(|fs|, i requires 0 <= i < |fs| => ReceivedEvent(fs[i], spaced))
  }

  // A stream of frames yields one event for each, in order.
  lemma {:induction false} FramesArrive(fs: seq<Framed>, spaced: bool)
    requires forall i :: 0 <= i < |fs| ==> fs[i].data != []
    ensures FeedAll(FRESH, Frames(fs, spaced)) == Parser(MESSAGE, [], ReceivedEvents(fs, spaced))
    decreases |fs|
  {
    hide Feed, Frame, ReceivedEvent;
    if fs != [] {
      var n := |fs| - 1;
      FramesArrive(fs[..n], spaced);
      FeedInTurn(FRESH, Frames(fs[..n], spaced), Frame(fs[n], spaced));
      FrameArrives(fs[n], spaced, ReceivedEvents(fs[..n], spaced));
      assert ReceivedEvents(fs, spaced) == ReceivedEvents(fs[..n], spaced) + [ReceivedEvent(fs[n], spaced)];
    }
  }

  // ----- When framing is inverted -------------------------------------------------------------------------

  // The last character is no line feed or carriage return, and the first one no space where it would be
  // taken for the optional one.
  predicate Survives(value: Text, spaced: bool) {
    value == [] || (value[|value| - 1] != 10 && value[|value| - 1] != 13 && (spaced || value[0] != 32))
  }

  lemma ReceivedWhole(value: Text, spaced: bool)
    ensures Received(value, spaced) == value <==> Survives(value, spaced)
    ensures |Received(value, spaced)| == |value| <==> Survives(value, spaced)
  {
  }

  // Of lines no longer than the originals, the joined text is the same only if each line is.
  lemma {:induction false} LinesShrink(a: seq<Text>, b: seq<Text>)
    requires |a| == |b| && forall i :: 0 <= i < |a| ==> |a[i]| <= |b[i]|
    ensures |Lines(a)| <= |Lines(b)|
    ensures |Lines(a)| == |Lines(b)| ==> forall i :: 0 <= i < |a| ==> |a[i]| == |b[i]|
    decreases |a|
  {
    if |a| > 1 {
      LinesShrink(a[1..], b[1..]);
      assert a == [a[0]] + a[1..] && b == [b[0]] + b[1..];
    }
  }

  predicate FrameSurvives(f: Framed, spaced: bool) {
    && (f.name.Some? ==> Survives(f.name.value, spaced))
    && forall i :: 0 <= i < |f.data| ==> Survives(f.data[i], spaced)
  }

  lemma DataWhole(data: seq<Text>, spaced: bool)
    ensures Lines(ReceivedLines(data, spaced)) == Lines(data) <==>
      forall i :: 0 <= i < |data| ==> Survives(data[i], spaced)
  {
    hide Received, Survives, Lines;
    var r := ReceivedLines(data, spaced);
    LinesShrink(r, data);
    forall i | 0 <= i < |data|
      ensures (r[i] == data[i] <==> Survives(data[i], spaced))
          && (|r[i]| == |data[i]| <==> Survives(data[i], spaced))
    {
      ReceivedWhole(data[i], spaced);
    }
    if forall i :: 0 <= i < |data| ==> Survives(data[i], spaced) {
      assert r == data;
    }
  }

  lemma EventWhole(f: Framed, spaced: bool)
    ensures ReceivedEvent(f, spaced) == Event(NameOf(f.name), Joined(f.data)) <==> FrameSurvives(f, spaced)
  {
    hide Received, Survives, Lines, Joined;
    if f.name.Some? {
      ReceivedWhole(f.name.value, spaced);
    }
    LinesAreJoined(f.data);
    DataWhole(f.data, spaced);
  }

  function Intended(fs: seq<Framed>): (es: seq<Event>)
    ensures |es| == |fs| && forall i :: 0 <= i < |fs| ==> es[i] == Event(NameOf(fs[i].name), Joined(fs[i].data))
  {
    seq(|fs|, i requires 0 <= i < |fs| => Event(NameOf(fs[i].name), Joined(fs[i].data)))
  }

  // The parser inverts framing exactly when no name and no data line ends in a line terminator
  // and, if the optional space is left out, none begins with a space.
  lemma FramingIsInverted(fs: seq<Framed>, spaced: bool)
    requires forall i :: 0 <= i < |fs| ==> fs[i].data != []
    ensures FeedAll(FRESH, Frames(fs, spaced)).sent == Intended(fs) <==> forall i :: 0 <= i < |fs| ==>
        FrameSurvives(fs[i], spaced)
  {
    hide Feed, Frames, ReceivedEvent, FrameSurvives, Joined, NameOf;
    FramesArrive(fs, spaced);
    var es, intended := ReceivedEvents(fs, spaced), Intended(fs);
    forall i | 0 <= i < |fs| ensures es[i] == intended[i] <==> FrameSurvives(fs[i], spaced) {
      EventWhole(fs[i], spaced);
    }
    assert es == intended <==> forall i :: 0 <= i < |fs| ==> es[i] == intended[i];
  }
}
