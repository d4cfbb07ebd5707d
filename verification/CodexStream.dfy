/** Reading a Codex response: server-sent-event framing, and the reassembly of interleaved
    tool-call streams into requests. */
module CodexStream {
  import opened Prelude
  import opened Text
  import Messages
  import Providers

  // ---------------------------------------------------------------- framing

  /** The runs of lines before each blank line, without the empty ones; `open` collects the
      lines since the last blank line, which are dropped if the stream ends there. */
  function Frames(lines: seq<string>): (seq<seq<string>>, seq<string>) {
    if lines == [] then ([], [])
    else
      var (blocks, open) := Frames(lines[..|lines| - 1]);
      var line := lines[|lines| - 1];
      if line != "" then (blocks, open + [line])
      else if open == [] then (blocks, [])
      else (blocks + [open], [])
  }

  const DATA := "data:"
  const DONE := "[DONE]"

  /** The stripped value of a data line; other lines are skipped. */
  function DataOf(line: string): seq<string> {
    if StartsWith(line, DATA) then [Strip(line[5..])] else []
  }

  function DataLines(block: seq<string>): seq<string> {
    if block == [] then [] else DataLines(block[..|block| - 1]) + DataOf(block[|block| - 1])
  }

  /** `"\n".join(lines)`. */
  function Joined(lines: seq<string>): string {
    if lines == [] then ""
    else if |lines| == 1 then lines[0]
    else Joined(lines[..|lines| - 1]) + "\n" + lines[|lines| - 1]
  }

  /** The JSON text of a block, if it carries one. */
  function PayloadOf(block: seq<string>): Option<string> {
    var data := Strip(Joined(DataLines(block)));
    if DataLines(block) == [] || data == "" || data == DONE then None else Some(data)
  }

  function Payloads(blocks: seq<seq<string>>): seq<string> {
    if blocks == [] then []
    else
      var n := |blocks| - 1;
      Payloads(blocks[..n]) + match PayloadOf(blocks[n]) case None => [] case Some(text) => [text]
  }

  /** The JSON texts of a stream, in order. */
  function StreamPayloads(lines: seq<string>): seq<string> {
    Payloads(Frames(lines).0)
  }

  /** Feeding a stream piece by piece at a blank line changes nothing. */
  lemma {:induction false} FramesJoin(a: seq<string>, b: seq<string>)
    requires Frames(a).1 == []
    ensures Frames(a + b) == (Frames(a).0 + Frames(b).0, Frames(b).1)
  {
    if b == [] {
      assert a + b == a;
      assert Frames(a).0 + [] == Frames(a).0;
    } else {
      assert (a + b)[..|a + b| - 1] == a + b[..|b| - 1];
      FramesJoin(a, b[..|b| - 1]);
      var open := Frames(b[..|b| - 1]).1;
      assert Frames(a).0 + (Frames(b[..|b| - 1]).0 + [open]) == Frames(a).0 + Frames(b[..|b| - 1]).0 + [open];
    }
  }

  lemma {:induction false} PayloadsJoin(a: seq<seq<string>>, b: seq<seq<string>>)
    ensures Payloads(a + b) == Payloads(a) + Payloads(b)
  {
    if b == [] {
      assert a + b == a;
    } else {
      assert (a + b)[..|a + b| - 1] == a + b[..|b| - 1];
      PayloadsJoin(a, b[..|b| - 1]);
    }
  }

  /** A text that survives framing: stripping leaves it alone and it is not the end mark. */
  predicate Carriable(text: string) {
    Trimmed(text) && text != "" && text != DONE
  }

  /** What a server writes for a list of one-line texts. */
  function Encode(texts: seq<string>): seq<string> {
    if texts == [] then []
    else Encode(texts[..|texts| - 1]) + ["data: " + texts[|texts| - 1], ""]
  }

  lemma StripLeadingSpace(text: string)
    requires Trimmed(text)
    ensures Strip(" " + text) == text
  {
    LstripSkipsSpace(" " + text);
    assert (" " + text)[1..] == text;
    StripIsTrimmed(text);
  }

  lemma LstripSkipsSpace(s: string)
    requires s != "" && s[0] == ' '
    ensures Lstrip(s) == Lstrip(s[1..])
  {
  }

  lemma DataLineText(text: string)
    requires Trimmed(text)
    ensures DataLines(["data: " + text]) == [text]
  {
    var line: string := "data: " + text;
    var none: seq<string> := [];
    assert [line][..0] == none;
    assert line[..5] == DATA && line[5..] == " " + text;
    StripLeadingSpace(text);
  }

  lemma FrameOfLine(line: string)
    requires line != ""
    ensures Frames([line, ""]) == ([[line]], [])
  {
    var none: seq<string> := [];
    var lines := [line, ""];
    assert [line][..0] == none && lines[..1] == [line];
    assert Frames(none) == ([], []);
    assert Frames([line]).0 == [] && Frames([line]).1 == none + [line] == [line];
    var blocks: seq<seq<string>> := [];
    assert Frames(lines).0 == blocks + [[line]] == [[line]];
  }

  lemma OneFrame(text: string)
    requires Carriable(text)
    ensures var lines := ["data: " + text, ""]; Frames(lines).1 == [] && StreamPayloads(lines) == [text]
  {
    var block := ["data: " + text];
    FrameOfLine("data: " + text);
    DataLineText(text);
    StripIsTrimmed(text);
    assert PayloadOf(block) == Some(text);
    var none: seq<seq<string>> := [];
    assert [block][..0] == none;
    assert Payloads([block]) == Payloads(none) + [text];
  }

  lemma StreamsJoin(a: seq<string>, b: seq<string>)
    requires Frames(a).1 == []
    ensures StreamPayloads(a + b) == StreamPayloads(a) + StreamPayloads(b) && Frames(a + b).1 == Frames(b).1
  {
    FramesJoin(a, b);
    PayloadsJoin(Frames(a).0, Frames(b).0);
  }

  /** Decoding what was encoded gives the texts back. */
  lemma {:induction false} EncodingRoundTrip(texts: seq<string>)
    requires forall i :: 0 <= i < |texts| ==> Carriable(texts[i])
    ensures StreamPayloads(Encode(texts)) == texts && Frames(Encode(texts)).1 == []
  {
    if texts != [] {
      var n := |texts| - 1;
      var a, b := Encode(texts[..n]), ["data: " + texts[n], ""];
      assert Encode(texts) == a + b && texts == texts[..n] + [texts[n]];
      assert StreamPayloads(a) == texts[..n] && Frames(a).1 == [] by { EncodingRoundTrip(texts[..n]); }
      assert StreamPayloads(b) == [texts[n]] && Frames(b).1 == [] by { OneFrame(texts[n]); }
      assert StreamPayloads(a + b) == texts && Frames(a + b).1 == [] by { StreamsJoin(a, b); }
    }
  }

  // The event-stream interpretation of section 9.2.6 of the WHATWG HTML standard, for the data field.

  function FieldName(line: string): string {
    var colon := Find(line, ":");
    if colon >= 0 then line[..colon] else line
  }

  /** The value of a field: what follows the colon, without one leading space. */
  function FieldValue(line: string): string {
    var colon := Find(line, ":");
    if colon < 0 then ""
    else
      var rest := line[colon + 1..];
      if rest != "" && rest[0] == ' ' then rest[1..] else rest
  }

  function FieldData(line: string): seq<string> {
    if FieldName(line) == "data" then [FieldValue(line)] else []
  }

  function StandardData(block: seq<string>): seq<string> {
    if block == [] then [] else StandardData(block[..|block| - 1]) + FieldData(block[|block| - 1])
  }

  /** Neither a bare `data` line nor a value with space at either end. */
  predicate PlainLine(line: string) {
    FieldName(line) == "data" ==> line != "data" && Trimmed(FieldValue(line))
  }

  lemma StripNoLonger(s: string)
    ensures |Strip(s)| <= |s|
    ensures |Strip(s)| == |s| ==> Strip(s) == s
  {
    LstripDropsSpace(s);
    RstripDropsSpace(Lstrip(s));
  }

  lemma ColonComesFifth(line: string)
    requires StartsWith(line, DATA)
    ensures Find(line, ":") == 4 && line[..4] == "data"
  {
    OccursOnce(line, ':', 4);
    assert line[4] == DATA[4];
    assert OccursAt(line, ":", 4);
    forall j | 0 <= j < 4 ensures !OccursAt(line, ":", j) {
      assert line[j] == DATA[j];
      OccursOnce(line, ':', j);
    }
  }

  /** A line that starts with the prefix is a data field, and its value strips to the same text. */
  lemma PrefixIsField(line: string)
    requires StartsWith(line, DATA)
    ensures FieldName(line) == "data" && line != "data" && Strip(line[5..]) == Strip(FieldValue(line))
  {
    ColonComesFifth(line);
    if line[5..] != "" && line[5..][0] == ' ' { LstripSkipsSpace(line[5..]); }
  }

  /** The only other data field is a bare `data`, whose value is empty. */
  lemma OtherFieldIsBare(line: string)
    requires !StartsWith(line, DATA) && FieldName(line) == "data"
    ensures line == "data" && FieldValue(line) == ""
  {
    if Find(line, ":") >= 0 { ColonMakesPrefix(line); }
  }

  lemma ColonMakesPrefix(line: string)
    requires Find(line, ":") >= 0 && FieldName(line) == "data"
    ensures StartsWith(line, DATA)
  {
    var colon := Find(line, ":");
    assert line[..colon] == "data";
    assert line[colon..][0] == line[colon] == ':';
  }

  function Chars(lines: seq<string>): nat {
    if lines == [] then 0 else Chars(lines[..|lines| - 1]) + |lines[|lines| - 1]|
  }

  lemma CharsOfOne(line: string)
    ensures Chars([line]) == |line|
  {
    assert [line][..0] == [];
  }

  lemma {:induction false} CharsJoin(a: seq<string>, b: seq<string>)
    ensures Chars(a + b) == Chars(a) + Chars(b)
  {
    if b == [] {
      assert a + b == a;
    } else {
      assert (a + b)[..|a + b| - 1] == a + b[..|b| - 1];
      CharsJoin(a, b[..|b| - 1]);
    }
  }

  /** What one line contributes in the code and in the standard: the same exactly for plain lines,
      and otherwise the code has less. */
  lemma LineFollowsStandard(line: string)
    ensures DataOf(line) == FieldData(line) <==> PlainLine(line)
    ensures |DataOf(line)| <= |FieldData(line)| && Chars(DataOf(line)) <= Chars(FieldData(line))
    ensures |DataOf(line)| == |FieldData(line)| && Chars(DataOf(line)) == Chars(FieldData(line)) ==>
              DataOf(line) == FieldData(line)
  {
    if StartsWith(line, DATA) {
      PrefixIsField(line);
      StripNoLonger(FieldValue(line));
      StripIsTrimmed(FieldValue(line));
      CharsOfOne(Strip(line[5..]));
      CharsOfOne(FieldValue(line));
    } else if FieldName(line) == "data" {
      OtherFieldIsBare(line);
    }
  }

  lemma SplitEqual(a: seq<string>, x: seq<string>, b: seq<string>, y: seq<string>)
    requires |a| <= |b| && |x| <= |y|
    ensures a + x == b + y <==> a == b && x == y
  {
    if a + x == b + y {
      assert |a| == |b|;
      assert (a + x)[..|a|] == a && (b + y)[..|b|] == b;
      assert (a + x)[|a|..] == x && (b + y)[|b|..] == y;
    }
  }

  ghost predicate PlainLines(block: seq<string>) {
    forall i :: 0 <= i < |block| ==> PlainLine(block[i])
  }

  lemma PlainSnoc(block: seq<string>)
    requires block != []
    ensures PlainLines(block) <==> PlainLines(block[..|block| - 1]) && PlainLine(block[|block| - 1])
  {
    assert forall i :: 0 <= i < |block| - 1 ==> block[..|block| - 1][i] == block[i];
  }

  /** The code collects the data of a block as the standard does if and only if the block has no
      bare `data` line and no value with whitespace at either end. */
  lemma {:induction false} FramingFollowsStandardIff(block: seq<string>)
    ensures DataLines(block) == StandardData(block) <==> PlainLines(block)
    ensures |DataLines(block)| <= |StandardData(block)|
  {
    if block != [] {
      var n := |block| - 1;
      FramingFollowsStandardIff(block[..n]);
      LineFollowsStandard(block[n]);
      SplitEqual(DataLines(block[..n]), DataOf(block[n]), StandardData(block[..n]), FieldData(block[n]));
      PlainSnoc(block);
    }
  }

  lemma {:induction false} JoinedLength(lines: seq<string>)
    ensures |Joined(lines)| == if lines == [] then 0 else Chars(lines) + |lines| - 1
  {
    if |lines| == 1 {
      assert lines[..0] == [];
    } else if |lines| > 1 {
      JoinedLength(lines[..|lines| - 1]);
    }
  }

  /** What the code collects has no more lines and no more characters than the standard's data, and
      is the standard's data if it has as many of both. */
  lemma {:induction false} CodeHasLess(block: seq<string>)
    ensures |DataLines(block)| <= |StandardData(block)| && Chars(DataLines(block)) <= Chars(StandardData(block))
    ensures |DataLines(block)| == |StandardData(block)| && Chars(DataLines(block)) == Chars(StandardData(block))
            ==> DataLines(block) == StandardData(block)
  {
    if block != [] {
      var n := |block| - 1;
      CodeHasLess(block[..n]);
      LineFollowsStandard(block[n]);
      CharsJoin(DataLines(block[..n]), DataOf(block[n]));
      CharsJoin(StandardData(block[..n]), FieldData(block[n]));
    }
  }

  /** The text taken from a block is the data that the standard dispatches if and only if the lines
      are plain and that data is not blank, not the end mark, and has no whitespace at its ends. */
  lemma PayloadFollowsStandardIff(block: seq<string>)
    ensures PayloadOf(block) == Some(Joined(StandardData(block))) <==>
            PlainLines(block) && StandardData(block) != [] && Carriable(Joined(StandardData(block)))
  {
    var code, standard := DataLines(block), StandardData(block);
    FramingFollowsStandardIff(block);
    StripIsTrimmed(Joined(standard));
    if PayloadOf(block) == Some(Joined(standard)) {
      CodeHasLess(block);
      JoinedLength(code);
      JoinedLength(standard);
      StripNoLonger(Joined(code));
    }
  }

  /** A bare `data` line in the middle, which the standard reads as an empty line of data. */
  lemma BareDataWitness()
    ensures StandardData(["data: {", "data", "data: }"]) != DataLines(["data: {", "data", "data: }"])
  {
    var line: string := "data";
    assert forall j :: 0 <= j < |line| ==> line[j..][0] == line[j];
    assert Find(line, ":") == -1;
    assert !PlainLine(["data: {", "data", "data: }"][1]);
    FramingFollowsStandardIff(["data: {", "data", "data: }"]);
  }

  // ---------------------------------------------------------------- reassembly

  /** Decoded events; an absent string is "". Items other than function calls are `Other`. */
  datatype Event =
    | Added(callId: string, itemId: string, name: string, arguments: string)
    | TextDelta(text: string)
    | ArgumentsDelta(callId: string, text: string)
    | ArgumentsDone(callId: string, text: string)
    | ItemDone(callId: string, itemId: string, name: string, arguments: string)
    | Completed(status: string)
    | Failed
    | Other

  datatype Buffer = Buffer(id: string, name: string, arguments: string)

  /** `arguments` is the text handed to the JSON parser; `parses` whether it is valid JSON. */
  datatype Request = Request(id: string, name: string, arguments: string, parses: bool)

  datatype Response = Response(content: string, calls: seq<Request>, finish: string) | Error

  function OrElse(a: string, b: string): string {
    if a == "" then b else a
  }

  function FinishReason(status: string): string {
    var s := OrElse(status, "completed");
    if s == "incomplete" then "length" else if s == "failed" || s == "cancelled" then "error" else "stop"
  }

  /** The events that concern the buffer of one call. */
  function Own(events: seq<Event>, callId: string): seq<Event> {
    if events == [] then []
    else
      var e := events[|events| - 1];
      Own(events[..|events| - 1], callId)
        + if (e.Added? || e.ArgumentsDelta? || e.ArgumentsDone?) && e.callId == callId then [e] else []
  }

  /** The buffer that a call's own events build up. */
  function BufferOf(own: seq<Event>): Option<Buffer> {
    if own == [] then None
    else
      var before := BufferOf(own[..|own| - 1]);
      match own[|own| - 1]
      case Added(_, itemId, name, arguments) => Some(Buffer(OrElse(itemId, "fc_0"), name, arguments))
      case ArgumentsDelta(_, text) =>
        if before.Some? then Some(before.value.(arguments := before.value.arguments + text)) else None
      case ArgumentsDone(_, text) =>
        if before.Some? then Some(before.value.(arguments := text)) else None
      case _ => before
  }

  /** The request of a completed item, from its own buffer first and the item second. */
  function RequestOf(valid: string -> bool, buffer: Option<Buffer>, e: Event): Request
    requires e.ItemDone?
  {
    var b := if buffer.Some? then buffer.value else Buffer("", "", "");
    var arguments := OrElse(OrElse(b.arguments, e.arguments), "{}");
    Request(e.callId + "|" + OrElse(OrElse(b.id, e.itemId), "fc_0"), OrElse(b.name, e.name), arguments, valid(arguments))
  }

  function Content(events: seq<Event>): string {
    if events == [] then ""
    else
      var e := events[|events| - 1];
      Content(events[..|events| - 1]) + if e.TextDelta? then e.text else ""
  }

  /** One request per completed call item, in completion order, each from its own call's events. */
  function Requests(valid: string -> bool, events: seq<Event>): seq<Request> {
    if events == [] then []
    else
      var front, e := events[..|events| - 1], events[|events| - 1];
      Requests(valid, front)
        + if e.ItemDone? && e.callId != "" then [RequestOf(valid, BufferOf(Own(front, e.callId)), e)] else []
  }

  function Finish(events: seq<Event>): string {
    if events == [] then "stop"
    else
      var e := events[|events| - 1];
      if e.Completed? then FinishReason(e.status) else Finish(events[..|events| - 1])
  }

  /** The shared buffers hold, for each call, exactly what its own events built. */
  ghost predicate BuffersOk(buffers: map<string, Buffer>, events: seq<Event>) {
    forall c: string :: c != "" ==> BufferAt(buffers, c) == BufferOf(Own(events, c))
  }

  function BufferAt(buffers: map<string, Buffer>, c: string): Option<Buffer> {
    if c in buffers then Some(buffers[c]) else None
  }

  lemma OwnSnoc(events: seq<Event>, e: Event, c: string)
    ensures Own(events + [e], c) ==
            if (e.Added? || e.ArgumentsDelta? || e.ArgumentsDone?) && e.callId == c
            then Own(events, c) + [e] else Own(events, c)
  {
    assert (events + [e])[..|events|] == events;
  }

  /** What an event does to the shared buffers. */
  function Buffered(buffers: map<string, Buffer>, e: Event): map<string, Buffer> {
    match e
    case Added(c, itemId, name, arguments) =>
      if c == "" then buffers else buffers[c := Buffer(OrElse(itemId, "fc_0"), name, arguments)]
    case ArgumentsDelta(c, text) =>
      if c != "" && c in buffers then buffers[c := buffers[c].(arguments := buffers[c].arguments + text)] else buffers
    case ArgumentsDone(c, text) =>
      if c != "" && c in buffers then buffers[c := buffers[c].(arguments := text)] else buffers
    case _ => buffers
  }

  /** Calls do not interfere: an event changes only its own call's buffer. */
  lemma BuffersStayOk(buffers: map<string, Buffer>, events: seq<Event>, e: Event)
    requires BuffersOk(buffers, events)
    ensures BuffersOk(Buffered(buffers, e), events + [e])
  {
    forall c: string | c != "" ensures BufferAt(Buffered(buffers, e), c) == BufferOf(Own(events + [e], c)) {
      assert BufferAt(buffers, c) == BufferOf(Own(events, c));
      OneBufferStaysOk(buffers, Own(events, c), e, c);
      OwnSnoc(events, e, c);
    }
  }

  predicate Concerns(e: Event, c: string) {
    (e.Added? || e.ArgumentsDelta? || e.ArgumentsDone?) && e.callId == c
  }

  lemma OneBufferStaysOk(buffers: map<string, Buffer>, own: seq<Event>, e: Event, c: string)
    requires c != "" && BufferAt(buffers, c) == BufferOf(own)
    ensures BufferAt(Buffered(buffers, e), c) == if Concerns(e, c) then BufferOf(own + [e]) else BufferOf(own)
  {
    assert (own + [e])[..|own|] == own;
  }

  /** The branches that touch the shared buffers. */
  method BufferEvent(before: map<string, Buffer>, e: Event) returns (buffers: map<string, Buffer>)
    ensures buffers == Buffered(before, e)
  {
    buffers := before;
    match e {
      case Added(c, itemId, name, arguments) =>
        if c == "" { return; }
        buffers := buffers[c := Buffer(OrElse(itemId, "fc_0"), name, arguments)];
      case ArgumentsDelta(c, text) =>
        if c != "" && c in buffers {
          buffers := buffers[c := buffers[c].(arguments := buffers[c].arguments + text)];
        }
      case ArgumentsDone(c, text) =>
        if c != "" && c in buffers { buffers := buffers[c := buffers[c].(arguments := text)]; }
      case _ =>
    }
  }

  method ConsumeEvents(valid: string -> bool, events: seq<Event>) returns (r: Response)
    ensures Failed in events ==> r == Error
    ensures Failed !in events ==> r == Response(Content(events), Requests(valid, events), Finish(events))
  {
    var content, calls, finish := "", [], "stop";
    var buffers: map<string, Buffer> := map[];
    for i := 0 to |events|
      invariant Failed !in events[..i]
      invariant content == Content(events[..i]) && calls == Requests(valid, events[..i]) && finish == Finish(events[..i])
      invariant BuffersOk(buffers, events[..i])
    {
      var e := events[i];
      assert events[..i + 1][..i] == events[..i] && events[..i + 1] == events[..i] + [e];
      if e == Failed { return Error; }
      if e.ItemDone? && e.callId != "" {
        calls := calls + [RequestOf(valid, if e.callId in buffers then Some(buffers[e.callId]) else None, e)];
      }
      if e.TextDelta? { content := content + e.text; }
      if e.Completed? { finish := FinishReason(e.status); }
      BuffersStayOk(buffers, events[..i], e);
      buffers := BufferEvent(buffers, e);
    }
    assert events[..|events|] == events;
    r := Response(content, calls, finish);
  }

  // ---------------------------------------------------------------- well-formed calls

  function DeltaTexts(events: seq<Event>): string {
    if events == [] then ""
    else
      var e := events[|events| - 1];
      DeltaTexts(events[..|events| - 1]) + if e.ArgumentsDelta? then e.text else ""
  }

  /** One announcement, then deltas, then perhaps one final text. */
  ghost predicate WellFormed(own: seq<Event>, deltas: seq<Event>, done: Option<string>) {
    && own != [] && own[0].Added?
    && (forall i :: 0 <= i < |deltas| ==> deltas[i].ArgumentsDelta?)
    && own == [own[0]] + deltas + if done.Some? then [ArgumentsDone(own[0].callId, done.value)] else []
  }

  lemma {:induction false} DeltasAppend(first: Event, deltas: seq<Event>)
    requires first.Added? && forall i :: 0 <= i < |deltas| ==> deltas[i].ArgumentsDelta?
    ensures BufferOf([first] + deltas) ==
            Some(Buffer(OrElse(first.itemId, "fc_0"), first.name, first.arguments + DeltaTexts(deltas)))
  {
    if deltas == [] {
      assert [first] + deltas == [first] && [first][..0] == [];
      assert first.arguments + "" == first.arguments;
    } else {
      var front := deltas[..|deltas| - 1];
      assert ([first] + deltas)[..|deltas|] == [first] + front;
      DeltasAppend(first, front);
      assert first.arguments + DeltaTexts(deltas)
          == first.arguments + DeltaTexts(front) + deltas[|deltas| - 1].text;
    }
  }

  /** However calls interleave: the request of the item completed at position i carries the
      arguments of its own call alone, the final text if there was one and otherwise the
      initial text with its deltas; only if that is empty do the item's own arguments count. */
  lemma CompletedItemGetsItsOwnArguments(valid: string -> bool, events: seq<Event>, i: nat,
                                         deltas: seq<Event>, done: Option<string>)
    requires i < |events| && events[i].ItemDone? && events[i].callId != ""
    requires WellFormed(Own(events[..i], events[i].callId), deltas, done)
    ensures var first := Own(events[..i], events[i].callId)[0];
      var text := if done.Some? then done.value else first.arguments + DeltaTexts(deltas);
      var k := |Requests(valid, events[..i])|;
      && k < |Requests(valid, events)|
      && Requests(valid, events)[k].arguments == OrElse(OrElse(text, events[i].arguments), "{}")
      && Requests(valid, events)[k].id == events[i].callId + "|" + OrElse(first.itemId, "fc_0")
      && Requests(valid, events)[k].name == OrElse(first.name, events[i].name)
  {
    var c := events[i].callId;
    var own := Own(events[..i], c);
    DeltasAppend(own[0], deltas);
    if done.Some? {
      assert own[..|own| - 1] == [own[0]] + deltas;
    } else {
      assert own == [own[0]] + deltas;
    }
    assert events[..i + 1][..i] == events[..i];
    RequestsPrefix(valid, events, i + 1);
  }

  lemma {:induction false} RequestsPrefix(valid: string -> bool, events: seq<Event>, n: nat)
    requires n <= |events|
    ensures Requests(valid, events[..n]) <= Requests(valid, events)
  {
    if n == |events| {
      assert events[..n] == events;
    } else {
      RequestsPrefix(valid, events[..|events| - 1], n);
      assert events[..|events| - 1][..n] == events[..n];
    }
  }

  /** Requests and completed items correspond one to one. */
  lemma {:induction false} OneRequestPerCompletedItem(valid: string -> bool, events: seq<Event>)
    ensures |Requests(valid, events)| == |CompletedIds(events)|
    ensures forall k :: 0 <= k < |CompletedIds(events)| ==>
              CompletedIds(events)[k] + "|" <= Requests(valid, events)[k].id
  {
    if events != [] { OneRequestPerCompletedItem(valid, events[..|events| - 1]); }
  }

  /** The call ids of the completed items, in order. */
  function CompletedIds(events: seq<Event>): seq<string> {
    if events == [] then []
    else
      var e := events[|events| - 1];
      CompletedIds(events[..|events| - 1]) + if e.ItemDone? && e.callId != "" then [e.callId] else []
  }

  /** An emitted id splits back into its call id and its item id if and only if the call id
      holds no '|'. */
  lemma EmittedIdSplitsBack(callId: string, itemId: string)
    requires callId != "" && itemId != ""
    ensures Providers.SplitId(Some(callId + "|" + itemId)) == (callId, Some(itemId)) <==> !Contains(callId, "|")
  {
    var id := callId + "|" + itemId;
    forall j ensures OccursAt(id, "|", j) <==> 0 <= j < |id| && id[j] == '|' { OccursOnce(id, '|', j); }
    forall j ensures OccursAt(callId, "|", j) <==> 0 <= j < |callId| && callId[j] == '|' { OccursOnce(callId, '|', j); }
    assert id[|callId|] == '|';
    var bar := Find(id, "|");
    assert bar < |callId| <==> Contains(callId, "|") by {
      assert forall j :: 0 <= j < |callId| ==> id[j] == callId[j];
    }
    if bar == |callId| { assert id[..bar] == callId && id[bar + 1..] == itemId; }
  }

  /** A call id that itself holds a bar comes back cut short. */
  lemma BarInCallIdWitness()
    ensures Providers.SplitId(Some("a|b" + "|" + "fc_0")) != ("a|b", Some("fc_0"))
  {
    var callId: string := "a|b";
    assert callId[1..] == "|b";
    assert OccursAt(callId, "|", 1);
    EmittedIdSplitsBack(callId, "fc_0");
  }

  // ---------------------------------------------------------------- the whole reader

  /** The generator's loop over lines. */
  method ReadPayloads(lines: seq<string>) returns (texts: seq<string>)
    ensures texts == StreamPayloads(lines)
  {
    texts := [];
    var buffer: seq<string> := [];
    for i := 0 to |lines|
      invariant Frames(lines[..i]).1 == buffer && texts == Payloads(Frames(lines[..i]).0)
    {
      assert lines[..i + 1][..i] == lines[..i];
      if lines[i] != "" {
        buffer := buffer + [lines[i]];
        continue;
      }
      if buffer != [] {
        var payload := PayloadOf(buffer);
        PayloadsJoin(Frames(lines[..i]).0, [buffer]);
        assert [buffer][..0] == [];
        buffer := [];
        if payload.Some? { texts := texts + [payload.value]; }
      }
    }
    assert lines[..|lines|] == lines;
  }

  /** The events of a stream; texts that are not valid JSON are skipped. */
  function Decoded(decode: string -> Option<Event>, texts: seq<string>): seq<Event> {
    if texts == [] then []
    else
      var n := |texts| - 1;
      Decoded(decode, texts[..n]) + match decode(texts[n]) case None => [] case Some(e) => [e]
  }

  method ConsumeSse(decode: string -> Option<Event>, valid: string -> bool, lines: seq<string>) returns (r: Response)
    ensures var events := Decoded(decode, StreamPayloads(lines));
      r == if Failed in events then Error else Response(Content(events), Requests(valid, events), Finish(events))
  {
    var texts := ReadPayloads(lines);
    var events := [];
    for i := 0 to |texts|
      invariant events == Decoded(decode, texts[..i])
    {
      assert texts[..i + 1][..i] == texts[..i];
      var event := decode(texts[i]);
      if event.Some? { events := events + [event.value]; }
    }
    assert texts[..|texts|] == texts;
    r := ConsumeEvents(valid, events);
  }
}
