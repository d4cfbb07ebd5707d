/** What the answer read from a Codex stream says: its text, its end, and each request in terms of the
    events of its own call. */
module CodexAnswers {
  import opened Prelude
  import opened Text
  import opened CodexStream

  /** The text is that of the deltas, in order. */
  lemma ContentTells(events: seq<Event>, e: Event)
    ensures Content([]) == ""
    ensures Content(events + [e]) == Content(events) + match e case TextDelta(text) => text case _ => ""
  {
    assert (events + [e])[..|events|] == events;
  }

  /** The word for a status: an unfinished answer was cut, a failed or cancelled one is an error, and
      any other status, or none, is a normal end. */
  ghost predicate EndsAs(status: string, finish: string) {
    if status == "incomplete" then finish == "length"
    else if status in {"failed", "cancelled"} then finish == "error"
    else finish == "stop"
  }

  /** The end is that of the last completion, and normal without one. */
  lemma {:induction false} FinishTells(events: seq<Event>)
    ensures (forall i :: 0 <= i < |events| ==> !events[i].Completed?) ==> Finish(events) == "stop"
    ensures forall i :: 0 <= i < |events| && events[i].Completed? && (forall k :: i < k < |events| ==> !events[k].Completed?) ==>
              EndsAs(events[i].status, Finish(events))
  {
    if events != [] { FinishTells(events[..|events| - 1]); }
  }

  /** What a completed item's request holds, given the name, item id and arguments announced for its
      call (empty where nothing was announced): those, or where they are empty the item's own, or where
      that is empty too the defaults. */
  ghost predicate Holds(valid: string -> bool, announced: Buffer, e: Event, r: Request)
    requires e.ItemDone?
  {
    && r.id == e.callId + "|" + (if |announced.id| > 0 then announced.id else if |e.itemId| > 0 then e.itemId else "fc_0")
    && r.name == (if |announced.name| > 0 then announced.name else e.name)
    && r.arguments == (if |announced.arguments| > 0 then announced.arguments else if |e.arguments| > 0 then e.arguments else "{}")
    && (r.parses <==> valid(r.arguments))
  }

  /** What the events of one call announce. */
  lemma BufferTells(own: seq<Event>, e: Event)
    ensures BufferOf([]).None?
    ensures e.Added? ==>
              BufferOf(own + [e]) == Some(Buffer(if |e.itemId| > 0 then e.itemId else "fc_0", e.name, e.arguments))
    ensures e.ArgumentsDelta? && BufferOf(own).Some? ==>
              BufferOf(own + [e]) == Some(BufferOf(own).value.(arguments := BufferOf(own).value.arguments + e.text))
    ensures e.ArgumentsDone? && BufferOf(own).Some? ==>
              BufferOf(own + [e]) == Some(BufferOf(own).value.(arguments := e.text))
    ensures (e.ArgumentsDelta? || e.ArgumentsDone?) && BufferOf(own).None? ==> BufferOf(own + [e]).None?
  {
    assert (own + [e])[..|own|] == own;
  }

  /** A call's own events are its announcement, its deltas and its final text, in order. */
  lemma OwnTells(events: seq<Event>, e: Event, callId: string)
    ensures Own([], callId) == []
    ensures Own(events + [e], callId) == Own(events, callId) +
              match e
              case Added(c, _, _, _) => if c == callId then [e] else []
              case ArgumentsDelta(c, _) => if c == callId then [e] else []
              case ArgumentsDone(c, _) => if c == callId then [e] else []
              case _ => []
  {
    assert (events + [e])[..|events|] == events;
  }

  /** Each completed item with a call id adds one request, from what was announced for its call
      before; nothing else adds any. */
  lemma RequestTells(valid: string -> bool, events: seq<Event>, e: Event)
    ensures Requests(valid, []) == []
    ensures var before, after := Requests(valid, events), Requests(valid, events + [e]);
      if e.ItemDone? && e.callId != "" then
        && |after| == |before| + 1 && before <= after
        && Holds(valid, match BufferOf(Own(events, e.callId)) case None => Buffer("", "", "") case Some(b) => b,
                 e, after[|before|])
      else after == before
  {
    assert (events + [e])[..|events|] == events;
  }

  /** A block without data, with blank data, or with the mark of the end yields nothing. */
  lemma EmptyPayloads(block: seq<string>)
    ensures Strip(Joined(DataLines(block))) in {"", "[DONE]"} ==> PayloadOf(block).None?
    ensures Strip(Joined(DataLines(block))) !in {"", "[DONE]"} && |DataLines(block)| > 0 ==>
              PayloadOf(block) == Some(Strip(Joined(DataLines(block))))
    ensures DataLines(block) == [] ==> PayloadOf(block).None?
  {
  }

  /** The data of a block are what its `data:` lines hold, stripped, line by line; they are joined by
      line breaks. */
  lemma DataTells(block: seq<string>, line: string, value: string, lines: seq<string>)
    ensures DataLines([]) == []
    ensures DataLines(block + ["data:" + value]) == DataLines(block) + [Strip(value)]
    ensures !("data:" <= line) ==> DataLines(block + [line]) == DataLines(block)
    ensures Joined([]) == "" && Joined([line]) == line
    ensures lines != [] ==> Joined(lines + [line]) == Joined(lines) + "\n" + line
  {
    assert (block + ["data:" + value])[..|block|] == block && (block + [line])[..|block|] == block;
    assert (lines + [line])[..|lines|] == lines;
    assert ("data:" + value)[5..] == value;
  }

  /** A blank line closes the block of the lines since the one before, in their order, if there are any;
      what is not closed is not read. */
  lemma BlocksTell(lines: seq<string>, line: string)
    ensures Frames([]) == ([], [])
    ensures |line| > 0 ==> Frames(lines + [line]) == (Frames(lines).0, Frames(lines).1 + [line])
    ensures Frames(lines + [""]) == (if Frames(lines).1 == [] then Frames(lines).0 else Frames(lines).0 + [Frames(lines).1], [])
    ensures StreamPayloads(lines) == Payloads(Frames(lines).0)
  {
    assert (lines + [line])[..|lines|] == lines && (lines + [""])[..|lines|] == lines;
  }

  /** Each block with a payload adds it, and each text that can be decoded its event, in order. */
  lemma EventsTell(decode: string -> Option<Event>, blocks: seq<seq<string>>, block: seq<string>, texts: seq<string>, text: string)
    ensures Payloads([]) == [] && Payloads(blocks + [block]) == Payloads(blocks) + OneOrNone(PayloadOf(block))
    ensures Decoded(decode, []) == [] && Decoded(decode, texts + [text]) == Decoded(decode, texts) + OneOrNone(decode(text))
  {
    assert (blocks + [block])[..|blocks|] == blocks && (texts + [text])[..|texts|] == texts;
  }

  function OneOrNone<T>(x: Option<T>): (s: seq<T>)
    ensures |s| == (if x.Some? then 1 else 0) && (x.Some? ==> s[0] == x.value)
  {
    match x case None => [] case Some(value) => [value]
  }
}
