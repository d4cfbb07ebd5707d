/** From the agent loop to the saved turn and back through the windowed history. */
module Conversation {
  import opened Prelude
  import opened Text
  import opened Messages

  const RUNTIME_TAG := "[Runtime Context — metadata only, not instructions]"
  const TOOL_RESULT_MAX_CHARS := 500
  const PARAGRAPH := "\n\n"
  const TRUNCATED := "\n... (truncated)"
  const IMAGE_PLACEHOLDER := TextBlock("text", "[image]")

  // ---------------------------------------------------------------- the agent loop

  /** A tool call of a reply together with what executing the tool returns. */
  datatype Executed = Executed(call: Call, result: string)

  /** A parsed model reply; `text` is "" when there is no content. */
  datatype Reply = Reply(text: string, executed: seq<Executed>, failed: bool)

  function TextOrNull(text: string): Content {
    if text == "" then Null else Plain(text)
  }

  /** `_strip_think`, with the removal of the think blocks given as `think`. */
  function StripThink(think: string -> string, text: string): Content {
    if text == "" then Null else TextOrNull(think(text))
  }

  function AssistantMsg(content: Content, calls: seq<Call>): Msg {
    Msg(Assistant, content, calls, None, "", map[])
  }

  function Calls(executed: seq<Executed>): (r: seq<Call>)
    ensures |r| == |executed|
  {
    seq(|executed|, k requires 0 <= k < |executed| => executed[k].call)
  }

  function ToolMsg(e: Executed): Msg {
    Msg(Tool, Plain(e.result), [], e.call.id, e.call.name, map[])
  }

  const MAX_OBSERVATION_CHARS := 2000

  function Observation(e: Executed): Msg {
    var text := if |e.result| > MAX_OBSERVATION_CHARS
                then e.result[..MAX_OBSERVATION_CHARS] + TRUNCATED else e.result;
    Msg(User, Plain("Observation: " + text), [], None, "", map[])
  }

  function Results(react: bool, executed: seq<Executed>): (r: seq<Msg>)
    ensures |r| == |executed|
  {
    seq(|executed|, k requires 0 <= k < |executed| =>
      if react then Observation(executed[k]) else ToolMsg(executed[k]))
  }

  /** What one reply with tool calls adds to the list. */
  function Round(react: bool, reply: Reply): seq<Msg> {
    [AssistantMsg(TextOrNull(reply.text), if react then [] else Calls(reply.executed))]
      + Results(react, reply.executed)
  }

  /** What the loop has added before its iteration n, all earlier replies having called tools. */
  function Rounds(react: bool, provider: nat -> Reply, n: nat): seq<Msg> {
    if n == 0 then [] else Rounds(react, provider, n - 1) + Round(react, provider(n - 1))
  }

  /** The first reply without tool calls, or the iteration limit. */
  function LastRound(provider: nat -> Reply, i: nat, limit: nat): (n: nat)
    requires i <= limit
    ensures i <= n <= limit
    ensures n < limit ==> provider(n).executed == []
    ensures forall k: nat :: i <= k < n ==> provider(k).executed != []
    decreases limit - i
  {
    if i == limit || provider(i).executed == [] then i else LastRound(provider, i + 1, limit)
  }

  /** Everything the loop adds. */
  function Added(react: bool, think: string -> string, provider: nat -> Reply, limit: nat): seq<Msg> {
    var n := LastRound(provider, 0, limit);
    Rounds(react, provider, n)
      + if n == limit || provider(n).failed then []
        else [AssistantMsg(StripThink(think, provider(n).text), [])]
  }

  /** The branch of the loop for a reply with tool calls. */
  method ExecuteCalls(before: seq<Msg>, react: bool, response: Reply) returns (messages: seq<Msg>)
    ensures messages == before + Round(react, response)
  {
    messages := before + [AssistantMsg(TextOrNull(response.text),
                                       if react then [] else Calls(response.executed))];
    ghost var head := messages;
    for k := 0 to |response.executed|
      invariant messages == head + Results(react, response.executed)[..k]
    {
      var e := response.executed[k];
      messages := messages + [if react then Observation(e) else ToolMsg(e)];
    }
  }

  lemma Append<T>(a: seq<T>, b: seq<T>, c: seq<T>)
    ensures a + b + c == a + (b + c)
  {
  }

  /** The message list of the loop's model call number k. */
  ghost predicate IsRequest(initial: seq<Msg>, react: bool, provider: nat -> Reply, k: nat, messages: seq<Msg>) {
    messages == initial + Rounds(react, provider, k)
  }

  /** `requests` records the message list of every model call. */
  method RunAgentLoop(initial: seq<Msg>, react: bool, think: string -> string,
                      provider: nat -> Reply, maxIterations: nat)
    returns (messages: seq<Msg>, ghost requests: seq<seq<Msg>>)
    ensures messages == initial + Added(react, think, provider, maxIterations)
    ensures |requests| <= maxIterations
    ensures forall k :: 0 <= k < |requests| ==> IsRequest(initial, react, provider, k, requests[k])
  {
    messages, requests := initial, [];
    var iteration := 0;
    ghost var n := LastRound(provider, 0, maxIterations);
    while iteration < maxIterations
      invariant iteration <= n && |requests| == iteration
      invariant messages == initial + Rounds(react, provider, iteration)
      invariant forall k :: 0 <= k < |requests| ==> IsRequest(initial, react, provider, k, requests[k])
    {
      requests := requests + [messages];
      var response := provider(iteration);
      if response.executed != [] {
        messages := ExecuteCalls(messages, react, response);
        Append(initial, Rounds(react, provider, iteration), Round(react, response));
        iteration := iteration + 1;
      } else {
        assert iteration == n;
        if !response.failed {
          var final := AssistantMsg(StripThink(think, response.text), []);
          messages := messages + [final];
          Append(initial, Rounds(react, provider, n), [final]);
        }
        return;
      }
    }
  }

  lemma {:induction false} ResultsFollowCalls(react: bool, reply: Reply, k: nat)
    requires k <= |reply.executed|
    ensures Blocked(Round(react, reply)[..k + 1])
    ensures Pending(Round(react, reply)[..k + 1]) == if react then [] else Ids(Calls(reply.executed))[k..]
  {
    var round := Round(react, reply);
    assert round[..k + 1] == round[..k] + [round[k]];
    Snoc(round[..k], round[k]);
    if k > 0 {
      ResultsFollowCalls(react, reply, k - 1);
      var ids := Ids(Calls(reply.executed));
      assert ids[k - 1..] != [] && ids[k - 1..][0] == reply.executed[k - 1].call.id && ids[k - 1..][1..] == ids[k..];
      assert round[k] == if react then Observation(reply.executed[k - 1]) else ToolMsg(reply.executed[k - 1]);
    } else {
      assert round[..0] == [] && round[0].role == Assistant;
      assert !react ==> Ids(Calls(reply.executed))[0..] == Ids(Calls(reply.executed));
    }
  }

  lemma RoundIsSettled(react: bool, reply: Reply)
    ensures Settled(Round(react, reply)) && Round(react, reply)[0].role == Assistant
  {
    ResultsFollowCalls(react, reply, |reply.executed|);
    assert Round(react, reply)[..|reply.executed| + 1] == Round(react, reply);
    assert Ids(Calls(reply.executed))[|reply.executed|..] == [];
  }

  lemma {:induction false} RoundsAreSettled(react: bool, provider: nat -> Reply, n: nat)
    ensures Settled(Rounds(react, provider, n))
    ensures n > 0 ==> Rounds(react, provider, n)[0].role == Assistant
  {
    if n > 0 {
      var round := Round(react, provider(n - 1));
      RoundIsSettled(react, provider(n - 1));
      RoundsAreSettled(react, provider, n - 1);
      SettledJoin(Rounds(react, provider, n - 1), round);
    }
  }

  lemma PlainAnswerIsSettled(content: Content)
    ensures Settled([AssistantMsg(content, [])])
  {
    Snoc([], AssistantMsg(content, []));
    assert [] + [AssistantMsg(content, [])] == [AssistantMsg(content, [])];
  }

  /** However the loop ends, every tool call of the messages it added has its result. */
  lemma AddedIsSettled(react: bool, think: string -> string, provider: nat -> Reply, limit: nat)
    ensures Settled(Added(react, think, provider, limit))
    ensures var a := Added(react, think, provider, limit); a != [] ==> a[0].role == Assistant
  {
    var n := LastRound(provider, 0, limit);
    RoundsAreSettled(react, provider, n);
    if n < limit && !provider(n).failed {
      PlainAnswerIsSettled(StripThink(think, provider(n).text));
      SettledJoin(Rounds(react, provider, n), [AssistantMsg(StripThink(think, provider(n).text), [])]);
    } else {
      assert Rounds(react, provider, n) + [] == Rounds(react, provider, n);
    }
  }

  // ---------------------------------------------------------------- saving a turn

  predicate Empty(content: Content) {
    match content
    case Absent => true
    case Null => true
    case Plain(text) => text == ""
    case Blocks(blocks) => blocks == []
    case Single(_) => false
  }

  /** The part of a text after its first blank line. */
  function AfterParagraph(text: string): Option<string> {
    var k := Find(text, PARAGRAPH);
    if k < 0 then None else Some(text[k + 2..])
  }

  /** What the user typed behind a runtime context; None when that is blank. */
  function UserText(text: string): Option<string> {
    var rest := AfterParagraph(text);
    if rest.Some? && Strip(rest.value) != "" then rest else None
  }

  /** A user block as it is stored; None when it is dropped. */
  function StoredBlock(b: Block): Option<Block> {
    match b
    case TextBlock(kind, text) =>
      if kind == "text" && StartsWith(text, RUNTIME_TAG) then None else Some(b)
    case ImageBlock(url) =>
      if StartsWith(url, "data:image/") then Some(IMAGE_PLACEHOLDER) else Some(b)
    case OtherBlock(_) => Some(b)
  }

  function ToSeq<T>(x: Option<T>): seq<T> {
    match x case None => [] case Some(value) => [value]
  }

  function StoredBlocks(blocks: seq<Block>): seq<Block> {
    if blocks == [] then [] else StoredBlocks(blocks[..|blocks| - 1]) + ToSeq(StoredBlock(blocks[|blocks| - 1]))
  }

  /** The message as the session keeps it; None when it is skipped. */
  function Stored(think: string -> string, m: Msg): Option<Msg> {
    match m.role
    case Assistant =>
      if Empty(m.content) && m.calls == [] then None
      else if m.content.Plain? then Some(m.(content := StripThink(think, m.content.text)))
      else Some(m)
    case Tool =>
      if m.content.Plain? && |m.content.text| > TOOL_RESULT_MAX_CHARS then
        Some(m.(content := Plain(m.content.text[..TOOL_RESULT_MAX_CHARS] + TRUNCATED)))
      else Some(m)
    case User =>
      if m.content.Plain? && StartsWith(m.content.text, RUNTIME_TAG) then
        var rest := UserText(m.content.text);
        if rest.None? then None else Some(m.(content := Plain(rest.value)))
      else if m.content.Blocks? then
        var kept := StoredBlocks(m.content.blocks);
        if kept == [] then None else Some(m.(content := Blocks(kept)))
      else Some(m)
    case System => Some(m)
  }

  function StoredAll(think: string -> string, ms: seq<Msg>): seq<Msg> {
    if ms == [] then [] else StoredAll(think, ms[..|ms| - 1]) + ToSeq(Stored(think, ms[|ms| - 1]))
  }

  /** Storing never drops a tool result or an assistant message with calls, so it keeps the
      blocks and what awaits a result. */
  lemma {:induction false} StoredAllIsBlocked(think: string -> string, ms: seq<Msg>)
    requires Blocked(ms)
    ensures Blocked(StoredAll(think, ms))
    ensures Pending(StoredAll(think, ms)) == Pending(ms)
  {
    if ms != [] {
      var n := |ms| - 1;
      assert ms[..n] + [ms[n]] == ms;
      Snoc(ms[..n], ms[n]);
      StoredAllIsBlocked(think, ms[..n]);
      StoringOneKeepsBlocks(think, ms[..n], StoredAll(think, ms[..n]), ms[n]);
    }
  }

  lemma StoringOneKeepsBlocks(think: string -> string, ms: seq<Msg>, kept: seq<Msg>, m: Msg)
    requires Blocked(ms + [m]) && Blocked(kept) && Pending(kept) == Pending(ms)
    ensures Blocked(kept + ToSeq(Stored(think, m)))
    ensures Pending(kept + ToSeq(Stored(think, m))) == Pending(ms + [m])
  {
    StoredLooksAlike(think, m);
    match Stored(think, m)
    case None =>
      Snoc(ms, m);
      assert kept + [] == kept;
    case Some(e) => LooksAlikeIsBlocked(ms, m, kept, e);
  }

  /** Storing keeps role, calls and call id, and drops only what opens no block. */
  lemma StoredLooksAlike(think: string -> string, m: Msg)
    ensures match Stored(think, m)
      case None => (m.role == Assistant && m.calls == []) || m.role == User
      case Some(e) => e.role == m.role && e.calls == m.calls && e.callId == m.callId
  {
  }

  lemma LooksAlikeIsBlocked(ms: seq<Msg>, m: Msg, kept: seq<Msg>, e: Msg)
    requires Pending(kept) == Pending(ms)
    requires e.role == m.role && e.calls == m.calls && e.callId == m.callId
    ensures Blocked(kept) && Blocked(ms + [m]) ==> Blocked(kept + [e])
    ensures Pending(kept + [e]) == Pending(ms + [m])
  {
    Snoc(ms, m);
    Snoc(kept, e);
  }

  /** The session gets the stored messages in the order of the turn. */
  lemma {:induction false} StoredAllJoins(think: string -> string, a: seq<Msg>, b: seq<Msg>)
    ensures StoredAll(think, a + b) == StoredAll(think, a) + StoredAll(think, b)
  {
    if b == [] {
      assert a + b == a;
    } else {
      var n := |b| - 1;
      StoredAllJoins(think, a, b[..n]);
      assert (a + b)[..|a + b| - 1] == a + b[..n];
      Append(StoredAll(think, a), StoredAll(think, b[..n]), ToSeq(Stored(think, b[n])));
    }
  }

  /** A stored message keeps its role, ids and other keys; only an assistant message without
      content and calls, or a user message without content of its own, is dropped; a stored tool
      result is within its limit, and a stored assistant text has no think block. */
  lemma StoredKeepsIdentity(think: string -> string, m: Msg)
    ensures Stored(think, m).None? ==>
              (m.role == Assistant && Empty(m.content) && m.calls == []) || m.role == User
    ensures Stored(think, m).Some? ==>
      var e := Stored(think, m).value;
      && e.(content := Absent) == m.(content := Absent)
      && (m.role == Tool && m.content.Plain? ==>
            e.content.Plain? && |e.content.text| <= TOOL_RESULT_MAX_CHARS + |TRUNCATED|
            && m.content.text[..Min(|m.content.text|, TOOL_RESULT_MAX_CHARS)] <= e.content.text)
      && (m.role == Assistant && m.content.Plain? ==>
            e.content == Null || e.content == Plain(think(m.content.text)))
  {
  }

  predicate RuntimeBlock(b: Block) {
    b.TextBlock? && b.kind == "text" && StartsWith(b.text, RUNTIME_TAG)
  }

  predicate InlineImage(b: Block) {
    b.ImageBlock? && StartsWith(b.url, "data:image/")
  }

  /** No runtime context and no inline image is stored, and every other block is. */
  lemma {:induction false} StoredBlocksAreClean(blocks: seq<Block>)
    ensures forall b :: b in StoredBlocks(blocks) ==> !RuntimeBlock(b) && !InlineImage(b)
    ensures forall b :: b in blocks && !RuntimeBlock(b) && !InlineImage(b) ==> b in StoredBlocks(blocks)
    ensures |StoredBlocks(blocks)| <= |blocks|
  {
    if blocks != [] {
      var n := |blocks| - 1;
      StoredBlocksAreClean(blocks[..n]);
      PlaceholderIsClean();
      assert blocks == blocks[..n] + [blocks[n]];
    }
  }

  /** Storing works block by block and keeps their order: a runtime context goes, an inline
      image becomes the placeholder, any other block stays as it is. */
  lemma {:induction false} StoredBlocksJoin(a: seq<Block>, b: seq<Block>)
    ensures StoredBlocks(a + b) == StoredBlocks(a) + StoredBlocks(b)
  {
    if b == [] {
      assert a + b == a;
    } else {
      var n := |b| - 1;
      StoredBlocksJoin(a, b[..n]);
      assert (a + b)[..|a + b| - 1] == a + b[..n];
      Append(StoredBlocks(a), StoredBlocks(b[..n]), ToSeq(StoredBlock(b[n])));
    }
  }

  lemma StoredBlocksSnoc(a: seq<Block>, b: Block)
    ensures StoredBlocks(a + [b]) == StoredBlocks(a) +
      if RuntimeBlock(b) then [] else if InlineImage(b) then [IMAGE_PLACEHOLDER] else [b]
  {
    assert (a + [b])[..|a|] == a;
  }

  lemma PlaceholderIsClean()
    ensures !RuntimeBlock(IMAGE_PLACEHOLDER)
  {
    assert |RUNTIME_TAG| > |"[image]"|;
  }

  // ---------------------------------------------------------------- history

  /** The position of the first user message, or 0 when there is none. */
  function UserStart(ms: seq<Msg>, i: nat): (k: nat)
    requires i <= |ms|
    ensures k <= |ms|
    ensures (exists j :: i <= j < |ms| && ms[j].role == User)
            ==> i <= k < |ms| && ms[k].role == User && forall j :: i <= j < k ==> ms[j].role != User
    ensures (forall j :: i <= j < |ms| ==> ms[j].role != User) ==> k == 0
    decreases |ms| - i
  {
    if i == |ms| then 0 else if ms[i].role == User then i else UserStart(ms, i + 1)
  }

  /** The fields of a stored message that go to the model. */
  function Entry(m: Msg): Msg {
    m.(content := if m.content.Absent? then Plain("") else m.content, extra := map[])
  }

  function Entries(ms: seq<Msg>): (r: seq<Msg>)
    ensures |r| == |ms|
    ensures forall i :: 0 <= i < |ms| ==> r[i] == Entry(ms[i])
  {
    seq(|ms|, i requires 0 <= i < |ms| => Entry(ms[i]))
  }

  /** The last `maxMessages` of the unconsolidated messages. */
  function Window(messages: seq<Msg>, offset: int, maxMessages: int): seq<Msg> {
    SliceFrom(SliceFrom(messages, offset), -maxMessages)
  }

  function History(messages: seq<Msg>, offset: int, maxMessages: int): seq<Msg> {
    var window := Window(messages, offset, maxMessages);
    Entries(window[UserStart(window, 0)..])
  }

  lemma {:induction false} EntriesKeepBlocks(ms: seq<Msg>)
    ensures Blocked(Entries(ms)) <==> Blocked(ms)
    ensures Pending(Entries(ms)) == Pending(ms)
  {
    if ms != [] {
      EntriesKeepBlocks(ms[..|ms| - 1]);
      assert Entries(ms)[..|ms| - 1] == Entries(ms[..|ms| - 1]);
    }
  }

  /** A tail of stored messages is linked exactly when it does not open with a tool result, and
      then it is settled like the whole. */
  lemma TailIsLinked(messages: seq<Msg>, start: nat, h: seq<Msg>)
    requires Settled(messages) && start <= |messages|
    requires h == Entries(messages[start..])
    ensures Linked(h) <==> h == [] || h[0].role != Tool
    ensures Linked(h) ==> Settled(h)
  {
    var tail := messages[start..];
    if h != [] && h[0].role != Tool {
      assert messages == messages[..start] + tail;
      BlockedJoin(messages[..start], tail);
      PendingForgets(messages[..start], tail);
      EntriesKeepBlocks(tail);
      BlockedIsLinked(h);
    }
  }

  /** Where the history lies among the stored messages. */
  lemma HistoryStretch(messages: seq<Msg>, offset: int, maxMessages: int) returns (start: nat)
    ensures Bound(offset, |messages|) <= start <= |messages|
    ensures maxMessages >= 1 ==> |messages| - start <= maxMessages
    ensures History(messages, offset, maxMessages) == Entries(messages[start..])
  {
    var window := Window(messages, offset, maxMessages);
    var k := UserStart(window, 0);
    start := |messages| - |window| + k;
    assert window == messages[|messages| - |window|..];
    assert messages[start..] == window[k..];
  }

  ghost predicate HasUser(ms: seq<Msg>) {
    exists j :: 0 <= j < |ms| && ms[j].role == User
  }

  /** A window from which a history can be cut: it has a user message to align to, or does not
      open with a tool result. */
  ghost predicate OpensSafely(window: seq<Msg>) {
    HasUser(window) || window == [] || window[0].role != Tool
  }

  lemma HistoryOpening(messages: seq<Msg>, offset: int, maxMessages: int)
    ensures var h := History(messages, offset, maxMessages);
      OpensSafely(Window(messages, offset, maxMessages)) <==> h == [] || h[0].role != Tool
  {
    var window := Window(messages, offset, maxMessages);
    var k := UserStart(window, 0);
    assert window[k..] != [] ==> window[k..][0] == window[k];
    if HasUser(window) { assert window[k].role == User; } else { assert k == 0; }
  }

  /** Whatever the offset and the size, the history is linked if and only if its window has a user
      message, or is empty, or does not open with a tool result. */
  lemma HistoryIsLinked(messages: seq<Msg>, offset: int, maxMessages: int)
    requires Settled(messages)
    ensures var h := History(messages, offset, maxMessages);
      && (Linked(h) <==> OpensSafely(Window(messages, offset, maxMessages)))
      && (Linked(h) ==> Settled(h))
  {
    var start := HistoryStretch(messages, offset, maxMessages);
    TailIsLinked(messages, start, History(messages, offset, maxMessages));
    HistoryOpening(messages, offset, maxMessages);
  }

  /** A window that holds a user message yields a linked history that opens with a user message. */
  lemma HistoryOpensWithUser(messages: seq<Msg>, offset: int, maxMessages: int)
    requires Settled(messages) && HasUser(Window(messages, offset, maxMessages))
    ensures var h := History(messages, offset, maxMessages);
      h != [] && h[0].role == User && Linked(h) && Settled(h)
  {
    HistoryIsLinked(messages, offset, maxMessages);
    var window := Window(messages, offset, maxMessages);
    var k := UserStart(window, 0);
    assert window[k..][0] == window[k];
  }
}
