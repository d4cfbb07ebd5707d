/** Sessions over whole runs of turns: what a turn sends to the model and what it saves. */
module SessionTurns {
  import opened Prelude
  import opened Text
  import opened Messages
  import opened Conversation

  /** One handled message. A chunked turn saves only the request and the merged answer. */
  datatype Turn =
    | Direct(content: Content, react: bool, provider: nat -> Reply, limit: nat)
    | Chunked(content: Content, answer: string)

  function UserMsg(content: Content): Msg {
    Msg(User, content, [], None, "", map[])
  }

  function SystemMsg(prompt: string): Msg {
    Msg(System, Plain(prompt), [], None, "", map[])
  }

  /** `build_messages`: the system prompt, the history, the current message. */
  function BuildMessages(prompt: string, history: seq<Msg>, content: Content): seq<Msg> {
    [SystemMsg(prompt)] + history + [UserMsg(content)]
  }

  /** The messages a turn adds to the list that it built. */
  function TurnAdds(think: string -> string, turn: Turn): seq<Msg> {
    match turn
    case Direct(_, react, provider, limit) => Added(react, think, provider, limit)
    case Chunked(_, answer) => [AssistantMsg(Plain(answer), [])]
  }

  /** The session's messages after a run of turns from an empty session. */
  function SessionAfter(think: string -> string, turns: seq<Turn>): seq<Msg> {
    if turns == [] then []
    else
      var n := |turns| - 1;
      SessionAfter(think, turns[..n])
        + StoredAll(think, [UserMsg(turns[n].content)] + TurnAdds(think, turns[n]))
  }

  // ---------------------------------------------------------------- proofs over runs

  lemma UserOpens(content: Content, added: seq<Msg>)
    requires Settled(added) && (added != [] ==> added[0].role != Tool)
    ensures Settled([UserMsg(content)] + added)
  {
    assert [UserMsg(content)][..0] == [];
    Snoc([], UserMsg(content));
    assert [] + [UserMsg(content)] == [UserMsg(content)];
    SettledJoin([UserMsg(content)], added);
  }

  lemma TurnIsSettled(think: string -> string, turn: Turn)
    ensures Settled([UserMsg(turn.content)] + TurnAdds(think, turn))
  {
    match turn
    case Direct(content, react, provider, limit) =>
      AddedIsSettled(react, think, provider, limit);
      UserOpens(content, TurnAdds(think, turn));
    case Chunked(content, answer) =>
      PlainAnswerIsSettled(Plain(answer));
      UserOpens(content, TurnAdds(think, turn));
  }

  lemma {:induction false} BlockedOpens(ms: seq<Msg>)
    requires Blocked(ms) && ms != []
    ensures ms[0].role != Tool
  {
    BlockedPrefix(ms, 1);
    assert ms[..1][..0] == [];
  }

  /** Saving a turn behind settled messages leaves them settled, even when the user message
      itself is dropped. */
  lemma SavingKeepsSettled(think: string -> string, messages: seq<Msg>, turn: Turn)
    requires Settled(messages)
    ensures Settled(messages + StoredAll(think, [UserMsg(turn.content)] + TurnAdds(think, turn)))
  {
    var ms := [UserMsg(turn.content)] + TurnAdds(think, turn);
    TurnIsSettled(think, turn);
    StoredAllIsBlocked(think, ms);
    if StoredAll(think, ms) != [] { BlockedOpens(StoredAll(think, ms)); }
    SettledJoin(messages, StoredAll(think, ms));
  }

  /** For every run of turns the stored messages keep every call with its result in one block. */
  lemma {:induction false} EveryRunIsSettled(think: string -> string, turns: seq<Turn>)
    ensures Settled(SessionAfter(think, turns))
  {
    if turns != [] {
      var n := |turns| - 1;
      EveryRunIsSettled(think, turns[..n]);
      SavingKeepsSettled(think, SessionAfter(think, turns[..n]), turns[n]);
    }
  }

  /** For every run of turns, every consolidation offset and every window that holds a user
      message, the history opens with a user message, links every tool result to an earlier
      call, and holds the result of every call. */
  lemma EveryHistoryIsLinked(think: string -> string, turns: seq<Turn>, offset: int, window: int)
    requires HasUser(Window(SessionAfter(think, turns), offset, window))
    ensures var h := History(SessionAfter(think, turns), offset, window);
      h != [] && h[0].role == User && Linked(h) && Settled(h)
  {
    EveryRunIsSettled(think, turns);
    HistoryOpensWithUser(SessionAfter(think, turns), offset, window);
  }

  /** Every request of the agent loop on a settled history is settled, hence linked. */
  lemma RequestIsLinked(prompt: string, history: seq<Msg>, content: Content, react: bool,
                        provider: nat -> Reply, k: nat)
    requires Settled(history)
    ensures var request := BuildMessages(prompt, history, content) + Rounds(react, provider, k);
      Settled(request) && Linked(request)
  {
    var opening, rest := [SystemMsg(prompt)], [UserMsg(content)] + Rounds(react, provider, k);
    assert Settled(rest) by {
      RoundsAreSettled(react, provider, k);
      UserOpens(content, Rounds(react, provider, k));
    }
    assert Settled(opening + history) by {
      assert opening[..0] == [];
      if history != [] { BlockedOpens(history); }
      SettledJoin(opening, history);
    }
    SettledJoin(opening + history, rest);
    var request := BuildMessages(prompt, history, content) + Rounds(react, provider, k);
    assert request == opening + history + rest;
    BlockedIsLinked(request);
  }

  lemma FirstBlankLine(context: string, text: string)
    ensures Find(context + PARAGRAPH + text, PARAGRAPH) <= |context|
    ensures Find(context + PARAGRAPH + text, PARAGRAPH) == |context| <==> !Contains(context + "\n", PARAGRAPH)
  {
    var full, short := context + PARAGRAPH + text, context + "\n";
    assert full == short + ("\n" + text);
    var k, j := Find(full, PARAGRAPH), Find(short, PARAGRAPH);
    assert full[|context|..] == PARAGRAPH + text;
    assert OccursAt(full, PARAGRAPH, |context|);
    if j >= 0 {
      assert short[j..] <= full[j..];
      assert OccursAt(full, PARAGRAPH, j);
      assert j + |PARAGRAPH| <= |short|;
    } else if k < |context| {
      assert full[k..][..2] == short[k..][..2];
      assert OccursAt(short, PARAGRAPH, k);
    }
  }

  ghost predicate AllLinked(requests: seq<seq<Msg>>) {
    forall k :: 0 <= k < |requests| ==> Linked(requests[k])
  }

  /** The requests of a turn are all linked if and only if the window of its history has a user
      message, or is empty, or does not open with a tool result. */
  lemma RequestsOfTurn(messages: seq<Msg>, offset: int, window: int, prompt: string, turn: Turn,
                       requests: seq<seq<Msg>>)
    requires turn.Direct? && Settled(messages) && requests != []
    requires var initial := BuildMessages(prompt, History(messages, offset, window), turn.content);
      forall k :: 0 <= k < |requests| ==> IsRequest(initial, turn.react, turn.provider, k, requests[k])
    ensures AllLinked(requests) <==> OpensSafely(Window(messages, offset, window))
  {
    HistoryOpening(messages, offset, window);
    var history := History(messages, offset, window);
    var initial := BuildMessages(prompt, history, turn.content);
    if history == [] || history[0].role != Tool {
      assert Settled(history) by { HistoryIsLinked(messages, offset, window); }
      RequestsAreLinked(prompt, history, turn, requests);
    } else {
      assert IsRequest(initial, turn.react, turn.provider, 0, requests[0]);
      assert requests[0] == initial + [];
      OrphanAfterSystem(requests[0], prompt, history[0]);
    }
  }

  lemma RequestsAreLinked(prompt: string, history: seq<Msg>, turn: Turn, requests: seq<seq<Msg>>)
    requires turn.Direct? && Settled(history)
    requires forall k :: 0 <= k < |requests| ==>
               IsRequest(BuildMessages(prompt, history, turn.content), turn.react, turn.provider, k, requests[k])
    ensures AllLinked(requests)
  {
    forall k | 0 <= k < |requests| ensures Linked(requests[k]) {
      RequestIsLinked(prompt, history, turn.content, turn.react, turn.provider, k);
    }
  }

  lemma OrphanAfterSystem(request: seq<Msg>, prompt: string, m: Msg)
    requires |request| >= 2 && request[0] == SystemMsg(prompt) && request[1] == m && m.role == Tool
    ensures !Linked(request)
  {
  }

  /** What the user typed behind a runtime context is recovered, if and only if the context
      holds no blank line of its own. */
  lemma RuntimeContextIsStripped(context: string, text: string)
    requires Strip(text) != ""
    ensures !Contains(context + "\n", PARAGRAPH) <==>
            UserText(context + PARAGRAPH + text) == Some(text)
  {
    var full := context + PARAGRAPH + text;
    var k := Find(full, PARAGRAPH);
    FirstBlankLine(context, text);
    assert |full[k + 2..]| == |full| - k - 2;
    if k == |context| { assert full[k + 2..] == text; }
  }

  /** The block before the user's text, for a given chat id; a scheduled job passes on whatever
      its "to" field holds. */
  function RuntimeContext(chatId: string): string {
    RUNTIME_TAG + "\nCurrent Time: 2026-01-01 09:00 (Thursday) (UTC)\nChannel: cli\nChat ID: " + chatId
  }

  /** A chat id with a blank line makes the saved message differ from what the user typed. */
  lemma BlankLineInChatIdWitness()
    ensures StartsWith(RuntimeContext("team\n\nroom"), RUNTIME_TAG)
    ensures UserText(RuntimeContext("team\n\nroom") + PARAGRAPH + "hello") != Some("hello")
  {
    var context := RuntimeContext("team\n\nroom");
    var before: string := RuntimeContext("team");
    var after: string := "room\n";
    assert context + "\n" == before + PARAGRAPH + after;
    assert (before + PARAGRAPH + after)[|before|..] == PARAGRAPH + after;
    assert OccursAt(context + "\n", PARAGRAPH, |before|);
    BlankIsSpace("hello");
    assert !IsSpace("hello"[0]);
    RuntimeContextIsStripped(context, "hello");
  }

  // ---------------------------------------------------------------- the history that goes wrong

  const ASKED := Plain("what is new?")
  const CALLED := Executed(Call(Some("call_1"), "search", "{}"), "nothing")

  /** The model asks for n tools at once and then stops at the iteration limit. */
  function BusyTurn(n: nat): Turn {
    Direct(ASKED, false, i => Reply("", seq(n, k => CALLED), false), 1)
  }

  lemma {:induction false} StoredAsTheyAre(think: string -> string, ms: seq<Msg>)
    requires forall i :: 0 <= i < |ms| ==> Stored(think, ms[i]) == Some(ms[i])
    ensures StoredAll(think, ms) == ms
  {
    if ms != [] {
      StoredAsTheyAre(think, ms[..|ms| - 1]);
      assert ms[..|ms| - 1] + [ms[|ms| - 1]] == ms;
    }
  }

  lemma BusyTurnAdds(think: string -> string, n: nat)
    requires n >= 1
    ensures var reply := Reply("", seq(n, k => CALLED), false);
      TurnAdds(think, BusyTurn(n)) == Round(false, reply)
  {
    var provider := BusyTurn(n).provider;
    assert provider(0).executed[0] == CALLED;
    assert LastRound(provider, 0, 1) == 1;
    assert Rounds(false, provider, 1) == [] + Round(false, provider(0));
  }

  lemma BusyTurnIsStored(think: string -> string, n: nat)
    requires n >= 1
    ensures SessionAfter(think, [BusyTurn(n)]) == [UserMsg(ASKED)] + Round(false, Reply("", seq(n, k => CALLED), false))
  {
    var reply := Reply("", seq(n, k => CALLED), false);
    var ms := [UserMsg(ASKED)] + Round(false, reply);
    BusyTurnAdds(think, n);
    assert !StartsWith(ASKED.text, RUNTIME_TAG) by { assert |ASKED.text| < |RUNTIME_TAG|; }
    assert forall i :: 2 <= i < |ms| ==> ms[i] == ToolMsg(CALLED);
    StoredAsTheyAre(think, ms);
    assert [BusyTurn(n)][..0] == [];
  }

  /** For every window size: one turn with as many tool calls in one reply as the window is large
      leaves a session whose history is all tool results, without the assistant message. */
  lemma OrphanedHistoryWitness(think: string -> string, window: nat)
    requires window >= 1
    ensures var h := History(SessionAfter(think, [BusyTurn(window)]), 0, window);
      |h| == window && h[0].role == Tool && !Linked(h)
  {
    var messages := SessionAfter(think, [BusyTurn(window)]);
    var w := Window(messages, 0, window);
    assert w == seq(window, k => ToolMsg(CALLED)) by { BusyWindow(think, window); }
    assert UserStart(w, 0) == 0 && w[0..] == w;
    assert History(messages, 0, window)[0] == Entry(ToolMsg(CALLED));
  }

  lemma BusyWindow(think: string -> string, window: nat)
    requires window >= 1
    ensures Window(SessionAfter(think, [BusyTurn(window)]), 0, window) == seq(window, k => ToolMsg(CALLED))
  {
    var results := Results(false, seq(window, k => CALLED));
    BusyTurnIsStored(think, window);
    assert results == seq(window, k => ToolMsg(CALLED));
    var messages := SessionAfter(think, [BusyTurn(window)]);
    assert messages[0..] == messages && messages[2..] == results;
  }

  // ---------------------------------------------------------------- the session object

  class Session {
    var messages: seq<Msg>
    var lastConsolidated: int

    constructor ()
      ensures messages == [] && lastConsolidated == 0
    {
      messages, lastConsolidated := [], 0;
    }

    /** Drops leading messages up to the first user message, if there is one. */
    method AlignToUser(window: seq<Msg>) returns (sliced: seq<Msg>)
      ensures sliced == window[UserStart(window, 0)..]
    {
      var i := 0;
      while i < |window|
        invariant i <= |window| && UserStart(window, 0) == UserStart(window, i)
      {
        if window[i].role == User { return window[i..]; }
        i := i + 1;
      }
      sliced := window;
    }

    method ToEntries(sliced: seq<Msg>) returns (out: seq<Msg>)
      ensures out == Entries(sliced)
    {
      out := [];
      for k := 0 to |sliced|
        invariant out == Entries(sliced)[..k]
      {
        out := out + [Entry(sliced[k])];
      }
    }

    method GetHistory(maxMessages: int) returns (out: seq<Msg>)
      ensures out == History(messages, lastConsolidated, maxMessages)
    {
      var window := SliceFrom(SliceFrom(messages, lastConsolidated), -maxMessages);
      var sliced := AlignToUser(window);
      out := ToEntries(sliced);
    }

    method FilterBlocks(blocks: seq<Block>) returns (filtered: seq<Block>)
      ensures filtered == StoredBlocks(blocks)
    {
      filtered := [];
      for i := 0 to |blocks|
        invariant filtered == StoredBlocks(blocks[..i])
      {
        assert blocks[..i + 1][..i] == blocks[..i];
        match blocks[i] {
          case TextBlock(kind, text) =>
            if kind == "text" && StartsWith(text, RUNTIME_TAG) { continue; }
            filtered := filtered + [blocks[i]];
          case ImageBlock(url) =>
            filtered := filtered + [if StartsWith(url, "data:image/") then IMAGE_PLACEHOLDER else blocks[i]];
          case OtherBlock(_) =>
            filtered := filtered + [blocks[i]];
        }
      }
      assert blocks[..|blocks|] == blocks;
    }

    /** The body of `_save_turn` for one message; None is its `continue`. */
    method StoreOne(think: string -> string, m: Msg) returns (entry: Option<Msg>)
      ensures entry == Stored(think, m)
    {
      entry := Some(m);
      if m.role == Assistant && Empty(m.content) && m.calls == [] { return None; }
      if m.role == Assistant && m.content.Plain? {
        entry := Some(m.(content := StripThink(think, m.content.text)));
      }
      if m.role == Tool && m.content.Plain? && |m.content.text| > TOOL_RESULT_MAX_CHARS {
        entry := Some(m.(content := Plain(m.content.text[..TOOL_RESULT_MAX_CHARS] + TRUNCATED)));
      } else if m.role == User {
        if m.content.Plain? && StartsWith(m.content.text, RUNTIME_TAG) {
          var rest := UserText(m.content.text);
          if rest.None? { return None; }
          entry := Some(m.(content := Plain(rest.value)));
        }
        if m.content.Blocks? {
          var filtered := FilterBlocks(m.content.blocks);
          if filtered == [] { return None; }
          entry := Some(m.(content := Blocks(filtered)));
        }
      }
    }

    method SaveTurn(think: string -> string, all: seq<Msg>, skip: nat)
      modifies this`messages
      ensures messages == old(messages) + StoredAll(think, SliceFrom(all, skip))
    {
      var fresh_ := SliceFrom(all, skip);
      for i := 0 to |fresh_|
        invariant messages == old(messages) + StoredAll(think, fresh_[..i])
      {
        assert fresh_[..i + 1][..i] == fresh_[..i];
        var entry := StoreOne(think, fresh_[i]);
        if entry.Some? { messages := messages + [entry.value]; }
      }
      assert fresh_[..|fresh_|] == fresh_;
    }

    /** The model calls of a direct turn, from the history as it stands. */
    method Converse(think: string -> string, prompt: string, turn: Turn, window: int)
      returns (all: seq<Msg>, known: nat, ghost requests: seq<seq<Msg>>)
      requires turn.Direct? && Settled(messages)
      ensures SliceFrom(all, known) == [UserMsg(turn.content)] + TurnAdds(think, turn)
      ensures AllLinked(requests) <==> requests == [] || OpensSafely(Window(messages, lastConsolidated, window))
    {
      var history := GetHistory(window);
      var initial := BuildMessages(prompt, history, turn.content);
      all, requests := RunAgentLoop(initial, turn.react, think, turn.provider, turn.limit);
      known := 1 + |history|;
      NewPart(prompt, history, turn.content, TurnAdds(think, turn));
      if requests != [] {
        RequestsOfTurn(messages, lastConsolidated, window, prompt, turn, requests);
      }
    }

    /** A direct turn: the conversation with the model, then the saving of what is new. */
    method RunTurn(think: string -> string, prompt: string, turn: Turn, window: int)
      returns (ghost requests: seq<seq<Msg>>)
      requires turn.Direct? && Settled(messages)
      modifies this`messages
      ensures messages == old(messages)
                          + StoredAll(think, [UserMsg(turn.content)] + TurnAdds(think, turn))
      ensures Settled(messages)
      ensures AllLinked(requests) <==> requests == [] || OpensSafely(Window(old(messages), lastConsolidated, window))
    {
      ghost var before := messages;
      var all, known;
      all, known, requests := Converse(think, prompt, turn, window);
      SaveTurn(think, all, known);
      assert Settled(messages) by { SavingKeepsSettled(think, before, turn); }
    }
  }

  lemma NewPart(prompt: string, history: seq<Msg>, content: Content, added: seq<Msg>)
    ensures SliceFrom(BuildMessages(prompt, history, content) + added, 1 + |history|) == [UserMsg(content)] + added
  {
  }
}
