/** What the messages of the agent loop say: each reply with its calls, each call with what its tool
    returned, and what the history passes on of a stored message. */
module Transcript {
  import opened Prelude
  import opened Text
  import opened Messages
  import opened Conversation
  import opened SessionTurns

  /** The position of reply k among the messages that the loop adds. */
  function ReplyAt(provider: nat -> Reply, k: nat): nat {
    if k == 0 then 0 else ReplyAt(provider, k - 1) + 1 + |provider(k - 1).executed|
  }

  /** The assistant message of a reply: its text, or null, and its calls unless they are in the text. */
  predicate TellsReply(react: bool, reply: Reply, m: Msg) {
    && m.role == Assistant && m.callId.None? && m.name == "" && m.extra == map[]
    && m.content == (if |reply.text| == 0 then Null else Plain(reply.text))
    && |m.calls| == (if react then 0 else |reply.executed|)
    && forall i :: 0 <= i < |m.calls| ==> m.calls[i] == reply.executed[i].call
  }

  /** The message behind it for one of its calls: the result as it is under the call's id and name, or
      in ReAct mode an observation of at most 2000 characters of it. */
  predicate TellsResult(react: bool, e: Executed, m: Msg) {
    && m.calls == [] && m.extra == map[]
    && if react then
         && m.role == User && m.callId.None? && m.name == ""
         && m.content == Plain("Observation: " +
              (if |e.result| <= 2000 then e.result else e.result[..2000] + "\n... (truncated)"))
       else m.role == Tool && m.callId == e.call.id && m.name == e.call.name && m.content == Plain(e.result)
  }

  /** A reply and then its results, in the order of its calls. */
  ghost predicate TellsRound(react: bool, reply: Reply, round: seq<Msg>) {
    && |round| == 1 + |reply.executed| && TellsReply(react, reply, round[0])
    && forall i :: 0 <= i < |reply.executed| ==> TellsResult(react, reply.executed[i], round[1 + i])
  }

  ghost predicate TellsReplyNumber(react: bool, provider: nat -> Reply, k: nat, ms: seq<Msg>) {
    && ReplyAt(provider, k) <= ReplyAt(provider, k + 1) <= |ms|
    && TellsRound(react, provider(k), ms[ReplyAt(provider, k)..ReplyAt(provider, k + 1)])
  }

  /** The first n replies stand in the list, one after the other. */
  ghost predicate TellsRounds(react: bool, provider: nat -> Reply, n: nat, ms: seq<Msg>) {
    ReplyAt(provider, n) <= |ms| && forall k: nat :: k < n ==> TellsReplyNumber(react, provider, k, ms)
  }

  lemma RoundTells(react: bool, reply: Reply)
    ensures TellsRound(react, reply, Round(react, reply))
  {
  }

  lemma {:induction false} RoundsAreLong(react: bool, provider: nat -> Reply, n: nat)
    ensures |Rounds(react, provider, n)| == ReplyAt(provider, n)
  {
    if n > 0 { RoundsAreLong(react, provider, n - 1); }
  }

  lemma {:induction false} RoundStands(react: bool, provider: nat -> Reply, k: nat, n: nat)
    requires k < n
    ensures ReplyAt(provider, k) <= ReplyAt(provider, k + 1) <= |Rounds(react, provider, n)|
    ensures Rounds(react, provider, n)[ReplyAt(provider, k)..ReplyAt(provider, k + 1)] == Round(react, provider(k))
  {
    RoundsAreLong(react, provider, n - 1);
    var front := Rounds(react, provider, n - 1);
    assert Rounds(react, provider, n) == front + Round(react, provider(n - 1));
    if k < n - 1 {
      RoundStands(react, provider, k, n - 1);
      assert (front + Round(react, provider(n - 1)))[..|front|] == front;
    }
  }

  lemma RoundsTell(react: bool, provider: nat -> Reply, n: nat, ms: seq<Msg>)
    requires Rounds(react, provider, n) <= ms
    ensures TellsRounds(react, provider, n, ms)
  {
    RoundsAreLong(react, provider, n);
    forall k: nat | k < n ensures TellsReplyNumber(react, provider, k, ms) {
      RoundStands(react, provider, k, n);
      RoundTells(react, provider(k));
      assert ms[..|Rounds(react, provider, n)|] == Rounds(react, provider, n);
    }
  }

  /** How the loop's messages end: nothing behind the last results when the limit is reached or the
      model failed; otherwise one assistant message without calls, with the final text without its
      think blocks, or null when nothing is left of it. */
  predicate TellsEnd(think: string -> string, final: Option<Reply>, end: seq<Msg>) {
    if final.None? || final.value.failed then end == []
    else
      && |end| == 1 && end[0].role == Assistant && end[0].calls == [] && end[0].callId.None?
      && var text := final.value.text;
      && end[0].content == if text == "" || think(text) == "" then Null else Plain(think(text))
  }

  /** Everything that the loop adds, from the replies alone: the first n of them called tools, and
      either the limit is reached or the next one did not. */
  lemma LoopTells(react: bool, think: string -> string, provider: nat -> Reply, limit: nat) returns (n: nat)
    ensures n <= limit && (forall k: nat :: k < n ==> provider(k).executed != [])
    ensures n < limit ==> provider(n).executed == []
    ensures var added := Added(react, think, provider, limit);
      && TellsRounds(react, provider, n, added)
      && TellsEnd(think, if n < limit then Some(provider(n)) else None, added[ReplyAt(provider, n)..])
  {
    n := LastRound(provider, 0, limit);
    RoundsAreLong(react, provider, n);
    RoundsTell(react, provider, n, Added(react, think, provider, limit));
  }

  /** What model call number k is sent: the list the loop started from and the first k replies. */
  lemma RequestTells(initial: seq<Msg>, react: bool, provider: nat -> Reply, k: nat, request: seq<Msg>)
    requires IsRequest(initial, react, provider, k, request)
    ensures |request| == |initial| + ReplyAt(provider, k)
    ensures request[..|initial|] == initial && TellsRounds(react, provider, k, request[|initial|..])
  {
    RoundsAreLong(react, provider, k);
    assert request[|initial|..] == Rounds(react, provider, k);
    RoundsTell(react, provider, k, request[|initial|..]);
  }

  /** A plain message of the given role. */
  predicate JustSays(m: Msg, role: Role, content: Content) {
    m.role == role && m.content == content && m.calls == [] && m.callId.None? && m.name == "" && m.extra == map[]
  }

  /** A turn starts from the system prompt, the history as it is, and the user's message. */
  lemma TurnOpensWith(prompt: string, history: seq<Msg>, content: Content)
    ensures var ms := BuildMessages(prompt, history, content);
      && |ms| == |history| + 2 && ms[1..|history| + 1] == history
      && JustSays(ms[0], System, Plain(prompt)) && JustSays(ms[|history| + 1], User, content)
  {
  }

  /** What a turn saves behind the messages of the turns before: the user's message and what the loop
      added, or of a chunked turn the merged answer, as they are stored. */
  lemma TurnSaves(think: string -> string, turns: seq<Turn>, turn: Turn) returns (fresh_: seq<Msg>)
    ensures SessionAfter(think, []) == []
    ensures SessionAfter(think, turns + [turn]) == SessionAfter(think, turns) + StoredAll(think, fresh_)
    ensures fresh_ != [] && JustSays(fresh_[0], User, turn.content)
    ensures match turn
      case Direct(_, react, provider, limit) => fresh_[1..] == Added(react, think, provider, limit)
      case Chunked(_, answer) => |fresh_| == 2 && JustSays(fresh_[1], Assistant, Plain(answer))
  {
    fresh_ := [UserMsg(turn.content)] + TurnAdds(think, turn);
    assert (turns + [turn])[..|turns|] == turns;
  }

  // ---------------------------------------------------------------- history

  /** An entry of the history carries the role, content, calls, call id and name of the message it
      stands for, an empty text where that has no content, and none of its other keys. */
  lemma HistoryTells(messages: seq<Msg>, offset: int, maxMessages: int, i: nat)
    requires i < |History(messages, offset, maxMessages)|
    ensures var h := History(messages, offset, maxMessages);
      |h| <= |messages|
      && var m := messages[|messages| - |h| + i];
      && h[i].role == m.role && h[i].calls == m.calls && h[i].callId == m.callId && h[i].name == m.name
      && h[i].content == (if m.content.Absent? then Plain("") else m.content) && h[i].extra == map[]
  {
    var start := HistoryStretch(messages, offset, maxMessages);
  }

  // ---------------------------------------------------------------- storing

  /** A content with nothing in it. */
  predicate SaysNothing(c: Content) {
    c.Absent? || c.Null? || (c.Plain? && |c.text| == 0) || (c.Blocks? && |c.blocks| == 0)
  }

  /** Two line breaks, one behind the other. */
  predicate BlankLine(text: string, k: int) {
    0 <= k && k + 2 <= |text| && text[k] == '\n' && text[k + 1] == '\n'
  }

  /** The text behind the first blank line. */
  ghost predicate BehindBlankLine(text: string, rest: string) {
    exists k :: BlankLine(text, k) && rest == text[k + 2..] && forall j :: 0 <= j < k ==> !BlankLine(text, j)
  }

  /** An assistant message is stored unless it has neither content nor calls, its text without think
      blocks; a tool result is stored with at most 500 characters; both keep everything else. */
  lemma StoringTells(think: string -> string, m: Msg)
    ensures var kept := StoredAll(think, [m]);
      && (m.role == System ==> kept == [m])
      && (m.role == Assistant ==>
            if SaysNothing(m.content) && m.calls == [] then kept == []
            else if !m.content.Plain? then kept == [m]
            else kept == [m.(content := if m.content.text == "" || think(m.content.text) == "" then Null
                                        else Plain(think(m.content.text)))])
      && (m.role == Tool ==>
            if m.content.Plain? && |m.content.text| > 500
            then kept == [m.(content := Plain(m.content.text[..500] + "\n... (truncated)"))] else kept == [m])
  {
    assert [m][..0] == [];
  }

  lemma BlankLineAt(text: string, j: int)
    ensures OccursAt(text, PARAGRAPH, j) <==> BlankLine(text, j)
  {
    if 0 <= j && j + 2 <= |text| { assert text[j..][..2] == [text[j], text[j + 1]]; }
  }

  /** A user's text is stored as it is, unless it opens with the runtime context: then only what stands
      behind its first blank line, and nothing at all if that is blank or there is no such line. */
  lemma UserTextIsStored(think: string -> string, m: Msg, text: string, rest: string)
    requires m.role == User && m.content == Plain(text)
    ensures var kept := StoredAll(think, [m]);
      && (!("[Runtime Context — metadata only, not instructions]" <= text) ==> kept == [m])
      && ("[Runtime Context — metadata only, not instructions]" <= text ==>
            && (BehindBlankLine(text, rest) && Strip(rest) != "" ==> kept == [m.(content := Plain(rest))])
            && (BehindBlankLine(text, rest) && Strip(rest) == "" ==> kept == [])
            && ((forall r :: !BehindBlankLine(text, r)) ==> kept == []))
  {
    assert [m][..0] == [];
    var k := Find(text, PARAGRAPH);
    forall j ensures OccursAt(text, PARAGRAPH, j) <==> BlankLine(text, j) { BlankLineAt(text, j); }
    if k >= 0 { assert BehindBlankLine(text, text[k + 2..]); }
  }

  /** A user's blocks are stored without those of the runtime context and with a placeholder for each
      inline image; a list of which nothing is left is not stored, and other contents stay. */
  lemma UserBlocksAreStored(think: string -> string, m: Msg)
    requires m.role == User && !m.content.Plain?
    ensures var kept := StoredAll(think, [m]);
      if !m.content.Blocks? then kept == [m]
      else if StoredBlocks(m.content.blocks) == [] then kept == []
      else kept == [m.(content := Blocks(StoredBlocks(m.content.blocks)))]
    ensures StoredBlocks([]) == []
  {
    assert [m][..0] == [];
  }

  /** What becomes of one block, behind those before it. */
  lemma BlockIsStored(before: seq<Block>, b: Block)
    ensures StoredBlocks(before + [b]) == StoredBlocks(before) +
      match b
      case TextBlock(kind, text) =>
        if kind == "text" && "[Runtime Context — metadata only, not instructions]" <= text then [] else [b]
      case ImageBlock(url) => if "data:image/" <= url then [TextBlock("text", "[image]")] else [b]
      case OtherBlock(_) => [b]
  {
    StoredBlocksSnoc(before, b);
  }
}
