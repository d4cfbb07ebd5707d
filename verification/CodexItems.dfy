/** What the Codex items say: which message each item stands for, and that its texts, images, calls and
    outputs are the message's own. */
module CodexItems {
  import opened Prelude
  import opened Text
  import opened Messages
  import opened Providers

  function HasText(m: Msg): bool {
    m.content.Plain? && |m.content.text| > 0
  }

  /** How many items a message takes. */
  function Width(m: Msg): nat {
    match m.role
    case System => 0
    case Assistant => (if HasText(m) then 1 else 0) + |m.calls|
    case _ => 1
  }

  /** Where the items of message j begin. */
  function ItemsAt(ms: seq<Msg>, j: nat): nat
    requires j <= |ms|
  {
    if j == 0 then 0 else ItemsAt(ms, j - 1) + Width(ms[j - 1])
  }

  /** The pieces tell the blocks, from the front: a text as it is, an image that has an address, and
      nothing of the rest. */
  ghost predicate TellsBlocks(blocks: seq<Block>, pieces: seq<Piece>) {
    if blocks == [] then pieces == []
    else
      var b := blocks[0];
      if b.TextBlock? && b.kind == "text" then pieces != [] && pieces[0] == InputText(b.text) && TellsBlocks(blocks[1..], pieces[1..])
      else if b.OtherBlock? && b.kind == "text" then pieces != [] && pieces[0] == InputText("") && TellsBlocks(blocks[1..], pieces[1..])
      else if b.ImageBlock? && |b.url| > 0 then pieces != [] && pieces[0] == InputImage(b.url) && TellsBlocks(blocks[1..], pieces[1..])
      else TellsBlocks(blocks[1..], pieces)
  }

  /** What a user said: a plain text is one piece with that text, a list tells its blocks, and where
      nothing is left to tell there is one empty text. */
  ghost predicate TellsUser(content: Content, pieces: seq<Piece>) {
    match content
    case Plain(text) => pieces == [InputText(text)]
    case Blocks(blocks) => if TellsBlocks(blocks, []) then pieces == [InputText("")] else TellsBlocks(blocks, pieces)
    case _ => pieces == [InputText("")]
  }

  /** The call id and the item id that an id yields: the parts before and behind its first bar. */
  ghost predicate Parts(id: Option<string>, callPart: string, itemPart: string) {
    if id.None? || id.value == "" then callPart == "call_0" && itemPart == ""
    else if '|' in id.value then '|' !in callPart && id.value == callPart + "|" + itemPart
    else callPart == id.value && itemPart == ""
  }

  ghost predicate TellsCall(call: Call, idx: nat, item: Item) {
    && item.CallItem? && item.name == call.name
    && item.arguments == (if |call.arguments| == 0 then "{}" else call.arguments)
    && exists callPart, itemPart :: Parts(call.id, callPart, itemPart)
         && item.callId == (if |callPart| == 0 then "call_" + Decimal(idx) else callPart)
         && item.id == (if |itemPart| == 0 then "fc_" + Decimal(idx) else itemPart)
  }

  /** The items of one message. */
  ghost predicate TellsMessage(dump: Content -> string, m: Msg, idx: nat, items: seq<Item>) {
    |items| == Width(m) &&
    match m.role
    case System => true
    case User => items[0].UserItem? && TellsUser(m.content, items[0].pieces)
    case Tool =>
      && items[0].OutputItem? && items[0].output == (if m.content.Plain? then m.content.text else dump(m.content))
      && exists itemPart :: Parts(m.callId, items[0].callId, itemPart)
    case Assistant =>
      && (HasText(m) ==> items[0] == TextItem(m.content.text, "msg_" + Decimal(idx)))
      && forall k :: 0 <= k < |m.calls| ==> TellsCall(m.calls[k], idx, items[|items| - |m.calls| + k])
  }

  // ---------------------------------------------------------------- proofs

  lemma PiecesSnoc(front: seq<Block>, b: Block)
    ensures Pieces(front + [b]) == Pieces(front) + Pieces([b])
  {
    assert (front + [b])[..|front|] == front && [b][..0] == [];
    assert Pieces([b]) == [] + Pieces([b]);
  }

  lemma {:induction false} PiecesCons(b: Block, blocks: seq<Block>)
    ensures Pieces([b] + blocks) == Pieces([b]) + Pieces(blocks)
  {
    if blocks == [] {
      assert [b] + blocks == [b];
    } else {
      var front, last := blocks[..|blocks| - 1], blocks[|blocks| - 1];
      PiecesCons(b, front);
      PiecesSnoc([b] + front, last);
      PiecesSnoc(front, last);
      assert blocks == front + [last] && [b] + blocks == [b] + front + [last];
    }
  }

  lemma {:induction false} PiecesTellBlocks(blocks: seq<Block>)
    ensures forall pieces :: TellsBlocks(blocks, pieces) <==> pieces == Pieces(blocks)
  {
    if blocks != [] {
      var b, rest := blocks[0], blocks[1..];
      PiecesTellBlocks(rest);
      PiecesCons(b, rest);
      assert blocks == [b] + rest && [b][..0] == [];
      forall pieces ensures TellsBlocks(blocks, pieces) <==> pieces == Pieces(blocks) {
        if pieces != [] { assert pieces == [pieces[0]] + pieces[1..]; }
      }
    }
  }

  lemma UserIsTold(content: Content)
    ensures TellsUser(content, UserPieces(content))
  {
    if content.Blocks? { PiecesTellBlocks(content.blocks); }
  }

  lemma SplitGivesParts(id: Option<string>)
    ensures Parts(id, SplitId(id).0, match SplitId(id).1 case None => "" case Some(item) => item)
    ensures SplitId(id).1 != Some("")
  {
    if id.Some? && id.value != "" {
      var s, bar := id.value, Find(id.value, "|");
      forall j | 0 <= j < |s| && s[j] == '|' ensures 0 <= bar <= j { OccursOnce(s, '|', j); }
      if bar >= 0 {
        OccursOnce(s, '|', bar);
        assert s == s[..bar] + "|" + s[bar + 1..];
      }
    }
  }

  lemma CallIsTold(call: Call, idx: nat)
    ensures TellsCall(call, idx, CallItemOf(call, idx))
  {
    SplitGivesParts(call.id);
  }

  lemma MessageIsTold(dump: Content -> string, m: Msg, idx: nat)
    ensures TellsMessage(dump, m, idx, ItemsOf(dump, m, idx))
  {
    match m.role
    case System =>
    case User => UserIsTold(m.content);
    case Tool => SplitGivesParts(m.callId);
    case Assistant =>
      forall k | 0 <= k < |m.calls| ensures TellsCall(m.calls[k], idx, CallItemOf(m.calls[k], idx)) {
        CallIsTold(m.calls[k], idx);
      }
  }

  ghost predicate TellsAt(dump: Content -> string, ms: seq<Msg>, j: nat, items: seq<Item>)
    requires j < |ms|
  {
    && ItemsAt(ms, j) <= ItemsAt(ms, j + 1) <= |items|
    && TellsMessage(dump, ms[j], j, items[ItemsAt(ms, j)..ItemsAt(ms, j + 1)])
  }

  lemma {:induction false} SameStart(ms: seq<Msg>, n: nat, j: nat)
    requires j <= n <= |ms|
    ensures ItemsAt(ms[..n], j) == ItemsAt(ms, j)
  {
    if j > 0 { SameStart(ms, n, j - 1); }
  }

  lemma StillTold(dump: Content -> string, ms: seq<Msg>, n: nat, j: nat, before: seq<Item>, own: seq<Item>)
    requires j < n <= |ms| && TellsAt(dump, ms[..n], j, before)
    ensures TellsAt(dump, ms, j, before + own)
  {
    SameStart(ms, n, j);
    SameStart(ms, n, j + 1);
    var lo, hi := ItemsAt(ms, j), ItemsAt(ms, j + 1);
    assert (before + own)[lo..hi] == before[lo..hi];
  }

  /** The items are those of the messages, one message after the other, and nothing else. */
  lemma {:induction false} ItemsTellTheMessages(dump: Content -> string, ms: seq<Msg>)
    ensures |Convert(dump, ms)| == ItemsAt(ms, |ms|)
    ensures forall j :: 0 <= j < |ms| ==> TellsAt(dump, ms, j, Convert(dump, ms))
  {
    if ms != [] {
      var n := |ms| - 1;
      var before, own := Convert(dump, ms[..n]), ItemsOf(dump, ms[n], n);
      ItemsTellTheMessages(dump, ms[..n]);
      SameStart(ms, n, n);
      MessageIsTold(dump, ms[n], n);
      forall j | 0 <= j < |ms| ensures TellsAt(dump, ms, j, before + own) {
        if j < n { StillTold(dump, ms, n, j, before, own); } else { LastIsTold(dump, ms, n, before, own); }
      }
      LastIsTold(dump, ms, n, before, own);
    }
  }

  lemma EndOfJoined(before: seq<Item>, own: seq<Item>, lo: nat, hi: nat)
    requires lo == |before| && hi == |before| + |own|
    ensures lo <= hi <= |before + own| && (before + own)[lo..hi] == own
  {
  }

  lemma NextStart(ms: seq<Msg>, n: nat)
    requires n < |ms|
    ensures ItemsAt(ms, n + 1) == ItemsAt(ms, n) + Width(ms[n])
  {
  }

  lemma LastIsTold(dump: Content -> string, ms: seq<Msg>, n: nat, before: seq<Item>, own: seq<Item>)
    requires n + 1 == |ms| && |before| == ItemsAt(ms, n) && TellsMessage(dump, ms[n], n, own)
    ensures TellsAt(dump, ms, n, before + own) && |before + own| == ItemsAt(ms, n + 1)
  {
    NextStart(ms, n);
    EndOfJoined(before, own, ItemsAt(ms, n), ItemsAt(ms, n + 1));
  }

  /** The instructions are the text of the last system message; none, or one without a plain text,
      leaves them empty. */
  lemma {:induction false} PromptIsTheLastSystemText(ms: seq<Msg>)
    ensures (forall j :: 0 <= j < |ms| ==> ms[j].role != System) ==> SystemPrompt(ms) == ""
    ensures forall j :: 0 <= j < |ms| && ms[j].role == System && (forall k :: j < k < |ms| ==> ms[k].role != System) ==>
              SystemPrompt(ms) == if ms[j].content.Plain? then ms[j].content.text else ""
  {
    if ms != [] {
      PromptIsTheLastSystemText(ms[..|ms| - 1]);
    }
  }
}
