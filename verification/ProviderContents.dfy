/** What the provider adapters make of a single message: the contents after cleaning, and the ids,
    contents and keys after sanitising. */
module ProviderContents {
  import opened Prelude
  import opened Messages
  import opened Providers

  const TEXT_KINDS := {"text", "input_text", "output_text"}

  /** A block of a text type with an empty text, or with none. */
  predicate SaysNothing(b: Block) {
    match b
    case TextBlock(kind, text) => kind in TEXT_KINDS && |text| == 0
    case OtherBlock(kind) => kind in TEXT_KINDS
    case ImageBlock(_) => false
  }

  /** The blocks that say something, in their order. */
  ghost predicate Speaking(blocks: seq<Block>, kept: seq<Block>) {
    if blocks == [] then kept == []
    else if SaysNothing(blocks[0]) then Speaking(blocks[1..], kept)
    else kept != [] && kept[0] == blocks[0] && Speaking(blocks[1..], kept[1..])
  }

  lemma {:induction false} NonEmptyCons(b: Block, blocks: seq<Block>)
    ensures NonEmpty([b] + blocks) == (if SaysNothing(b) then [] else [b]) + NonEmpty(blocks)
  {
    assert [b][..0] == [] && NonEmpty([b]) == if EmptyText(b) then [] else [b];
    NonEmptyJoins([b], blocks);
  }

  lemma {:induction false} NonEmptySpeaks(blocks: seq<Block>)
    ensures forall kept :: Speaking(blocks, kept) <==> kept == NonEmpty(blocks)
  {
    if blocks != [] {
      NonEmptySpeaks(blocks[1..]);
      NonEmptyCons(blocks[0], blocks[1..]);
      assert blocks == [blocks[0]] + blocks[1..];
      forall kept ensures Speaking(blocks, kept) <==> kept == NonEmpty(blocks) {
        if kept != [] { assert kept == [kept[0]] + kept[1..]; }
      }
    }
  }

  /** What stands in for a content with nothing in it. */
  ghost predicate StandsIn(m: Msg, content: Content) {
    content == if m.role == Assistant && |m.calls| > 0 then Null else Plain("(empty)")
  }

  /** Cleaning touches the content alone. An empty text is replaced; a list loses the blocks that say
      nothing, and is replaced if none is left; a bare block becomes a list; anything else stays. */
  lemma CleaningTells(m: Msg)
    ensures var c := Clean(m);
      && c == m.(content := c.content)
      && match m.content
         case Plain(text) => if |text| == 0 then StandsIn(m, c.content) else c.content == m.content
         case Blocks(blocks) =>
           if forall i :: 0 <= i < |blocks| ==> !SaysNothing(blocks[i]) then c.content == m.content
           else if Speaking(blocks, []) then StandsIn(m, c.content)
           else c.content.Blocks? && Speaking(blocks, c.content.blocks)
         case Single(block) => c.content == Blocks([block])
         case _ => c.content == m.content
  {
    if m.content.Blocks? {
      NonEmptySpeaks(m.content.blocks);
      NonEmptyFacts(m.content.blocks);
      assert forall b :: SaysNothing(b) <==> EmptyText(b);
    }
  }

  /** A short id, of nine letters and digits, is used as it is, any other by its digest. */
  ghost predicate Shortened(hashing: Hashing, id: string, short: string) {
    short == if |id| == 9 && forall i :: 0 <= i < |id| ==> hashing.isAlnum(id[i]) then id else hashing.sha9(id)
  }

  /** Sanitising shortens the ids of the calls and of the result (an absent one stays, and so does a
      result's empty one), gives an assistant message without content a null, keeps of the other keys
      those that the provider allows, and touches nothing else. */
  lemma SanitizingTells(hashing: Hashing, allowed: set<string>, m: Msg)
    ensures var c := hashing.Sanitize(allowed, m);
      && c.role == m.role && c.name == m.name
      && c.content == (if m.role == Assistant && m.content == Absent then Null else m.content)
      && |c.calls| == |m.calls|
      && (forall k :: 0 <= k < |m.calls| ==>
            && c.calls[k].name == m.calls[k].name && c.calls[k].arguments == m.calls[k].arguments
            && (if m.calls[k].id.None? then c.calls[k].id.None?
                else c.calls[k].id.Some? && Shortened(hashing, m.calls[k].id.value, c.calls[k].id.value)))
      && (if m.callId.None? || m.callId.value == "" then c.callId == m.callId
          else c.callId.Some? && Shortened(hashing, m.callId.value, c.callId.value))
      && (forall key :: key in c.extra <==> key in m.extra && key in allowed)
      && (forall key :: key in c.extra ==> c.extra[key] == m.extra[key])
  {
  }
}
