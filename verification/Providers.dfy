/** The provider adapters: cleaning of empty content, id shortening for strict providers, and
    the conversion to the Codex item format. Each is shown to keep the tool-call linkage. */
module Providers {
  import opened Prelude
  import opened Text
  import opened Messages

  // ---------------------------------------------------------------- empty content

  const EMPTY_MARK := "(empty)"

  predicate IsTextKind(kind: string) {
    kind == "text" || kind == "input_text" || kind == "output_text"
  }

  /** A block of a text type whose text is empty or missing. */
  predicate EmptyText(b: Block) {
    match b
    case TextBlock(kind, text) => IsTextKind(kind) && text == ""
    case OtherBlock(kind) => IsTextKind(kind)
    case ImageBlock(_) => false
  }

  function Placeholder(m: Msg): Content {
    if m.role == Assistant && m.calls != [] then Null else Plain(EMPTY_MARK)
  }

  function NonEmpty(blocks: seq<Block>): seq<Block> {
    if blocks == [] then []
    else
      var n := |blocks| - 1;
      NonEmpty(blocks[..n]) + if EmptyText(blocks[n]) then [] else [blocks[n]]
  }

  /** Filtering leaves no empty text, and shortens exactly the lists that hold one. */
  lemma {:induction false} NonEmptyFacts(blocks: seq<Block>)
    ensures var r := NonEmpty(blocks);
      && |r| <= |blocks|
      && (forall i :: 0 <= i < |r| ==> !EmptyText(r[i]))
      && (|r| == |blocks| <==> forall i :: 0 <= i < |blocks| ==> !EmptyText(blocks[i]))
      && (|r| == |blocks| ==> r == blocks)
  {
    if blocks != [] { NonEmptyFacts(blocks[..|blocks| - 1]); }
  }

  /** Filtering keeps every block that is not an empty text, as often as it occurs, and (below)
      in its place among the others. */
  lemma {:induction false} NonEmptyKeepsTheRest(blocks: seq<Block>, b: Block)
    ensures multiset(NonEmpty(blocks))[b] == if EmptyText(b) then 0 else multiset(blocks)[b]
  {
    if blocks != [] {
      var n := |blocks| - 1;
      NonEmptyKeepsTheRest(blocks[..n], b);
      assert blocks == blocks[..n] + [blocks[n]];
    }
  }

  lemma {:induction false} NonEmptyJoins(a: seq<Block>, b: seq<Block>)
    ensures NonEmpty(a + b) == NonEmpty(a) + NonEmpty(b)
  {
    if b == [] {
      assert a + b == a;
    } else {
      var n := |b| - 1;
      assert (a + b)[..|a| + n] == a + b[..n];
      NonEmptyJoins(a, b[..n]);
    }
  }

  function Clean(m: Msg): Msg {
    match m.content
    case Plain(text) => if text == "" then m.(content := Placeholder(m)) else m
    case Blocks(blocks) =>
      var filtered := NonEmpty(blocks);
      if |filtered| == |blocks| then m
      else if filtered != [] then m.(content := Blocks(filtered))
      else m.(content := Placeholder(m))
    case Single(block) => m.(content := Blocks([block]))
    case _ => m
  }

  function CleanAll(ms: seq<Msg>): (r: seq<Msg>)
    ensures |r| == |ms|
    ensures forall i :: 0 <= i < |ms| ==> r[i] == Clean(ms[i])
  {
    seq(|ms|, i requires 0 <= i < |ms| => Clean(ms[i]))
  }

  method FilterEmpty(blocks: seq<Block>) returns (filtered: seq<Block>)
    ensures filtered == NonEmpty(blocks)
  {
    filtered := [];
    for i := 0 to |blocks|
      invariant filtered == NonEmpty(blocks[..i])
    {
      assert blocks[..i + 1][..i] == blocks[..i];
      if !EmptyText(blocks[i]) { filtered := filtered + [blocks[i]]; }
    }
    assert blocks[..|blocks|] == blocks;
  }

  method CleanMessage(msg: Msg) returns (r: Msg)
    ensures r == Clean(msg)
  {
    if msg.content == Plain("") { return msg.(content := Placeholder(msg)); }
    if msg.content.Blocks? {
      var filtered := FilterEmpty(msg.content.blocks);
      if |filtered| != |msg.content.blocks| {
        return if filtered != [] then msg.(content := Blocks(filtered)) else msg.(content := Placeholder(msg));
      }
    }
    if msg.content.Single? { return msg.(content := Blocks([msg.content.block])); }
    r := msg;
  }

  method SanitizeEmptyContent(messages: seq<Msg>) returns (result: seq<Msg>)
    ensures result == CleanAll(messages)
  {
    result := [];
    for i := 0 to |messages|
      invariant result == CleanAll(messages)[..i]
    {
      var clean := CleanMessage(messages[i]);
      result := result + [clean];
    }
  }

  ghost predicate HasEmptyText(m: Msg) {
    match m.content
    case Plain(text) => text == ""
    case Blocks(blocks) => exists i :: 0 <= i < |blocks| && EmptyText(blocks[i])
    case Single(block) => EmptyText(block)
    case _ => false
  }

  /** A content given as one bare block with empty text: the case the cleaning misses. */
  predicate BareEmptyBlock(m: Msg) {
    m.content.Single? && EmptyText(m.content.block)
  }

  lemma CleanOne(m: Msg)
    ensures HasEmptyText(Clean(m)) <==> BareEmptyBlock(m)
    ensures Clean(Clean(m)) == Clean(m) <==> !BareEmptyBlock(m)
  {
    if BareEmptyBlock(m) {
      assert Clean(m).content.blocks[0] == m.content.block;
      assert [m.content.block][..0] == [];
      assert NonEmpty([m.content.block]) == [];
    } else if m.content.Single? {
      assert Clean(m).content == Blocks([m.content.block]);
      NonEmptyFacts([m.content.block]);
    } else if m.content.Blocks? {
      NonEmptyFacts(m.content.blocks);
      NonEmptyFacts(NonEmpty(m.content.blocks));
    }
  }

  ghost predicate NoBareEmptyBlock(ms: seq<Msg>) {
    forall i :: 0 <= i < |ms| ==> !BareEmptyBlock(ms[i])
  }

  /** Cleaning leaves no empty text if and only if no content is a bare empty text block. */
  lemma CleaningLeavesNoEmptyText(ms: seq<Msg>)
    ensures NoBareEmptyBlock(ms) <==> forall i :: 0 <= i < |ms| ==> !HasEmptyText(CleanAll(ms)[i])
  {
    forall i | 0 <= i < |ms| ensures HasEmptyText(CleanAll(ms)[i]) <==> BareEmptyBlock(ms[i]) {
      CleanOne(ms[i]);
    }
  }

  /** Cleaning twice is cleaning once under the same condition. */
  lemma CleaningIsIdempotentIff(ms: seq<Msg>)
    ensures CleanAll(CleanAll(ms)) == CleanAll(ms) <==> NoBareEmptyBlock(ms)
  {
    var once, twice := CleanAll(ms), CleanAll(CleanAll(ms));
    forall i | 0 <= i < |ms| ensures twice[i] == once[i] <==> !BareEmptyBlock(ms[i]) {
      CleanOne(ms[i]);
    }
  }

  /** Everything but contents is untouched, so the linkage is kept. */
  lemma CleaningKeepsLinks(ms: seq<Msg>)
    ensures forall i :: 0 <= i < |ms| ==> CleanAll(ms)[i].(content := Absent) == ms[i].(content := Absent)
    ensures Linked(CleanAll(ms)) <==> Linked(ms)
  {
    SameLinks(ms, CleanAll(ms));
  }

  /** The concrete miss: one pass turns the bare block into a list that still holds it. */
  lemma BareEmptyBlockWitness(name: string)
    ensures var b := TextBlock("text", "");
      var ms := [Msg(User, Single(b), [], None, name, map[])];
      CleanAll(ms)[0].content == Blocks([b]) && CleanAll(CleanAll(ms))[0].content == Plain(EMPTY_MARK)
  {
    var b := TextBlock("text", "");
    assert [b][..0] == [] && EmptyText([b][0]) && NonEmpty([b]) == [];
  }

  ghost predicate SameLinkFields(a: seq<Msg>, b: seq<Msg>) {
    |a| == |b| &&
    forall i :: 0 <= i < |a| ==> b[i].role == a[i].role && b[i].calls == a[i].calls && b[i].callId == a[i].callId
  }

  lemma SameLinksOneWay(a: seq<Msg>, b: seq<Msg>)
    requires SameLinkFields(a, b) && Linked(a)
    ensures Linked(b)
  {
    forall i | 0 <= i < |b| && b[i].role == Tool
      ensures exists j :: 0 <= j < i && Carries(b[j], b[i].callId)
    {
      var j :| 0 <= j < i && Carries(a[j], a[i].callId);
      assert Carries(b[j], b[i].callId);
    }
  }

  lemma SameLinks(a: seq<Msg>, b: seq<Msg>)
    requires SameLinkFields(a, b)
    ensures Linked(a) <==> Linked(b)
  {
    if Linked(a) { SameLinksOneWay(a, b); }
    if Linked(b) { SameLinksOneWay(b, a); }
  }

  // ---------------------------------------------------------------- LiteLLM ids

  const SHORT_ID := 9

  /** `str.isalnum` of a character, and the first nine hex digits of a SHA-1. */
  datatype Hashing = Hashing(isAlnum: char -> bool, sha9: string -> string) {
    predicate Short(id: string) {
      |id| == SHORT_ID && forall i :: 0 <= i < |id| ==> isAlnum(id[i])
    }

    ghost predicate Valid() {
      forall s :: Short(sha9(s))
    }

    function NormalizeText(id: string): string {
      if Short(id) then id else sha9(id)
    }

    /** `_normalize_tool_call_id`: values that are not strings pass through. */
    function Normalize(id: Option<string>): Option<string> {
      match id
      case None => None
      case Some(text) => Some(NormalizeText(text))
    }

    /** The id of a tool result; an absent or empty one is left alone. */
    function NormalizeResult(id: Option<string>): Option<string> {
      if id == Some("") then id else Normalize(id)
    }

    function NormalizeCalls(calls: seq<Call>): (r: seq<Call>)
      ensures |r| == |calls|
      ensures forall k :: 0 <= k < |calls| ==> r[k] == calls[k].(id := Normalize(calls[k].id))
    {
      seq(|calls|, k requires 0 <= k < |calls| => calls[k].(id := Normalize(calls[k].id)))
    }

    function Sanitize(allowed: set<string>, m: Msg): Msg {
      Msg(m.role,
          if m.role == Assistant && m.content.Absent? then Null else m.content,
          NormalizeCalls(m.calls),
          NormalizeResult(m.callId),
          m.name,
          map k | k in m.extra && k in allowed :: m.extra[k])
    }

    function SanitizeAll(allowed: set<string>, ms: seq<Msg>): (r: seq<Msg>)
      ensures |r| == |ms|
      ensures forall i :: 0 <= i < |ms| ==> r[i] == Sanitize(allowed, ms[i])
    {
      seq(|ms|, i requires 0 <= i < |ms| => Sanitize(allowed, ms[i]))
    }

    ghost predicate Remembers(idMap: map<string, string>) {
      forall k :: k in idMap ==> idMap[k] == NormalizeText(k)
    }

    /** `map_id`: `id_map.setdefault(value, ...)` for strings. */
    method MapId(idMap: map<string, string>, id: Option<string>)
      returns (idMap': map<string, string>, r: Option<string>)
      requires Remembers(idMap)
      ensures Remembers(idMap') && r == Normalize(id)
    {
      if id.None? { return idMap, id; }
      idMap' := if id.value in idMap then idMap else idMap[id.value := NormalizeText(id.value)];
      r := Some(idMap'[id.value]);
    }

    method MapCalls(idMap: map<string, string>, calls: seq<Call>)
      returns (idMap': map<string, string>, r: seq<Call>)
      requires Remembers(idMap)
      ensures Remembers(idMap') && r == NormalizeCalls(calls)
    {
      idMap', r := idMap, [];
      for k := 0 to |calls|
        invariant Remembers(idMap') && r == NormalizeCalls(calls)[..k]
      {
        var id;
        idMap', id := MapId(idMap', calls[k].id);
        r := r + [calls[k].(id := id)];
      }
    }

    /** One pass over the messages; the shared id map never changes an answer. */
    method SanitizeMessages(allowed: set<string>, messages: seq<Msg>) returns (sanitized: seq<Msg>)
      ensures sanitized == SanitizeAll(allowed, messages)
    {
      sanitized := [];
      var idMap := map[];
      for i := 0 to |messages|
        invariant Remembers(idMap) && sanitized == SanitizeAll(allowed, messages)[..i]
      {
        var clean := messages[i].(extra := map k | k in messages[i].extra && k in allowed :: messages[i].extra[k]);
        if clean.role == Assistant && clean.content.Absent? { clean := clean.(content := Null); }
        var calls;
        idMap, calls := MapCalls(idMap, clean.calls);
        clean := clean.(calls := calls);
        if clean.callId != None && clean.callId != Some("") {
          var id;
          idMap, id := MapId(idMap, clean.callId);
          clean := clean.(callId := id);
        }
        sanitized := sanitized + [clean];
      }
    }

    lemma NormalizeIsStable(id: Option<string>)
      requires Valid()
      ensures Normalize(Normalize(id)) == Normalize(id)
      ensures NormalizeResult(NormalizeResult(id)) == NormalizeResult(id)
      ensures Normalize(id) != Some("")
    {
      if id.Some? { assert Short(sha9(id.value)); }
    }

    /** Sanitising keeps roles, length and order, and a second pass changes nothing. */
    lemma SanitizingIsIdempotent(allowed: set<string>, ms: seq<Msg>)
      requires Valid()
      ensures SanitizeAll(allowed, SanitizeAll(allowed, ms)) == SanitizeAll(allowed, ms)
      ensures |SanitizeAll(allowed, ms)| == |ms|
      ensures forall i :: 0 <= i < |ms| ==> SanitizeAll(allowed, ms)[i].role == ms[i].role
    {
      forall i | 0 <= i < |ms|
        ensures Sanitize(allowed, Sanitize(allowed, ms[i])) == Sanitize(allowed, ms[i])
      {
        var m := ms[i];
        var once := Sanitize(allowed, m);
        NormalizeIsStable(m.callId);
        forall k | 0 <= k < |m.calls|
          ensures NormalizeCalls(once.calls)[k] == once.calls[k]
        {
          NormalizeIsStable(m.calls[k].id);
        }
        assert NormalizeCalls(once.calls) == once.calls;
        assert (map k | k in once.extra && k in allowed :: once.extra[k]) == once.extra;
      }
    }

    lemma CarriesNormalized(allowed: set<string>, m: Msg, id: Option<string>)
      requires Carries(m, id)
      ensures Carries(Sanitize(allowed, m), Normalize(id))
    {
      var k :| 0 <= k < |m.calls| && Ids(m.calls)[k] == id;
      assert Ids(Sanitize(allowed, m).calls)[k] == Normalize(id);
    }

    /** A linked conversation stays linked if and only if no tool result has an empty id. */
    lemma SanitizingKeepsLinks(allowed: set<string>, ms: seq<Msg>)
      requires Valid() && Linked(ms)
      ensures Linked(SanitizeAll(allowed, ms)) <==>
              forall i :: 0 <= i < |ms| && ms[i].role == Tool ==> ms[i].callId != Some("")
    {
      var out := SanitizeAll(allowed, ms);
      if forall i :: 0 <= i < |ms| && ms[i].role == Tool ==> ms[i].callId != Some("") {
        forall i | 0 <= i < |out| && out[i].role == Tool
          ensures exists j :: 0 <= j < i && Carries(out[j], out[i].callId)
        {
          var j :| 0 <= j < i && Carries(ms[j], ms[i].callId);
          CarriesNormalized(allowed, ms[j], ms[i].callId);
          assert Carries(out[j], out[i].callId);
        }
      } else {
        var i :| 0 <= i < |ms| && ms[i].role == Tool && ms[i].callId == Some("");
        assert out[i].callId == Some("") && out[i].role == Tool;
        forall j | 0 <= j < i ensures !Carries(out[j], Some("")) {
          forall k | 0 <= k < |ms[j].calls| ensures Ids(out[j].calls)[k] != Some("") {
            NormalizeIsStable(ms[j].calls[k].id);
          }
        }
        assert !Linked(out);
      }
    }
  }

  // ---------------------------------------------------------------- ids that break the linkage

  /** One call and its result under the given id, as the agent loop would save them. */
  function CallAndResult(id: string): seq<Msg> {
    [Msg(Assistant, Null, [Call(Some(id), "search", "{}")], None, "", map[]),
     Msg(Tool, Plain("nothing"), [], Some(id), "search", map[])]
  }

  lemma CallAndResultIsLinked(id: string)
    ensures Linked(CallAndResult(id))
  {
    assert Ids(CallAndResult(id)[0].calls)[0] == Some(id);
    assert Carries(CallAndResult(id)[0], Some(id));
  }

  /** A provider that returns the empty id: the call's is hashed, the result's is not. */
  lemma EmptyIdWitness(hashing: Hashing, allowed: set<string>)
    requires hashing.Valid()
    ensures Linked(CallAndResult("")) && !Linked(hashing.SanitizeAll(allowed, CallAndResult("")))
  {
    CallAndResultIsLinked("");
    hashing.SanitizingKeepsLinks(allowed, CallAndResult(""));
    assert CallAndResult("")[1].role == Tool;
  }

  // ---------------------------------------------------------------- Codex items

  datatype Piece = InputText(text: string) | InputImage(url: string)

  datatype Item =
    | UserItem(pieces: seq<Piece>)
    | TextItem(text: string, id: string)
    | CallItem(id: string, callId: string, name: string, arguments: string)
    | OutputItem(callId: string, output: string)

  /** The call part and the item part of an id; the call part is empty when the id opens with '|'. */
  function SplitId(id: Option<string>): (string, Option<string>) {
    if id.Some? && id.value != "" then
      var bar := Find(id.value, "|");
      if bar >= 0 then
        var item := id.value[bar + 1..];
        (id.value[..bar], if item == "" then None else Some(item))
      else (id.value, None)
    else ("call_0", None)
  }

  lemma EmptyCallPart(id: Option<string>)
    ensures SplitId(id).0 == "" <==> id.Some? && "|" <= id.value
  {
    if id.Some? && "|" <= id.value { assert id.value[0..] == id.value; assert OccursAt(id.value, "|", 0); }
  }

  function Pieces(blocks: seq<Block>): seq<Piece> {
    if blocks == [] then []
    else
      var n := |blocks| - 1;
      Pieces(blocks[..n]) +
      match blocks[n]
      case TextBlock(kind, text) => if kind == "text" then [InputText(text)] else []
      case ImageBlock(url) => if url != "" then [InputImage(url)] else []
      case OtherBlock(kind) => if kind == "text" then [InputText("")] else []
  }

  function UserPieces(content: Content): seq<Piece> {
    match content
    case Plain(text) => [InputText(text)]
    case Blocks(blocks) => if Pieces(blocks) != [] then Pieces(blocks) else [InputText("")]
    case _ => [InputText("")]
  }

  function OrElse(a: string, b: string): string {
    if a == "" then b else a
  }

  function CallItemOf(call: Call, idx: nat): Item {
    var (callId, itemId) := SplitId(call.id);
    CallItem(if itemId.Some? then itemId.value else "fc_" + Decimal(idx),
             OrElse(callId, "call_" + Decimal(idx)), call.name, OrElse(call.arguments, "{}"))
  }

  function CallItems(calls: seq<Call>, idx: nat): (r: seq<Item>)
    ensures |r| == |calls|
    ensures forall k :: 0 <= k < |calls| ==> r[k] == CallItemOf(calls[k], idx)
  {
    seq(|calls|, k requires 0 <= k < |calls| => CallItemOf(calls[k], idx))
  }

  /** The items of the message at position `idx`; `dump` is the JSON text of other contents. */
  function ItemsOf(dump: Content -> string, m: Msg, idx: nat): seq<Item> {
    match m.role
    case System => []
    case User => [UserItem(UserPieces(m.content))]
    case Assistant =>
      (if m.content.Plain? && m.content.text != ""
       then [TextItem(m.content.text, "msg_" + Decimal(idx))] else [])
        + CallItems(m.calls, idx)
    case Tool =>
      [OutputItem(SplitId(m.callId).0, if m.content.Plain? then m.content.text else dump(m.content))]
  }

  function Convert(dump: Content -> string, ms: seq<Msg>): seq<Item> {
    if ms == [] then []
    else Convert(dump, ms[..|ms| - 1]) + ItemsOf(dump, ms[|ms| - 1], |ms| - 1)
  }

  function SystemPrompt(ms: seq<Msg>): string {
    if ms == [] then ""
    else
      var last := ms[|ms| - 1];
      if last.role == System then (if last.content.Plain? then last.content.text else "")
      else SystemPrompt(ms[..|ms| - 1])
  }

  method ConvertAssistant(ghost dump: Content -> string, msg: Msg, idx: nat) returns (items: seq<Item>)
    requires msg.role == Assistant
    ensures items == ItemsOf(dump, msg, idx)
  {
    items := [];
    if msg.content.Plain? && msg.content.text != "" {
      items := [TextItem(msg.content.text, "msg_" + Decimal(idx))];
    }
    var calls := ConvertCalls(msg.calls, idx);
    items := items + calls;
  }

  method ConvertCalls(calls: seq<Call>, idx: nat) returns (items: seq<Item>)
    ensures items == CallItems(calls, idx)
  {
    items := [];
    for k := 0 to |calls|
      invariant items == CallItems(calls, idx)[..k]
    {
      items := items + [CallItemOf(calls[k], idx)];
    }
  }

  method ConvertMessages(dump: Content -> string, messages: seq<Msg>)
    returns (systemPrompt: string, items: seq<Item>)
    ensures systemPrompt == SystemPrompt(messages) && items == Convert(dump, messages)
  {
    systemPrompt, items := "", [];
    for idx := 0 to |messages|
      invariant systemPrompt == SystemPrompt(messages[..idx])
      invariant items == Convert(dump, messages[..idx])
    {
      assert messages[..idx + 1][..idx] == messages[..idx];
      var msg := messages[idx];
      match msg.role {
        case System =>
          systemPrompt := if msg.content.Plain? then msg.content.text else "";
        case User =>
          items := items + [UserItem(UserPieces(msg.content))];
        case Assistant =>
          var more := ConvertAssistant(dump, msg, idx);
          items := items + more;
        case Tool =>
          var output := if msg.content.Plain? then msg.content.text else dump(msg.content);
          items := items + [OutputItem(SplitId(msg.callId).0, output)];
      }
    }
    assert messages[..|messages|] == messages;
  }

  ghost predicate Announces(items: seq<Item>, callId: string) {
    exists j :: 0 <= j < |items| && items[j].CallItem? && items[j].callId == callId
  }

  /** Every function_call_output is preceded by a function_call with its call_id. */
  ghost predicate ItemsLinked(items: seq<Item>) {
    forall i :: 0 <= i < |items| && items[i].OutputItem? ==> Announces(items[..i], items[i].callId)
  }

  lemma AnnouncesMore(items: seq<Item>, more: seq<Item>, callId: string)
    ensures Announces(items + more, callId) <==> Announces(items, callId) || Announces(more, callId)
  {
    if Announces(items, callId) {
      var j :| 0 <= j < |items| && items[j].CallItem? && items[j].callId == callId;
      assert (items + more)[j] == items[j];
    }
    if Announces(more, callId) {
      var j :| 0 <= j < |more| && more[j].CallItem? && more[j].callId == callId;
      assert (items + more)[|items| + j] == more[j];
    }
    if Announces(items + more, callId) {
      var j :| 0 <= j < |items + more| && (items + more)[j].CallItem? && (items + more)[j].callId == callId;
      assert j < |items| ==> items[j] == (items + more)[j];
      assert j >= |items| ==> more[j - |items|] == (items + more)[j];
    }
  }

  lemma OwnCallIsAnnounced(dump: Content -> string, m: Msg, idx: nat, id: Option<string>)
    requires Carries(m, id) && SplitId(id).0 != ""
    ensures Announces(ItemsOf(dump, m, idx), SplitId(id).0)
  {
    var items := ItemsOf(dump, m, idx);
    var k :| 0 <= k < |m.calls| && Ids(m.calls)[k] == id;
    var at := |items| - |m.calls| + k;
    assert items[at] == CallItemOf(m.calls[k], idx);
  }

  lemma {:induction false} EveryCallIsAnnounced(dump: Content -> string, ms: seq<Msg>, j: nat, id: Option<string>)
    requires j < |ms| && Carries(ms[j], id) && SplitId(id).0 != ""
    ensures Announces(Convert(dump, ms), SplitId(id).0)
  {
    var n := |ms| - 1;
    if j < n {
      EveryCallIsAnnounced(dump, ms[..n], j, id);
      assert ms[..n][j] == ms[j];
    } else {
      OwnCallIsAnnounced(dump, ms[n], n, id);
    }
    AnnouncesMore(Convert(dump, ms[..n]), ItemsOf(dump, ms[n], n), SplitId(id).0);
  }

  lemma {:induction false} NothingAnnouncesEmpty(dump: Content -> string, ms: seq<Msg>)
    ensures !Announces(Convert(dump, ms), "")
  {
    if ms != [] {
      var n := |ms| - 1;
      NothingAnnouncesEmpty(dump, ms[..n]);
      AnnouncesMore(Convert(dump, ms[..n]), ItemsOf(dump, ms[n], n), "");
    }
  }

  lemma ItemsLinkedJoin(a: seq<Item>, b: seq<Item>)
    requires forall i :: 0 <= i < |b| && b[i].OutputItem? ==> i == 0
    ensures ItemsLinked(a + b) <==>
            ItemsLinked(a) && (b != [] && b[0].OutputItem? ==> Announces(a, b[0].callId))
  {
    assert forall i :: 0 <= i < |a| ==> (a + b)[..i] == a[..i] && (a + b)[i] == a[i];
    assert (a + b)[..|a|] == a;
    if ItemsLinked(a + b) {
      forall i | 0 <= i < |a| && a[i].OutputItem? ensures Announces(a[..i], a[i].callId) {
        assert (a + b)[i].OutputItem?;
      }
      if b != [] { assert (a + b)[|a|] == b[0]; }
    }
  }

  /** A result whose id has no call part is what breaks the Codex linkage. */
  predicate CallPartsPresent(ms: seq<Msg>) {
    forall i :: 0 <= i < |ms| && ms[i].role == Tool ==> SplitId(ms[i].callId).0 != ""
  }

  /** A linked conversation converts to linked items if and only if every tool result's id has
      a call part, that is, none opens with '|'. */
  lemma {:induction false} ConversionKeepsLinks(dump: Content -> string, ms: seq<Msg>)
    requires Linked(ms)
    ensures ItemsLinked(Convert(dump, ms)) <==> CallPartsPresent(ms)
  {
    if ms != [] {
      var n := |ms| - 1;
      var front, m := ms[..n], ms[n];
      LinkedPrefix(ms, n);
      ConversionKeepsLinks(dump, front);
      assert CallPartsPresent(ms) <==> CallPartsPresent(front) && (m.role == Tool ==> SplitId(m.callId).0 != "") by {
        assert forall i :: 0 <= i < n ==> front[i] == ms[i];
      }
      ItemsLinkedJoin(Convert(dump, front), ItemsOf(dump, m, n));
      if m.role == Tool {
        if SplitId(m.callId).0 != "" {
          var j :| 0 <= j < n && Carries(ms[j], m.callId);
          EveryCallIsAnnounced(dump, front, j, m.callId);
        } else {
          NothingAnnouncesEmpty(dump, front);
        }
      }
    }
  }

  /** The tool results of a conversation, and the outputs among items, in order. */
  function ToolResults(dump: Content -> string, ms: seq<Msg>): seq<Item> {
    if ms == [] then []
    else
      var m := ms[|ms| - 1];
      ToolResults(dump, ms[..|ms| - 1]) +
      if m.role == Tool
      then [OutputItem(SplitId(m.callId).0, if m.content.Plain? then m.content.text else dump(m.content))]
      else []
  }

  function CallCount(ms: seq<Msg>): nat {
    if ms == [] then 0
    else CallCount(ms[..|ms| - 1]) + if ms[|ms| - 1].role == Assistant then |ms[|ms| - 1].calls| else 0
  }

  function Outputs(items: seq<Item>): seq<Item> {
    if items == [] then []
    else
      var last := items[|items| - 1];
      Outputs(items[..|items| - 1]) + if last.OutputItem? then [last] else []
  }

  function CallItemCount(items: seq<Item>): nat {
    if items == [] then 0
    else CallItemCount(items[..|items| - 1]) + if items[|items| - 1].CallItem? then 1 else 0
  }

  lemma {:induction false} ItemsJoin(a: seq<Item>, b: seq<Item>)
    ensures Outputs(a + b) == Outputs(a) + Outputs(b)
    ensures CallItemCount(a + b) == CallItemCount(a) + CallItemCount(b)
  {
    if b == [] {
      assert a + b == a;
    } else {
      var n := |b| - 1;
      assert (a + b)[..|a| + n] == a + b[..n];
      ItemsJoin(a, b[..n]);
    }
  }

  lemma {:induction false} OnlyCalls(items: seq<Item>)
    requires forall i :: 0 <= i < |items| ==> items[i].CallItem?
    ensures Outputs(items) == [] && CallItemCount(items) == |items|
  {
    if items != [] { OnlyCalls(items[..|items| - 1]); }
  }

  lemma OneItem(item: Item)
    ensures Outputs([item]) == if item.OutputItem? then [item] else []
    ensures CallItemCount([item]) == if item.CallItem? then 1 else 0
  {
    assert [item][..0] == [];
  }

  lemma AssistantItems(dump: Content -> string, m: Msg, idx: nat)
    requires m.role == Assistant
    ensures Outputs(ItemsOf(dump, m, idx)) == [] && CallItemCount(ItemsOf(dump, m, idx)) == |m.calls|
  {
    var calls := CallItems(m.calls, idx);
    OnlyCalls(calls);
    if m.content.Plain? && m.content.text != "" {
      var text := TextItem(m.content.text, "msg_" + Decimal(idx));
      OneItem(text);
      ItemsJoin([text], calls);
    } else {
      assert ItemsOf(dump, m, idx) == calls;
    }
  }

  lemma OneMessageItems(dump: Content -> string, m: Msg, idx: nat)
    ensures Outputs(ItemsOf(dump, m, idx)) == if m.role == Tool then ItemsOf(dump, m, idx) else []
    ensures CallItemCount(ItemsOf(dump, m, idx)) == if m.role == Assistant then |m.calls| else 0
  {
    if m.role == Assistant {
      AssistantItems(dump, m, idx);
    } else if m.role != System {
      OneItem(ItemsOf(dump, m, idx)[0]);
    }
  }

  /** The conversion keeps every tool result, once and in order, and every tool call. */
  lemma {:induction false} ConversionKeepsResults(dump: Content -> string, ms: seq<Msg>)
    ensures Outputs(Convert(dump, ms)) == ToolResults(dump, ms)
    ensures CallItemCount(Convert(dump, ms)) == CallCount(ms)
  {
    if ms != [] {
      var n := |ms| - 1;
      ConversionKeepsResults(dump, ms[..n]);
      ItemsJoin(Convert(dump, ms[..n]), ItemsOf(dump, ms[n], n));
      OneMessageItems(dump, ms[n], n);
    }
  }

  /** A provider that returns an id with nothing before the bar: the call gets an id made up from
      its position, the result an empty one. */
  lemma LeadingBarWitness(dump: Content -> string)
    ensures Linked(CallAndResult("|fc_1")) && !ItemsLinked(Convert(dump, CallAndResult("|fc_1")))
  {
    var id := "|fc_1";
    CallAndResultIsLinked(id);
    assert "|" <= id;
    EmptyCallPart(Some(id));
    assert CallAndResult(id)[1].callId == Some(id) && CallAndResult(id)[1].role == Tool;
    ConversionKeepsLinks(dump, CallAndResult(id));
  }

  lemma LinkedPrefix(ms: seq<Msg>, n: nat)
    requires Linked(ms) && n <= |ms|
    ensures Linked(ms[..n])
  {
    forall i | 0 <= i < n && ms[..n][i].role == Tool
      ensures exists j :: 0 <= j < i && Carries(ms[..n][j], ms[..n][i].callId)
    {
      var j :| 0 <= j < i && Carries(ms[j], ms[i].callId);
      assert Carries(ms[..n][j], ms[..n][i].callId);
    }
  }
}
