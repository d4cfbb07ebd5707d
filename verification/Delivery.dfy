/** The linkage end to end: from any run of turns, through the windowed history and the agent
    loop, to what each provider adapter sends. */
module Delivery {
  import opened Prelude
  import opened Messages
  import opened Conversation
  import opened SessionTurns
  import opened Providers

  /** The message list of model call number k of a turn that starts from the given session. */
  function RequestOf(stored: seq<Msg>, offset: int, window: int, prompt: string, content: Content,
                     react: bool, provider: nat -> Reply, k: nat): seq<Msg> {
    BuildMessages(prompt, History(stored, offset, window), content) + Rounds(react, provider, k)
  }

  ghost predicate ResultIdsPresent(ms: seq<Msg>) {
    forall i :: 0 <= i < |ms| && ms[i].role == Tool ==> ms[i].callId != Some("")
  }

  /** After any run of turns, for any offset and any window holding a user message, every model
      call is linked as built. LiteLLM's cleaned and sanitised form is linked exactly when no
      result id is empty, the Codex form exactly when every result id has a call part. */
  lemma EveryRequestIsDeliveredLinked(
      think: string -> string, turns: seq<Turn>, offset: int, window: int, prompt: string,
      content: Content, react: bool, provider: nat -> Reply, k: nat,
      hashing: Hashing, allowed: set<string>, dump: Content -> string)
    requires HasUser(Window(SessionAfter(think, turns), offset, window)) && hashing.Valid()
    ensures var request := RequestOf(SessionAfter(think, turns), offset, window, prompt, content, react, provider, k);
      && Linked(request)
      && (Linked(hashing.SanitizeAll(allowed, CleanAll(request))) <==> ResultIdsPresent(request))
      && (ItemsLinked(Convert(dump, request)) <==> CallPartsPresent(request))
  {
    var stored := SessionAfter(think, turns);
    var request := RequestOf(stored, offset, window, prompt, content, react, provider, k);
    EveryRunIsSettled(think, turns);
    HistoryOpensWithUser(stored, offset, window);
    RequestIsLinked(prompt, History(stored, offset, window), content, react, provider, k);
    ConversionKeepsLinks(dump, request);
    LiteLinked(request, hashing, allowed);
  }

  lemma LiteLinked(request: seq<Msg>, hashing: Hashing, allowed: set<string>)
    requires Linked(request) && hashing.Valid()
    ensures Linked(hashing.SanitizeAll(allowed, CleanAll(request))) <==> ResultIdsPresent(request)
  {
    var cleaned := CleanAll(request);
    CleaningKeepsLinks(request);
    SameResultIds(request, cleaned);
    hashing.SanitizingKeepsLinks(allowed, cleaned);
  }

  lemma SameResultIds(a: seq<Msg>, b: seq<Msg>)
    requires |a| == |b| && forall i :: 0 <= i < |a| ==> b[i].(content := Absent) == a[i].(content := Absent)
    ensures ResultIdsPresent(a) <==> ResultIdsPresent(b)
  {
    assert forall i :: 0 <= i < |a| ==> b[i].role == a[i].role && b[i].callId == a[i].callId;
  }
}
