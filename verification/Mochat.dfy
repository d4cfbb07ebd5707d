/** The Mochat channel's buffering: a bounded memory of seen message ids, delayed batches that
    a timer or a mention flushes, and the per-session cursors. */
module Mochat {
  import opened Prelude

  datatype TargetKind = Panel | SessionTarget

  /** A target's key in the channel's tables. */
  datatype Key = Key(kind: TargetKind, id: string)

  datatype Entry = Entry(body: string, author: string, messageId: string, groupId: string, timestamp: Option<int>)

  datatype Inbound = Inbound(entry: Entry, mentioned: bool)

  datatype Config = Config(
    agentUserId: string, allowed: string -> bool, delayNonMention: bool, mentionRequired: (string, string) -> bool)

  /** A target's pending batch and the task that will flush it. */
  datatype Delay = Delay(entries: seq<Entry>, timer: Option<nat>)

  const NO_DELAY := Delay([], None)
  const MAX_SEEN_MESSAGE_IDS := 2000

  /** `live` are the timer tasks that have not run, `next` the identity of the next task.
      `ids` lists the ids each key accepted, `accepted` the entries, `dispatched` the batches. */
  datatype State = State(
    seenSet: map<Key, set<string>>, seenQueue: map<Key, seq<string>>, delays: map<Key, Delay>,
    live: map<nat, Key>, next: nat,
    ids: map<Key, seq<string>>, accepted: map<Key, seq<Entry>>, dispatched: map<Key, seq<seq<Entry>>>)

  const INITIAL := State(map[], map[], map[], map[], 0, map[], map[], map[])

  datatype Event = Arrives(key: Key, inbound: Inbound) | TimerFires(task: nat)

  function GetOr<K, V>(m: map<K, V>, k: K, default: V): V {
    if k in m then m[k] else default
  }

  // ---------------------------------------------------------------- dedup

  /** The queue after one more id: the oldest ones beyond the limit are forgotten. */
  function Trimmed(queue: seq<string>): seq<string> {
    if |queue| > MAX_SEEN_MESSAGE_IDS then queue[|queue| - MAX_SEEN_MESSAGE_IDS..] else queue
  }

  function Elements(queue: seq<string>): set<string> {
    set x | x in queue
  }

  predicate Seen(s: State, key: Key, id: string) {
    id in GetOr(s.seenSet, key, {})
  }

  function Remember(s: State, key: Key, id: string): State {
    if Seen(s, key, id) then s.(seenSet := s.seenSet[key := GetOr(s.seenSet, key, {})],
                                seenQueue := s.seenQueue[key := GetOr(s.seenQueue, key, [])])
    else
      var queue := Trimmed(GetOr(s.seenQueue, key, []) + [id]);
      s.(seenSet := s.seenSet[key := Elements(queue)], seenQueue := s.seenQueue[key := queue],
         ids := s.ids[key := GetOr(s.ids, key, []) + [id]])
  }

  // ---------------------------------------------------------------- buffering

  function Cancel(s: State, timer: Option<nat>): State {
    if timer.Some? then s.(live := s.live - {timer.value}) else s
  }

  function Dispatch(s: State, key: Key, batch: seq<Entry>): State {
    if batch == [] then s
    else s.(dispatched := s.dispatched[key := GetOr(s.dispatched, key, []) + [batch]])
  }

  function Enqueue(s: State, key: Key, entry: Entry): State {
    var delay := GetOr(s.delays, key, NO_DELAY);
    var s1 := Cancel(s, delay.timer);
    s1.(delays := s.delays[key := Delay(delay.entries + [entry], Some(s.next))],
        live := s1.live[s.next := key], next := s.next + 1)
  }

  /** Flushing, from the timer task `current` or from a mention with its own entry. */
  function Flush(s: State, key: Key, entry: Option<Entry>, current: Option<nat>): State {
    var delay := GetOr(s.delays, key, NO_DELAY);
    var entries := delay.entries + if entry.Some? then [entry.value] else [];
    var s1 := if delay.timer != current then Cancel(s, delay.timer) else s;
    Dispatch(s1.(delays := s.delays[key := NO_DELAY]), key, entries)
  }

  // ---------------------------------------------------------------- arrivals

  /** The filters before the dedup. */
  predicate Admitted(cfg: Config, x: Inbound) {
    && x.entry.author != ""
    && !(cfg.agentUserId != "" && x.entry.author == cfg.agentUserId)
    && cfg.allowed(x.entry.author)
  }

  predicate UsesDelay(cfg: Config, key: Key) {
    key.kind == Panel && cfg.delayNonMention
  }

  /** Dropped for want of a mention. */
  predicate Unmentioned(cfg: Config, key: Key, x: Inbound) {
    && key.kind == Panel && x.entry.groupId != "" && cfg.mentionRequired(key.id, x.entry.groupId)
    && !x.mentioned && !UsesDelay(cfg, key)
  }

  /** Whether the message will be handed on. */
  predicate Accepts(cfg: Config, s: State, key: Key, x: Inbound) {
    && Admitted(cfg, x)
    && !(x.entry.messageId != "" && Seen(s, key, x.entry.messageId))
    && !Unmentioned(cfg, key, x)
  }

  function Deliver(cfg: Config, s: State, key: Key, x: Inbound): State {
    if !UsesDelay(cfg, key) then Dispatch(s, key, [x.entry])
    else if x.mentioned then Flush(s, key, Some(x.entry), None)
    else Enqueue(s, key, x.entry)
  }

  /** Messages without an id are never duplicates. */
  function NoteId(s: State, key: Key, id: string): State {
    if id != "" then Remember(s, key, id) else s
  }

  function CountAccepted(s: State, key: Key, entry: Entry): State {
    s.(accepted := s.accepted[key := GetOr(s.accepted, key, []) + [entry]])
  }

  function Process(cfg: Config, s: State, key: Key, x: Inbound): State {
    if !Admitted(cfg, x) then s
    else if !Accepts(cfg, s, key, x) then NoteId(s, key, x.entry.messageId)
    else Deliver(cfg, CountAccepted(NoteId(s, key, x.entry.messageId), key, x.entry), key, x)
  }

  function FireTimer(s: State, task: nat): State
    requires task in s.live
  {
    var flushed := Flush(s, s.live[task], None, Some(task));
    flushed.(live := flushed.live - {task})
  }

  function Apply(cfg: Config, s: State, e: Event): State {
    match e
    case Arrives(key, x) => Process(cfg, s, key, x)
    case TimerFires(task) =>
      if task in s.live then FireTimer(s, task) else s
  }

  function Run(cfg: Config, events: seq<Event>): State {
    if events == [] then INITIAL
    else Apply(cfg, Run(cfg, events[..|events| - 1]), events[|events| - 1])
  }

  // ---------------------------------------------------------------- invariant

  ghost predicate Distinct(s: seq<string>) {
    forall i, k :: 0 <= i < k < |s| ==> s[i] != s[k]
  }

  /** The ids a key still remembers: the last 2000 that it accepted. */
  function LastIds(log: seq<string>): seq<string> {
    Trimmed(log)
  }

  ghost predicate SeenOk(s: State, key: Key) {
    var queue := GetOr(s.seenQueue, key, []);
    && queue == LastIds(GetOr(s.ids, key, []))
    && GetOr(s.seenSet, key, {}) == Elements(queue)
    && Distinct(queue)
  }

  ghost predicate BufferOk(s: State, key: Key) {
    var delay := GetOr(s.delays, key, NO_DELAY);
    && Concat(GetOr(s.dispatched, key, [])) + delay.entries == GetOr(s.accepted, key, [])
    && (delay.entries != [] <==> delay.timer.Some?)
    && (forall n :: n in s.live && s.live[n] == key <==> delay.timer == Some(n))
  }

  ghost predicate SeenInv(s: State) {
    forall key :: SeenOk(s, key)
  }

  ghost predicate BufferInv(s: State) {
    && (forall key :: BufferOk(s, key))
    && (forall n :: n in s.live ==> n < s.next)
  }

  ghost predicate Inv(s: State) {
    SeenInv(s) && BufferInv(s)
  }

  lemma LastIdsSnoc(log: seq<string>, id: string)
    ensures Trimmed(LastIds(log) + [id]) == LastIds(log + [id])
    ensures Distinct(LastIds(log)) && id !in LastIds(log) ==> Distinct(LastIds(log + [id]))
  {
    var queue := LastIds(log);
    assert Distinct(queue) && id !in queue ==> Distinct(queue + [id]);
    var k := |queue + [id]| - |Trimmed(queue + [id])|;
    assert Trimmed(queue + [id]) == (queue + [id])[k..];
    assert Distinct(queue + [id]) ==> Distinct((queue + [id])[k..]);
  }

  lemma RememberKeepsSeen(s: State, key: Key, id: string)
    requires SeenInv(s)
    ensures SeenInv(Remember(s, key, id))
  {
    forall k ensures SeenOk(Remember(s, key, id), k) {
      assert SeenOk(s, k);
      if k == key { RememberKeepsKey(s, key, id); }
    }
  }

  lemma RememberKeepsKey(s: State, key: Key, id: string)
    requires SeenOk(s, key)
    ensures SeenOk(Remember(s, key, id), key)
  {
    if !Seen(s, key, id) { LastIdsSnoc(GetOr(s.ids, key, []), id); }
  }

  lemma RememberKeepsBuffers(s: State, key: Key, id: string)
    requires BufferInv(s)
    ensures BufferInv(Remember(s, key, id))
  {
    forall k ensures BufferOk(Remember(s, key, id), k) { assert BufferOk(s, k); }
  }

  /** A buffer step leaves the other keys' buffers and timers alone. */
  ghost predicate OnlyTouches(s: State, s': State, key: Key) {
    && (forall k :: k != key ==>
          && GetOr(s'.delays, k, NO_DELAY) == GetOr(s.delays, k, NO_DELAY)
          && GetOr(s'.accepted, k, []) == GetOr(s.accepted, k, [])
          && GetOr(s'.dispatched, k, []) == GetOr(s.dispatched, k, []))
    && (forall n :: (n in s'.live && s'.live[n] != key) <==> (n in s.live && s.live[n] != key))
    && (forall n :: n in s'.live && s'.live[n] != key ==> s'.live[n] == s.live[n])
    && (forall n :: n in s'.live ==> n < s'.next)
  }

  lemma BuffersKept(s: State, s': State, key: Key)
    requires forall k :: k != key ==> BufferOk(s, k)
    requires OnlyTouches(s, s', key) && BufferOk(s', key)
    ensures BufferInv(s')
  {
    forall k ensures BufferOk(s', k) {
      if k != key { assert BufferOk(s, k); }
    }
  }

  /** Delivering a freshly accepted entry: `s` already counts it as accepted. */
  ghost predicate Owes(s: State, key: Key, entry: Entry) {
    && (forall k :: k != key ==> BufferOk(s, k))
    && (forall n :: n in s.live ==> n < s.next)
    && var delay := GetOr(s.delays, key, NO_DELAY);
    && Concat(GetOr(s.dispatched, key, [])) + (delay.entries + [entry]) == GetOr(s.accepted, key, [])
    && (delay.entries != [] <==> delay.timer.Some?)
    && (forall n :: n in s.live && s.live[n] == key <==> delay.timer == Some(n))
  }

  lemma EnqueueKeeps(s: State, key: Key, entry: Entry)
    requires Owes(s, key, entry)
    ensures BufferInv(Enqueue(s, key, entry))
  {
    BuffersKept(s, Enqueue(s, key, entry), key);
  }

  lemma MentionKeeps(s: State, key: Key, entry: Entry)
    requires Owes(s, key, entry)
    ensures BufferInv(Flush(s, key, Some(entry), None))
  {
    ConcatSnoc(GetOr(s.dispatched, key, []), GetOr(s.delays, key, NO_DELAY).entries + [entry]);
    BuffersKept(s, Flush(s, key, Some(entry), None), key);
  }

  lemma DirectKeeps(s: State, key: Key, entry: Entry)
    requires Owes(s, key, entry) && GetOr(s.delays, key, NO_DELAY).entries == []
    ensures BufferInv(Dispatch(s, key, [entry]))
  {
    ConcatSnoc(GetOr(s.dispatched, key, []), [entry]);
    BuffersKept(s, Dispatch(s, key, [entry]), key);
  }

  lemma TimerKeeps(s: State, task: nat)
    requires BufferInv(s) && task in s.live
    ensures BufferInv(FireTimer(s, task))
  {
    var key := s.live[task];
    assert BufferOk(s, key);
    var delay := GetOr(s.delays, key, NO_DELAY);
    assert delay.timer == Some(task) && delay.entries + [] == delay.entries;
    ConcatSnoc(GetOr(s.dispatched, key, []), delay.entries);
    BuffersKept(s, FireTimer(s, task), key);
  }

  /** A key that does not use delays never buffers. */
  ghost predicate DirectKeysIdle(cfg: Config, s: State) {
    forall key :: !UsesDelay(cfg, key) ==> GetOr(s.delays, key, NO_DELAY) == NO_DELAY
  }

  lemma DeliverKeeps(cfg: Config, s: State, key: Key, x: Inbound)
    requires Owes(s, key, x.entry) && DirectKeysIdle(cfg, s)
    ensures BufferInv(Deliver(cfg, s, key, x)) && DirectKeysIdle(cfg, Deliver(cfg, s, key, x))
  {
    if !UsesDelay(cfg, key) { DirectKeeps(s, key, x.entry); }
    else if x.mentioned { MentionKeeps(s, key, x.entry); }
    else { EnqueueKeeps(s, key, x.entry); }
  }

  lemma NoteIdKeeps(cfg: Config, s: State, key: Key, id: string)
    requires Inv(s) && DirectKeysIdle(cfg, s)
    ensures Inv(NoteId(s, key, id)) && DirectKeysIdle(cfg, NoteId(s, key, id))
  {
    if id != "" {
      RememberKeepsSeen(s, key, id);
      RememberKeepsBuffers(s, key, id);
    }
  }

  lemma CountedAsAccepted(s: State, key: Key, entry: Entry)
    requires BufferInv(s)
    ensures Owes(CountAccepted(s, key, entry), key, entry)
  {
    var s' := CountAccepted(s, key, entry);
    assert BufferOk(s, key);
    forall k | k != key ensures BufferOk(s', k) { assert BufferOk(s, k); }
  }

  predicate SameSeen(s: State, s': State) {
    s'.seenSet == s.seenSet && s'.seenQueue == s.seenQueue && s'.ids == s.ids
  }

  lemma CancelLeavesSeen(s: State, timer: Option<nat>)
    ensures SameSeen(s, Cancel(s, timer))
  {
  }

  lemma DispatchLeavesSeen(s: State, key: Key, batch: seq<Entry>)
    ensures SameSeen(s, Dispatch(s, key, batch))
  {
  }

  lemma FlushLeavesSeen(s: State, key: Key, entry: Option<Entry>, current: Option<nat>)
    ensures SameSeen(s, Flush(s, key, entry, current))
  {
    var delay := GetOr(s.delays, key, NO_DELAY);
    var s1 := if delay.timer != current then Cancel(s, delay.timer) else s;
    var s2 := s1.(delays := s.delays[key := NO_DELAY]);
    CancelLeavesSeen(s, delay.timer);
    assert SameSeen(s1, s2);
    DispatchLeavesSeen(s2, key, delay.entries + if entry.Some? then [entry.value] else []);
  }

  lemma DeliverLeavesSeen(cfg: Config, s: State, key: Key, x: Inbound)
    ensures SameSeen(s, Deliver(cfg, s, key, x))
  {
    if !UsesDelay(cfg, key) { DispatchLeavesSeen(s, key, [x.entry]); }
    else if x.mentioned { FlushLeavesSeen(s, key, Some(x.entry), None); }
    else { CancelLeavesSeen(s, GetOr(s.delays, key, NO_DELAY).timer); }
  }

  /** Buffering does not touch the dedup tables. */
  lemma SeenUntouched(s: State, s': State)
    requires SeenInv(s) && SameSeen(s, s')
    ensures SeenInv(s')
  {
    forall k ensures SeenOk(s', k) { assert SeenOk(s, k); }
  }

  lemma AcceptedKeeps(cfg: Config, s: State, key: Key, x: Inbound)
    requires Inv(s) && DirectKeysIdle(cfg, s)
    ensures var s' := Deliver(cfg, CountAccepted(s, key, x.entry), key, x);
      Inv(s') && DirectKeysIdle(cfg, s')
  {
    var s1 := CountAccepted(s, key, x.entry);
    var s' := Deliver(cfg, s1, key, x);
    assert BufferInv(s') && DirectKeysIdle(cfg, s') by {
      CountedAsAccepted(s, key, x.entry);
      DeliverKeeps(cfg, s1, key, x);
    }
    assert SeenInv(s') by {
      DeliverLeavesSeen(cfg, s1, key, x);
      SeenUntouched(s, s');
    }
  }

  lemma ProcessKeeps(cfg: Config, s: State, key: Key, x: Inbound)
    requires Inv(s) && DirectKeysIdle(cfg, s)
    ensures Inv(Process(cfg, s, key, x)) && DirectKeysIdle(cfg, Process(cfg, s, key, x))
  {
    NoteIdKeeps(cfg, s, key, x.entry.messageId);
    AcceptedKeeps(cfg, NoteId(s, key, x.entry.messageId), key, x);
  }

  lemma IdleAfterFlush(cfg: Config, s: State, task: nat)
    requires DirectKeysIdle(cfg, s) && task in s.live
    ensures DirectKeysIdle(cfg, FireTimer(s, task))
  {
  }

  lemma SeenAfterFlush(s: State, task: nat)
    requires SeenInv(s) && task in s.live
    ensures SeenInv(FireTimer(s, task))
  {
    FlushLeavesSeen(s, s.live[task], None, Some(task));
    SeenUntouched(s, FireTimer(s, task));
  }

  lemma FireTimerKeeps(cfg: Config, s: State, task: nat)
    requires Inv(s) && DirectKeysIdle(cfg, s) && task in s.live
    ensures Inv(FireTimer(s, task)) && DirectKeysIdle(cfg, FireTimer(s, task))
  {
    var s' := FireTimer(s, task);
    assert BufferInv(s') by { TimerKeeps(s, task); }
    assert SeenInv(s') by { SeenAfterFlush(s, task); }
    assert DirectKeysIdle(cfg, s') by { IdleAfterFlush(cfg, s, task); }
  }

  lemma StepKeepsInv(cfg: Config, s: State, e: Event)
    requires Inv(s) && DirectKeysIdle(cfg, s)
    ensures Inv(Apply(cfg, s, e)) && DirectKeysIdle(cfg, Apply(cfg, s, e))
  {
    match e
    case Arrives(key, x) => ProcessKeeps(cfg, s, key, x);
    case TimerFires(task) => if task in s.live { FireTimerKeeps(cfg, s, task); }
  }

  lemma {:induction false} RunKeepsInv(cfg: Config, events: seq<Event>)
    ensures Inv(Run(cfg, events)) && DirectKeysIdle(cfg, Run(cfg, events))
  {
    if events != [] {
      RunKeepsInv(cfg, events[..|events| - 1]);
      StepKeepsInv(cfg, Run(cfg, events[..|events| - 1]), events[|events| - 1]);
    }
  }

  // ---------------------------------------------------------------- main results

  /** Under every interleaving of arrivals, mentions and timers, for every target: the
      dispatched entries followed by the buffered ones are the accepted ones, once each and in
      arrival order; the buffer is non-empty exactly when a timer task is alive for it; and
      there is at most one such task. */
  lemma DispatchedThenBufferedIsAccepted(cfg: Config, events: seq<Event>, key: Key)
    ensures var s := Run(cfg, events);
      var delay := GetOr(s.delays, key, NO_DELAY);
      && Concat(GetOr(s.dispatched, key, [])) + delay.entries == GetOr(s.accepted, key, [])
      && (delay.entries != [] <==> exists n :: n in s.live && s.live[n] == key)
      && (forall m, n :: m in s.live && n in s.live && s.live[m] == key && s.live[n] == key ==> m == n)
  {
    RunKeepsInv(cfg, events);
    var s := Run(cfg, events);
    assert BufferOk(s, key);
    var delay := GetOr(s.delays, key, NO_DELAY);
    if delay.timer.Some? { assert delay.timer.value in s.live && s.live[delay.timer.value] == key; }
  }

  /** A message with an id is a duplicate exactly when the id is among the last 2000 that its
      target accepted, which are distinct. */
  lemma DuplicateIffAmongTheLast(cfg: Config, events: seq<Event>, key: Key, id: string)
    ensures var s := Run(cfg, events);
      var log := GetOr(s.ids, key, []);
      var last := if |log| <= MAX_SEEN_MESSAGE_IDS then log else log[|log| - MAX_SEEN_MESSAGE_IDS..];
      && Distinct(last)
      && GetOr(s.seenQueue, key, []) == last
      && (Seen(s, key, id) <==> id in last)
      && (forall x :: x in GetOr(s.seenSet, key, {}) <==> x in GetOr(s.seenQueue, key, []))
  {
    RunKeepsInv(cfg, events);
    assert SeenOk(Run(cfg, events), key);
  }

  // ---------------------------------------------------------------- cursors

  datatype WatchEvent = WatchEvent(seqNo: Option<int>, message: Option<Inbound>)

  /** A watch response; `events` is None when it is not a list. */
  datatype Payload = Payload(kind: TargetKind, id: string, cursor: Option<int>, events: Option<seq<WatchEvent>>)

  function Mark(cursors: map<string, int>, id: string, cursor: int): map<string, int> {
    if cursor < 0 || cursor < GetOr(cursors, id, 0) then cursors else cursors[id := cursor]
  }

  function MarkSeqs(cursors: map<string, int>, id: string, events: seq<WatchEvent>): map<string, int> {
    if events == [] then cursors
    else
      var before := MarkSeqs(cursors, id, events[..|events| - 1]);
      var n := events[|events| - 1].seqNo;
      if n.Some? && n.value > GetOr(before, id, 0) then Mark(before, id, n.value) else before
  }

  /** The cursors after a watch response; a cold session's first response only sets its cursor. */
  function Watched(cursors: map<string, int>, cold: set<string>, p: Payload): map<string, int> {
    if p.id == "" || !p.kind.SessionTarget? then cursors else
    var c1 := if p.cursor.Some? && p.cursor.value >= 0 then Mark(cursors, p.id, p.cursor.value) else cursors;
    if p.events.None? || p.id in cold then c1 else MarkSeqs(c1, p.id, p.events.value)
  }

  lemma {:induction false} MarkSeqsIsMax(cursors: map<string, int>, id: string, events: seq<WatchEvent>)
    ensures var c, c' := GetOr(cursors, id, 0), GetOr(MarkSeqs(cursors, id, events), id, 0);
      && c <= c'
      && (forall i :: 0 <= i < |events| && events[i].seqNo.Some? && c >= 0 ==> events[i].seqNo.value <= c')
      && (c' == c || exists i :: 0 <= i < |events| && events[i].seqNo == Some(c'))
    ensures forall other :: other != id ==> GetOr(MarkSeqs(cursors, id, events), other, 0) == GetOr(cursors, other, 0)
  {
    if events != [] {
      var front := events[..|events| - 1];
      MarkSeqsIsMax(cursors, id, front);
      assert forall i :: 0 <= i < |front| ==> front[i] == events[i];
      var c := GetOr(MarkSeqs(cursors, id, front), id, 0);
      assert c == GetOr(cursors, id, 0) || exists i :: 0 <= i < |events| && events[i].seqNo == Some(c);
    }
  }

  /** A watch response never moves a cursor back and touches only its own session's; unless the
      session is cold the cursor becomes the maximum of the old one, the response's and the
      events'. */
  lemma CursorsNeverDecrease(cursors: map<string, int>, cold: set<string>, p: Payload, id: string)
    requires forall x :: x in cursors ==> cursors[x] >= 0
    ensures var c, c' := GetOr(cursors, id, 0), GetOr(Watched(cursors, cold, p), id, 0);
      && c <= c'
      && (id != p.id || !p.kind.SessionTarget? ==> c' == c)
      && (id == p.id && id != "" && p.kind.SessionTarget? ==>
            && (p.cursor.Some? ==> p.cursor.value <= c')
            && (p.events.Some? && id !in cold ==>
                  forall i :: 0 <= i < |p.events.value| && p.events.value[i].seqNo.Some? ==>
                    p.events.value[i].seqNo.value <= c')
            && (c' == c || p.cursor == Some(c')
                || (p.events.Some? && exists i :: 0 <= i < |p.events.value| && p.events.value[i].seqNo == Some(c'))))
    ensures forall x :: x in Watched(cursors, cold, p) ==> Watched(cursors, cold, p)[x] >= 0
  {
    if p.id != "" && p.kind.SessionTarget? {
      var c1 := if p.cursor.Some? && p.cursor.value >= 0 then Mark(cursors, p.id, p.cursor.value) else cursors;
      if p.events.Some? {
        MarkSeqsIsMax(c1, p.id, p.events.value);
        MarkSeqsStayPositive(c1, p.id, p.events.value);
      }
    }
  }

  lemma {:induction false} MarkSeqsStayPositive(cursors: map<string, int>, id: string, events: seq<WatchEvent>)
    requires forall x :: x in cursors ==> cursors[x] >= 0
    ensures forall x :: x in MarkSeqs(cursors, id, events) ==> MarkSeqs(cursors, id, events)[x] >= 0
  {
    if events != [] { MarkSeqsStayPositive(cursors, id, events[..|events| - 1]); }
  }
}
