/** The channel's tables updated in place, one method per stretch of code between two awaits. */
module MochatRuntime {
  import opened Prelude
  import opened Mochat

  class MochatChannel {
    const cfg: Config
    var seenSet: map<Key, set<string>>
    var seenQueue: map<Key, seq<string>>
    var delays: map<Key, Delay>
    var live: map<nat, Key>
    var next: nat
    var cursors: map<string, int>
    var coldSessions: set<string>
    ghost var ids: map<Key, seq<string>>
    ghost var accepted: map<Key, seq<Entry>>
    var dispatched: map<Key, seq<seq<Entry>>>

    ghost function Abs(): State
      reads this
    {
      State(seenSet, seenQueue, delays, live, next, ids, accepted, dispatched)
    }

    constructor (cfg: Config, cursors: map<string, int>, cold: set<string>)
      ensures this.cfg == cfg && Abs() == INITIAL && this.cursors == cursors && coldSessions == cold
    {
      this.cfg, this.cursors, coldSessions := cfg, cursors, cold;
      seenSet, seenQueue, delays, live, next := map[], map[], map[], map[], 0;
      ids, accepted, dispatched := map[], map[], map[];
    }

    /** Adds the id and forgets the oldest ones, one by one, beyond the limit. */
    method RememberMessageId(key: Key, messageId: string) returns (duplicate: bool)
      requires SeenOk(Abs(), key)
      modifies this`seenSet, this`seenQueue, this`ids
      ensures duplicate <==> Seen(old(Abs()), key, messageId)
      ensures Abs() == Remember(old(Abs()), key, messageId)
    {
      var seen, queue := GetOr(seenSet, key, {}), GetOr(seenQueue, key, []);
      if messageId in seen {
        seenSet, seenQueue := seenSet[key := seen], seenQueue[key := queue];
        return true;
      }
      seen, queue := Evict(seen + {messageId}, queue + [messageId]);
      seenSet, seenQueue := seenSet[key := seen], seenQueue[key := queue];
      ids := ids[key := GetOr(ids, key, []) + [messageId]];
      duplicate := false;
    }

    method Evict(seen0: set<string>, queue0: seq<string>) returns (seen: set<string>, queue: seq<string>)
      requires Distinct(queue0) && seen0 == Elements(queue0)
      ensures queue == Trimmed(queue0) && seen == Elements(queue)
    {
      seen, queue := seen0, queue0;
      while |queue| > MAX_SEEN_MESSAGE_IDS
        invariant |queue| <= |queue0| && queue == queue0[|queue0| - |queue|..]
        invariant |queue0| <= MAX_SEEN_MESSAGE_IDS ==> queue == queue0
        invariant |queue0| > MAX_SEEN_MESSAGE_IDS ==> |queue| >= MAX_SEEN_MESSAGE_IDS
        invariant Distinct(queue) && seen == Elements(queue)
      {
        var oldest := queue[0];
        assert queue == [oldest] + queue[1..];
        queue := queue[1..];
        seen := seen - {oldest};
      }
    }

    method CancelTimer(timer: Option<nat>)
      modifies this`live
      ensures Abs() == Cancel(old(Abs()), timer)
    {
      if timer.Some? { live := live - {timer.value}; }
    }

    method DispatchEntries(key: Key, entries: seq<Entry>)
      modifies this`dispatched
      ensures Abs() == Dispatch(old(Abs()), key, entries)
    {
      if entries == [] { return; }
      dispatched := dispatched[key := GetOr(dispatched, key, []) + [entries]];
    }

    /** The entry joins the batch and the timer starts afresh. */
    method EnqueueDelayedEntry(key: Key, entry: Entry)
      modifies this`delays, this`live, this`next
      ensures Abs() == Enqueue(old(Abs()), key, entry)
    {
      var delay := GetOr(delays, key, NO_DELAY);
      CancelTimer(delay.timer);
      live := live[next := key];
      delays := delays[key := Delay(delay.entries + [entry], Some(next))];
      next := next + 1;
    }

    method FlushDelayedEntries(key: Key, entry: Option<Entry>, current: Option<nat>)
      modifies this`delays, this`live, this`dispatched
      ensures Abs() == Flush(old(Abs()), key, entry, current)
    {
      var delay := GetOr(delays, key, NO_DELAY);
      var entries := delay.entries;
      if entry.Some? { entries := entries + [entry.value]; } else { assert entries + [] == entries; }
      if delay.timer != current { CancelTimer(delay.timer); }
      delays := delays[key := NO_DELAY];
      DispatchEntries(key, entries);
    }

    method DeliverEntry(key: Key, x: Inbound)
      modifies this`delays, this`live, this`next, this`dispatched
      ensures Abs() == Deliver(cfg, old(Abs()), key, x)
    {
      if UsesDelay(cfg, key) {
        if x.mentioned {
          FlushDelayedEntries(key, Some(x.entry), None);
        } else {
          EnqueueDelayedEntry(key, x.entry);
        }
        return;
      }
      DispatchEntries(key, [x.entry]);
    }

    method ProcessInboundEvent(key: Key, x: Inbound)
      requires SeenOk(Abs(), key)
      modifies this`seenSet, this`seenQueue, this`ids, this`accepted, this`delays, this`live, this`next, this`dispatched
      ensures Abs() == Process(cfg, old(Abs()), key, x)
    {
      if x.entry.author == "" || (cfg.agentUserId != "" && x.entry.author == cfg.agentUserId) { return; }
      if !cfg.allowed(x.entry.author) { return; }
      if x.entry.messageId != "" {
        var duplicate := RememberMessageId(key, x.entry.messageId);
        if duplicate { return; }
      }
      var requireMention := key.kind == Panel && x.entry.groupId != "" && cfg.mentionRequired(key.id, x.entry.groupId);
      if requireMention && !x.mentioned && !UsesDelay(cfg, key) { return; }
      accepted := accepted[key := GetOr(accepted, key, []) + [x.entry]];
      DeliverEntry(key, x);
    }

    /** The timer task wakes up: it flushes and is over. */
    method TimerRuns(task: nat)
      requires task in live
      modifies this`delays, this`live, this`dispatched
      ensures Abs() == FireTimer(old(Abs()), task)
    {
      FlushDelayedEntries(live[task], None, Some(task));
      live := live - {task};
    }

    method MarkSessionCursor(id: string, cursor: int)
      modifies this`cursors
      ensures cursors == Mark(old(cursors), id, cursor)
    {
      if cursor < 0 || cursor < GetOr(cursors, id, 0) { return; }
      cursors := cursors[id := cursor];
    }

    /** The cursor part of `_handle_watch_payload`. */
    method HandleWatchCursors(p: Payload)
      modifies this`cursors, this`coldSessions
      ensures cursors == Watched(old(cursors), old(coldSessions), p)
      ensures coldSessions == if p.kind.SessionTarget? && p.id != "" && p.events.Some?
                              then old(coldSessions) - {p.id} else old(coldSessions)
    {
      if p.id == "" || p.kind == Panel { return; }
      if p.cursor.Some? && p.cursor.value >= 0 { MarkSessionCursor(p.id, p.cursor.value); }
      if p.events.None? { return; }
      if p.id in coldSessions {
        coldSessions := coldSessions - {p.id};
        return;
      }
      var events := p.events.value;
      ghost var start := cursors;
      for i := 0 to |events|
        invariant cursors == MarkSeqs(start, p.id, events[..i])
        invariant coldSessions == old(coldSessions)
      {
        assert events[..i + 1][..i] == events[..i];
        var n := events[i].seqNo;
        if n.Some? && n.value > GetOr(cursors, p.id, 0) { MarkSessionCursor(p.id, n.value); }
      }
      assert events[..|events|] == events;
    }
  }
}
