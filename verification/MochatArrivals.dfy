/** What the Mochat channel hands on, as a function of the arrivals alone: which messages are
    dropped, which are duplicates, and where an accepted one goes. */
module MochatArrivals {
  import opened Prelude
  import opened Mochat

  /** The author is a known one, not the agent itself, and allowed. */
  predicate Heard(cfg: Config, x: Inbound) {
    x.entry.author != "" && (x.entry.author != cfg.agentUserId || cfg.agentUserId == "") && cfg.allowed(x.entry.author)
  }

  /** A panel that answers late collects what does not mention the agent. */
  predicate Collects(cfg: Config, key: Key) {
    key.kind == Panel && cfg.delayNonMention
  }

  /** A group message that would have to mention the agent and does not, where nothing is collected. */
  predicate LacksMention(cfg: Config, key: Key, x: Inbound) {
    && key.kind == Panel && |x.entry.groupId| > 0 && cfg.mentionRequired(key.id, x.entry.groupId)
    && !x.mentioned && !cfg.delayNonMention
  }

  function Recent(log: seq<string>): seq<string> {
    if |log| > 2000 then log[|log| - 2000..] else log
  }

  /** The ids of a target that were heard and were not among its last 2000 when they came. */
  function Noted(cfg: Config, events: seq<Event>, key: Key): seq<string> {
    if events == [] then []
    else
      var n := |events| - 1;
      var before, e := Noted(cfg, events[..n], key), events[n];
      if e.Arrives? && e.key == key && Heard(cfg, e.inbound) && |e.inbound.entry.messageId| > 0
         && e.inbound.entry.messageId !in Recent(before)
      then before + [e.inbound.entry.messageId] else before
  }

  /** Event n hands its message on: it is heard, not a duplicate, and does not lack a mention. */
  predicate Taken(cfg: Config, events: seq<Event>, key: Key, n: nat)
    requires n < |events|
  {
    var e := events[n];
    && e.Arrives? && e.key == key && Heard(cfg, e.inbound) && !LacksMention(cfg, key, e.inbound)
    && (|e.inbound.entry.messageId| > 0 ==> e.inbound.entry.messageId !in Recent(Noted(cfg, events[..n], key)))
  }

  function TakenEntries(cfg: Config, events: seq<Event>, key: Key): seq<Entry> {
    if events == [] then []
    else
      var n := |events| - 1;
      TakenEntries(cfg, events[..n], key) + if Taken(cfg, events, key, n) then [events[n].inbound.entry] else []
  }

  // ---------------------------------------------------------------- one event

  /** Nothing that was handed on or waits is touched. */
  ghost predicate NothingHandedOn(s: State, s': State) {
    s'.accepted == s.accepted && s'.delays == s.delays && s'.live == s.live && s'.dispatched == s.dispatched
  }

  /** A message that is not heard, repeats one of its target's last 2000 ids, or lacks its mention,
      is dropped. */
  lemma DroppedArrivals(cfg: Config, s: State, key: Key, x: Inbound)
    requires SeenOk(s, key)
    requires !Heard(cfg, x) || LacksMention(cfg, key, x)
          || (|x.entry.messageId| > 0 && x.entry.messageId in Recent(GetOr(s.ids, key, [])))
    ensures NothingHandedOn(s, Apply(cfg, s, Arrives(key, x)))
  {
  }

  ghost predicate SameExcept(s: State, s': State, key: Key) {
    forall k :: k != key ==>
      && GetOr(s'.delays, k, NO_DELAY) == GetOr(s.delays, k, NO_DELAY)
      && GetOr(s'.accepted, k, []) == GetOr(s.accepted, k, [])
      && GetOr(s'.dispatched, k, []) == GetOr(s.dispatched, k, [])
  }

  /** Where an accepted message goes. */
  ghost predicate HandedOn(cfg: Config, s: State, s': State, key: Key, x: Inbound) {
    var delay, delay' := GetOr(s.delays, key, NO_DELAY), GetOr(s'.delays, key, NO_DELAY);
    var sent, sent' := GetOr(s.dispatched, key, []), GetOr(s'.dispatched, key, []);
    var left := if delay.timer.Some? then s.live - {delay.timer.value} else s.live;
    if !Collects(cfg, key) then sent' == sent + [[x.entry]] && delay' == delay && s'.live == s.live
    else if x.mentioned then
      sent' == sent + [delay.entries + [x.entry]] && delay' == Delay([], None) && s'.live == left
    else
      sent' == sent && delay' == Delay(delay.entries + [x.entry], Some(s.next)) && s'.live == left[s.next := key]
  }

  lemma DirectHandsOn(cfg: Config, s: State, key: Key, x: Inbound)
    requires !Collects(cfg, key)
    ensures var s' := Deliver(cfg, s, key, x); HandedOn(cfg, s, s', key, x) && SameExcept(s, s', key)
  {
  }

  lemma MentionHandsOn(cfg: Config, s: State, key: Key, x: Inbound)
    requires Collects(cfg, key) && x.mentioned
    ensures var s' := Deliver(cfg, s, key, x); HandedOn(cfg, s, s', key, x) && SameExcept(s, s', key)
  {
    var delay := GetOr(s.delays, key, NO_DELAY);
    var left := if delay.timer.Some? then s.live - {delay.timer.value} else s.live;
    FlushSends(s, key, x.entry, delay, left);
  }

  lemma FlushSends(s: State, key: Key, entry: Entry, delay: Delay, left: map<nat, Key>)
    requires delay == GetOr(s.delays, key, NO_DELAY)
    requires left == if delay.timer.Some? then s.live - {delay.timer.value} else s.live
    ensures Flush(s, key, Some(entry), None) ==
            s.(live := left, delays := s.delays[key := Delay([], None)],
               dispatched := s.dispatched[key := GetOr(s.dispatched, key, []) + [delay.entries + [entry]]])
  {
  }

  lemma CollectingHandsOn(cfg: Config, s: State, key: Key, x: Inbound)
    requires Collects(cfg, key) && !x.mentioned
    ensures var s' := Deliver(cfg, s, key, x); HandedOn(cfg, s, s', key, x) && SameExcept(s, s', key)
  {
  }

  lemma DeliveryAcceptsNoMore(cfg: Config, s: State, key: Key, x: Inbound)
    ensures Deliver(cfg, s, key, x).accepted == s.accepted
  {
  }

  lemma CountingHandsOn(cfg: Config, s: State, s2: State, s': State, key: Key, x: Inbound)
    requires s2.delays == s.delays && s2.dispatched == s.dispatched && s2.live == s.live && s2.next == s.next
    requires s'.accepted == s2.accepted == s.accepted[key := GetOr(s.accepted, key, []) + [x.entry]]
    requires HandedOn(cfg, s2, s', key, x) && SameExcept(s2, s', key)
    ensures HandedOn(cfg, s, s', key, x) && SameExcept(s, s', key)
  {
    forall k | k != key ensures GetOr(s'.accepted, k, []) == GetOr(s.accepted, k, []) { }
  }

  lemma NotingTouchesNoBuffer(s: State, key: Key, id: string)
    ensures var s' := NoteId(s, key, id);
      NothingHandedOn(s, s') && s'.next == s.next
  {
    if id != "" { RememberingTouchesNoBuffer(s, key, id, Trimmed(GetOr(s.seenQueue, key, []) + [id])); }
  }

  lemma RememberingTouchesNoBuffer(s: State, key: Key, id: string, queue: seq<string>)
    requires queue == Trimmed(GetOr(s.seenQueue, key, []) + [id])
    ensures var s' := Remember(s, key, id);
      NothingHandedOn(s, s') && s'.next == s.next
  {
    if !Seen(s, key, id) {
      assert Remember(s, key, id) == s.(seenSet := s.seenSet[key := Elements(queue)], seenQueue := s.seenQueue[key := queue],
                                        ids := s.ids[key := GetOr(s.ids, key, []) + [id]]);
    }
  }

  /** Any other message is accepted once and goes, where the target does not collect, out as a batch
      of its own; where it does, a mention sends out everything collected with itself at the end and
      stops the timer, and anything else joins the collection and starts the timer afresh. */
  lemma AcceptedArrivals(cfg: Config, s: State, key: Key, x: Inbound)
    requires SeenOk(s, key) && Heard(cfg, x) && !LacksMention(cfg, key, x)
    requires |x.entry.messageId| > 0 ==> x.entry.messageId !in Recent(GetOr(s.ids, key, []))
    ensures var s' := Apply(cfg, s, Arrives(key, x));
      && SameExcept(s, s', key) && HandedOn(cfg, s, s', key, x)
      && GetOr(s'.accepted, key, []) == GetOr(s.accepted, key, []) + [x.entry]
  {
    var s1 := NoteId(s, key, x.entry.messageId);
    var s2 := CountAccepted(s1, key, x.entry);
    assert Apply(cfg, s, Arrives(key, x)) == Deliver(cfg, s2, key, x);
    NotingTouchesNoBuffer(s, key, x.entry.messageId);
    DeliveryAcceptsNoMore(cfg, s2, key, x);
    if !Collects(cfg, key) { DirectHandsOn(cfg, s2, key, x); }
    else if x.mentioned { MentionHandsOn(cfg, s2, key, x); }
    else { CollectingHandsOn(cfg, s2, key, x); }
    CountingHandsOn(cfg, s, s2, Apply(cfg, s, Arrives(key, x)), key, x);
  }

  /** A timer that runs sends out what was collected, ends, and leaves the other targets alone; one
      that was stopped does nothing. */
  lemma TimerSends(cfg: Config, s: State, task: nat)
    requires BufferInv(s)
    ensures var s' := Apply(cfg, s, TimerFires(task));
      if task !in s.live then s' == s
      else
        var key := s.live[task];
        && GetOr(s'.dispatched, key, []) == GetOr(s.dispatched, key, []) + [GetOr(s.delays, key, NO_DELAY).entries]
        && GetOr(s'.delays, key, NO_DELAY) == Delay([], None)
        && s'.live == s.live - {task} && s'.accepted == s.accepted && SameExcept(s, s', key)
  {
    if task in s.live {
      var delay := GetOr(s.delays, s.live[task], NO_DELAY);
      assert BufferOk(s, s.live[task]) && delay.entries + [] == delay.entries;
    }
  }

  // ---------------------------------------------------------------- whole runs

  lemma NotingLogs(s: State, key: Key, id: string, k: Key)
    requires SeenOk(s, key)
    ensures var log := GetOr(s.ids, k, []);
      GetOr(NoteId(s, key, id).ids, k, []) == if k == key && |id| > 0 && id !in Recent(log) then log + [id] else log
  {
  }

  lemma ArrivalNotes(cfg: Config, s: State, key: Key, x: Inbound, k: Key)
    requires SeenOk(s, key)
    ensures var log := GetOr(s.ids, k, []);
      GetOr(Apply(cfg, s, Arrives(key, x)).ids, k, []) ==
        if k == key && Heard(cfg, x) && |x.entry.messageId| > 0 && x.entry.messageId !in Recent(log)
        then log + [x.entry.messageId] else log
  {
    var s1 := NoteId(s, key, x.entry.messageId);
    DeliverLeavesSeen(cfg, CountAccepted(s1, key, x.entry), key, x);
    NotingLogs(s, key, x.entry.messageId, k);
    assert Apply(cfg, s, Arrives(key, x)).ids == if Heard(cfg, x) then s1.ids else s.ids;
  }

  lemma TimerNotesNothing(cfg: Config, s: State, task: nat)
    ensures Apply(cfg, s, TimerFires(task)).ids == s.ids && Apply(cfg, s, TimerFires(task)).accepted == s.accepted
  {
    if task in s.live { FlushLeavesSeen(s, s.live[task], None, Some(task)); }
  }

  lemma ArrivalAccepts(cfg: Config, s: State, key: Key, x: Inbound, k: Key)
    requires SeenOk(s, key)
    ensures var before := GetOr(s.accepted, k, []);
      GetOr(Apply(cfg, s, Arrives(key, x)).accepted, k, []) ==
        if k == key && Heard(cfg, x) && !LacksMention(cfg, key, x)
           && (|x.entry.messageId| > 0 ==> x.entry.messageId !in Recent(GetOr(s.ids, key, [])))
        then before + [x.entry] else before
  {
    if Heard(cfg, x) && !LacksMention(cfg, key, x)
       && (|x.entry.messageId| > 0 ==> x.entry.messageId !in Recent(GetOr(s.ids, key, []))) {
      AcceptedArrivals(cfg, s, key, x);
    } else {
      DroppedArrivals(cfg, s, key, x);
    }
  }

  lemma {:induction false} RunFollowsArrivals(cfg: Config, events: seq<Event>, key: Key)
    ensures GetOr(Run(cfg, events).ids, key, []) == Noted(cfg, events, key)
    ensures GetOr(Run(cfg, events).accepted, key, []) == TakenEntries(cfg, events, key)
  {
    if events != [] {
      var n := |events| - 1;
      var s, e := Run(cfg, events[..n]), events[n];
      RunFollowsArrivals(cfg, events[..n], key);
      RunKeepsInv(cfg, events[..n]);
      match e
      case Arrives(k, x) =>
        assert SeenOk(s, k);
        ArrivalNotes(cfg, s, k, x, key);
        ArrivalAccepts(cfg, s, k, x, key);
      case TimerFires(task) => TimerNotesNothing(cfg, s, task);
    }
  }

  /** Over every run: what was sent out, followed by what is still collected, are exactly the
      messages that the arrivals say are to be handed on, in order. */
  lemma HandedOnIsTaken(cfg: Config, events: seq<Event>, key: Key)
    ensures var s := Run(cfg, events);
      Concat(GetOr(s.dispatched, key, [])) + GetOr(s.delays, key, NO_DELAY).entries == TakenEntries(cfg, events, key)
  {
    RunFollowsArrivals(cfg, events, key);
    DispatchedThenBufferedIsAccepted(cfg, events, key);
  }

  // ---------------------------------------------------------------- duplicates

  lemma {:induction false} NotedGrows(cfg: Config, events: seq<Event>, key: Key, m: nat, n: nat)
    requires m <= n <= |events|
    ensures Noted(cfg, events[..m], key) <= Noted(cfg, events[..n], key)
  {
    if m < n {
      NotedGrows(cfg, events, key, m, n - 1);
      assert events[..n][..n - 1] == events[..n - 1];
    }
  }

  lemma {:induction false} RecentAreDistinct(cfg: Config, events: seq<Event>, key: Key)
    ensures Distinct(Recent(Noted(cfg, events, key)))
  {
    RunFollowsArrivals(cfg, events, key);
    DuplicateIffAmongTheLast(cfg, events, key, "");
  }

  /** Two messages of one target with the same id are both handed on only if at least 2000 other ids,
      all different, were noted for the target between them. */
  lemma RepeatsAreFarApart(cfg: Config, events: seq<Event>, key: Key, m: nat, n: nat)
    requires m < n < |events| && Taken(cfg, events, key, m) && Taken(cfg, events, key, n)
    requires events[m].inbound.entry.messageId == events[n].inbound.entry.messageId != ""
    ensures var from, to := |Noted(cfg, events[..m + 1], key)|, |Noted(cfg, events[..n], key)|;
      && from + 2000 <= to
      && Distinct(Noted(cfg, events[..n], key)[to - 2000..])
      && events[n].inbound.entry.messageId !in Noted(cfg, events[..n], key)[to - 2000..]
  {
    var id := events[m].inbound.entry.messageId;
    var first, log := Noted(cfg, events[..m], key), Noted(cfg, events[..n], key);
    assert events[..m + 1][..m] == events[..m];
    assert Noted(cfg, events[..m + 1], key) == first + [id];
    NotedGrows(cfg, events, key, m + 1, n);
    RecentAreDistinct(cfg, events[..n], key);
    assert log[|first|] == id;
  }
}
