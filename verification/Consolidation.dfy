/** Memory consolidation: an append-only message list, an offset into it, background
    archiving across an `await`, and the `/new` command that archives and clears.

    The protocol is a state machine over one session key. `Apply` gives the effect of each
    atomic stretch of code between two awaits; the class `AgentLoop` performs the same
    stretches by updating its fields, and every method is proved to agree with `Apply`. */
module Consolidation {
  import opened Prelude

  datatype Msg = Msg(role: string, content: string)

  /** One successful archiving: the slice handed to the model, which stood at positions
      [lo, hi), and the number of messages that turns saved while the call was awaited. */
  datatype Span = Span(lo: nat, hi: nat, slice: seq<Msg>, appended: nat)

  /** A session object. `account` records the successful archivings since the last clear;
      the program does not store it. */
  datatype Session = Session(messages: seq<Msg>, offset: int, account: seq<Span>)

  const FRESH := Session([], 0, [])

  /** HISTORY.md as its list of entries, and MEMORY.md as its text. */
  datatype Files = Files(history: seq<string>, memory: string)

  /** What the model call yields; an absent argument is the empty string. */
  datatype Reply = Raised | NoToolCall | NotADict | Arguments(entry: string, update: string)

  datatype Io = IoOk | AppendFails | WriteFails

  /** A background consolidation task: its session object, and what it captured before the await. */
  datatype Task =
    | Waiting(obj: nat)
    | InBody(obj: nat, lo: nat, hi: nat, slice: seq<Msg>, memory: string, appended: nat)
    | Over

  /** What the holder of the processing lock is doing. A `/new` that waits for the consolidation
      lock is suspended if the lock was held when it asked or a task was still queued for it; a free
      lock that nobody queues for is taken without a pause. */
  datatype Busy =
    | Free
    | Turn(obj: nat)
    | NewWaiting(obj: nat, suspended: bool)
    | NewArchiving(obj: nat, snapshot: seq<Msg>, memory: string)

  /** `objs` is the table of session objects, `cached` the one in the manager's cache,
      `consolidating` whether the key is in the guard set, `locked` the consolidation lock. */
  datatype State = State(
    objs: seq<Session>, cached: Option<nat>, disk: Session, files: Files,
    consolidating: bool, locked: bool, tasks: seq<Task>, busy: Busy)

  const INITIAL := State([], None, FRESH, Files([], ""), false, false, [], Free)

  /** A system message starts a turn that never triggers a consolidation. */
  datatype Event =
    | TurnBegins
    | SystemTurnBegins
    | TurnSaves(msgs: seq<Msg>)
    | TurnEndsUnsaved
    | TaskGrabsLock(task: nat)
    | TaskFinishes(task: nat, reply: Reply, io: Io)
    | NewBegins
    | NewGrabsLock
    | NewFinishes(reply: Reply, io: Io)
    | NewAborts
    | Restarts

  // ---------------------------------------------------------------- one step

  /** The writes of a finished model call, and whether it counts as a success. */
  function Store(files: Files, currentMemory: string, reply: Reply, io: Io): (Files, bool) {
    match reply
    case Raised => (files, false)
    case NoToolCall => (files, false)
    case NotADict => (files, false)
    case Arguments(entry, update) =>
      if entry != "" && io.AppendFails? then (files, false) else
      var afterAppend := if entry != "" then files.(history := files.history + [entry]) else files;
      if update == "" || update == currentMemory then (afterAppend, true)
      else if io.WriteFails? then (afterAppend, false)
      else (afterAppend.(memory := update), true)
  }

  /** HISTORY.md gains at most the entry of this reply, MEMORY.md is replaced at most by its
      update, and a success means that both wanted writes are on disk. */
  lemma StoreOutcome(files: Files, currentMemory: string, reply: Reply, io: Io)
    ensures var (after, ok) := Store(files, currentMemory, reply, io);
      && (after.history == files.history
          || (reply.Arguments? && reply.entry != "" && after.history == files.history + [reply.entry]))
      && (after.memory == files.memory
          || (reply.Arguments? && reply.update != "" && after == Files(after.history, reply.update)))
      && (ok ==> (
            && reply.Arguments?
            && (reply.entry != "" ==> after.history == files.history + [reply.entry])
            && (reply.update != "" && files.memory == currentMemory ==> after.memory == reply.update)))
      && (reply.Arguments? && io.IoOk? ==> ok)
      && (!reply.Arguments? ==> !ok && after == files)
      && (!ok && reply.Arguments? ==>
            if io.AppendFails? then after == files else io.WriteFails? && after.memory == files.memory)
  {
  }

  /** The slice the background task hands to the model; empty when there is nothing to do. */
  function OldMessages(window: nat, session: Session): seq<Msg> {
    var keep := window / 2;
    if |session.messages| <= keep then []
    else if |session.messages| - session.offset <= 0 then []
    else Slice(session.messages, session.offset, -keep)
  }

  function GetOrCreate(s: State): (State, nat) {
    match s.cached
    case Some(i) => (s, i)
    case None => (s.(objs := s.objs + [s.disk], cached := Some(|s.objs|)), |s.objs|)
  }

  /** The session object behind a reference. */
  function Deref(s: State, obj: nat): Session {
    if obj < |s.objs| then s.objs[obj] else FRESH
  }

  function Assign(s: State, obj: nat, session: Session): State {
    if obj < |s.objs| then s.(objs := s.objs[obj := session]) else s
  }

  function BeginTurn(window: nat, s0: State): State {
    var (s, i) := GetOrCreate(s0);
    var session := Deref(s, i);
    var started := s.(busy := Turn(i));
    if |session.messages| - session.offset >= window && !s.consolidating then
      started.(consolidating := true, tasks := s.tasks + [Waiting(i)])
    else started
  }

  function BeginSystemTurn(s0: State): State {
    var (s, i) := GetOrCreate(s0);
    s.(busy := Turn(i))
  }

  /** A message saved by a turn is counted by the task that is awaiting the model on that object. */
  function CountAppended(tasks: seq<Task>, obj: nat, n: nat): seq<Task> {
    seq(|tasks|, k requires 0 <= k < |tasks| =>
      if tasks[k].InBody? && tasks[k].obj == obj
      then tasks[k].(appended := tasks[k].appended + n) else tasks[k])
  }

  function SaveTurn(s: State, obj: nat, msgs: seq<Msg>): State {
    var session := Deref(s, obj);
    var grown := session.(messages := session.messages + msgs);
    Assign(s, obj, grown).(
      disk := grown, cached := Some(obj), busy := Free,
      tasks := CountAppended(s.tasks, obj, |msgs|))
  }

  function GrabLock(window: nat, s: State, k: nat): State
    requires k < |s.tasks| && s.tasks[k].Waiting?
  {
    var obj := s.tasks[k].obj;
    var session := Deref(s, obj);
    var old_ := OldMessages(window, session);
    if old_ == [] then s.(tasks := s.tasks[k := Over], consolidating := false)
    else
      var lo := Bound(session.offset, |session.messages|);
      s.(tasks := s.tasks[k := InBody(obj, lo, lo + |old_|, old_, s.files.memory, 0)], locked := true)
  }

  function Finish(window: nat, s: State, k: nat, reply: Reply, io: Io): State
    requires k < |s.tasks| && s.tasks[k].InBody?
  {
    var t := s.tasks[k];
    var session := Deref(s, t.obj);
    var (files, ok) := Store(s.files, t.memory, reply, io);
    var released := s.(files := files, tasks := s.tasks[k := Over], locked := false, consolidating := false);
    if ok then
      Assign(released, t.obj, session.(
        offset := |session.messages| - window / 2,
        account := session.account + [Span(t.lo, t.hi, t.slice, t.appended)]))
    else released
  }

  function ClearSession(s: State, obj: nat): State {
    Assign(s, obj, FRESH).(disk := FRESH, cached := None, busy := Free)
  }

  function NewGrab(s: State, obj: nat): State {
    var session := Deref(s, obj);
    var snapshot := SliceFrom(session.messages, session.offset);
    if snapshot == [] then ClearSession(s.(consolidating := false), obj)
    else s.(locked := true, busy := NewArchiving(obj, snapshot, s.files.memory))
  }

  function NewFinish(s: State, obj: nat, memory: string, reply: Reply, io: Io): State {
    var (files, ok) := Store(s.files, memory, reply, io);
    var released := s.(files := files, locked := false, consolidating := false, busy := Free);
    if ok then ClearSession(released, obj) else released
  }

  /** A lock that was just released stays free until the waiter it has woken gets its turn. */
  predicate SomeWaits(tasks: seq<Task>) {
    exists k :: 0 <= k < |tasks| && tasks[k].Waiting?
  }

  /** The effect of one event; an event that cannot happen in the state leaves it unchanged. */
  function Apply(window: nat, s: State, e: Event): State {
    match e
    case TurnBegins => if s.busy.Free? then BeginTurn(window, s) else s
    case SystemTurnBegins => if s.busy.Free? then BeginSystemTurn(s) else s
    case TurnSaves(msgs) => if s.busy.Turn? then SaveTurn(s, s.busy.obj, msgs) else s
    case TurnEndsUnsaved => if s.busy.Turn? then s.(busy := Free) else s
    case TaskGrabsLock(k) =>
      if k < |s.tasks| && s.tasks[k].Waiting? && !s.locked then GrabLock(window, s, k) else s
    case TaskFinishes(k, reply, io) =>
      if k < |s.tasks| && s.tasks[k].InBody? then Finish(window, s, k, reply, io) else s
    case NewBegins =>
      if s.busy.Free? then
        var (s1, i) := GetOrCreate(s);
        s1.(busy := NewWaiting(i, s.locked || SomeWaits(s.tasks)), consolidating := true)
      else s
    case NewGrabsLock => if s.busy.NewWaiting? && !s.locked then NewGrab(s, s.busy.obj) else s
    case NewFinishes(reply, io) =>
      if s.busy.NewArchiving? then NewFinish(s, s.busy.obj, s.busy.memory, reply, io) else s
    case NewAborts =>
      if s.busy.NewWaiting? && s.busy.suspended then s.(consolidating := false, busy := Free)
      else if s.busy.NewArchiving? then s.(consolidating := false, busy := Free, locked := false)
      else s
    case Restarts => State([], None, s.disk, s.files, false, false, [], Free)
  }

  function Run(window: nat, s: State, events: seq<Event>): State
    decreases events
  {
    if events == [] then s else Run(window, Apply(window, s, events[0]), events[1..])
  }

  // ---------------------------------------------------------------- invariant

  /** The account tiles [0, n): each archived span starts where the previous one and the
      messages appended during it end. */
  ghost predicate Tiles(account: seq<Span>, n: int) {
    if account == [] then n == 0
    else
      var last := account[|account| - 1];
      && last.lo < last.hi
      && last.hi + last.appended == n
      && Tiles(account[..|account| - 1], last.lo)
  }

  ghost predicate Faithful(messages: seq<Msg>, span: Span) {
    span.lo <= span.hi <= |messages| && span.slice == messages[span.lo..span.hi]
  }

  ghost predicate SessionOk(session: Session) {
    && 0 <= session.offset <= |session.messages|
    && Tiles(session.account, session.offset)
    && (forall k :: 0 <= k < |session.account| ==> Faithful(session.messages, session.account[k]))
  }

  /** What a task awaiting the model knows about its session object. */
  ghost predicate TaskOk(window: nat, s: State, t: Task) {
    match t
    case Over => true
    case Waiting(obj) => obj < |s.objs|
    case InBody(obj, lo, hi, slice, _, appended) =>
      && obj < |s.objs|
      && var session := s.objs[obj];
      && session.offset == lo < hi
      && hi + appended + window / 2 == |session.messages|
      && slice == session.messages[lo..hi]
  }

  ghost predicate LockHolder(s: State, k: int) {
    if k == -1 then s.busy.NewArchiving? else 0 <= k < |s.tasks| && s.tasks[k].InBody?
  }

  /** The lock has at most one holder: a task, or (as -1) the `/new` command. */
  ghost predicate Exclusive(s: State) {
    && (forall j, k :: LockHolder(s, j) && LockHolder(s, k) ==> j == k)
    && (s.locked <==> exists k :: LockHolder(s, k))
  }

  ghost predicate Inv(window: nat, s: State) {
    && (s.cached.Some? ==> s.cached.value < |s.objs|)
    && (s.busy != Free ==> s.cached == Some(s.busy.obj))
    && SessionOk(s.disk)
    && (forall i :: 0 <= i < |s.objs| ==> SessionOk(s.objs[i]))
    && (forall i :: 0 <= i < |s.objs| && s.cached != Some(i) ==> s.objs[i] == FRESH)
    && (forall k :: 0 <= k < |s.tasks| ==> TaskOk(window, s, s.tasks[k]))
    && Exclusive(s)
    && (s.busy.NewArchiving? ==>
          s.busy.snapshot == s.objs[s.busy.obj].messages[s.objs[s.busy.obj].offset..] != [])
  }

  // ---------------------------------------------------------------- every step keeps it

  lemma TurnBeginsKeeps(window: nat, s: State)
    requires Inv(window, s) && s.busy.Free?
    ensures Inv(window, BeginTurn(window, s))
  {
    SystemTurnBeginsKeeps(window, s);
    if BeginTurn(window, s) != BeginSystemTurn(s) { QueueingKeeps(window, BeginSystemTurn(s)); }
  }

  lemma QueueingKeeps(window: nat, s: State)
    requires Inv(window, s) && s.busy.Turn?
    ensures Inv(window, s.(consolidating := true, tasks := s.tasks + [Waiting(s.busy.obj)]))
  {
    var s' := s.(consolidating := true, tasks := s.tasks + [Waiting(s.busy.obj)]);
    assert forall k :: LockHolder(s, k) <==> LockHolder(s', k);
    forall k | 0 <= k < |s'.tasks| ensures TaskOk(window, s', s'.tasks[k]) {
      assert k < |s.tasks| ==> TaskOk(window, s, s.tasks[k]);
    }
  }

  lemma SystemTurnBeginsKeeps(window: nat, s: State)
    requires Inv(window, s) && s.busy.Free?
    ensures Inv(window, BeginSystemTurn(s))
  {
    var s' := BeginSystemTurn(s);
    assert forall k :: LockHolder(s, k) <==> LockHolder(s', k);
    SameTasksStayOk(window, s, s');
  }

  lemma TurnSavesKeeps(window: nat, s: State, msgs: seq<Msg>)
    requires Inv(window, s) && s.busy.Turn?
    ensures Inv(window, SaveTurn(s, s.busy.obj, msgs))
  {
    var s' := SaveTurn(s, s.busy.obj, msgs);
    assert forall k :: LockHolder(s, k) <==> LockHolder(s', k);
    forall k | 0 <= k < |s'.tasks| ensures TaskOk(window, s', s'.tasks[k]) {
      assert TaskOk(window, s, s.tasks[k]);
    }
  }

  lemma TaskGrabsLockKeeps(window: nat, s: State, k: nat)
    requires Inv(window, s) && k < |s.tasks| && s.tasks[k].Waiting? && !s.locked
    ensures Inv(window, GrabLock(window, s, k))
  {
    var s' := GrabLock(window, s, k);
    assert TaskOk(window, s, s.tasks[k]);
    assert Exclusive(s') by {
      assert forall j :: j != k ==> (LockHolder(s, j) <==> LockHolder(s', j));
      assert LockHolder(s', k) <==> s'.locked;
    }
    forall j | 0 <= j < |s'.tasks| ensures TaskOk(window, s', s'.tasks[j]) {
      assert TaskOk(window, s, s.tasks[j]);
    }
  }

  lemma TaskFinishesKeeps(window: nat, s: State, k: nat, reply: Reply, io: Io)
    requires Inv(window, s) && k < |s.tasks| && s.tasks[k].InBody?
    ensures Inv(window, Finish(window, s, k, reply, io))
  {
    var s' := Finish(window, s, k, reply, io);
    var t := s.tasks[k];
    assert TaskOk(window, s, t);
    var session := s.objs[t.obj];
    assert LockHolder(s, k);
    assert s.busy.NewArchiving? ==> LockHolder(s, -1);
    assert forall j :: !LockHolder(s', j) by {
      forall j ensures !LockHolder(s', j) {
        if LockHolder(s', j) { assert LockHolder(s, j); }
      }
    }
    var account := session.account + [Span(t.lo, t.hi, t.slice, t.appended)];
    assert account[..|account| - 1] == session.account;
    assert SessionOk(session.(offset := |session.messages| - window / 2, account := account));
    forall j | 0 <= j < |s'.tasks| ensures TaskOk(window, s', s'.tasks[j]) {
      assert TaskOk(window, s, s.tasks[j]);
      assert j != k ==> !LockHolder(s, j);
    }
  }

  lemma SameTasksStayOk(window: nat, s: State, s': State)
    requires forall k :: 0 <= k < |s.tasks| ==> TaskOk(window, s, s.tasks[k])
    requires s'.tasks == s.tasks && s.objs <= s'.objs
    ensures forall k :: 0 <= k < |s'.tasks| ==> TaskOk(window, s', s'.tasks[k])
  {
    forall k | 0 <= k < |s'.tasks| ensures TaskOk(window, s', s'.tasks[k]) {
      assert TaskOk(window, s, s.tasks[k]);
    }
  }

  lemma NewBeginsKeeps(window: nat, s: State)
    requires Inv(window, s) && s.busy.Free?
    ensures Inv(window, Apply(window, s, NewBegins))
  {
    var s' := Apply(window, s, NewBegins);
    assert forall j :: LockHolder(s, j) <==> LockHolder(s', j);
    SameTasksStayOk(window, s, s');
  }

  /** Clearing happens under the lock, or with nobody holding it. */
  lemma ClearKeeps(window: nat, s: State, obj: nat)
    requires Inv(window, s) && s.cached == Some(obj) && obj < |s.objs|
    requires !s.locked && s.busy.Free?
    ensures Inv(window, ClearSession(s, obj))
  {
    var s' := ClearSession(s, obj);
    assert forall j :: LockHolder(s, j) <==> LockHolder(s', j);
    forall j | 0 <= j < |s'.tasks| ensures TaskOk(window, s', s'.tasks[j]) {
      assert TaskOk(window, s, s.tasks[j]) && !LockHolder(s, j);
    }
  }

  lemma NewGrabKeeps(window: nat, s: State)
    requires Inv(window, s) && s.busy.NewWaiting? && !s.locked
    ensures Inv(window, NewGrab(s, s.busy.obj))
  {
    var s' := NewGrab(s, s.busy.obj);
    var session := s.objs[s.busy.obj];
    assert forall j :: !LockHolder(s, j);
    if session.messages[session.offset..] == [] {
      var idle := s.(consolidating := false, busy := Free);
      assert forall j :: LockHolder(s, j) <==> LockHolder(idle, j);
      SameTasksStayOk(window, s, idle);
      ClearKeeps(window, idle, s.busy.obj);
    } else {
      assert LockHolder(s', -1);
      assert forall j :: j != -1 ==> (LockHolder(s, j) <==> LockHolder(s', j));
      SameTasksStayOk(window, s, s');
    }
  }

  lemma NewFinishKeeps(window: nat, s: State, reply: Reply, io: Io)
    requires Inv(window, s) && s.busy.NewArchiving?
    ensures Inv(window, NewFinish(s, s.busy.obj, s.busy.memory, reply, io))
  {
    var (files, ok) := Store(s.files, s.busy.memory, reply, io);
    var released := s.(files := files, locked := false, consolidating := false, busy := Free);
    assert LockHolder(s, -1);
    assert forall j :: !LockHolder(released, j) by {
      assert forall j :: j != -1 ==> (LockHolder(s, j) <==> LockHolder(released, j));
    }
    SameTasksStayOk(window, s, released);
    if ok { ClearKeeps(window, released, s.busy.obj); }
  }

  lemma NewAbortsKeeps(window: nat, s: State)
    requires Inv(window, s)
    ensures Inv(window, Apply(window, s, NewAborts))
  {
    var s' := Apply(window, s, NewAborts);
    assert s.busy.NewArchiving? ==> LockHolder(s, -1);
    assert forall j :: j != -1 ==> (LockHolder(s, j) <==> LockHolder(s', j));
    SameTasksStayOk(window, s, s');
  }

  lemma StepKeepsInv(window: nat, s: State, e: Event)
    requires Inv(window, s)
    ensures Inv(window, Apply(window, s, e))
  {
    match e
    case TurnBegins => if s.busy.Free? { TurnBeginsKeeps(window, s); }
    case SystemTurnBegins => if s.busy.Free? { SystemTurnBeginsKeeps(window, s); }
    case TurnSaves(msgs) => if s.busy.Turn? { TurnSavesKeeps(window, s, msgs); }
    case TurnEndsUnsaved =>
      var s' := Apply(window, s, e);
      assert forall k :: LockHolder(s, k) <==> LockHolder(s', k);
      SameTasksStayOk(window, s, s');
    case TaskGrabsLock(k) =>
      if k < |s.tasks| && s.tasks[k].Waiting? && !s.locked { TaskGrabsLockKeeps(window, s, k); }
    case TaskFinishes(k, reply, io) =>
      if k < |s.tasks| && s.tasks[k].InBody? { TaskFinishesKeeps(window, s, k, reply, io); }
    case Restarts =>
      assert forall k :: !LockHolder(Apply(window, s, e), k);
    case NewBegins => if s.busy.Free? { NewBeginsKeeps(window, s); }
    case NewGrabsLock => if s.busy.NewWaiting? && !s.locked { NewGrabKeeps(window, s); }
    case NewFinishes(reply, io) => if s.busy.NewArchiving? { NewFinishKeeps(window, s, reply, io); }
    case NewAborts => NewAbortsKeeps(window, s);
  }

  lemma {:induction false} RunKeepsInv(window: nat, s: State, events: seq<Event>)
    requires Inv(window, s)
    ensures Inv(window, Run(window, s, events))
    decreases events
  {
    if events != [] {
      StepKeepsInv(window, s, events[0]);
      RunKeepsInv(window, Apply(window, s, events[0]), events[1..]);
    }
  }

  // ---------------------------------------------------------------- what the invariant says

  /** Everything handed to the model by successful calls, in order. */
  function Archived(account: seq<Span>): seq<Msg> {
    if account == [] then []
    else Archived(account[..|account| - 1]) + account[|account| - 1].slice
  }

  function Skipped(account: seq<Span>): nat {
    if account == [] then 0
    else Skipped(account[..|account| - 1]) + account[|account| - 1].appended
  }

  ghost predicate Covers(span: Span, p: int) {
    span.lo <= p < span.hi + span.appended
  }

  /** Each position below the offset lies in exactly one archived slice or exactly one gap. */
  lemma {:induction false} PositionHasOneSpan(account: seq<Span>, n: int, p: int)
    requires Tiles(account, n)
    ensures 0 <= p < n <==> exists k :: 0 <= k < |account| && Covers(account[k], p)
    ensures forall j, k | 0 <= j < |account| && 0 <= k < |account| ::
              Covers(account[j], p) && Covers(account[k], p) ==> j == k
  {
    if account != [] {
      var m := |account| - 1;
      var front := account[..m];
      PositionHasOneSpan(front, account[m].lo, p);
      assert forall k :: 0 <= k < m ==> account[k] == front[k];
      if 0 <= p < account[m].lo {
        var k :| 0 <= k < m && Covers(front[k], p);
        assert Covers(account[k], p);
      } else if 0 <= p < n {
        assert Covers(account[m], p);
      }
    }
  }

  /** The length of what was archived is the offset less the gaps. */
  lemma {:induction false} ArchivedLength(messages: seq<Msg>, account: seq<Span>, n: int)
    requires Tiles(account, n) && n <= |messages|
    requires forall k :: 0 <= k < |account| ==> Faithful(messages, account[k])
    ensures |Archived(account)| == n - Skipped(account)
    ensures Skipped(account) == 0 ==> n >= 0 && Archived(account) == messages[..n]
  {
    if account != [] {
      var m := |account| - 1;
      assert Faithful(messages, account[m]);
      ArchivedLength(messages, account[..m], account[m].lo);
      if Skipped(account) == 0 {
        assert messages[..account[m].lo] + messages[account[m].lo..n] == messages[..n];
      }
    }
  }

  /** In every reachable state, including runs with restarts: the offset is in range, every
      archived slice is the messages at its positions, the account tiles [0, offset), and what was archived is exactly messages[..offset] if and
      only if no turn saved a message during any of the successful calls. */
  lemma AccountOfEveryRun(window: nat, events: seq<Event>, i: nat)
    requires i < |Run(window, INITIAL, events).objs|
    ensures var session := Run(window, INITIAL, events).objs[i];
      && 0 <= session.offset <= |session.messages|
      && (forall k :: 0 <= k < |session.account| ==> Faithful(session.messages, session.account[k]))
      && Tiles(session.account, session.offset)
      && |Archived(session.account)| + Skipped(session.account) == session.offset
      && (Skipped(session.account) == 0 <==>
          Archived(session.account) == session.messages[..session.offset])
  {
    RunKeepsInv(window, INITIAL, events);
    var session := Run(window, INITIAL, events).objs[i];
    ArchivedLength(session.messages, session.account, session.offset);
  }

  /** At most one consolidation body runs, and never beside the archiving of a `/new`. */
  lemma OneBodyAtATime(window: nat, events: seq<Event>, j: nat, k: nat)
    requires var s := Run(window, INITIAL, events);
      j < |s.tasks| && k < |s.tasks| && s.tasks[j].InBody? && s.tasks[k].InBody?
    ensures j == k && !Run(window, INITIAL, events).busy.NewArchiving?
  {
    RunKeepsInv(window, INITIAL, events);
    var s := Run(window, INITIAL, events);
    assert LockHolder(s, j) && LockHolder(s, k);
    assert s.busy.NewArchiving? ==> LockHolder(s, -1);
  }

  /** A success of a background task moves the offset strictly forward, leaves exactly
      window / 2 messages unconsolidated, and touches no message; a failure moves nothing. */
  lemma FinishMovesOffset(window: nat, events: seq<Event>, k: nat, reply: Reply, io: Io)
    requires var s := Run(window, INITIAL, events); k < |s.tasks| && s.tasks[k].InBody?
    ensures var s := Run(window, INITIAL, events);
      var s' := Run(window, INITIAL, events + [TaskFinishes(k, reply, io)]);
      var obj := s.tasks[k].obj;
      && obj < |s.objs| == |s'.objs|
      && s'.objs[obj].messages == s.objs[obj].messages
      && s'.disk == s.disk
      && if Store(s.files, s.tasks[k].memory, reply, io).1 then
           && s'.objs[obj].offset > s.objs[obj].offset
           && |s'.objs[obj].messages| - s'.objs[obj].offset == window / 2
         else s'.objs == s.objs
  {
    RunKeepsInv(window, INITIAL, events);
    RunSnoc(window, INITIAL, events, TaskFinishes(k, reply, io));
    var s := Run(window, INITIAL, events);
    assert TaskOk(window, s, s.tasks[k]);
  }

  lemma {:induction false} RunSnoc(window: nat, s: State, events: seq<Event>, e: Event)
    ensures Run(window, s, events + [e]) == Apply(window, Run(window, s, events), e)
    decreases events
  {
    if events == [] {
      assert Run(window, Apply(window, s, e), []) == Apply(window, s, e);
    } else {
      assert (events + [e])[1..] == events[1..] + [e];
      RunSnoc(window, Apply(window, s, events[0]), events[1..], e);
    }
  }

  /** When `/new` finishes, whatever ran or queued meanwhile: on success exactly the
      messages from the offset on were handed over and the session is empty in memory and on
      disk; on failure neither messages nor offset changed. */
  lemma NewArchivesTheRestOrNothing(window: nat, events: seq<Event>, reply: Reply, io: Io)
    requires Run(window, INITIAL, events).busy.NewArchiving?
    ensures var s := Run(window, INITIAL, events);
      var s' := Run(window, INITIAL, events + [NewFinishes(reply, io)]);
      var obj := s.busy.obj;
      && obj < |s.objs| == |s'.objs|
      && 0 <= s.objs[obj].offset <= |s.objs[obj].messages|
      && s.busy.snapshot == s.objs[obj].messages[s.objs[obj].offset..]
      && if Store(s.files, s.busy.memory, reply, io).1 then
           && s'.objs == s.objs[obj := FRESH]
           && s'.disk == FRESH
         else s'.objs == s.objs && s'.disk == s.disk
  {
    RunKeepsInv(window, INITIAL, events);
    RunSnoc(window, INITIAL, events, NewFinishes(reply, io));
  }

  /** Outside a clear and a restart, a session only grows: messages are appended, the offset
      never goes back, and no account entry is revised. */
  lemma SessionsOnlyGrow(window: nat, s: State, e: Event, i: nat)
    requires Inv(window, s) && !e.Restarts? && i < |s.objs|
    ensures |s.objs| <= |Apply(window, s, e).objs|
    ensures GrewOrCleared(s, e, Apply(window, s, e), i)
  {
    if !e.TaskFinishes? {
      OthersOnlyGrow(window, s, e, i);
    } else if e.task < |s.tasks| && s.tasks[e.task].InBody? {
      FinishOnlyGrows(window, s, e.task, e.reply, e.io, i);
    }
  }

  ghost predicate GrewOrCleared(s: State, e: Event, s': State, i: nat)
    requires i < |s.objs| <= |s'.objs|
  {
    || (s'.objs[i] == FRESH && s'.cached == None && (e.NewGrabsLock? || e.NewFinishes?))
    || (&& s.objs[i].messages <= s'.objs[i].messages
        && s.objs[i].offset <= s'.objs[i].offset
        && s.objs[i].account <= s'.objs[i].account)
  }

  lemma OthersOnlyGrow(window: nat, s: State, e: Event, i: nat)
    requires !e.Restarts? && !e.TaskFinishes? && i < |s.objs|
    ensures |s.objs| <= |Apply(window, s, e).objs|
    ensures GrewOrCleared(s, e, Apply(window, s, e), i)
  {
    match e
    case TurnSaves(msgs) => if s.busy.Turn? { SaveOnlyGrows(s, s.busy.obj, msgs, i); }
    case NewGrabsLock =>
    case NewFinishes(reply, io) =>
    case _ => OthersKeepSessions(window, s, e);
  }

  lemma OthersKeepSessions(window: nat, s: State, e: Event)
    requires !e.Restarts? && !e.TaskFinishes? && !e.TurnSaves? && !e.NewGrabsLock? && !e.NewFinishes?
    ensures s.objs <= Apply(window, s, e).objs
  {
  }

  lemma SaveOnlyGrows(s: State, obj: nat, msgs: seq<Msg>, i: nat)
    requires i < |s.objs|
    ensures var s' := SaveTurn(s, obj, msgs);
      && |s.objs| == |s'.objs| && s.objs[i].messages <= s'.objs[i].messages
      && s.objs[i].offset == s'.objs[i].offset && s.objs[i].account == s'.objs[i].account
  {
  }

  lemma FinishOnlyGrows(window: nat, s: State, k: nat, reply: Reply, io: Io, i: nat)
    requires Inv(window, s) && k < |s.tasks| && s.tasks[k].InBody? && i < |s.objs|
    ensures var s' := Finish(window, s, k, reply, io);
      && |s.objs| == |s'.objs|
      && s.objs[i].messages == s'.objs[i].messages
      && s.objs[i].offset <= s'.objs[i].offset
      && s.objs[i].account <= s'.objs[i].account
  {
    assert TaskOk(window, s, s.tasks[k]);
  }

  /** The promise that every message below the offset has been archived is false: a run in
      which the two newest messages of the prefix were never handed to the model. */
  lemma GapWitness(a: Msg, b: Msg, c: Msg, d: Msg, x: Msg, reply: Reply)
    requires reply.Arguments?
    ensures var events := [TurnBegins, TurnSaves([a, b, c]), TurnBegins, TaskGrabsLock(0),
                           TurnSaves([d, x]), TaskFinishes(0, reply, IoOk)];
      var s := Run(2, INITIAL, events);
      && |s.objs| == 1
      && s.objs[0] == Session([a, b, c, d, x], 4, [Span(0, 2, [a, b], 2)])
  {
    GapStarts(a, b, c);
    GapEnds(a, b, c, d, x, reply);
    SixSteps(2, INITIAL, [TurnBegins, TurnSaves([a, b, c]), TurnBegins, TaskGrabsLock(0),
                          TurnSaves([d, x]), TaskFinishes(0, reply, IoOk)]);
  }

  function BeforeGap(a: Msg, b: Msg, c: Msg): State {
    State([Session([a, b, c], 0, [])], Some(0), Session([a, b, c], 0, []), Files([], ""), true, false, [Waiting(0)], Turn(0))
  }

  lemma GapOpens(a: Msg, b: Msg, c: Msg, d: Msg, x: Msg)
    ensures var s := Apply(2, Apply(2, BeforeGap(a, b, c), TaskGrabsLock(0)), TurnSaves([d, x]));
      s.tasks == [InBody(0, 0, 2, [a, b], "", 2)] && s.objs == [Session([a, b, c, d, x], 0, [])]
  {
    var s4 := Apply(2, BeforeGap(a, b, c), TaskGrabsLock(0));
    assert [a, b, c][0..2] == [a, b];
    assert s4.tasks == [InBody(0, 0, 2, [a, b], "", 0)];
    assert [a, b, c] + [d, x] == [a, b, c, d, x];
  }

  lemma GapEnds(a: Msg, b: Msg, c: Msg, d: Msg, x: Msg, reply: Reply)
    requires reply.Arguments?
    ensures var s5 := Apply(2, Apply(2, BeforeGap(a, b, c), TaskGrabsLock(0)), TurnSaves([d, x]));
      Apply(2, s5, TaskFinishes(0, reply, IoOk)).objs == [Session([a, b, c, d, x], 4, [Span(0, 2, [a, b], 2)])]
  {
    GapOpens(a, b, c, d, x);
    assert [] + [Span(0, 2, [a, b], 2)] == [Span(0, 2, [a, b], 2)];
  }

  lemma GapStarts(a: Msg, b: Msg, c: Msg)
    ensures Apply(2, Apply(2, Apply(2, INITIAL, TurnBegins), TurnSaves([a, b, c])), TurnBegins)
         == BeforeGap(a, b, c)
  {
    var s2 := Apply(2, Apply(2, INITIAL, TurnBegins), TurnSaves([a, b, c]));
    assert [] + [a, b, c] == [a, b, c];
    assert s2.objs == [Session([a, b, c], 0, [])];
    assert Apply(2, s2, TurnBegins).tasks == [Waiting(0)];
  }

  lemma SixSteps(window: nat, s: State, e: seq<Event>)
    requires |e| == 6
    ensures Run(window, s, e) ==
      Apply(window, Apply(window, Apply(window, Apply(window, Apply(window, Apply(window, s,
        e[0]), e[1]), e[2]), e[3]), e[4]), e[5])
  {
    RunSnoc(window, s, e[..5], e[5]);
    RunSnoc(window, s, e[..4], e[4]);
    RunSnoc(window, s, e[..3], e[3]);
    RunSnoc(window, s, e[..2], e[2]);
    RunSnoc(window, s, e[..1], e[1]);
    RunSnoc(window, s, [], e[0]);
    assert [] + [e[0]] == e[..1] && e[..1] + [e[1]] == e[..2] && e[..2] + [e[2]] == e[..3];
    assert e[..3] + [e[3]] == e[..4] && e[..4] + [e[4]] == e[..5] && e[..5] + [e[5]] == e;
  }
}
