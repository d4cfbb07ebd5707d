/** What each step of the consolidation protocol does to the session, the guard, the lock and the files:
    the exact conditions under which it queues, archives, clears or leaves things alone. */
module ConsolidationSteps {
  import opened Prelude
  import opened Consolidation

  /** The session object that a step works on: the cached one, or a new one read from the file. */
  ghost predicate Fetched(s: State, s': State, i: nat) {
    if s.cached.Some? then i == s.cached.value && s'.objs == s.objs && s'.cached == s.cached
    else i == |s.objs| && s'.objs == s.objs + [s.disk] && s'.cached == Some(i)
  }

  /** A turn queues a background task if and only if the unconsolidated messages reach the window and
      the guard is clear; it then sets the guard. */
  lemma TurnQueuesIff(window: nat, s: State)
    requires s.busy.Free? && (s.cached.Some? ==> s.cached.value < |s.objs|)
    ensures var s' := Apply(window, s, TurnBegins);
      exists i: nat :: i < |s'.objs| && Fetched(s, s', i) && s'.busy == Turn(i)
        && s'.disk == s.disk && s'.files == s.files && s'.locked == s.locked
        && if |s'.objs[i].messages| - s'.objs[i].offset >= window && !s.consolidating
           then s'.tasks == s.tasks + [Waiting(i)] && s'.consolidating
           else s'.tasks == s.tasks && s'.consolidating == s.consolidating
  {
    var i := if s.cached.Some? then s.cached.value else |s.objs|;
    assert Fetched(s, Apply(window, s, TurnBegins), i);
  }

  /** A system message starts a turn and never a task. */
  lemma SystemTurnQueuesNothing(window: nat, s: State)
    requires s.busy.Free? && (s.cached.Some? ==> s.cached.value < |s.objs|)
    ensures var s' := Apply(window, s, SystemTurnBegins);
      exists i: nat :: i < |s'.objs| && Fetched(s, s', i) && s' == s.(objs := s'.objs, cached := s'.cached, busy := Turn(i))
  {
    var i := if s.cached.Some? then s.cached.value else |s.objs|;
    assert Fetched(s, Apply(window, s, SystemTurnBegins), i);
  }

  /** A turn that ends appends its messages, on disk too, or leaves everything as it is. */
  lemma TurnEnds(window: nat, s: State, msgs: seq<Msg>)
    requires s.busy.Turn? && s.busy.obj < |s.objs|
    ensures var s', obj := Apply(window, s, TurnSaves(msgs)), s.busy.obj;
      && s'.objs == s.objs[obj := s.objs[obj].(messages := s.objs[obj].messages + msgs)] && s'.disk == s'.objs[obj]
      && s'.cached == Some(obj) && s'.busy.Free? && s'.files == s.files
      && s'.consolidating == s.consolidating && s'.locked == s.locked && |s'.tasks| == |s.tasks|
    ensures Apply(window, s, TurnEndsUnsaved) == s.(busy := Free)
  {
  }

  /** A task that gets the lock has nothing to do if no more than half the window is left, or nothing
      was said since the last time; it then ends and clears the guard. Otherwise it captures the
      messages between the offset and the last half window, the memory as it stands, and the lock. */
  lemma TaskStarts(window: nat, s: State, k: nat)
    requires k < |s.tasks| && s.tasks[k].Waiting? && !s.locked && s.tasks[k].obj < |s.objs|
    requires 0 <= s.objs[s.tasks[k].obj].offset <= |s.objs[s.tasks[k].obj].messages|
    ensures var s', obj := Apply(window, s, TaskGrabsLock(k)), s.tasks[k].obj;
      var session, until := s.objs[obj], |s.objs[obj].messages| - window / 2;
      if until <= session.offset || window / 2 == 0 then
        s' == s.(tasks := s.tasks[k := Over], consolidating := false)
      else
        s' == s.(locked := true,
                 tasks := s.tasks[k := InBody(obj, session.offset, until, session.messages[session.offset..until], s.files.memory, 0)])
  {
  }

  /** A task that ends gives up the lock and the guard; a success moves the offset up to the last half
      window of what is there by then, a failure moves nothing. */
  lemma TaskEnds(window: nat, s: State, k: nat, reply: Reply, io: Io)
    requires k < |s.tasks| && s.tasks[k].InBody? && s.tasks[k].obj < |s.objs|
    ensures var s', obj := Apply(window, s, TaskFinishes(k, reply, io)), s.tasks[k].obj;
      var (files, ok) := Store(s.files, s.tasks[k].memory, reply, io);
      && s'.files == files && s'.tasks == s.tasks[k := Over] && !s'.locked && !s'.consolidating
      && s'.disk == s.disk && s'.cached == s.cached && s'.busy == s.busy && |s'.objs| == |s.objs|
      && (forall i :: 0 <= i < |s.objs| && i != obj ==> s'.objs[i] == s.objs[i])
      && s'.objs[obj].messages == s.objs[obj].messages
      && s'.objs[obj].offset == if ok then |s.objs[obj].messages| - window / 2 else s.objs[obj].offset
  {
  }

  /** `/new` sets the guard and waits for the lock. */
  lemma NewWaits(window: nat, s: State)
    requires s.busy.Free? && (s.cached.Some? ==> s.cached.value < |s.objs|)
    ensures var s' := Apply(window, s, NewBegins);
      exists i: nat :: i < |s'.objs| && Fetched(s, s', i) && s'.consolidating
        && s'.busy == NewWaiting(i, s.locked || exists k :: 0 <= k < |s.tasks| && s.tasks[k].Waiting?)
        && s' == s.(objs := s'.objs, cached := s'.cached, busy := s'.busy, consolidating := true)
  {
    var i := if s.cached.Some? then s.cached.value else |s.objs|;
    assert Fetched(s, Apply(window, s, NewBegins), i);
  }

  /** A cleared session is empty in memory and on disk, and no longer cached. */
  ghost predicate Cleared(s: State, s': State, obj: nat) {
    && obj < |s.objs| && s'.objs == s.objs[obj := Session([], 0, [])] && s'.disk == Session([], 0, []) && s'.cached.None?
    && s'.busy.Free? && !s'.consolidating && s'.tasks == s.tasks
  }

  /** Under the lock `/new` clears at once if nothing is unconsolidated, and otherwise hands on a copy of
      what is. */
  lemma NewStarts(window: nat, s: State)
    requires s.busy.NewWaiting? && !s.locked && s.busy.obj < |s.objs|
    requires 0 <= s.objs[s.busy.obj].offset <= |s.objs[s.busy.obj].messages|
    ensures var s', obj := Apply(window, s, NewGrabsLock), s.busy.obj;
      var rest := s.objs[obj].messages[s.objs[obj].offset..];
      if rest == [] then Cleared(s, s', obj) && !s'.locked && s'.files == s.files
      else s' == s.(locked := true, busy := NewArchiving(obj, rest, s.files.memory))
  {
  }

  /** It clears when the archiving was a success, and in either case gives up the lock and the guard. */
  lemma NewEnds(window: nat, s: State, reply: Reply, io: Io)
    requires s.busy.NewArchiving? && s.busy.obj < |s.objs|
    ensures var s', obj := Apply(window, s, NewFinishes(reply, io)), s.busy.obj;
      var (files, ok) := Store(s.files, s.busy.memory, reply, io);
      && s'.files == files && !s'.locked
      && if ok then Cleared(s, s', obj)
         else s' == s.(files := files, locked := false, consolidating := false, busy := Free)
  {
  }

  /** Cancelled in the queue it gives up the guard alone, cancelled while archiving the lock as well; a
      restart keeps the files and nothing else. */
  lemma NewStops(window: nat, s: State)
    ensures var s' := Apply(window, s, NewAborts);
      && (s.busy.NewWaiting? && s.busy.suspended ==> s' == s.(consolidating := false, busy := Free))
      && (s.busy.NewWaiting? && !s.busy.suspended ==> s' == s)
      && (s.busy.NewArchiving? ==> s' == s.(consolidating := false, busy := Free, locked := false))
    ensures var s' := Apply(window, s, Restarts);
      && s'.objs == [] && s'.cached.None? && s'.disk == s.disk && s'.files == s.files
      && !s'.consolidating && !s'.locked && s'.tasks == [] && s'.busy.Free?
  {
  }

  /** A reply with arguments appends its entry and replaces the memory, each unless it is empty or (for
      the memory) unchanged; a failing append stops before the memory, and only arguments whose writes
      all work are a success. */
  lemma StoreWrites(files: Files, currentMemory: string, reply: Reply, io: Io)
    ensures var (after, ok) := Store(files, currentMemory, reply, io);
      if !reply.Arguments? then after == files && !ok
      else
        var appends, rewrites := |reply.entry| > 0, |reply.update| > 0 && reply.update != currentMemory;
        var appendFails := appends && io.AppendFails?;
        && after.history == (if appends && !appendFails then files.history + [reply.entry] else files.history)
        && after.memory == (if rewrites && !appendFails && !io.WriteFails? then reply.update else files.memory)
        && (ok <==> !appendFails && !(rewrites && io.WriteFails?))
  {
  }
}
