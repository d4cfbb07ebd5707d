/** Two properties of whole runs of the consolidation protocol: how many background tasks the
    guard set lets pile up, and what a restart of the process loses. */
module ConsolidationRuns {
  import opened Prelude
  import opened Consolidation

  // ---------------------------------------------------------------- the guard set

  /** The background tasks that have not ended. */
  function Live(tasks: seq<Task>): nat {
    if tasks == [] then 0
    else Live(tasks[..|tasks| - 1]) + if tasks[|tasks| - 1].Over? then 0 else 1
  }

  function CountNew(events: seq<Event>): nat {
    if events == [] then 0
    else CountNew(events[..|events| - 1]) + if events[|events| - 1].NewBegins? then 1 else 0
  }

  lemma {:induction false} LiveUpdate(tasks: seq<Task>, k: nat, t: Task)
    requires k < |tasks|
    ensures Live(tasks[k := t]) + (if tasks[k].Over? then 0 else 1)
         == Live(tasks) + if t.Over? then 0 else 1
  {
    var n := |tasks| - 1;
    if k == n {
      assert tasks[k := t][..n] == tasks[..n];
    } else {
      assert tasks[k := t][..n] == tasks[..n][k := t];
      LiveUpdate(tasks[..n], k, t);
    }
  }

  lemma {:induction false} LiveCountAppended(tasks: seq<Task>, obj: nat, n: nat)
    ensures Live(CountAppended(tasks, obj, n)) == Live(tasks)
  {
    if tasks != [] {
      var m := |tasks| - 1;
      assert CountAppended(tasks, obj, n)[..m] == CountAppended(tasks[..m], obj, n);
      LiveCountAppended(tasks[..m], obj, n);
    }
  }

  predicate InNew(s: State) {
    s.busy.NewWaiting? || s.busy.NewArchiving?
  }

  /** After `news` uses of `/new`: outside of one, a set guard allows for one task more. */
  ghost predicate Guarded(s: State, news: nat) {
    Live(s.tasks) <= news + if s.consolidating && !InNew(s) then 1 else 0
  }

  lemma TaskStepKeepsGuarded(window: nat, s: State, e: Event, news: nat)
    requires Guarded(s, news) && (e.TaskGrabsLock? || e.TaskFinishes?)
    ensures Guarded(Apply(window, s, e), news)
  {
    if e.task < |s.tasks| {
      LiveUpdate(s.tasks, e.task, Apply(window, s, e).tasks[e.task]);
      assert s.tasks == s.tasks[e.task := s.tasks[e.task]];
    }
  }

  lemma TurnBeginsKeepsGuarded(window: nat, s: State, news: nat)
    requires Guarded(s, news) && s.busy.Free?
    ensures Guarded(BeginTurn(window, s), news)
  {
    var s' := BeginTurn(window, s);
    if s'.tasks != s.tasks {
      assert s'.tasks[..|s.tasks|] == s.tasks && !s.consolidating;
      assert Live(s'.tasks) == Live(s.tasks) + 1;
    }
  }

  lemma NewStepKeepsGuarded(window: nat, s: State, e: Event, news: nat)
    requires Guarded(s, news) && (e.NewBegins? || e.NewGrabsLock? || e.NewFinishes? || e.NewAborts?)
    ensures Guarded(Apply(window, s, e), news + if e.NewBegins? then 1 else 0)
  {
    assert Apply(window, s, e).tasks == s.tasks;
  }

  lemma StepKeepsGuarded(window: nat, s: State, e: Event, news: nat)
    requires Guarded(s, news)
    ensures Guarded(Apply(window, s, e), news + if e.NewBegins? then 1 else 0)
  {
    match e
    case TaskGrabsLock(_) => TaskStepKeepsGuarded(window, s, e, news);
    case TaskFinishes(_, _, _) => TaskStepKeepsGuarded(window, s, e, news);
    case TurnBegins => if s.busy.Free? { TurnBeginsKeepsGuarded(window, s, news); }
    case TurnSaves(msgs) =>
      if s.busy.Turn? { LiveCountAppended(s.tasks, s.busy.obj, |msgs|); }
    case SystemTurnBegins =>
    case TurnEndsUnsaved =>
    case Restarts =>
    case _ => NewStepKeepsGuarded(window, s, e, news);
  }

  lemma {:induction false} RunIsGuarded(window: nat, events: seq<Event>)
    ensures Guarded(Run(window, INITIAL, events), CountNew(events))
  {
    if events != [] {
      var n := |events| - 1;
      RunIsGuarded(window, events[..n]);
      RunSnoc(window, INITIAL, events[..n], events[n]);
      assert events[..n] + [events[n]] == events;
      StepKeepsGuarded(window, Run(window, INITIAL, events[..n]), events[n], CountNew(events[..n]));
    }
  }

  /** The guard set keeps duplicate tasks out: each `/new`, which clears the guard behind the
      back of a queued task, can add at most one to the single task allowed otherwise. */
  lemma TasksArePiledUpByNewOnly(window: nat, events: seq<Event>)
    ensures Live(Run(window, INITIAL, events).tasks) <= 1 + CountNew(events)
    ensures var s := Run(window, INITIAL, events);
      CountNew(events) == 0 && !s.consolidating && !InNew(s) ==> Live(s.tasks) == 0
  {
    RunIsGuarded(window, events);
  }

  function AfterTurn(a: Msg, b: Msg): State {
    var session := Session([a, b], 0, []);
    State([session], Some(0), session, Files([], ""), false, false, [], Free)
  }

  /** A task awaits the model, `more` tasks queue for its lock, and the guard is set. */
  function Piled(a: Msg, b: Msg, more: nat): State {
    AfterTurn(a, b).(tasks := [InBody(0, 0, 1, [a], "", 0)] + seq(more, _ => Waiting(0)), locked := true, consolidating := true)
  }

  const OPENING := [TurnBegins, TaskGrabsLock(0), TurnEndsUnsaved]

  /** A `/new` that is cancelled in the queue for the lock, and a turn. */
  const CANCELLED := [NewBegins, NewAborts, TurnBegins, TurnEndsUnsaved]

  lemma {:induction false} RunJoins(window: nat, s: State, events: seq<Event>, more: seq<Event>)
    ensures Run(window, s, events + more) == Run(window, Run(window, s, events), more)
    decreases events
  {
    if events == [] {
      assert events + more == more;
    } else {
      assert (events + more)[1..] == events[1..] + more;
      RunJoins(window, Apply(window, s, events[0]), events[1..], more);
    }
  }

  lemma {:induction false} CountNewJoins(events: seq<Event>, more: seq<Event>)
    ensures CountNew(events + more) == CountNew(events) + CountNew(more)
  {
    if more == [] {
      assert events + more == events;
    } else {
      assert (events + more)[..|events + more| - 1] == events + more[..|more| - 1];
      CountNewJoins(events, more[..|more| - 1]);
    }
  }

  lemma OneStep(window: nat, s: State, e: seq<Event>, k: nat)
    requires k < |e|
    ensures Run(window, s, e[..k + 1]) == Apply(window, Run(window, s, e[..k]), e[k])
    ensures CountNew(e[..k + 1]) == CountNew(e[..k]) + if e[k].NewBegins? then 1 else 0
  {
    assert e[..k + 1] == e[..k] + [e[k]] && e[..k + 1][..k] == e[..k];
    RunSnoc(window, s, e[..k], e[k]);
  }

  lemma FourSteps(window: nat, s: State, e: seq<Event>)
    requires |e| == 4
    ensures Run(window, s, e) == Apply(window, Apply(window, Apply(window, Apply(window, s, e[0]), e[1]), e[2]), e[3])
    ensures CountNew(e) == (if e[0].NewBegins? then 1 else 0) + (if e[1].NewBegins? then 1 else 0)
                         + (if e[2].NewBegins? then 1 else 0) + (if e[3].NewBegins? then 1 else 0)
  {
    OneStep(window, s, e, 0);
    OneStep(window, s, e, 1);
    OneStep(window, s, e, 2);
    OneStep(window, s, e, 3);
    assert e[..4] == e;
  }

  lemma OneIsPiled(a: Msg, b: Msg)
    ensures Run(2, INITIAL, [TurnBegins, TurnSaves([a, b])] + OPENING) == Piled(a, b, 0)
    ensures CountNew([TurnBegins, TurnSaves([a, b])] + OPENING) == 0
  {
    var e := [TurnBegins, TurnSaves([a, b]), TurnBegins, TaskGrabsLock(0)];
    FourSteps(2, INITIAL, e);
    TaskIsBusy(a, b);
    RunSnoc(2, INITIAL, e, TurnEndsUnsaved);
    assert e + [TurnEndsUnsaved] == [TurnBegins, TurnSaves([a, b])] + OPENING;
    assert (e + [TurnEndsUnsaved])[..4] == e;
  }

  lemma TaskIsBusy(a: Msg, b: Msg)
    ensures Apply(2, Apply(2, INITIAL, TurnBegins), TurnSaves([a, b])) == AfterTurn(a, b)
    ensures Apply(2, Apply(2, AfterTurn(a, b), TurnBegins), TaskGrabsLock(0)) == Piled(a, b, 0).(busy := Turn(0))
  {
    assert [] + [a, b] == [a, b];
    assert Apply(2, AfterTurn(a, b), TurnBegins).tasks == [Waiting(0)];
    assert [a, b][0..1] == [a];
  }

  lemma OneMoreIsPiled(a: Msg, b: Msg, more: nat)
    ensures Run(2, Piled(a, b, more), CANCELLED) == Piled(a, b, more + 1)
  {
    var s := Piled(a, b, more);
    FourSteps(2, s, CANCELLED);
    assert Apply(2, Apply(2, s, NewBegins), NewAborts) == s.(consolidating := false);
    assert s.tasks + [Waiting(0)] == Piled(a, b, more + 1).tasks;
  }

  function PilingRun(a: Msg, b: Msg, news: nat): seq<Event> {
    if news == 0 then [TurnBegins, TurnSaves([a, b])] + OPENING else PilingRun(a, b, news - 1) + CANCELLED
  }

  /** The bound is reached for every number of uses of `/new`: while a task awaits the model, each
      cancelled `/new` clears the guard and the next turn queues one task more. */
  lemma {:induction false} EveryPileIsReached(a: Msg, b: Msg, news: nat)
    ensures Run(2, INITIAL, PilingRun(a, b, news)) == Piled(a, b, news)
    ensures CountNew(PilingRun(a, b, news)) == news
    ensures Live(Run(2, INITIAL, PilingRun(a, b, news)).tasks) == news + 1
  {
    LivePiled(a, b, news);
    if news == 0 {
      OneIsPiled(a, b);
    } else {
      EveryPileIsReached(a, b, news - 1);
      RunJoins(2, INITIAL, PilingRun(a, b, news - 1), CANCELLED);
      OneMoreIsPiled(a, b, news - 1);
      CountNewJoins(PilingRun(a, b, news - 1), CANCELLED);
      FourSteps(2, INITIAL, CANCELLED);
    }
  }

  lemma {:induction false} LivePiled(a: Msg, b: Msg, more: nat)
    ensures Live(Piled(a, b, more).tasks) == more + 1
  {
    var tasks := Piled(a, b, more).tasks;
    if more == 0 {
      assert tasks == [InBody(0, 0, 1, [a], "", 0)] && tasks[..0] == [];
    } else {
      assert tasks[..more] == Piled(a, b, more - 1).tasks;
      LivePiled(a, b, more - 1);
    }
  }

  // ---------------------------------------------------------------- the session file

  /** The file has the messages of the cached session, and an offset that may lag behind. */
  ghost predicate OnDisk(s: State) {
    s.cached.Some? ==>
      && s.cached.value < |s.objs|
      && var session := s.objs[s.cached.value];
      && s.disk.messages == session.messages
      && s.disk.offset <= session.offset
      && s.disk.account <= session.account
  }

  lemma StepKeepsOnDisk(window: nat, s: State, e: Event)
    requires Inv(window, s) && OnDisk(s)
    ensures OnDisk(Apply(window, s, e))
  {
    if e.TaskFinishes? {
      if e.task < |s.tasks| && s.tasks[e.task].InBody? { FinishKeepsOnDisk(window, s, e.task, e.reply, e.io); }
    } else if e.TurnSaves? {
      if s.busy.Turn? { SaveKeepsOnDisk(s, s.busy.obj, e.msgs); }
    }
  }

  lemma FinishKeepsOnDisk(window: nat, s: State, k: nat, reply: Reply, io: Io)
    requires Inv(window, s) && OnDisk(s) && k < |s.tasks| && s.tasks[k].InBody?
    ensures OnDisk(Finish(window, s, k, reply, io))
  {
    assert TaskOk(window, s, s.tasks[k]);
  }

  lemma SaveKeepsOnDisk(s: State, obj: nat, msgs: seq<Msg>)
    requires obj < |s.objs|
    ensures OnDisk(SaveTurn(s, obj, msgs))
  {
  }

  lemma {:induction false} RunIsOnDisk(window: nat, events: seq<Event>)
    ensures OnDisk(Run(window, INITIAL, events))
  {
    if events != [] {
      var n := |events| - 1;
      RunIsOnDisk(window, events[..n]);
      RunKeepsInv(window, INITIAL, events[..n]);
      RunSnoc(window, INITIAL, events[..n], events[n]);
      assert events[..n] + [events[n]] == events;
      StepKeepsOnDisk(window, Run(window, INITIAL, events[..n]), events[n]);
    }
  }

  /** A restart at any point loses no message of the live session. Its offset may go back to
      that of the last save, so that archived messages are archived again, never forward. */
  lemma RestartLosesNoMessage(window: nat, events: seq<Event>)
    requires Run(window, INITIAL, events).cached.Some?
    ensures var s := Run(window, INITIAL, events);
      var s' := Run(window, INITIAL, events + [Restarts] + [TurnBegins]);
      && s'.cached == Some(0) && |s'.objs| == 1
      && s.cached.value < |s.objs|
      && s'.objs[0].messages == s.objs[s.cached.value].messages
      && 0 <= s'.objs[0].offset <= s.objs[s.cached.value].offset
      && s'.objs[0].account <= s.objs[s.cached.value].account
  {
    RunIsOnDisk(window, events);
    RunKeepsInv(window, INITIAL, events);
    RunSnoc(window, INITIAL, events, Restarts);
    RunSnoc(window, INITIAL, events + [Restarts], TurnBegins);
  }
}
