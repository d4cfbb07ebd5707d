/** What the daemon and the executor do to the files over whole runs: nothing is lost as long as a
    call is sent only while it clashes with no unfinished call, and what happens otherwise. */
module ScoutContents {
  import opened Prelude
  import Executor
  import opened Mover
  import Safety = ExecutorSafety
  import opened Scout

  // ---------------------------------------------------------------- no content is lost

  /** The destination existence check tells the truth in every call of the run. */
  ghost predicate Truthful(events: seq<Event>) {
    forall k :: 0 <= k < |events| && events[k].Executes? ==> !events[k].turn.fault.Lies?
  }

  /** A call is sent only while it clashes with no unfinished call. */
  ghost predicate Careful(cfg: Config, s: State, e: Event) {
    && (e.Sends? && s.handling.Acting? ==> Safety.MaySend(s.exec.calls, RequestOf(cfg, s.handling.job)))
    && (e.RetrySends? && s.retrying.Redoing? ==> Safety.MaySend(s.exec.calls, RequestOf(cfg, s.retrying.job)))
  }

  ghost predicate CarefulRun(cfg: Config, s: State, events: seq<Event>) {
    events == [] ||
    var n := |events| - 1;
    CarefulRun(cfg, s, events[..n]) && Careful(cfg, Run(cfg, s, events[..n]), events[n])
  }

  /** An action was issued on the path. */
  ghost predicate ActedOn(log: seq<Entry>, p: Path) {
    exists rule :: Issued(p, rule) in log
  }

  lemma ActedOnGrows(log: seq<Entry>, more: seq<Entry>, p: Path)
    requires ActedOn(log, p) && log <= more
    ensures ActedOn(more, p)
  {
    var rule :| Issued(p, rule) in log;
    var k :| 0 <= k < |log| && log[k] == Issued(p, rule);
    assert more[k] == log[k];
  }

  /** Everything that acts or will act on the executor was logged first. */
  ghost predicate CallsAreLogged(s: State) {
    && (forall k :: 0 <= k < |s.exec.calls| ==> ActedOn(s.log, s.exec.calls[k].request.src))
    && (s.handling.Acting? ==> Issued(s.handling.job.path, s.handling.job.rule) in s.log)
    && (s.retrying.Redoing? ==> Issued(s.retrying.job.path, s.retrying.job.rule) in s.log)
  }

  lemma LogOnlyGrows(cfg: Config, s: State, e: Event)
    ensures s.log <= Apply(cfg, s, e).log
  {
  }

  lemma OtherStepsKeepRequests(cfg: Config, s: State, e: Event)
    requires !e.Sends? && !e.RetrySends?
    ensures var calls := Apply(cfg, s, e).exec.calls;
      |calls| == |s.exec.calls| && forall k :: 0 <= k < |calls| ==> calls[k].request == s.exec.calls[k].request
  {
  }

  lemma WorkIsLogged(cfg: Config, s: State, e: Event)
    requires CallsAreLogged(s)
    ensures var s' := Apply(cfg, s, e);
      && (s'.handling.Acting? ==> Issued(s'.handling.job.path, s'.handling.job.rule) in s'.log)
      && (s'.retrying.Redoing? ==> Issued(s'.retrying.job.path, s'.retrying.job.rule) in s'.log)
  {
  }

  lemma StepKeepsCallsLogged(cfg: Config, s: State, e: Event)
    requires CallsAreLogged(s)
    ensures CallsAreLogged(Apply(cfg, s, e))
  {
    var s' := Apply(cfg, s, e);
    LogOnlyGrows(cfg, s, e);
    WorkIsLogged(cfg, s, e);
    forall k | 0 <= k < |s'.exec.calls| ensures ActedOn(s'.log, s'.exec.calls[k].request.src) {
      if k < |s.exec.calls| {
        if !e.Sends? && !e.RetrySends? { OtherStepsKeepRequests(cfg, s, e); }
        ActedOnGrows(s.log, s'.log, s.exec.calls[k].request.src);
      } else if e.Sends? {
        assert Issued(s.handling.job.path, s.handling.job.rule) in s'.log;
      } else {
        assert Issued(s.retrying.job.path, s.retrying.job.rule) in s'.log;
      }
    }
  }

  lemma {:induction false} EveryCallIsLogged(cfg: Config, fs: Fs, events: seq<Event>)
    ensures CallsAreLogged(Run(cfg, Initial(fs), events))
  {
    if events != [] {
      EveryCallIsLogged(cfg, fs, events[..|events| - 1]);
      StepKeepsCallsLogged(cfg, Run(cfg, Initial(fs), events[..|events| - 1]), events[|events| - 1]);
    }
  }

  lemma SendingKeeps(x: Executor.Exec, r: Executor.Request)
    requires Safety.Inv(x) && Safety.MaySend(x.calls, r)
    ensures Safety.Inv(x.(calls := x.calls + [Executor.Call(r, Executor.Received)]))
    ensures forall p, content :: Safety.Kept(x, p, content) ==> Safety.Kept(x.(calls := x.calls + [Executor.Call(r, Executor.Received)]), p, content)
  {
  }

  /** One step keeps the executor's calls apart, and a kept file in place or, after its removal,
      its verified copy; a file on whose path nothing was issued stays in place. */
  lemma StepKeepsContent(cfg: Config, s: State, e: Event, p: Path, content: Bytes) returns (q: Path)
    requires Safety.Inv(s.exec) && Truthful([e]) && Careful(cfg, s, e) && CallsAreLogged(s)
    requires Safety.Kept(s.exec, p, content)
    ensures Safety.Inv(Apply(cfg, s, e).exec) && Safety.Kept(Apply(cfg, s, e).exec, q, content)
    ensures !ActedOn(s.log, p) ==> q == p
  {
    q := p;
    match e
    case Executes(turn) =>
      assert [e][0] == e;
      Safety.StepKeepsInv(s.exec, turn);
      Safety.StepKeepsFile(s.exec, turn, p, content);
      if !Safety.Kept(Executor.Step(s.exec, turn), p, content) { q := s.exec.calls[turn.call].request.dst; }
    case Sends => if s.handling.Acting? { SendingKeeps(s.exec, RequestOf(cfg, s.handling.job)); }
    case RetrySends => if s.retrying.Redoing? { SendingKeeps(s.exec, RequestOf(cfg, s.retrying.job)); }
    case _ =>
  }

  lemma {:induction false} FileIsKept(cfg: Config, fs: Fs, events: seq<Event>, p: Path) returns (q: Path)
    requires Truthful(events) && CarefulRun(cfg, Initial(fs), events) && p in fs.files
    ensures var s := Run(cfg, Initial(fs), events);
      && Safety.Inv(s.exec) && Safety.Kept(s.exec, q, fs.files[p])
      && (!ActedOn(s.log, p) ==> q == p)
  {
    if events == [] { return p; }
    var n := |events| - 1;
    var s, e := Run(cfg, Initial(fs), events[..n]), events[n];
    q := FileIsKept(cfg, fs, events[..n], p);
    EveryCallIsLogged(cfg, fs, events[..n]);
    LogOnlyGrows(cfg, s, e);
    q := StepKeepsContent(cfg, s, e, q, fs.files[p]);
  }

  /** Over every run of events, retries and interleaved executor calls, with lost replies whose
      calls go on, and any system call but the destination check failing: if calls are sent only
      while they clash with no unfinished one, each content present at the start is still
      at some path, and a file is changed only if an action was issued on its own path. */
  lemma NoContentIsLost(cfg: Config, fs: Fs, events: seq<Event>)
    requires Truthful(events) && CarefulRun(cfg, Initial(fs), events)
    ensures var s := Run(cfg, Initial(fs), events);
      && (forall content :: Safety.Holds(fs, content) ==> Safety.Holds(s.exec.fs, content))
      && (forall p :: p in fs.files && !ActedOn(s.log, p) ==>
            p in s.exec.fs.files && s.exec.fs.files[p] == fs.files[p])
  {
    var s := Run(cfg, Initial(fs), events);
    forall content | Safety.Holds(fs, content) ensures Safety.Holds(s.exec.fs, content) {
      var p :| p in fs.files && fs.files[p] == content;
      var q := FileIsKept(cfg, fs, events, p);
    }
    forall p | p in fs.files && !ActedOn(s.log, p)
      ensures p in s.exec.fs.files && s.exec.fs.files[p] == fs.files[p]
    {
      var q := FileIsKept(cfg, fs, events, p);
    }
  }

  // ---------------------------------------------------------------- a losing run

  function Turns(turns: seq<Executor.Turn>): (r: seq<Event>)
    ensures |r| == |turns| && forall k :: 0 <= k < |turns| ==> r[k] == Executes(turns[k])
  {
    seq(|turns|, k requires 0 <= k < |turns| => Executes(turns[k]))
  }

  /** While only the executor works, the daemon's part stays as it is. */
  lemma {:induction false} ExecutorRuns(cfg: Config, s: State, turns: seq<Executor.Turn>)
    ensures Run(cfg, s, Turns(turns)) == s.(exec := Executor.Run(s.exec, turns))
  {
    if turns != [] {
      var n := |turns| - 1;
      ExecutorRuns(cfg, s, turns[..n]);
      assert Turns(turns)[..n] == Turns(turns[..n]);
    }
  }

  lemma {:induction false} RunJoins(cfg: Config, s: State, a: seq<Event>, b: seq<Event>)
    ensures Run(cfg, s, a + b) == Run(cfg, Run(cfg, s, a), b)
  {
    if b == [] {
      assert a + b == a;
    } else {
      assert (a + b)[..|a + b| - 1] == a + b[..|b| - 1];
      RunJoins(cfg, s, a, b[..|b| - 1]);
    }
  }

  lemma RunUpTo(cfg: Config, s: State, events: seq<Event>, k: nat)
    requires k < |events|
    ensures Run(cfg, s, events[..k + 1]) == Apply(cfg, Run(cfg, s, events[..k]), events[k])
    ensures Possible(cfg, s, events[..k + 1]) <==>
            Possible(cfg, s, events[..k])
            && (Run(cfg, s, events[..k]).retrying.Between? ==> events[k].RetryNext? || events[k].Executes?)
  {
    assert events[..k + 1][..k] == events[..k];
  }

  lemma ThreeMore(cfg: Config, s: State, events: seq<Event>, k: nat)
    requires k + 3 <= |events| && Possible(cfg, s, events[..k])
    requires var s1 := Run(cfg, s, events[..k]);
      var s2 := Apply(cfg, s1, events[k]);
      && !s1.retrying.Between?
      && (s2.retrying.Between? ==> events[k + 1].RetryNext?)
      && !Apply(cfg, s2, events[k + 1]).retrying.Between?
    ensures Run(cfg, s, events[..k + 3]) ==
            Apply(cfg, Apply(cfg, Apply(cfg, Run(cfg, s, events[..k]), events[k]), events[k + 1]), events[k + 2])
    ensures Possible(cfg, s, events[..k + 3])
  {
    RunUpTo(cfg, s, events, k);
    RunUpTo(cfg, s, events, k + 1);
    RunUpTo(cfg, s, events, k + 2);
  }

  lemma {:induction false} PossibleJoins(cfg: Config, s: State, a: seq<Event>, b: seq<Event>)
    ensures Possible(cfg, s, a + b) <==> Possible(cfg, s, a) && Possible(cfg, Run(cfg, s, a), b)
  {
    if b == [] {
      assert a + b == a;
    } else {
      assert (a + b)[..|a + b| - 1] == a + b[..|b| - 1];
      PossibleJoins(cfg, s, a, b[..|b| - 1]);
      RunJoins(cfg, s, a, b[..|b| - 1]);
    }
  }

  lemma {:induction false} TurnsArePossible(cfg: Config, s: State, turns: seq<Executor.Turn>)
    ensures Possible(cfg, s, Turns(turns))
  {
    if turns != [] {
      assert Turns(turns)[..|turns| - 1] == Turns(turns[..|turns| - 1]);
      TurnsArePossible(cfg, s, turns[..|turns| - 1]);
    }
  }

  const A: Path := ["a"]
  const B: Path := ["b"]
  const C: Path := ["c"]
  const MOVE := Rule("tidy", false, "move")
  const CFG := Config(false, false)
  const TWO_FILES := Fs(map[A := [0], B := [1]], {[]})

  function JobOf(p: Path): Job {
    Job(p, C, MOVE)
  }

  /** a is queued for want of a connection and its retry has begun. */
  function RetryStarts(): seq<Event> {
    [Arrives(A, 1, Some((MOVE, C))), Returns(NotConnected), RetryBegins([A]), RetryNext, RetrySends]
  }

  /** b arrives for the same target while the call is under way. */
  function SecondArrives(): seq<Event> {
    [Arrives(B, 1, Some((MOVE, C))), Sends]
  }

  function QueuedA(attempts: nat, state: FileState): map<Path, Tracked> {
    map[A := Tracked(state, MOVE, C, "not connected", 1, attempts)]
  }

  function AfterRetryStarts(): State {
    State(QueuedA(1, Executing),
          Executor.Exec(TWO_FILES, [Executor.Call(RequestOf(CFG, JobOf(A)), Executor.Received)]),
          NoEvent, Redoing(JobOf(A), Some(0), []),
          [Arrived(A), Issued(A, MOVE), Issued(A, MOVE)])
  }

  lemma QueuedAfterNoConnection()
    ensures Run(CFG, Initial(TWO_FILES), RetryStarts()[..2]) ==
            State(QueuedA(0, Queued), Executor.Exec(TWO_FILES, []), NoEvent, Asleep, [Arrived(A), Issued(A, MOVE)])
    ensures Possible(CFG, Initial(TWO_FILES), RetryStarts()[..2])
  {
    RunUpTo(CFG, Initial(TWO_FILES), RetryStarts(), 0);
    RunUpTo(CFG, Initial(TWO_FILES), RetryStarts(), 1);
    assert [] + [Arrived(A)] + [Issued(A, MOVE)] == [Arrived(A), Issued(A, MOVE)];
  }

  function RoundBegun(): State {
    State(QueuedA(0, Queued), Executor.Exec(TWO_FILES, []), NoEvent, Between([Waiting(A, None)]),
          [Arrived(A), Issued(A, MOVE)])
  }

  lemma RoundBegins()
    ensures Run(CFG, Initial(TWO_FILES), RetryStarts()[..3]) == RoundBegun()
    ensures Possible(CFG, Initial(TWO_FILES), RetryStarts()[..3])
  {
    QueuedAfterNoConnection();
    RunUpTo(CFG, Initial(TWO_FILES), RetryStarts(), 2);
    assert Enumerates([A], QueuedA(0, Queued));
    assert Snapshot([A]) == [Waiting(A, None)];
  }

  lemma RetryGoesOut()
    ensures Apply(CFG, Apply(CFG, RoundBegun(), RetryNext), RetrySends) == AfterRetryStarts()
  {
    var s4 := Apply(CFG, RoundBegun(), RetryNext);
    assert RoundBegun().retrying.rest[1..] == [];
    assert s4.retrying == Redoing(JobOf(A), None, []) && s4.files == QueuedA(1, Executing);
    assert s4.log == [Arrived(A), Issued(A, MOVE), Issued(A, MOVE)];
    var call := Executor.Call(RequestOf(CFG, JobOf(A)), Executor.Received);
    assert s4.exec.calls + [call] == [call];
  }

  lemma RetryIsUnderWay()
    ensures Run(CFG, Initial(TWO_FILES), RetryStarts()) == AfterRetryStarts()
    ensures Possible(CFG, Initial(TWO_FILES), RetryStarts())
  {
    RoundBegins();
    RetryGoesOut();
    RunUpTo(CFG, Initial(TWO_FILES), RetryStarts(), 3);
    RunUpTo(CFG, Initial(TWO_FILES), RetryStarts(), 4);
    assert RetryStarts()[..5] == RetryStarts();
  }

  lemma BothAreUnderWay()
    ensures Run(CFG, AfterRetryStarts(), SecondArrives()).exec ==
            Safety.Start(TWO_FILES, RequestOf(CFG, JobOf(A)), RequestOf(CFG, JobOf(B)))
    ensures Possible(CFG, AfterRetryStarts(), SecondArrives())
  {
    RunUpTo(CFG, AfterRetryStarts(), SecondArrives(), 0);
    RunUpTo(CFG, AfterRetryStarts(), SecondArrives(), 1);
    assert SecondArrives()[..2] == SecondArrives();
  }

  /** Two calls with different sources and one destination, both checks before both writes. */
  function BadSchedule(): seq<Executor.Turn> {
    Safety.BothCheck() + Safety.Truncating(0, 1)
  }

  lemma RootOnly()
    ensures Parent(A) == [] && Parent(B) == [] && Parent(C) == [] && Prefixes([]) == {[]}
  {
    var root: Path := [];
    assert forall k :: 0 <= k <= 0 ==> root[..k] == root;
    assert root[..0] in Prefixes(root);
  }

  lemma BadScheduleLoses()
    ensures var x := Safety.Start(TWO_FILES, RequestOf(CFG, JobOf(A)), RequestOf(CFG, JobOf(B)));
      !Safety.Holds(Executor.Run(x, BadSchedule()).fs, [0])
  {
    var ra, rb := RequestOf(CFG, JobOf(A)), RequestOf(CFG, JobOf(B));
    RootOnly();
    assert Safety.BothChecked(TWO_FILES, ra, rb);
    Safety.BothCheckPass(TWO_FILES, ra, rb);
    Safety.SecondTruncatesFirst(Safety.Pair(TWO_FILES, ra, rb), 0, 1);
    Safety.RunJoins(Safety.Start(TWO_FILES, ra, rb), Safety.BothCheck(), Safety.Truncating(0, 1));
  }

  ghost predicate Faultless(events: seq<Event>) {
    forall k :: 0 <= k < |events| && events[k].Executes? ==> events[k].turn.fault.Works?
  }

  lemma BadRunIsFaultless()
    ensures Faultless(RetryStarts() + SecondArrives() + Turns(BadSchedule()))
  {
    var daemon := RetryStarts() + SecondArrives();
    var events := daemon + Turns(BadSchedule());
    forall k | 0 <= k < |events| && events[k].Executes? ensures events[k].turn.fault.Works? {
      if k >= |daemon| { assert events[k] == Executes(BadSchedule()[k - |daemon|]); }
    }
  }

  /** The daemon itself can send two calls that share a destination, one from its retry loop and
      one from its event handler. Every check tells the truth, no system call fails, and the
      content of the first file is gone. */
  lemma SharedTargetLosesContent() returns (events: seq<Event>)
    ensures Possible(CFG, Initial(TWO_FILES), events) && Faultless(events) && Truthful(events)
    ensures Safety.Holds(TWO_FILES, [0])
    ensures !Safety.Holds(Run(CFG, Initial(TWO_FILES), events).exec.fs, [0])
  {
    events := RetryStarts() + SecondArrives() + Turns(BadSchedule());
    RetryIsUnderWay();
    BothAreUnderWay();
    BadScheduleLoses();
    RunJoins(CFG, Initial(TWO_FILES), RetryStarts(), SecondArrives());
    RunJoins(CFG, Initial(TWO_FILES), RetryStarts() + SecondArrives(), Turns(BadSchedule()));
    PossibleJoins(CFG, Initial(TWO_FILES), RetryStarts(), SecondArrives());
    PossibleJoins(CFG, Initial(TWO_FILES), RetryStarts() + SecondArrives(), Turns(BadSchedule()));
    TurnsArePossible(CFG, Run(CFG, Initial(TWO_FILES), RetryStarts() + SecondArrives()), BadSchedule());
    ExecutorRuns(CFG, Run(CFG, AfterRetryStarts(), SecondArrives()), BadSchedule());
    BadRunIsFaultless();
    assert TWO_FILES.files[A] == [0];
  }

  // ---------------------------------------------------------------- disturbed rounds

  const ASKING := Rule("ask", true, "move")
  const OTHER := Rule("other", true, "move")
  const ASKCFG := Config(false, true)

  /** Two files are queued, b under a rule that asks for nothing and a after its approval. While the
      call for b is awaited in a retry round, a changes size and matches another rule that asks. */
  function Disturbance(): seq<Event> {
    [Arrives(B, 1, Some((MOVE, C))), Returns(NotConnected),
     Arrives(A, 1, Some((ASKING, C))), Answered(true), Returns(NotConnected),
     RetryBegins([B, A]), RetryNext, Arrives(A, 9, Some((OTHER, C)))]
  }

  /** The answer is still awaited when the round comes to the file. */
  function UnapprovedRun(): seq<Event> {
    Disturbance() + [RetryReturns(NotConnected), RetryNext]
  }

  /** The answer was no. */
  function DeniedRun(): seq<Event> {
    Disturbance() + [Answered(false), RetryReturns(NotConnected), RetryNext]
  }

  function TrackedB(state: FileState, attempts: nat): Tracked {
    Tracked(state, MOVE, C, "not connected", 1, attempts)
  }

  function TrackedA(state: FileState, rule: Rule): Tracked {
    Tracked(state, rule, C, "not connected", 1, 0)
  }

  function BothQueued(): State {
    State(map[B := TrackedB(Queued, 0), A := TrackedA(Queued, ASKING)], Executor.Exec(TWO_FILES, []), NoEvent, Asleep,
          [Arrived(B), Issued(B, MOVE), Arrived(A), Approved(A, ASKING), Issued(A, ASKING)])
  }

  function RetryingB(): State {
    BothQueued().(
      files := map[B := TrackedB(Executing, 1), A := TrackedA(Queued, ASKING)],
      retrying := Redoing(JobOf(B), None, [Waiting(A, None)]),
      log := BothQueued().log + [Issued(B, MOVE)])
  }

  function AskingForA(): State {
    RetryingB().(
      files := map[B := TrackedB(Executing, 1), A := TrackedA(AwaitingApproval, OTHER)],
      handling := Confirming(Job(A, C, OTHER)),
      log := RetryingB().log + [Arrived(A)])
  }

  lemma BIsQueued()
    ensures Run(ASKCFG, Initial(TWO_FILES), Disturbance()[..2]) ==
            State(map[B := TrackedB(Queued, 0)], Executor.Exec(TWO_FILES, []), NoEvent, Asleep,
                  [Arrived(B), Issued(B, MOVE)])
    ensures Possible(ASKCFG, Initial(TWO_FILES), Disturbance()[..2])
  {
    RunUpTo(ASKCFG, Initial(TWO_FILES), Disturbance(), 0);
    RunUpTo(ASKCFG, Initial(TWO_FILES), Disturbance(), 1);
    assert [] + [Arrived(B)] + [Issued(B, MOVE)] == [Arrived(B), Issued(B, MOVE)];
  }

  lemma AIsApproved(s: State)
    requires s == State(map[B := TrackedB(Queued, 0)], Executor.Exec(TWO_FILES, []), NoEvent, Asleep,
                        [Arrived(B), Issued(B, MOVE)])
    ensures var s1 := Apply(ASKCFG, s, Disturbance()[2]);
      var s2 := Apply(ASKCFG, s1, Disturbance()[3]);
      s1.retrying.Asleep? && s2.retrying.Asleep? && Apply(ASKCFG, s2, Disturbance()[4]) == BothQueued()
  {
    var s1 := Apply(ASKCFG, s, Disturbance()[2]);
    assert s1.handling == Confirming(Job(A, C, ASKING));
    assert s.log + [Arrived(A)] + [Approved(A, ASKING)] + [Issued(A, ASKING)] == BothQueued().log;
  }

  lemma AIsQueuedToo()
    ensures Run(ASKCFG, Initial(TWO_FILES), Disturbance()[..5]) == BothQueued()
    ensures Possible(ASKCFG, Initial(TWO_FILES), Disturbance()[..5])
  {
    BIsQueued();
    AIsApproved(Run(ASKCFG, Initial(TWO_FILES), Disturbance()[..2]));
    ThreeMore(ASKCFG, Initial(TWO_FILES), Disturbance(), 2);
  }

  lemma RoundTriesB()
    ensures var between := Apply(ASKCFG, BothQueued(), RetryBegins([B, A]));
      between.retrying.Between? && Apply(ASKCFG, between, RetryNext) == RetryingB()
  {
    var order := [B, A];
    assert Enumerates(order, BothQueued().files);
    assert Snapshot(order) == [Waiting(B, None), Waiting(A, None)];
    assert Snapshot(order)[1..] == [Waiting(A, None)];
  }

  lemma AArrivesAgain()
    ensures Apply(ASKCFG, RetryingB(), Arrives(A, 9, Some((OTHER, C)))) == AskingForA()
  {
  }

  lemma LastThree()
    ensures var e := Disturbance();
      && |e| == 8 && e[5] == RetryBegins([B, A]) && e[6] == RetryNext && e[7] == Arrives(A, 9, Some((OTHER, C)))
      && e[..8] == e
  {
  }

  lemma RoundIsDisturbed()
    ensures Run(ASKCFG, Initial(TWO_FILES), Disturbance()) == AskingForA()
    ensures Possible(ASKCFG, Initial(TWO_FILES), Disturbance())
  {
    AIsQueuedToo();
    RoundTriesB();
    AArrivesAgain();
    LastThree();
    ThreeMore(ASKCFG, Initial(TWO_FILES), Disturbance(), 5);
  }

  /** The retry of b ends and the round goes on to a. */
  ghost function LastSteps(s: State): State {
    Apply(ASKCFG, Apply(ASKCFG, s, RetryReturns(NotConnected)), RetryNext)
  }

  lemma RoundGoesOn(s0: State, events: seq<Event>)
    requires !Run(ASKCFG, s0, events).retrying.Between? && Possible(ASKCFG, s0, events)
    ensures var all := events + [RetryReturns(NotConnected), RetryNext];
      Possible(ASKCFG, s0, all) && Run(ASKCFG, s0, all) == LastSteps(Run(ASKCFG, s0, events))
  {
    var tail := [RetryReturns(NotConnected), RetryNext];
    var s := Run(ASKCFG, s0, events);
    RunJoins(ASKCFG, s0, events, tail);
    PossibleJoins(ASKCFG, s0, events, tail);
    RunUpTo(ASKCFG, s, tail, 0);
    RunUpTo(ASKCFG, s, tail, 1);
    assert tail[..2] == tail && tail[..0] == [];
  }

  lemma ActsUnapproved(s: State, gone: Option<Tracked>)
    requires s.retrying == Redoing(JobOf(B), None, [Waiting(A, gone)]) && B in s.files
    requires s.log == AskingForA().log
    requires if gone.None? then A in s.files && s.files[A] == TrackedA(AwaitingApproval, OTHER)
             else gone.value == TrackedA(AwaitingApproval, OTHER)
    ensures LastSteps(s).log == s.log + [Issued(A, OTHER)]
    ensures Issued(A, OTHER) in LastSteps(s).log && Approved(A, OTHER) !in LastSteps(s).log
  {
    assert RetryEnds(s, NotConnected).retrying == Between([Waiting(A, gone)]);
    assert LastSteps(s).log[|s.log|] == Issued(A, OTHER);
  }

  /** While the daemon waits for the answer the round comes to the file and acts on it under the
      new rule, which was never approved. */
  lemma DisturbedRoundActsUnapproved()
    ensures Possible(ASKCFG, Initial(TWO_FILES), UnapprovedRun())
    ensures var log := Run(ASKCFG, Initial(TWO_FILES), UnapprovedRun()).log;
      Issued(A, OTHER) in log && Approved(A, OTHER) !in log
  {
    RoundIsDisturbed();
    RoundGoesOn(Initial(TWO_FILES), Disturbance());
    ActsUnapproved(AskingForA(), None);
  }

  /** The user says no, the tracker drops the file, and the round, which holds its object with the
      new rule and target, moves it all the same. */
  lemma DeniedFileIsActedOn()
    ensures Possible(ASKCFG, Initial(TWO_FILES), DeniedRun())
    ensures var s := Run(ASKCFG, Initial(TWO_FILES), Disturbance() + [Answered(false)]);
      A !in s.files && s.retrying.Redoing? && s.retrying.rest == [Waiting(A, Some(TrackedA(AwaitingApproval, OTHER)))]
    ensures var log := Run(ASKCFG, Initial(TWO_FILES), DeniedRun()).log;
      Issued(A, OTHER) in log && Approved(A, OTHER) !in log
  {
    var events := Disturbance() + [Answered(false)];
    RoundIsDisturbed();
    assert events[..8] == Disturbance() && events[..9] == events;
    RunUpTo(ASKCFG, Initial(TWO_FILES), events, 8);
    var s := Answer(AskingForA(), AskingForA().handling.job, false);
    var w := TrackedA(AwaitingApproval, OTHER);
    assert Marked([Waiting(A, None)], A, w) == [Waiting(A, Some(w))];
    assert Run(ASKCFG, Initial(TWO_FILES), events) == s;
    RoundGoesOn(Initial(TWO_FILES), events);
    ActsUnapproved(s, Some(w));
    assert DeniedRun() == events + [RetryReturns(NotConnected), RetryNext];
  }
}
