/** Retry rounds: what keeps them fresh, how long they go on, and what becomes of a file whose
    executor cannot be reached. */
module ScoutRetries {
  import opened Prelude
  import opened Mover
  import opened Scout

  // ---------------------------------------------------------------- undisturbed rounds

  /** The event is not about a path that waits in the running round. */
  ghost predicate Undisturbing(s: State, e: Event) {
    e.Arrives? ==> !Waits(s.retrying, e.path)
  }

  ghost predicate Undisturbed(cfg: Config, s: State, events: seq<Event>) {
    events == [] ||
    var n := |events| - 1;
    Undisturbed(cfg, s, events[..n]) && Undisturbing(Run(cfg, s, events[..n]), events[n])
  }

  /** Everything that waits in the round is still as the snapshot found it. */
  ghost predicate AllQueued(s: State) {
    forall k :: 0 <= k < |RestOf(s.retrying)| ==>
      var w := RestOf(s.retrying)[k];
      w.gone.None? && w.path in s.files && s.files[w.path].state == Queued
  }

  lemma BusyIsNotQueued(cfg: Config, s: State, p: Path)
    requires Inv(cfg, s) && AllQueued(s) && HandledPath(s, p)
    ensures !Waits(s.retrying, p)
  {
    assert FileOk(cfg, s, p);
  }

  /** A step on a path that does not wait leaves the waiting ones as they are. */
  lemma WaitersStay(s: State, s': State, path: Path)
    requires AllQueued(s) && !Waits(s.retrying, path) && OnlyAt(s, s', path)
    requires RestOf(s'.retrying) == RestOf(s.retrying)
          || (path in s.files && RestOf(s'.retrying) == Marked(RestOf(s.retrying), path, s.files[path]))
    ensures AllQueued(s')
  {
    forall k | 0 <= k < |RestOf(s.retrying)| ensures RestOf(s.retrying)[k].path != path {
      assert !Waits(s.retrying, path);
    }
  }

  lemma HandleKeepsQueued(cfg: Config, s: State, path: Path, size: nat, matched: Option<(Rule, Path)>)
    requires AllQueued(s) && !Waits(s.retrying, path)
    ensures AllQueued(Handle(cfg, s, path, size, matched))
  {
    WaitersStay(s, Handle(cfg, s, path, size, matched), path);
  }

  lemma AnswerKeepsQueued(s: State, job: Job, approved: bool)
    requires AllQueued(s) && !Waits(s.retrying, job.path)
    ensures AllQueued(Answer(s, job, approved))
  {
    WaitersStay(s, Answer(s, job, approved), job.path);
  }

  lemma SettleKeepsQueued(s: State, path: Path, v: Verdict)
    requires AllQueued(s) && !Waits(s.retrying, path)
    ensures AllQueued(Settle(s, path, v))
  {
    WaitersStay(s, Settle(s, path, v), path);
  }

  lemma NextKeepsQueued(cfg: Config, s: State)
    requires Inv(cfg, s) && AllQueued(s) && s.retrying.Between?
    ensures Fresh(cfg, s, RetryNext) && AllQueued(Apply(cfg, s, RetryNext))
  {
    var rest := s.retrying.rest;
    assert FileOk(cfg, s, rest[0].path);
    assert forall k :: 0 <= k < |rest[1..]| ==> rest[1..][k] == rest[k + 1] && rest[k + 1].path != rest[0].path;
  }

  lemma BeginKeepsQueued(s: State, order: seq<Path>)
    requires Enumerates(order, s.files)
    ensures AllQueued(s.(retrying := Continue(Snapshot(order))))
  {
    assert forall k :: 0 <= k < |order| ==> order[k] in order;
  }

  lemma StepKeepsQueued(cfg: Config, s: State, e: Event)
    requires Inv(cfg, s) && AllQueued(s) && Undisturbing(s, e)
    ensures Fresh(cfg, s, e) && AllQueued(Apply(cfg, s, e))
  {
    match e
    case Arrives(path, size, matched) => if s.handling.NoEvent? { HandleKeepsQueued(cfg, s, path, size, matched); }
    case Answered(approved) =>
      if s.handling.Confirming? {
        BusyIsNotQueued(cfg, s, s.handling.job.path);
        AnswerKeepsQueued(s, s.handling.job, approved);
      }
    case Returns(reply) =>
      if s.handling.Acting? {
        var v := Concluded(s.exec.calls, s.handling.job, s.handling.call, reply);
        BusyIsNotQueued(cfg, s, s.handling.job.path);
        if v.Some? { SettleKeepsQueued(s, s.handling.job.path, v.value); }
      }
    case RetryReturns(reply) =>
      if s.retrying.Redoing? {
        var v := Concluded(s.exec.calls, s.retrying.job, s.retrying.call, reply);
        if v.Some? { SettleKeepsQueued(s, s.retrying.job.path, v.value); }
      }
    case RetryBegins(order) => if s.retrying.Asleep? && Enumerates(order, s.files) { BeginKeepsQueued(s, order); }
    case RetryNext => if s.retrying.Between? { NextKeepsQueued(cfg, s); }
    case _ =>
  }

  /** Without events on the round's own paths every run is fresh, so everything that holds of
      fresh runs holds of it. */
  lemma {:induction false} UndisturbedRunsAreFresh(cfg: Config, s: State, events: seq<Event>)
    requires Inv(cfg, s) && AllQueued(s) && Undisturbed(cfg, s, events)
    ensures FreshRun(cfg, s, events)
    ensures Inv(cfg, Run(cfg, s, events)) && AllQueued(Run(cfg, s, events))
  {
    if events != [] {
      var n := |events| - 1;
      UndisturbedRunsAreFresh(cfg, s, events[..n]);
      StepKeepsQueued(cfg, Run(cfg, s, events[..n]), events[n]);
      StepKeepsInv(cfg, Run(cfg, s, events[..n]), events[n]);
    }
  }

  // ---------------------------------------------------------------- counting rounds

  /** The event starts a retry round. */
  ghost predicate Begins(s: State, e: Event) {
    e.RetryBegins? && s.retrying.Asleep? && Enumerates(e.order, s.files)
  }

  ghost function RoundsBegun(cfg: Config, s: State, events: seq<Event>): nat {
    if events == [] then 0
    else
      var n := |events| - 1;
      RoundsBegun(cfg, s, events[..n]) + if Begins(Run(cfg, s, events[..n]), events[n]) then 1 else 0
  }

  /** The rounds that have come to p, out of those begun. */
  ghost function Visits(s: State, p: Path, rounds: nat): int {
    if Waits(s.retrying, p) then rounds - 1 else rounds
  }

  ghost predicate NoArrivals(events: seq<Event>) {
    forall k :: 0 <= k < |events| ==> !events[k].Arrives?
  }

  /** Only the retry loop and the executor are at work, and the round is as its snapshot. */
  ghost predicate Calm(cfg: Config, s: State) {
    Inv(cfg, s) && AllQueued(s) && s.handling.NoEvent?
  }

  /** Nobody is at work. */
  ghost predicate Quiet(s: State) {
    s.handling.NoEvent? && s.retrying.Asleep?
  }

  ghost predicate StillQueued(s: State, p: Path) {
    p in s.files && s.files[p].state == Queued
  }

  lemma StepKeepsCalm(cfg: Config, s: State, e: Event)
    requires Calm(cfg, s) && !e.Arrives?
    ensures Calm(cfg, Apply(cfg, s, e))
  {
    StepKeepsQueued(cfg, s, e);
    StepKeepsInv(cfg, s, e);
  }

  /** While nothing arrives, the retry loop is the only one to change the tracker. */
  lemma OnlyRetriesMatter(cfg: Config, s: State, e: Event)
    requires s.handling.NoEvent? && !e.Arrives? && !e.RetryBegins? && !e.RetryNext? && !e.RetryReturns?
    ensures var s' := Apply(cfg, s, e);
      && s'.files == s.files && s'.log == s.log && RestOf(s'.retrying) == RestOf(s.retrying)
      && (forall p :: RetriedPath(s', p) <==> RetriedPath(s, p))
  {
  }

  lemma NextVisits(cfg: Config, s: State, p: Path)
    requires Calm(cfg, s) && s.retrying.Between?
    ensures var s' := Apply(cfg, s, RetryNext);
      && (Waits(s'.retrying, p) <==> Waits(s.retrying, p) && p != s.retrying.rest[0].path)
      && Waits(s.retrying, s.retrying.rest[0].path)
      && s.retrying.rest[0].path in s.files && OnlyAt(s, s', s.retrying.rest[0].path)
      && s.retrying.rest[0].gone.None? && s.files[s.retrying.rest[0].path].state == Queued
  {
    var rest := s.retrying.rest;
    assert RestOf(s.retrying)[0] == rest[0];
    assert RestOf(Apply(cfg, s, RetryNext).retrying) == rest[1..];
    TailWaits(s.retrying, Apply(cfg, s, RetryNext).retrying, p);
  }

  lemma TailWaits(a: Retrying, b: Retrying, p: Path)
    requires RestOf(a) != [] && RestOf(b) == RestOf(a)[1..]
    requires forall i, j :: 0 <= i < j < |RestOf(a)| ==> RestOf(a)[i].path != RestOf(a)[j].path
    ensures Waits(b, p) <==> Waits(a, p) && p != RestOf(a)[0].path
  {
    var rest := RestOf(a);
    assert forall k :: 0 <= k < |rest[1..]| ==> rest[1..][k] == rest[k + 1];
    if Waits(a, p) && p != rest[0].path {
      var k :| 0 <= k < |rest| && rest[k].path == p;
      assert rest[1..][k - 1].path == p;
    }
  }

  lemma BeginVisits(s: State, order: seq<Path>, p: Path)
    requires Enumerates(order, s.files) && s.retrying.Asleep?
    ensures Waits(Continue(Snapshot(order)), p) <==> StillQueued(s, p)
  {
    assert RestOf(Continue(Snapshot(order))) == Snapshot(order);
    if StillQueued(s, p) {
      var k :| 0 <= k < |order| && order[k] == p;
      assert Snapshot(order)[k].path == p;
    }
    assert forall k :: 0 <= k < |order| ==> order[k] in order;
  }

  lemma EndVisits(cfg: Config, s: State, reply: Reply, p: Path)
    requires Calm(cfg, s) && s.retrying.Redoing?
    ensures var s' := RetryEnds(s, reply);
      && (Waits(s'.retrying, p) <==> Waits(s.retrying, p))
      && s'.log == s.log && OnlyAt(s, s', s.retrying.job.path)
      && (forall q :: RetriedPath(s', q) <==> RetriedPath(s, q) && s' == s)
  {
    var v := Concluded(s.exec.calls, s.retrying.job, s.retrying.call, reply);
    if v.Some? {
      SettleChanges(s, s.retrying.job.path, v.value);
      SameWaits(s.retrying, RetryEnds(s, reply).retrying, p);
    }
  }

  lemma SameWaits(a: Retrying, b: Retrying, p: Path)
    requires SamePaths(RestOf(a), RestOf(b))
    ensures Waits(a, p) <==> Waits(b, p)
  {
    if Waits(a, p) {
      var k :| 0 <= k < |RestOf(a)| && RestOf(a)[k].path == p;
      assert RestOf(b)[k].path == p;
    }
  }

  // ---------------------------------------------------------------- retries end

  /** A file that is queued or being retried was queued at the start and has been tried once for
      each visit since. */
  ghost predicate Aged(s0: State, s: State, p: Path, rounds: nat) {
    StillQueued(s, p) || RetriedPath(s, p) ==>
      StillQueued(s0, p) && p in s.files && s.files[p].attempts == s0.files[p].attempts + Visits(s, p, rounds)
  }

  lemma StepAges(cfg: Config, s0: State, s: State, e: Event, p: Path, rounds: nat)
    requires Calm(cfg, s) && !e.Arrives? && Aged(s0, s, p, rounds)
    ensures Aged(s0, Apply(cfg, s, e), p, rounds + if Begins(s, e) then 1 else 0)
  {
    match e
    case RetryBegins(order) => if Begins(s, e) { BeginVisits(s, order, p); }
    case RetryNext => if s.retrying.Between? { NextVisits(cfg, s, p); }
    case RetryReturns(reply) => 
      if s.retrying.Redoing? {
        EndVisits(cfg, s, reply, p);
        assert RetriedPath(s, s.retrying.job.path);
      }
    case _ => OnlyRetriesMatter(cfg, s, e);
  }

  lemma {:induction false} RunAges(cfg: Config, s: State, events: seq<Event>, p: Path)
    requires Inv(cfg, s) && Quiet(s) && NoArrivals(events)
    ensures Calm(cfg, Run(cfg, s, events)) && Aged(s, Run(cfg, s, events), p, RoundsBegun(cfg, s, events))
  {
    if events == [] {
      assert StillQueued(s, p) ==> FileOk(cfg, s, p);
    } else {
      var n := |events| - 1;
      RunAges(cfg, s, events[..n], p);
      StepAges(cfg, s, Run(cfg, s, events[..n]), events[n], p, RoundsBegun(cfg, s, events[..n]));
      StepKeepsCalm(cfg, Run(cfg, s, events[..n]), events[n]);
    }
  }

  /** With no new events, between rounds: a file that is still queued was queued all along and has
      been tried once more in every round, whatever the executor did meanwhile. */
  lemma StillQueuedMeansTriedEachRound(cfg: Config, s: State, events: seq<Event>, p: Path)
    requires Inv(cfg, s) && Quiet(s) && NoArrivals(events)
    requires Quiet(Run(cfg, s, events)) && StillQueued(Run(cfg, s, events), p)
    ensures StillQueued(s, p)
         && Run(cfg, s, events).files[p].attempts == s.files[p].attempts + RoundsBegun(cfg, s, events) <= MAX_ATTEMPTS
  {
    RunAges(cfg, s, events, p);
    assert FileOk(cfg, Run(cfg, s, events), p);
  }

  /** With no new events the queue is empty after eleven retry rounds, however their calls end. */
  lemma QueueEmptiesAfterElevenRounds(cfg: Config, s: State, events: seq<Event>)
    requires Inv(cfg, s) && Quiet(s) && NoArrivals(events)
    requires Quiet(Run(cfg, s, events)) && RoundsBegun(cfg, s, events) > MAX_ATTEMPTS
    ensures forall p :: !StillQueued(Run(cfg, s, events), p)
  {
    forall p ensures !StillQueued(Run(cfg, s, events), p) {
      if StillQueued(Run(cfg, s, events), p) { StillQueuedMeansTriedEachRound(cfg, s, events, p); }
    }
  }

  // ---------------------------------------------------------------- an unreachable executor

  /** How many actions the log says were issued for a path. */
  function Issues(log: seq<Entry>, p: Path): nat {
    if log == [] then 0
    else
      var last := log[|log| - 1];
      Issues(log[..|log| - 1], p) + if last.Issued? && last.path == p then 1 else 0
  }

  lemma IssuesSnoc(log: seq<Entry>, e: Entry, p: Path)
    ensures Issues(log + [e], p) == Issues(log, p) + if e.Issued? && e.path == p then 1 else 0
  {
    assert (log + [e])[..|log|] == log;
  }

  /** No call for p ever reaches the executor. */
  ghost predicate Unreached(s: State, e: Event, p: Path) {
    RetriedPath(s, p) ==> !e.RetrySends? && (e.RetryReturns? ==> e.reply.NotConnected?)
  }

  ghost predicate NeverReached(cfg: Config, s: State, events: seq<Event>, p: Path) {
    events == [] ||
    var n := |events| - 1;
    NeverReached(cfg, s, events[..n], p) && Unreached(Run(cfg, s, events[..n]), events[n], p)
  }

  /** Where p stands after the given number of visits: tried at each of them up to its tenth
      attempt, and given up at the next one. */
  ghost predicate Tried(s0: State, s: State, p: Path, rounds: nat)
    requires p in s0.files
  {
    var left := MAX_ATTEMPTS - s0.files[p].attempts;
    var visits := Visits(s, p, rounds);
    && p in s.files && left >= 0 && visits >= 0
    && s.files[p].rule == s0.files[p].rule && s.files[p].target == s0.files[p].target
    && s.files[p].attempts == s0.files[p].attempts + Min(visits, left)
    && Issues(s.log, p) == Issues(s0.log, p) + Min(visits, left)
    && (if RetriedPath(s, p) then s.retrying.call.None? && visits <= left
        else s.files[p].state == if visits <= left then Queued else FileState.Failed)
  }

  lemma NextTries(cfg: Config, s0: State, s: State, p: Path, rounds: nat)
    requires Calm(cfg, s) && s.retrying.Between? && p in s0.files && Tried(s0, s, p, rounds)
    ensures Tried(s0, Apply(cfg, s, RetryNext), p, rounds)
  {
    if s.retrying.rest[0].path == p {
      VisitTries(cfg, s0, s, p, rounds);
    } else {
      NextVisits(cfg, s, p);
      NextElsewhere(cfg, s, p);
    }
  }

  lemma NextElsewhere(cfg: Config, s: State, p: Path)
    requires s.retrying.Between? && s.retrying.rest != [] && s.retrying.rest[0].path != p
    ensures var s' := Apply(cfg, s, RetryNext);
      Issues(s'.log, p) == Issues(s.log, p) && !RetriedPath(s', p) && !RetriedPath(s, p)
  {
    var w := s.retrying.rest[0];
    var s' := Apply(cfg, s, RetryNext);
    if s'.log != s.log {
      assert s'.log == s.log + [s'.log[|s.log|]];
      IssuesSnoc(s.log, s'.log[|s.log|], p);
    }
  }

  lemma VisitTries(cfg: Config, s0: State, s: State, p: Path, rounds: nat)
    requires Calm(cfg, s) && s.retrying.Between? && p in s0.files && Tried(s0, s, p, rounds)
    requires s.retrying.rest[0].path == p
    ensures Tried(s0, Apply(cfg, s, RetryNext), p, rounds)
  {
    NextVisits(cfg, s, p);
    IssuesSnoc(s.log, Issued(p, s.files[p].rule), p);
    assert FileOk(cfg, s, p);
  }

  lemma BeginTries(cfg: Config, s0: State, s: State, order: seq<Path>, p: Path, rounds: nat)
    requires s.retrying.Asleep? && Enumerates(order, s.files) && p in s0.files && Tried(s0, s, p, rounds)
    ensures Tried(s0, s.(retrying := Continue(Snapshot(order))), p, rounds + 1)
  {
    BeginVisits(s, order, p);
  }

  lemma EndTries(cfg: Config, s0: State, s: State, reply: Reply, p: Path, rounds: nat)
    requires Calm(cfg, s) && s.retrying.Redoing? && p in s0.files && Tried(s0, s, p, rounds)
    requires Unreached(s, RetryReturns(reply), p)
    ensures Tried(s0, RetryEnds(s, reply), p, rounds)
  {
    EndVisits(cfg, s, reply, p);
  }

  lemma OtherTries(cfg: Config, s0: State, s: State, e: Event, p: Path, rounds: nat)
    requires s.handling.NoEvent? && !e.Arrives? && !e.RetryBegins? && !e.RetryNext? && !e.RetryReturns?
    requires p in s0.files && Tried(s0, s, p, rounds) && Unreached(s, e, p)
    ensures Tried(s0, Apply(cfg, s, e), p, rounds)
  {
    OnlyRetriesMatter(cfg, s, e);
  }

  lemma StepTries(cfg: Config, s0: State, s: State, e: Event, p: Path, rounds: nat)
    requires Calm(cfg, s) && !e.Arrives? && p in s0.files && Tried(s0, s, p, rounds) && Unreached(s, e, p)
    ensures Tried(s0, Apply(cfg, s, e), p, rounds + if Begins(s, e) then 1 else 0)
  {
    match e
    case RetryBegins(order) => if Begins(s, e) { BeginTries(cfg, s0, s, order, p, rounds); }
    case RetryNext => if s.retrying.Between? { NextTries(cfg, s0, s, p, rounds); }
    case RetryReturns(reply) => if s.retrying.Redoing? { EndTries(cfg, s0, s, reply, p, rounds); }
    case _ => OtherTries(cfg, s0, s, e, p, rounds);
  }

  lemma {:induction false} RunTries(cfg: Config, s: State, events: seq<Event>, p: Path)
    requires Inv(cfg, s) && Quiet(s) && NoArrivals(events) && StillQueued(s, p) && NeverReached(cfg, s, events, p)
    ensures Calm(cfg, Run(cfg, s, events)) && Tried(s, Run(cfg, s, events), p, RoundsBegun(cfg, s, events))
  {
    if events == [] {
      assert FileOk(cfg, s, p);
    } else {
      var n := |events| - 1;
      RunTries(cfg, s, events[..n], p);
      StepTries(cfg, s, Run(cfg, s, events[..n]), events[n], p, RoundsBegun(cfg, s, events[..n]));
      StepKeepsCalm(cfg, Run(cfg, s, events[..n]), events[n]);
    }
  }

  /** A queued file whose executor is never reached: after any number of rounds it keeps its rule
      and target; up to its tenth attempt it is queued and was tried once a round; in the next
      round it is FAILED without another action, and stays so. */
  lemma TriedTenTimesThenFailed(cfg: Config, s: State, events: seq<Event>, p: Path)
    requires Inv(cfg, s) && Quiet(s) && NoArrivals(events) && StillQueued(s, p) && NeverReached(cfg, s, events, p)
    requires Quiet(Run(cfg, s, events))
    ensures var s', rounds := Run(cfg, s, events), RoundsBegun(cfg, s, events);
      var left := MAX_ATTEMPTS - s.files[p].attempts;
      && p in s'.files && left >= 0
      && s'.files[p].rule == s.files[p].rule && s'.files[p].target == s.files[p].target
      && s'.files[p].attempts == s.files[p].attempts + Min(rounds, left)
      && Issues(s'.log, p) == Issues(s.log, p) + Min(rounds, left)
      && s'.files[p].state == (if rounds <= left then Queued else FileState.Failed)
  {
    RunTries(cfg, s, events, p);
  }
}
