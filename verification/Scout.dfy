/** The file-triage daemon: tracked files move through a life cycle, actions run on the
    executor, and queued files are retried. The event handler and the retry loop are two tasks and
    the executor runs its calls beside them: `Apply` gives the stretches of the tasks between two
    awaits, and each system call of each of the executor's calls. A retry round begins, and goes on
    to its next file, in steps of their own; the code has no await there, so some runs of the model
    interleave more than the code does; `Possible` leaves those out. */
module Scout {
  import opened Prelude
  import opened Text
  import opened Mover
  import opened Executor

  datatype FileState = Stable | Matched | AwaitingApproval | Executing | Failed | Queued

  datatype Rule = Rule(name: string, confirm: bool, action: string)

  datatype Tracked = Tracked(state: FileState, rule: Rule, target: Path, error: string, size: nat, attempts: nat)

  datatype Job = Job(path: Path, target: Path, rule: Rule)

  /** `call` is the position of the call on the executor once it is sent. */
  datatype Handling = NoEvent | Confirming(job: Job) | Acting(job: Job, call: Option<nat>)

  /** A path of the running round's snapshot. The round holds the tracked object itself, so it sees
      its current fields; `gone` are those it had when the tracker dropped it. */
  datatype Waiting = Waiting(path: Path, gone: Option<Tracked>)

  datatype Retrying =
    | Asleep | Between(rest: seq<Waiting>) | Redoing(job: Job, call: Option<nat>, rest: seq<Waiting>)

  /** What the daemon did, in order. */
  datatype Entry = Arrived(path: Path) | Approved(path: Path, rule: Rule) | Issued(path: Path, rule: Rule)

  datatype State = State(files: map<Path, Tracked>, exec: Exec, handling: Handling, retrying: Retrying, log: seq<Entry>)

  datatype Config = Config(dryRun: bool, confirms: bool)

  /** How the wait for a call ends: no connection, a call whose reply is lost while the executor
      may go on with it, or the executor's answer. */
  datatype Reply = NotConnected | Lost | Delivered(osText: string)

  datatype Verdict = Succeeds | Queues(error: string) | Fails(error: string)

  datatype Event =
    | Arrives(path: Path, size: nat, matched: Option<(Rule, Path)>)
    | Answered(approved: bool)
    | Sends
    | Returns(reply: Reply)
    | RetryBegins(order: seq<Path>)
    | RetryNext
    | RetrySends
    | RetryReturns(reply: Reply)
    | Executes(turn: Turn)

  const MAX_ATTEMPTS := 10

  // ---------------------------------------------------------------- one action

  function Join(p: Path): string {
    if p == [] then "" else "/" + p[0] + Join(p[1..])
  }

  /** The executor's error text, with the operating system's part, or the two digests, given. */
  function Message(e: Mover.Error, dst: Path, osText: string): string {
    match e
    case SourceNotFound => "source not found: " + osText
    case SourceIsDirectory => "source is a directory, not a file"
    case DestinationExists => "destination already exists: " + Join(dst)
    case MkdirFailed => "failed to create destination directory: " + osText
    case CopyFailed => osText
    case HashFailed => "checksum verification failed: " + osText
    case ChecksumMismatch => "checksum mismatch: " + osText
    case SourceNotRemoved => "copied successfully but failed to remove source: " + osText
    case OverwriteRefused => "overwrite=true is not allowed in v1"
  }

  function Lower(s: string): string {
    seq(|s|, i requires 0 <= i < |s| => if 'A' <= s[i] <= 'Z' then ((s[i] as int) + 32) as char else s[i])
  }

  /** Errors that look transient are queued for a retry. */
  predicate Transient(error: string) {
    var text := Lower(error);
    Contains(text, "mount") || Contains(text, "no such file") || Contains(text, "permission")
  }

  function Judge(r: Result, dst: Path, osText: string): Verdict {
    match r
    case Done(_, _) => Succeeds
    case Failed(e) =>
      var error := Message(e, dst, osText);
      if Transient(error) then Queues(error) else Verdict.Fails(error)
  }

  predicate IsAction(action: string) {
    action == "move" || action == "copy"
  }

  /** What the daemon makes of the end of its wait; None when it cannot end so. */
  function Concluded(calls: seq<Call>, job: Job, call: Option<nat>, reply: Reply): Option<Verdict> {
    match reply
    case NotConnected => if call.None? then Some(Queues("not connected")) else None
    case Lost => if call.Some? then Some(Queues("reply lost")) else None
    case Delivered(osText) =>
      if call.None? then
        if IsAction(job.rule.action) then None else Some(Verdict.Fails("unknown action: " + job.rule.action))
      else if call.value < |calls| && calls[call.value].phase.Answered? then
        Some(Judge(calls[call.value].phase.result, job.target, osText))
      else None
  }

  // ---------------------------------------------------------------- the tracker

  function RestOf(r: Retrying): seq<Waiting> {
    if r.Asleep? then [] else r.rest
  }

  function WithRest(r: Retrying, rest: seq<Waiting>): Retrying {
    if r.Asleep? then r else r.(rest := rest)
  }

  ghost predicate Waits(r: Retrying, p: Path) {
    exists k :: 0 <= k < |RestOf(r)| && RestOf(r)[k].path == p
  }

  function Marked(rest: seq<Waiting>, path: Path, tf: Tracked): (r: seq<Waiting>)
    ensures |r| == |rest| && forall k :: 0 <= k < |rest| ==> r[k].path == rest[k].path
    ensures forall k :: 0 <= k < |rest| && rest[k].path != path ==> r[k] == rest[k]
  {
    seq(|rest|, k requires 0 <= k < |rest| =>
      if rest[k].path == path && rest[k].gone.None? then rest[k].(gone := Some(tf)) else rest[k])
  }

  /** The tracker drops a path; a round that still holds its object keeps the last fields. */
  function Drop(s: State, path: Path): State {
    if path !in s.files then s
    else s.(files := s.files - {path},
            retrying := WithRest(s.retrying, Marked(RestOf(s.retrying), path, s.files[path])))
  }

  /** The tracker after an action: success is forgotten, the rest is kept. */
  function Settle(s: State, path: Path, v: Verdict): State {
    if path !in s.files then s else
    match v
    case Succeeds => Drop(s, path)
    case Queues(error) => s.(files := s.files[path := s.files[path].(state := Queued, error := error)])
    case Fails(error) => s.(files := s.files[path := s.files[path].(state := FileState.Failed, error := error)])
  }

  // ---------------------------------------------------------------- one step

  function RequestOf(cfg: Config, job: Job): Request {
    Request(job.path, job.target, job.rule.action == "move", cfg.dryRun)
  }

  function Submitted(cfg: Config, x: Exec, job: Job): Exec {
    x.(calls := x.calls + [Call(RequestOf(cfg, job), Received)])
  }

  function Logged(s: State, e: Entry): State {
    s.(log := s.log + [e])
  }

  /** A path that is no longer tracked is acted on all the same. */
  function Act(s: State, job: Job): State {
    Logged(s, Issued(job.path, job.rule)).(
      files := if job.path in s.files then s.files[job.path := s.files[job.path].(state := Executing)] else s.files,
      handling := Acting(job, None))
  }

  predicate Ignored(s: State, path: Path) {
    path in s.files && (s.files[path].state == Executing || s.files[path].state == AwaitingApproval)
  }

  /** A matched file is tracked, with the attempts it already had, and confirmed or acted on. */
  function TakeUp(cfg: Config, s: State, job: Job, size: nat): State {
    var tf := if job.path in s.files then s.files[job.path] else Tracked(Stable, job.rule, job.target, "", size, 0);
    var s1 := s.(files := s.files[job.path := tf.(state := Matched, rule := job.rule, target := job.target)]);
    if job.rule.confirm && cfg.confirms then
      s1.(files := s1.files[job.path := s1.files[job.path].(state := AwaitingApproval)], handling := Confirming(job))
    else Act(s1, job)
  }

  /** A file event up to its confirmation or its action. */
  function Handle(cfg: Config, s0: State, path: Path, size: nat, matched: Option<(Rule, Path)>): State {
    if Ignored(s0, path) then s0 else
    var s := Logged(s0, Arrived(path));
    match matched
    case None => Drop(s, path)
    case Some((rule, target)) => TakeUp(cfg, s, Job(path, target, rule), size)
  }

  function Answer(s: State, job: Job, approved: bool): State {
    if approved then Act(Logged(s, Approved(job.path, job.rule)), job)
    else Drop(s, job.path).(handling := NoEvent)
  }

  ghost predicate Enumerates(order: seq<Path>, files: map<Path, Tracked>) {
    && (forall i, j :: 0 <= i < j < |order| ==> order[i] != order[j])
    && (forall p :: p in order <==> p in files && files[p].state == Queued)
  }

  function Snapshot(order: seq<Path>): (rest: seq<Waiting>)
    ensures |rest| == |order| && forall k :: 0 <= k < |order| ==> rest[k] == Waiting(order[k], None)
  {
    seq(|order|, k requires 0 <= k < |order| => Waiting(order[k], None))
  }

  function Continue(rest: seq<Waiting>): Retrying {
    if rest == [] then Asleep else Between(rest)
  }

  function Transitioned(files: map<Path, Tracked>, path: Path, state: FileState, error: string, attempts: nat): map<Path, Tracked> {
    if path !in files then files
    else files[path := files[path].(state := state, error := error, attempts := attempts)]
  }

  /** The next object of a retry round: given up after ten attempts, otherwise tried again, in
      whatever state it is by now. */
  function Retry(s: State, w: Waiting, rest: seq<Waiting>): State {
    if w.gone.None? && w.path !in s.files then s.(retrying := Continue(rest)) else
    var tf := if w.gone.Some? then w.gone.value else s.files[w.path];
    if tf.attempts >= MAX_ATTEMPTS then
      var attempts := if w.path in s.files then s.files[w.path].attempts else 0;
      s.(files := Transitioned(s.files, w.path, FileState.Failed, "max retries exceeded", attempts),
         retrying := Continue(rest))
    else
      var error := if w.path in s.files then s.files[w.path].error else "";
      Logged(s, Issued(w.path, tf.rule)).(
        files := Transitioned(s.files, w.path, Executing, error, tf.attempts + 1),
        retrying := Redoing(Job(w.path, tf.target, tf.rule), None, rest))
  }

  /** The effect of one event; one that cannot happen in the state leaves it unchanged. */
  ghost function Apply(cfg: Config, s: State, e: Event): State {
    match e
    case Arrives(path, size, matched) => if s.handling.NoEvent? then Handle(cfg, s, path, size, matched) else s
    case Answered(approved) =>
      if s.handling.Confirming? then Answer(s, s.handling.job, approved) else s
    case Sends =>
      if s.handling.Acting? && s.handling.call.None? && IsAction(s.handling.job.rule.action)
      then s.(exec := Submitted(cfg, s.exec, s.handling.job), handling := s.handling.(call := Some(|s.exec.calls|))) else s
    case Returns(reply) => if s.handling.Acting? then ActionEnds(s, reply) else s
    case RetryBegins(order) =>
      if s.retrying.Asleep? && Enumerates(order, s.files) then s.(retrying := Continue(Snapshot(order))) else s
    case RetryNext =>
      if s.retrying.Between? && s.retrying.rest != []
      then Retry(s, s.retrying.rest[0], s.retrying.rest[1..]) else s
    case RetrySends =>
      if s.retrying.Redoing? && s.retrying.call.None? && IsAction(s.retrying.job.rule.action)
      then s.(exec := Submitted(cfg, s.exec, s.retrying.job), retrying := s.retrying.(call := Some(|s.exec.calls|))) else s
    case RetryReturns(reply) => if s.retrying.Redoing? then RetryEnds(s, reply) else s
    case Executes(turn) => s.(exec := Step(s.exec, turn))
  }

  function ActionEnds(s: State, reply: Reply): State
    requires s.handling.Acting?
  {
    match Concluded(s.exec.calls, s.handling.job, s.handling.call, reply)
    case None => s
    case Some(v) => Settle(s, s.handling.job.path, v).(handling := NoEvent)
  }

  function RetryEnds(s: State, reply: Reply): State
    requires s.retrying.Redoing?
  {
    match Concluded(s.exec.calls, s.retrying.job, s.retrying.call, reply)
    case None => s
    case Some(v) =>
      var s' := Settle(s, s.retrying.job.path, v);
      s'.(retrying := Continue(RestOf(s'.retrying)))
  }

  ghost function Run(cfg: Config, s: State, events: seq<Event>): State {
    if events == [] then s
    else Apply(cfg, Run(cfg, s, events[..|events| - 1]), events[|events| - 1])
  }

  function Initial(fs: Fs): State {
    State(map[], Exec(fs, []), NoEvent, Asleep, [])
  }

  lemma RunSnoc(cfg: Config, s: State, events: seq<Event>, e: Event)
    ensures Run(cfg, s, events + [e]) == Apply(cfg, Run(cfg, s, events), e)
  {
    assert (events + [e])[..|events|] == events;
  }

  // ---------------------------------------------------------------- invariant

  /** The recheck that the retry loop does not make when it comes to an object of its snapshot:
      the event handler is not busy with the path; and if the tracker dropped the object and a try
      is left, the path is tracked again, under the same rule where that asks for confirmation. */
  predicate MayRetry(cfg: Config, s: State, w: Waiting) {
    && !Ignored(s, w.path)
    && (w.gone.Some? && w.gone.value.attempts < MAX_ATTEMPTS ==>
          w.path in s.files && (w.gone.value.rule.confirm && cfg.confirms ==> s.files[w.path].rule == w.gone.value.rule))
  }

  /** A step of the retry loop passes the recheck; the other steps need nothing. */
  ghost predicate Fresh(cfg: Config, s: State, e: Event) {
    e.RetryNext? && s.retrying.Between? && s.retrying.rest != [] ==> MayRetry(cfg, s, s.retrying.rest[0])
  }

  ghost predicate FreshRun(cfg: Config, s: State, events: seq<Event>) {
    events == [] ||
    var n := |events| - 1;
    FreshRun(cfg, s, events[..n]) && Fresh(cfg, Run(cfg, s, events[..n]), events[n])
  }

  /** No event of the daemon gets in where the retry loop has no await. */
  ghost predicate Possible(cfg: Config, s: State, events: seq<Event>) {
    events == [] ||
    var n := |events| - 1;
    && Possible(cfg, s, events[..n])
    && (Run(cfg, s, events[..n]).retrying.Between? ==> events[n].RetryNext? || events[n].Executes?)
  }

  ghost predicate HandledPath(s: State, p: Path) {
    !s.handling.NoEvent? && s.handling.job.path == p
  }

  ghost predicate RetriedPath(s: State, p: Path) {
    s.retrying.Redoing? && s.retrying.job.path == p
  }

  /** Approved at j, with no event handled for the path since. */
  ghost predicate ApprovedAt(log: seq<Entry>, p: Path, rule: Rule, j: int) {
    0 <= j < |log| && log[j] == Approved(p, rule) && forall k :: j < k < |log| ==> log[k] != Arrived(p)
  }

  /** Approved since its last event, or in no need of approval. */
  ghost predicate Cleared(cfg: Config, log: seq<Entry>, p: Path, rule: Rule) {
    rule.confirm && cfg.confirms ==> exists j :: ApprovedAt(log, p, rule, j)
  }

  /** The only rule approved for the path since its last event. */
  ghost predicate OnlyApproved(log: seq<Entry>, p: Path, rule: Rule) {
    forall other, j :: ApprovedAt(log, p, other, j) ==> other == rule
  }

  ghost predicate IssuesCleared(cfg: Config, log: seq<Entry>) {
    forall k :: 0 <= k < |log| && log[k].Issued? ==> Cleared(cfg, log[..k], log[k].path, log[k].rule)
  }

  /** What holds of a tracked file, by who is busy with it. */
  ghost predicate FileOk(cfg: Config, s: State, p: Path)
    requires p in s.files
  {
    var tf := s.files[p];
    && tf.attempts <= MAX_ATTEMPTS
    && (HandledPath(s, p) && s.handling.Confirming? ==> tf.state == AwaitingApproval)
    && (HandledPath(s, p) && s.handling.Acting? ==> tf.state == Executing)
    && (RetriedPath(s, p) ==> tf.state == Executing)
    && (!HandledPath(s, p) && !RetriedPath(s, p) ==> tf.state == FileState.Failed || tf.state == Queued)
    && (HandledPath(s, p) ==> tf.rule == s.handling.job.rule)
    && (tf.state != AwaitingApproval ==> Cleared(cfg, s.log, p, tf.rule))
    && OnlyApproved(s.log, p, tf.rule)
  }

  ghost predicate RoundOk(s: State) {
    var rest := RestOf(s.retrying);
    && (forall i, j :: 0 <= i < j < |rest| ==> rest[i].path != rest[j].path)
    && (forall k :: 0 <= k < |rest| && rest[k].gone.None? ==> rest[k].path in s.files)
    && (s.retrying.Redoing? ==> !Waits(s.retrying, s.retrying.job.path))
    && (s.retrying.Between? ==> rest != [])
  }

  ghost predicate Inv(cfg: Config, s: State) {
    && (forall p :: p in s.files ==> FileOk(cfg, s, p))
    && (forall p :: HandledPath(s, p) || RetriedPath(s, p) ==> p in s.files)
    && (forall p :: HandledPath(s, p) ==> !RetriedPath(s, p))
    && RoundOk(s)
    && IssuesCleared(cfg, s.log)
  }

  // ---------------------------------------------------------------- every step keeps it

  lemma LogGrows(cfg: Config, log: seq<Entry>, e: Entry)
    requires IssuesCleared(cfg, log)
    requires e.Issued? ==> Cleared(cfg, log, e.path, e.rule)
    ensures IssuesCleared(cfg, log + [e])
    ensures forall p, rule :: Cleared(cfg, log, p, rule) && e != Arrived(p) ==> Cleared(cfg, log + [e], p, rule)
  {
    var more := log + [e];
    forall k | 0 <= k < |more| && more[k].Issued?
      ensures Cleared(cfg, more[..k], more[k].path, more[k].rule)
    {
      assert more[..k] == if k < |log| then log[..k] else log;
    }
    forall p, rule | Cleared(cfg, log, p, rule) && e != Arrived(p) ensures Cleared(cfg, more, p, rule) {
      if rule.confirm && cfg.confirms {
        var j :| ApprovedAt(log, p, rule, j);
        assert ApprovedAt(more, p, rule, j);
      }
    }
  }

  lemma ApprovalsGrow(log: seq<Entry>, e: Entry)
    ensures forall p, rule :: OnlyApproved(log, p, rule) && (e.Approved? && e.path == p ==> e.rule == rule) ==>
              OnlyApproved(log + [e], p, rule)
    ensures e.Arrived? ==> forall rule :: OnlyApproved(log + [e], e.path, rule)
  {
    var more := log + [e];
    assert more[|log|] == e;
    forall p: Path, other, j | ApprovedAt(more, p, other, j)
      ensures e != Arrived(p) && (if j == |log| then e == Approved(p, other) else ApprovedAt(log, p, other, j))
    {
      assert forall k :: j < k < |log| ==> more[k] == log[k];
    }
  }

  lemma ApprovalClears(cfg: Config, log: seq<Entry>, p: Path, rule: Rule)
    ensures Cleared(cfg, log + [Approved(p, rule)], p, rule)
  {
    assert ApprovedAt(log + [Approved(p, rule)], p, rule, |log|);
  }

  /** A step that tracks no path less and touches the round no more than by marking keeps it. */
  lemma RoundKept(s: State, s': State, path: Path)
    requires RoundOk(s)
    requires (s'.retrying == s.retrying && (path in s.files ==> path in s'.files))
          || (path in s.files && s'.retrying == WithRest(s.retrying, Marked(RestOf(s.retrying), path, s.files[path])))
    requires forall p :: p in s.files && p != path ==> p in s'.files
    ensures RoundOk(s')
  {
    var rest, rest' := RestOf(s.retrying), RestOf(s'.retrying);
    forall k | 0 <= k < |rest'| && rest'[k].gone.None? ensures rest'[k].path in s'.files {
      assert rest[k].path == rest'[k].path;
    }
  }

  ghost predicate SamePaths(a: seq<Waiting>, b: seq<Waiting>) {
    |a| == |b| && forall k :: 0 <= k < |a| ==> a[k].path == b[k].path
  }

  /** A step on one path leaves the entries of the others. */
  ghost predicate OnlyAt(s: State, s': State, path: Path) {
    forall p :: p != path ==> (p in s'.files <==> p in s.files) && (p in s.files ==> s'.files[p] == s.files[p])
  }

  lemma ArrivesKeeps(cfg: Config, s: State, path: Path, size: nat, matched: Option<(Rule, Path)>)
    requires Inv(cfg, s) && s.handling.NoEvent?
    ensures Inv(cfg, Handle(cfg, s, path, size, matched))
  {
    if !Ignored(s, path) {
      var s' := Handle(cfg, s, path, size, matched);
      LogGrows(cfg, s.log, Arrived(path));
      ApprovalsGrow(s.log, Arrived(path));
      if matched.Some? && !(matched.value.0.confirm && cfg.confirms) {
        LogGrows(cfg, s.log + [Arrived(path)], Issued(path, matched.value.0));
        ApprovalsGrow(s.log + [Arrived(path)], Issued(path, matched.value.0));
      }
      assert path in s.files ==> FileOk(cfg, s, path);
      assert !RetriedPath(s', path);
      forall p | p in s'.files ensures FileOk(cfg, s', p) {
        if p != path { assert FileOk(cfg, s, p); }
      }
      RoundKept(s, s', path);
    }
  }

  lemma AnsweredKeeps(cfg: Config, s: State, approved: bool)
    requires Inv(cfg, s) && s.handling.Confirming?
    ensures Inv(cfg, Answer(s, s.handling.job, approved))
  {
    var job := s.handling.job;
    var s' := Answer(s, job, approved);
    assert HandledPath(s, job.path) && FileOk(cfg, s, job.path);
    if approved {
      var log := s.log + [Approved(job.path, job.rule)];
      LogGrows(cfg, s.log, Approved(job.path, job.rule));
      ApprovalClears(cfg, s.log, job.path, job.rule);
      LogGrows(cfg, log, Issued(job.path, job.rule));
      ApprovalsGrow(s.log, Approved(job.path, job.rule));
      ApprovalsGrow(log, Issued(job.path, job.rule));
    }
    forall p | p in s'.files ensures FileOk(cfg, s', p) { assert FileOk(cfg, s, p); }
    RoundKept(s, s', job.path);
  }

  lemma SettleChanges(s: State, path: Path, v: Verdict)
    requires path in s.files && RoundOk(s)
    ensures var s' := Settle(s, path, v);
      && s'.handling == s.handling && s'.log == s.log && OnlyAt(s, s', path) && RoundOk(s')
      && s'.retrying.Asleep? == s.retrying.Asleep? && s'.retrying.Redoing? == s.retrying.Redoing?
      && (s.retrying.Redoing? ==> s'.retrying.job == s.retrying.job)
      && SamePaths(RestOf(s.retrying), RestOf(s'.retrying))
      && (path in s'.files ==>
            && (s'.files[path].state == Queued || s'.files[path].state == FileState.Failed)
            && s'.files[path].attempts == s.files[path].attempts && s'.files[path].rule == s.files[path].rule)
  {
    RoundKept(s, Settle(s, path, v), path);
  }

  lemma ReturnsKeeps(cfg: Config, s: State, reply: Reply)
    requires Inv(cfg, s) && s.handling.Acting?
    ensures Inv(cfg, ActionEnds(s, reply))
  {
    var path := s.handling.job.path;
    assert HandledPath(s, path) && FileOk(cfg, s, path);
    var v := Concluded(s.exec.calls, s.handling.job, s.handling.call, reply);
    if v.Some? {
      var s' := ActionEnds(s, reply);
      SettleChanges(s, path, v.value);
      forall p | p in s'.files ensures FileOk(cfg, s', p) { assert FileOk(cfg, s, p); }
    }
  }

  lemma RetryBeginsKeeps(cfg: Config, s: State, order: seq<Path>)
    requires Inv(cfg, s) && s.retrying.Asleep? && Enumerates(order, s.files)
    ensures Inv(cfg, s.(retrying := Continue(Snapshot(order))))
  {
    var s' := s.(retrying := Continue(Snapshot(order)));
    forall p | p in s'.files ensures FileOk(cfg, s', p) { assert FileOk(cfg, s, p); }
    assert forall k :: 0 <= k < |order| ==> order[k] in order;
  }

  lemma RetryKeepsRound(cfg: Config, s: State)
    requires RoundOk(s) && s.retrying.Between?
    ensures RoundOk(Apply(cfg, s, RetryNext))
  {
    var rest := s.retrying.rest;
    assert forall k :: 0 <= k < |rest[1..]| ==> rest[1..][k] == rest[k + 1];
  }

  lemma RetryKeepsLog(cfg: Config, s: State)
    requires Inv(cfg, s) && s.retrying.Between? && MayRetry(cfg, s, s.retrying.rest[0])
    ensures var log := Apply(cfg, s, RetryNext).log;
      && IssuesCleared(cfg, log)
      && (forall p, rule :: Cleared(cfg, s.log, p, rule) ==> Cleared(cfg, log, p, rule))
      && (forall p, rule :: OnlyApproved(s.log, p, rule) ==> OnlyApproved(log, p, rule))
  {
    var s' := Apply(cfg, s, RetryNext);
    var path := s.retrying.rest[0].path;
    if path in s.files { assert FileOk(cfg, s, path); }
    if s'.retrying.Redoing? {
      LogGrows(cfg, s.log, Issued(path, s'.retrying.job.rule));
      ApprovalsGrow(s.log, Issued(path, s'.retrying.job.rule));
    }
  }

  lemma RetryNextKeeps(cfg: Config, s: State)
    requires Inv(cfg, s) && s.retrying.Between? && MayRetry(cfg, s, s.retrying.rest[0])
    ensures Inv(cfg, Apply(cfg, s, RetryNext))
  {
    var s' := Apply(cfg, s, RetryNext);
    RetryKeepsRound(cfg, s);
    RetryKeepsLog(cfg, s);
    assert s.retrying.rest[0].path in s.files ==> FileOk(cfg, s, s.retrying.rest[0].path);
    forall p | p in s'.files ensures FileOk(cfg, s', p) { assert FileOk(cfg, s, p); }
  }

  /** Without the recheck the step fails: it acts on a file the handler is busy with or the tracker
      forgot, or under a rule that was not approved since the file's last event. */
  lemma UncheckedRetryFails(cfg: Config, s: State)
    requires Inv(cfg, s) && s.retrying.Between? && !MayRetry(cfg, s, s.retrying.rest[0])
    ensures !Inv(cfg, Apply(cfg, s, RetryNext))
  {
    var w, s' := s.retrying.rest[0], Apply(cfg, s, RetryNext);
    if w.path in s.files {
      assert FileOk(cfg, s, w.path);
      if HandledPath(s, w.path) {
        assert HandledPath(s', w.path);
        if !RetriedPath(s', w.path) { assert !FileOk(cfg, s', w.path); }
      } else {
        assert !Cleared(cfg, s.log, w.path, w.gone.value.rule);
        var k := |s.log|;
        assert s'.log[k] == Issued(w.path, w.gone.value.rule) && s'.log[..k] == s.log;
      }
    } else {
      assert RetriedPath(s', w.path) && w.path !in s'.files;
    }
  }

  /** The exact recheck, for every object of the snapshot: still tracked, taken up by the handler,
      dropped, tracked anew, or given up. */
  lemma RetryKeepsInvIff(cfg: Config, s: State)
    requires Inv(cfg, s) && s.retrying.Between?
    ensures Inv(cfg, Apply(cfg, s, RetryNext)) <==> MayRetry(cfg, s, s.retrying.rest[0])
  {
    if MayRetry(cfg, s, s.retrying.rest[0]) { RetryNextKeeps(cfg, s); } else { UncheckedRetryFails(cfg, s); }
  }

  lemma RetryReturnsKeeps(cfg: Config, s: State, reply: Reply)
    requires Inv(cfg, s) && s.retrying.Redoing?
    ensures Inv(cfg, RetryEnds(s, reply))
  {
    var path := s.retrying.job.path;
    assert RetriedPath(s, path) && FileOk(cfg, s, path);
    var v := Concluded(s.exec.calls, s.retrying.job, s.retrying.call, reply);
    if v.Some? {
      var s' := RetryEnds(s, reply);
      SettleChanges(s, path, v.value);
      forall p | p in s'.files ensures FileOk(cfg, s', p) { assert FileOk(cfg, s, p); }
    }
  }

  /** Sending a call and the executor's own work leave the tracker alone. */
  lemma ElsewhereKeeps(cfg: Config, s: State, s': State)
    requires Inv(cfg, s) && s'.files == s.files && s'.log == s.log
    requires forall p :: HandledPath(s', p) <==> HandledPath(s, p)
    requires forall p :: RetriedPath(s', p) <==> RetriedPath(s, p)
    requires s.handling.Acting? == s'.handling.Acting? && s.handling.Confirming? == s'.handling.Confirming?
    requires !s.handling.NoEvent? ==> s'.handling.job == s.handling.job
    requires RestOf(s'.retrying) == RestOf(s.retrying) && s.retrying.Between? == s'.retrying.Between?
    requires s.retrying.Redoing? == s'.retrying.Redoing? && (s.retrying.Redoing? ==> s'.retrying.job == s.retrying.job)
    ensures Inv(cfg, s')
  {
    forall p | p in s'.files ensures FileOk(cfg, s', p) { assert FileOk(cfg, s, p); }
  }

  lemma StepKeepsInv(cfg: Config, s: State, e: Event)
    requires Inv(cfg, s)
    ensures Inv(cfg, Apply(cfg, s, e)) <==> Fresh(cfg, s, e)
  {
    match e
    case Arrives(path, size, matched) =>
      if s.handling.NoEvent? { ArrivesKeeps(cfg, s, path, size, matched); }
    case Answered(approved) =>
      if s.handling.Confirming? { AnsweredKeeps(cfg, s, approved); }
    case Returns(reply) => if s.handling.Acting? { ReturnsKeeps(cfg, s, reply); }
    case RetryBegins(order) =>
      if s.retrying.Asleep? && Enumerates(order, s.files) { RetryBeginsKeeps(cfg, s, order); }
    case RetryNext => if s.retrying.Between? { RetryKeepsInvIff(cfg, s); }
    case RetryReturns(reply) => if s.retrying.Redoing? { RetryReturnsKeeps(cfg, s, reply); }
    case Sends => ElsewhereKeeps(cfg, s, Apply(cfg, s, e));
    case RetrySends => ElsewhereKeeps(cfg, s, Apply(cfg, s, e));
    case Executes(turn) => ElsewhereKeeps(cfg, s, Apply(cfg, s, e));
  }

  /** The invariant holds after every event of the run. */
  ghost predicate InvThroughout(cfg: Config, s: State, events: seq<Event>) {
    Inv(cfg, Run(cfg, s, events)) && (events == [] || InvThroughout(cfg, s, events[..|events| - 1]))
  }

  lemma {:induction false} RunKeepsInv(cfg: Config, s: State, events: seq<Event>)
    requires Inv(cfg, s)
    ensures InvThroughout(cfg, s, events) <==> FreshRun(cfg, s, events)
  {
    if events != [] {
      RunKeepsInv(cfg, s, events[..|events| - 1]);
      if FreshRun(cfg, s, events[..|events| - 1]) {
        StepKeepsInv(cfg, Run(cfg, s, events[..|events| - 1]), events[|events| - 1]);
      }
    }
  }

  /** In every fresh run from an empty tracker: whenever no task is at work, every tracked
      file is FAILED or QUEUED; and every action ever issued for a rule that asks for confirmation,
      first tries and retries alike, was approved for that file and rule since the last event that
      the daemon handled for the file. */
  lemma EveryRunIsOrderly(cfg: Config, fs: Fs, events: seq<Event>)
    requires FreshRun(cfg, Initial(fs), events)
    ensures var s := Run(cfg, Initial(fs), events);
      && (s.handling.NoEvent? && !s.retrying.Redoing? ==>
            forall p :: p in s.files ==> s.files[p].state == FileState.Failed || s.files[p].state == Queued)
      && (forall k :: 0 <= k < |s.log| && s.log[k].Issued? && s.log[k].rule.confirm && cfg.confirms ==>
            exists j :: ApprovedAt(s.log[..k], s.log[k].path, s.log[k].rule, j))
  {
    RunKeepsInv(cfg, Initial(fs), events);
    var s := Run(cfg, Initial(fs), events);
    if s.handling.NoEvent? && !s.retrying.Redoing? {
      forall p | p in s.files ensures s.files[p].state == FileState.Failed || s.files[p].state == Queued {
        assert FileOk(cfg, s, p);
      }
    }
    forall k | 0 <= k < |s.log| && s.log[k].Issued? && s.log[k].rule.confirm && cfg.confirms
      ensures exists j :: ApprovedAt(s.log[..k], s.log[k].path, s.log[k].rule, j)
    {
      assert Cleared(cfg, s.log[..k], s.log[k].path, s.log[k].rule);
    }
  }
}
