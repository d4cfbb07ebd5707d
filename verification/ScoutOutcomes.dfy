/** What each event leaves in the tracker: what an arrival, an answer and a retry make of a file, what
    goes to the executor, and how an answer of the executor decides between queueing and failing. */
module ScoutOutcomes {
  import opened Prelude
  import opened Text
  import opened Mover
  import Executor
  import opened Scout

  // ---------------------------------------------------------------- the end of an action

  /** The text with its ASCII capitals lowered, letter by letter. */
  ghost predicate Lowered(text: string, lower: string) {
    |lower| == |text| &&
    forall i :: 0 <= i < |text| ==>
      if 'A' <= text[i] <= 'Z' then lower[i] as int == text[i] as int + 32 else lower[i] == text[i]
  }

  /** One of the words that make an error look transient occurs. */
  ghost predicate LooksTransient(lower: string) {
    exists word, j :: word in {"mount", "no such file", "permission"} && OccursAt(lower, word, j)
  }

  /** A path as the executor prints it. */
  function Printed(p: Path): string {
    if p == [] then "" else Printed(p[..|p| - 1]) + "/" + p[|p| - 1]
  }

  lemma {:induction false} JoinSnoc(p: Path, name: string)
    ensures Join(p + [name]) == Join(p) + "/" + name
  {
    if p == [] {
      assert Join([name]) == "/" + name + Join([]);
    } else {
      assert (p + [name])[1..] == p[1..] + [name];
      JoinSnoc(p[1..], name);
    }
  }

  lemma {:induction false} JoinIsPrinted(p: Path)
    ensures Join(p) == Printed(p)
  {
    if p != [] {
      JoinIsPrinted(p[..|p| - 1]);
      JoinSnoc(p[..|p| - 1], p[|p| - 1]);
      assert p[..|p| - 1] + [p[|p| - 1]] == p;
    }
  }

  /** The text of an error, with what the operating system says, or the digests, as given. */
  ghost predicate Says(e: Error, dst: Path, osText: string, text: string) {
    && (e.SourceNotFound? ==> text == "source not found: " + osText)
    && (e.SourceIsDirectory? ==> text == "source is a directory, not a file")
    && (e.DestinationExists? ==> text == "destination already exists: " + Printed(dst))
    && (e.MkdirFailed? ==> text == "failed to create destination directory: " + osText)
    && (e.CopyFailed? ==> text == osText)
    && (e.HashFailed? ==> text == "checksum verification failed: " + osText)
    && (e.ChecksumMismatch? ==> text == "checksum mismatch: " + osText)
    && (e.SourceNotRemoved? ==> text == "copied successfully but failed to remove source: " + osText)
    && (e.OverwriteRefused? ==> text == "overwrite=true is not allowed in v1")
  }

  /** The tracker forgets a file whose action succeeded; one whose action failed keeps the error's
      text, and is queued if the text looks transient in lower case and failed otherwise. */
  ghost predicate Decided(before: map<Path, Tracked>, after: map<Path, Tracked>, job: Job, r: Result, osText: string)
    requires job.path in before
  {
    match r
    case Done(_, _) => after == before - {job.path}
    case Failed(e) =>
      && after.Keys == before.Keys
      && (forall p :: p in before && p != job.path ==> after[p] == before[p])
      && var tf, tf' := before[job.path], after[job.path];
      && tf' == tf.(state := tf'.state, error := tf'.error)
      && Says(e, job.target, osText, tf'.error)
      && forall lower :: Lowered(tf'.error, lower) ==>
           tf'.state == if LooksTransient(lower) then Queued else FileState.Failed
  }

  lemma ContainsMeans(text: string, word: string)
    ensures Contains(text, word) <==> exists j :: OccursAt(text, word, j)
  {
    if Contains(text, word) { assert OccursAt(text, word, Find(text, word)); }
  }

  lemma LowerIsLowered(text: string, lower: string)
    requires Lowered(text, lower)
    ensures Lower(text) == lower
  {
    forall i | 0 <= i < |lower| ensures Lower(text)[i] == lower[i] { }
  }

  lemma TransientMeans(error: string, lower: string)
    requires Lowered(error, lower)
    ensures Transient(error) <==> LooksTransient(lower)
  {
    LowerIsLowered(error, lower);
    ContainsMeans(lower, "mount");
    ContainsMeans(lower, "no such file");
    ContainsMeans(lower, "permission");
  }

  lemma JudgeDecides(r: Result, dst: Path, osText: string)
    ensures r.Done? ==> Judge(r, dst, osText).Succeeds?
    ensures r.Failed? ==>
      var v := Judge(r, dst, osText);
      !v.Succeeds? && Says(r.error, dst, osText, v.error)
      && forall lower :: Lowered(v.error, lower) ==> (v.Queues? <==> LooksTransient(lower))
  {
    JoinIsPrinted(dst);
    if r.Failed? {
      var v := Judge(r, dst, osText);
      forall lower | Lowered(v.error, lower) ensures v.Queues? <==> LooksTransient(lower) {
        TransientMeans(v.error, lower);
      }
    }
  }

  lemma SettlingDecides(s: State, job: Job, r: Result, osText: string)
    requires job.path in s.files
    ensures Decided(s.files, Settle(s, job.path, Judge(r, job.target, osText)).files, job, r, osText)
  {
    var v := Judge(r, job.target, osText);
    JudgeDecides(r, job.target, osText);
    if r.Failed? {
      var state := if v.Queues? then Queued else FileState.Failed;
      assert Settle(s, job.path, v).files == s.files[job.path := s.files[job.path].(state := state, error := v.error)];
    }
  }

  /** The executor answered the handler's call. */
  lemma AnswerDecides(cfg: Config, s: State, call: nat, osText: string)
    requires s.handling.Acting? && s.handling.call == Some(call) && call < |s.exec.calls|
    requires s.exec.calls[call].phase.Answered? && s.handling.job.path in s.files
    ensures var s' := Apply(cfg, s, Returns(Delivered(osText)));
      s'.handling.NoEvent? && Decided(s.files, s'.files, s.handling.job, s.exec.calls[call].phase.result, osText)
  {
    SettlingDecides(s, s.handling.job, s.exec.calls[call].phase.result, osText);
  }

  /** The executor answered a retry. */
  lemma RetryAnswerDecides(cfg: Config, s: State, call: nat, osText: string)
    requires s.retrying.Redoing? && s.retrying.call == Some(call) && call < |s.exec.calls|
    requires s.exec.calls[call].phase.Answered? && s.retrying.job.path in s.files
    ensures var s' := Apply(cfg, s, RetryReturns(Delivered(osText)));
      !s'.retrying.Redoing? && Decided(s.files, s'.files, s.retrying.job, s.exec.calls[call].phase.result, osText)
  {
    SettlingDecides(s, s.retrying.job, s.exec.calls[call].phase.result, osText);
  }

  /** A file whose call was not sent, or whose answer was lost, is queued; one with an action that is
      neither a move nor a copy has failed. */
  lemma OtherEndings(cfg: Config, s: State, reply: Reply)
    requires s.handling.Acting? && s.handling.job.path in s.files
    ensures var s' := Apply(cfg, s, Returns(reply));
      var job, tf := s.handling.job, s.files[s.handling.job.path];
      var known := job.rule.action in {"move", "copy"};
      && (reply.NotConnected? && s.handling.call.None? ==>
            s'.handling.NoEvent? && s'.files == s.files[job.path := tf.(state := Queued, error := "not connected")])
      && (reply.Lost? && s.handling.call.Some? ==>
            s'.handling.NoEvent? && s'.files == s.files[job.path := tf.(state := Queued, error := "reply lost")])
      && (reply.Delivered? && s.handling.call.None? ==>
            if known then s' == s
            else s'.handling.NoEvent? &&
                 s'.files == s.files[job.path := tf.(state := FileState.Failed, error := "unknown action: " + job.rule.action)])
  {
  }

  // ---------------------------------------------------------------- two words that decide

  lemma OpensWith(lower: string, word: string, j: int)
    requires |word| >= 2 && OccursAt(lower, word, j)
    ensures j + 1 < |lower| && lower[j] == word[0] && lower[j + 1] == word[1]
  {
    assert lower[j..][0] == word[0] && lower[j..][1] == word[1];
  }

  lemma MismatchIsNotTransient(text: string)
    requires text == "checksum mismatch: 0 1"
    ensures Lowered(text, text) && !LooksTransient(text)
  {
    assert forall j :: 0 <= j < |text| - 1 ==> text[j] != 'm' || text[j + 1] != 'o';
    assert forall j :: 0 <= j < |text| ==> text[j] != 'n' && text[j] != 'p';
    if LooksTransient(text) {
      var word, j :| word in {"mount", "no such file", "permission"} && OccursAt(text, word, j);
      OpensWith(text, word, j);
      assert false;
    }
  }

  lemma DeniedIsTransient(text: string) returns (lower: string)
    requires text == "a: Permission denied"
    ensures Lowered(text, lower) && LooksTransient(lower)
  {
    lower := "a: permission denied";
    assert lower[3..][..10] == "permission";
    assert OccursAt(lower, "permission", 3);
  }

  /** A copy stopped for want of permission is queued. */
  lemma DeniedIsQueued(before: map<Path, Tracked>, after: map<Path, Tracked>, job: Job, osText: string)
    requires job.path in before && osText == "a: Permission denied"
    requires Decided(before, after, job, Result.Failed(CopyFailed), osText)
    ensures job.path in after && after[job.path].state == Queued
  {
    var lower := DeniedIsTransient(osText);
    assert Says(CopyFailed, job.target, osText, after[job.path].error);
  }

  /** A copy that does not match its source has failed. */
  lemma MismatchFails(before: map<Path, Tracked>, after: map<Path, Tracked>, job: Job, osText: string, text: string)
    requires job.path in before && text == "checksum mismatch: 0 1" == "checksum mismatch: " + osText
    requires Decided(before, after, job, Result.Failed(ChecksumMismatch), osText)
    ensures job.path in after && after[job.path].state == FileState.Failed
  {
    MismatchIsNotTransient(text);
    assert Says(ChecksumMismatch, job.target, osText, after[job.path].error);
  }

  // ---------------------------------------------------------------- the start of an action

  /** What is sent for a job: the file, its target, and whether to move and to change anything. */
  ghost predicate Sent(cfg: Config, s: State, s': State, job: Job) {
    && s'.exec.fs == s.exec.fs && |s'.exec.calls| == |s.exec.calls| + 1 && s.exec.calls <= s'.exec.calls
    && var c := s'.exec.calls[|s.exec.calls|];
    && c.phase.Received? && c.request.src == job.path && c.request.dst == job.target
    && (c.request.removes <==> job.rule.action == "move") && (c.request.dryRun <==> cfg.dryRun)
  }

  /** A call goes out once, for a move or a copy. */
  lemma SendingSends(cfg: Config, s: State)
    ensures var s' := Apply(cfg, s, Sends);
      if s.handling.Acting? && s.handling.call.None? && s.handling.job.rule.action in {"move", "copy"}
      then s'.handling == Acting(s.handling.job, Some(|s.exec.calls|)) && s'.files == s.files && Sent(cfg, s, s', s.handling.job)
      else s' == s
    ensures var s' := Apply(cfg, s, RetrySends);
      if s.retrying.Redoing? && s.retrying.call.None? && s.retrying.job.rule.action in {"move", "copy"}
      then s'.retrying == Redoing(s.retrying.job, Some(|s.exec.calls|), s.retrying.rest)
           && s'.files == s.files && Sent(cfg, s, s', s.retrying.job)
      else s' == s
  {
  }

  /** An arrival is ignored for a file that is being acted on or asked about; without a rule the file
      is forgotten; otherwise it is tracked under the rule and its target, with the size, error and
      attempts it had before, and asked about or acted on at once. */
  lemma ArrivalTracks(cfg: Config, s: State, path: Path, size: nat, matched: Option<(Rule, Path)>)
    requires s.handling.NoEvent?
    ensures var s' := Apply(cfg, s, Arrives(path, size, matched));
      if path in s.files && s.files[path].state in {Executing, AwaitingApproval} then s' == s
      else if matched.None? then
        s'.files == s.files - {path} && s'.handling.NoEvent? && s'.log == s.log + [Arrived(path)]
      else
        var (rule, target) := matched.value;
        var asks := rule.confirm && cfg.confirms;
        && path in s'.files && s'.files - {path} == s.files - {path}
        && s'.files[path].state == (if asks then AwaitingApproval else Executing)
        && s'.files[path].rule == rule && s'.files[path].target == target
        && (if path in s.files
            then s'.files[path].size == s.files[path].size && s'.files[path].error == s.files[path].error
                 && s'.files[path].attempts == s.files[path].attempts
            else s'.files[path].size == size && s'.files[path].error == "" && s'.files[path].attempts == 0)
        && s'.handling == (if asks then Confirming(Job(path, target, rule)) else Acting(Job(path, target, rule), None))
        && s'.log == s.log + [Arrived(path)] + if asks then [] else [Issued(path, rule)]
  {
  }

  /** A yes starts the action, a no forgets the file. */
  lemma AnswerStartsOrForgets(cfg: Config, s: State, approved: bool)
    requires s.handling.Confirming? && s.handling.job.path in s.files
    ensures var s', job := Apply(cfg, s, Answered(approved)), s.handling.job;
      if approved then
        && s'.files == s.files[job.path := s.files[job.path].(state := Executing)] && s'.handling == Acting(job, None)
        && s'.log == s.log + [Approved(job.path, job.rule)] + [Issued(job.path, job.rule)]
      else s'.files == s.files - {job.path} && s'.handling.NoEvent? && s'.log == s.log
  {
  }

  /** A round takes the queued files; each is given up at its tenth attempt and otherwise tried once
      more, under the rule and target it is tracked with. */
  lemma RetryTries(cfg: Config, s: State, path: Path)
    requires s.retrying.Between? && s.retrying.rest != [] && s.retrying.rest[0] == Waiting(path, None) && path in s.files
    ensures var s', tf := Apply(cfg, s, RetryNext), s.files[path];
      var rest := s.retrying.rest[1..];
      if tf.attempts >= 10 then
        && s'.files == s.files[path := tf.(state := FileState.Failed, error := "max retries exceeded")] && s'.log == s.log
        && s'.retrying == if rest == [] then Asleep else Between(rest)
      else
        && s'.files == s.files[path := tf.(state := Executing, attempts := tf.attempts + 1)]
        && s'.log == s.log + [Issued(path, tf.rule)] && s'.retrying == Redoing(Job(path, tf.target, tf.rule), None, rest)
  {
  }
}
