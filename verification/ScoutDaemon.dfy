/** The daemon as it runs: the tracker's dictionary updated in place, calls sent to a server. Each
    method lies in one stretch of a task between two awaits and performs exactly one step of the model,
    so what holds of every run of the model holds of every sequence of calls. `BeginRound` and
    `RetryReturns` run on into the next `RetryOne` without an await. */
module ScoutLoop {
  import opened Prelude
  import opened Mover
  import opened Scout
  import opened ScoutRetries
  import Executor
  import ExecutorServer
  import ScoutContents

  class ScoutDaemon {
    const cfg: Config
    const server: ExecutorServer.Server
    var files: map<Path, Tracked>
    var handling: Handling
    var retrying: Retrying
    ghost var log: seq<Entry>

    ghost function Abs(): State
      reads this, server, server.disk
    {
      State(files, server.Abs(), handling, retrying, log)
    }

    ghost predicate Valid()
      reads this, server, server.disk
    {
      Inv(cfg, Abs())
    }

    constructor (cfg: Config, server: ExecutorServer.Server)
      requires server.calls == []
      ensures this.cfg == cfg && this.server == server && Abs() == Initial(server.disk.Abs()) && Valid()
    {
      this.cfg, this.server := cfg, server;
      files, handling, retrying, log := map[], NoEvent, Asleep, [];
    }

    /** `StateTracker.transition`, which ignores a path that is not tracked. */
    method Transition(path: Path, state: FileState, error: string)
      modifies this`files
      ensures files == if path in old(files)
                       then old(files)[path := old(files)[path].(state := state, error := error)]
                       else old(files)
    {
      if path in files { files := files[path := files[path].(state := state, error := error)]; }
    }

    /** The tracker drops its entry; a running round keeps the object. */
    method RemoveTracked(path: Path)
      modifies this`files, this`retrying
      ensures Abs() == Drop(old(Abs()), path)
    {
      if path !in files { return; }
      var tf := files[path];
      files := files - {path};
      if !retrying.Asleep? { retrying := retrying.(rest := Marked(retrying.rest, path, tf)); }
    }

    method StartAction(job: Job)
      modifies this`files, this`handling, this`log
      ensures Abs() == Act(old(Abs()), job)
    {
      if job.path in files { files := files[job.path := files[job.path].(state := Executing)]; }
      handling := Acting(job, None);
      log := log + [Issued(job.path, job.rule)];
    }

    /** `_handle_event` up to the confirmation or the connection. */
    method HandleEvent(path: Path, size: nat, matched: Option<(Rule, Path)>)
      requires handling.NoEvent?
      modifies this
      ensures Abs() == Apply(cfg, old(Abs()), Arrives(path, size, matched))
    {
      if path in files && (files[path].state == Executing || files[path].state == AwaitingApproval) { return; }
      log := log + [Arrived(path)];
      if matched.None? {
        RemoveTracked(path);
        return;
      }
      var (rule, target) := matched.value;
      TakeUpFile(Job(path, target, rule), size);
    }

    method TakeUpFile(job: Job, size: nat)
      modifies this`files, this`handling, this`log
      ensures Abs() == TakeUp(cfg, old(Abs()), job, size)
    {
      var path := job.path;
      if path !in files { files := files[path := Tracked(Stable, job.rule, job.target, "", size, 0)]; }
      files := files[path := files[path].(state := Matched, rule := job.rule, target := job.target)];
      if job.rule.confirm && cfg.confirms {
        files := files[path := files[path].(state := AwaitingApproval)];
        handling := Confirming(job);
        return;
      }
      StartAction(job);
    }

    /** The confirmation callback answered. */
    method HandleAnswer(approved: bool)
      requires handling.Confirming?
      modifies this
      ensures Abs() == Apply(cfg, old(Abs()), Answered(approved))
    {
      var job := handling.job;
      if !approved {
        RemoveTracked(job.path);
        handling := NoEvent;
        return;
      }
      log := log + [Approved(job.path, job.rule)];
      StartAction(job);
    }

    method Send(job: Job) returns (k: nat)
      modifies server`calls
      ensures server.Abs() == Submitted(cfg, old(server.Abs()), job) && k == |old(server.calls)|
    {
      k := server.Receive(Executor.Request(job.path, job.target, job.rule.action == "move", cfg.dryRun));
    }

    /** Connected: the handler's call goes out. */
    method SendAction()
      requires handling.Acting? && handling.call.None? && IsAction(handling.job.rule.action)
      modifies this`handling, server`calls
      ensures Abs() == Apply(cfg, old(Abs()), Sends)
    {
      var k := Send(handling.job);
      handling := handling.(call := Some(k));
    }

    /** The rest of `_execute_action_tracked`: what the tracker learns from the end of the wait. */
    method Conclude(job: Job, call: Option<nat>, reply: Reply)
      requires Concluded(server.calls, job, call, reply).Some?
      modifies this`files, this`retrying
      ensures Abs() == Settle(old(Abs()), job.path, Concluded(old(server.calls), job, call, reply).value)
    {
      match reply {
        case NotConnected => Transition(job.path, Queued, "not connected");
        case Lost => Transition(job.path, Queued, "reply lost");
        case Delivered(osText) =>
          if call.None? {
            Transition(job.path, FileState.Failed, "unknown action: " + job.rule.action);
            return;
          }
          var result := server.calls[call.value].phase.result;
          if result.Done? {
            RemoveTracked(job.path);
            return;
          }
          var error := Message(result.error, job.target, osText);
          Transition(job.path, if Transient(error) then Queued else FileState.Failed, error);
      }
    }

    method ActionReturns(reply: Reply)
      requires handling.Acting? && Concluded(server.calls, handling.job, handling.call, reply).Some?
      modifies this
      ensures Abs() == Apply(cfg, old(Abs()), Returns(reply))
    {
      Conclude(handling.job, handling.call, reply);
      handling := NoEvent;
    }

    /** Some order of the queued paths. */
    method GetQueued() returns (order: seq<Path>)
      ensures Enumerates(order, files)
    {
      order := [];
      var left := set p | p in files && files[p].state == Queued;
      while left != {}
        invariant forall i, j :: 0 <= i < j < |order| ==> order[i] != order[j]
        invariant forall p :: p in order || p in left <==> p in files && files[p].state == Queued
        invariant forall p :: p in order ==> p !in left
      {
        var p :| p in left;
        order := order + [p];
        left := left - {p};
      }
    }

    /** `_retry_queued` up to its first file. */
    method BeginRound() returns (order: seq<Path>)
      requires retrying.Asleep?
      modifies this`retrying
      ensures Enumerates(order, files) && Abs() == Apply(cfg, old(Abs()), RetryBegins(order))
    {
      order := GetQueued();
      retrying := Continue(Snapshot(order));
    }

    /** One object of the round up to its connection, or its being given up. */
    method RetryOne()
      requires retrying.Between? && retrying.rest != []
      modifies this
      ensures Abs() == Apply(cfg, old(Abs()), RetryNext)
    {
      var w, rest := retrying.rest[0], retrying.rest[1..];
      if w.gone.None? && w.path !in files {
        retrying := Continue(rest);
        return;
      }
      var tf := if w.gone.Some? then w.gone.value else files[w.path];
      if tf.attempts >= MAX_ATTEMPTS {
        Transition(w.path, FileState.Failed, "max retries exceeded");
        retrying := Continue(rest);
        return;
      }
      if w.path in files {
        files := files[w.path := files[w.path].(state := Executing, attempts := tf.attempts + 1)];
      }
      log := log + [Issued(w.path, tf.rule)];
      retrying := Redoing(Job(w.path, tf.target, tf.rule), None, rest);
    }

    method SendRetry()
      requires retrying.Redoing? && retrying.call.None? && IsAction(retrying.job.rule.action)
      modifies this`retrying, server`calls
      ensures Abs() == Apply(cfg, old(Abs()), RetrySends)
    {
      var k := Send(retrying.job);
      retrying := retrying.(call := Some(k));
    }

    method RetryReturns(reply: Reply)
      requires retrying.Redoing? && Concluded(server.calls, retrying.job, retrying.call, reply).Some?
      modifies this
      ensures Abs() == Apply(cfg, old(Abs()), Event.RetryReturns(reply))
      ensures |RestOf(retrying)| == |old(retrying.rest)| && retrying == Continue(RestOf(retrying))
    {
      Conclude(retrying.job, retrying.call, reply);
      retrying := Continue(retrying.rest);
    }

    /** One file of a round in which nothing else happens. */
    method RetryUndisturbed(reachable: bool, faults: Executor.Phase -> Executor.Fault, osText: string)
      returns (ghost events: seq<Event>)
      requires retrying.Between? && retrying.rest != []
      modifies this, server`calls, server.disk
      ensures Abs() == Run(cfg, old(Abs()), events) && NoArrivals(events) && NoBegins(events)
      ensures |RestOf(retrying)| < |RestOf(old(retrying))| && retrying == Continue(RestOf(retrying))
    {
      ghost var start := Abs();
      RetryOne();
      events := [RetryNext];
      RunSnoc(cfg, start, [], RetryNext);
      if !retrying.Redoing? { return; }
      ghost var rest := FinishRetry(reachable, faults, osText);
      ScoutContents.RunJoins(cfg, start, events, rest);
      events := events + rest;
    }

    method FinishRetry(reachable: bool, faults: Executor.Phase -> Executor.Fault, osText: string)
      returns (ghost events: seq<Event>)
      requires retrying.Redoing? && retrying.call.None?
      modifies this, server`calls, server.disk
      ensures Abs() == Run(cfg, old(Abs()), events) && NoArrivals(events) && NoBegins(events)
      ensures |RestOf(retrying)| == |RestOf(old(retrying))| && retrying == Continue(RestOf(retrying))
    {
      var reply;
      reply, events := AwaitReply(reachable, faults, osText);
      RunSnoc(cfg, old(Abs()), events, Event.RetryReturns(reply));
      RetryReturns(reply);
      events := events + [Event.RetryReturns(reply)];
    }

    /** The wait of a retry, up to its end. */
    method AwaitReply(reachable: bool, faults: Executor.Phase -> Executor.Fault, osText: string)
      returns (reply: Reply, ghost events: seq<Event>)
      requires retrying.Redoing? && retrying.call.None?
      modifies this`retrying, server`calls, server.disk
      ensures Abs() == Run(cfg, old(Abs()), events) && NoArrivals(events) && NoBegins(events)
      ensures retrying.Redoing? && retrying.rest == old(retrying.rest)
      ensures Concluded(server.calls, retrying.job, retrying.call, reply).Some?
    {
      events := [];
      if !reachable { return NotConnected, events; }
      reply := Delivered(osText);
      if IsAction(retrying.job.rule.action) { events := CallUndisturbed(faults); }
    }

    /** The call goes out and the executor answers it before anything else happens. */
    method CallUndisturbed(faults: Executor.Phase -> Executor.Fault) returns (ghost events: seq<Event>)
      requires retrying.Redoing? && retrying.call.None? && IsAction(retrying.job.rule.action)
      modifies this`retrying, server`calls, server.disk
      ensures Abs() == Run(cfg, old(Abs()), events) && NoArrivals(events) && NoBegins(events)
      ensures retrying.Redoing? && retrying.job == old(retrying.job) && retrying.rest == old(retrying.rest)
      ensures retrying.call.Some? && retrying.call.value < |server.calls| && server.calls[retrying.call.value].phase.Answered?
    {
      ghost var start := Abs();
      SendRetry();
      RunSnoc(cfg, start, [], RetrySends);
      ghost var sent := Abs();
      ghost var turns := server.FinishCall(retrying.call.value, faults);
      ScoutContents.ExecutorRuns(cfg, sent, turns);
      events := [RetrySends] + ScoutContents.Turns(turns);
      ScoutContents.RunJoins(cfg, start, [RetrySends], ScoutContents.Turns(turns));
    }

    /** `_retry_queued` with nothing else going on: a snapshot, then every file of it. */
    method RetryQueued(reachable: Path -> bool, faults: Executor.Phase -> Executor.Fault, osText: string)
      returns (order: seq<Path>, ghost events: seq<Event>)
      requires Valid() && Quiet(Abs())
      modifies this, server`calls, server.disk
      ensures Enumerates(order, old(files))
      ensures Abs() == Run(cfg, old(Abs()), events) && NoArrivals(events) && RoundsBegun(cfg, old(Abs()), events) == 1
      ensures Valid() && Quiet(Abs())
    {
      ghost var start := Abs();
      order := BeginRound();
      events := [RetryBegins(order)];
      RunSnoc(cfg, start, [], RetryBegins(order));
      OneRoundBegun(cfg, start, RetryBegins(order));
      while retrying.Between?
        invariant Abs() == Run(cfg, start, events) && NoArrivals(events) && RoundsBegun(cfg, start, events) == 1
        invariant retrying == Continue(RestOf(retrying))
        decreases |RestOf(retrying)|
      {
        ghost var more := RetryUndisturbed(reachable(retrying.rest[0].path), faults, osText);
        ScoutContents.RunJoins(cfg, start, events, more);
        NoMoreRounds(cfg, start, events, more);
        events := events + more;
      }
      RunAges(cfg, start, events, []);
    }
  }

  ghost predicate NoBegins(events: seq<Event>) {
    forall k :: 0 <= k < |events| ==> !events[k].RetryBegins?
  }

  lemma OneRoundBegun(cfg: Config, s: State, e: Event)
    requires Begins(s, e)
    ensures RoundsBegun(cfg, s, [e]) == 1
  {
    assert [e][..0] == [];
    assert Run(cfg, s, []) == s;
  }

  lemma {:induction false} NoMoreRounds(cfg: Config, s: State, events: seq<Event>, more: seq<Event>)
    requires NoBegins(more)
    ensures RoundsBegun(cfg, s, events + more) == RoundsBegun(cfg, s, events)
  {
    if more == [] {
      assert events + more == events;
    } else {
      var n := |more| - 1;
      assert (events + more)[..|events| + n] == events + more[..n];
      NoMoreRounds(cfg, s, events, more[..n]);
    }
  }
}
