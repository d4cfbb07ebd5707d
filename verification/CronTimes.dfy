/** What each operation of the scheduler makes of a job: when it waits to run, what an execution
    records, and that a waiting job is started by the first tick at or after its time. */
module CronTimes {
  import opened Prelude
  import opened Cron

  /** An enabled job waits for what its schedule says, reckoned from a clock reading: a one-shot job
      for its time if that is ahead, a periodic one for a full period, a cron job for what the
      expression yields; otherwise for nothing. */
  ghost predicate WaitsFrom(oracle: CronOracle, j: Job, reading: int) {
    && (j.schedule.kind == At ==>
          if j.schedule.atMs.Some? && j.schedule.atMs.value != 0 && j.schedule.atMs.value > reading
          then j.next == j.schedule.atMs else j.next.None?)
    && (j.schedule.kind == Every ==>
          if j.schedule.everyMs.Some? && j.schedule.everyMs.value > 0
          then j.next == Some(reading + j.schedule.everyMs.value) else j.next.None?)
    && (j.schedule.kind == CronExpr ==>
          if j.schedule.expr.Some? && |j.schedule.expr.value| > 0
          then j.next == oracle(j.schedule, reading) else j.next.None?)
  }

  /** A start loads the store, reckons every enabled job from its reading and changes nothing else
      about any job. */
  lemma StartSetsTimes(oracle: CronOracle, s: State, now: int)
    requires s.clock <= now
    ensures var before, s' := Loaded(s), Apply(oracle, s, Start(now));
      && s'.running && s'.clock == now && s'.store == Some(s'.disk) && |s'.disk| == |before|
      && forall i :: 0 <= i < |before| ==>
           if before[i].enabled then s'.disk[i] == before[i].(next := s'.disk[i].next) && WaitsFrom(oracle, s'.disk[i], now)
           else s'.disk[i] == before[i]
  {
  }

  /** A new job is enabled, waits as scheduled and has never run; it is refused, without a trace,
      exactly when it has a time zone without being a cron job or with an unknown one. */
  lemma AddSetsTime(oracle: CronOracle, s: State, job: Job, zoneKnown: bool, now: int)
    requires s.clock <= now && job.id !in s.schedules
    ensures var s' := Apply(oracle, s, Add(job, zoneKnown, now));
      var zoned := job.schedule.tz.Some? && |job.schedule.tz.value| > 0;
      s'.clock == now &&
      if zoned && (job.schedule.kind != CronExpr || !zoneKnown) then
        s'.store == Some(Loaded(s)) && s'.disk == s.disk && s'.schedules == s.schedules && s'.armed == s.armed
      else
        && s'.store == Some(s'.disk) && |s'.disk| == |Loaded(s)| + 1 && s'.disk[..|Loaded(s)|] == Loaded(s)
        && var j := s'.disk[|Loaded(s)|];
        && j.enabled && WaitsFrom(oracle, j, now) && j.createdAt == now && j.updatedAt == now
        && j.lastRun.None? && j.lastStatus.None? && j.lastError.None?
        && j.id == job.id && j.name == job.name && j.schedule == job.schedule && j.payload == job.payload
        && j.deleteAfterRun == job.deleteAfterRun
  {
  }

  /** One job was enabled or disabled, the others are as they were. */
  ghost predicate ToggledAt(oracle: CronOracle, before: seq<Job>, after: seq<Job>, k: nat, enabled: bool, now: int) {
    && k < |before| == |after| && (forall i :: 0 <= i < |before| && i != k ==> after[i] == before[i])
    && after[k] == before[k].(enabled := enabled, updatedAt := now, next := after[k].next)
    && if enabled then WaitsFrom(oracle, after[k], now) else after[k].next.None?
  }

  /** Enabling reckons the time anew, disabling takes it away; an unknown id changes no job. */
  lemma EnableSetsTime(oracle: CronOracle, s: State, id: string, enabled: bool, now: int)
    requires s.clock <= now
    ensures var before, s' := Loaded(s), Apply(oracle, s, Enable(id, enabled, now));
      if forall j :: j in before ==> j.id != id then s'.store == Some(before) && s'.disk == s.disk && s'.clock == now
      else
        s'.store == Some(s'.disk) && s'.clock == now
        && exists k: nat :: k < |before| && before[k].id == id && ToggledAt(oracle, before, s'.disk, k, enabled, now)
  {
    var k := IndexOf(Loaded(s), id);
    if k < |Loaded(s)| {
      assert Loaded(s)[k] in Loaded(s);
      assert ToggledAt(oracle, Loaded(s), Apply(oracle, s, Enable(id, enabled, now)).disk, k, enabled, now);
    }
  }

  /** A stopped service keeps its store and waits for nothing. */
  lemma StopDisarms(oracle: CronOracle, s: State)
    ensures var s' := Apply(oracle, s, Stop);
      !s'.running && s'.armed.None? && s'.store == s.store && s'.disk == s.disk && s'.fires == s.fires && s'.clock == s.clock
  {
  }

  /** After a removal no job has the id, and exactly the jobs with other ids are left. */
  lemma RemoveForgets(oracle: CronOracle, s: State, id: string)
    requires s.store.Some? ==> s.store.value == s.disk
    ensures var s' := Apply(oracle, s, Remove(id));
      && s'.store == Some(s'.disk)
      && forall j :: j in s'.disk <==> j in Loaded(s) && j.id != id
  {
    WithoutMembers(Loaded(s), id);
    NothingToRemove(Loaded(s), id);
  }

  lemma {:induction false} NothingToRemove(jobs: seq<Job>, id: string)
    ensures |Without(jobs, id)| <= |jobs|
    ensures |Without(jobs, id)| == |jobs| ==> Without(jobs, id) == jobs
  {
    if jobs != [] {
      var front, last := jobs[..|jobs| - 1], jobs[|jobs| - 1];
      NothingToRemove(front, id);
      var left := Without(front, id);
      assert Without(jobs, id) == if last.id == id then left else left + [last];
      assert jobs == front + [last];
    }
  }

  /** What an execution leaves of a job: nothing of a one-shot job that is to be deleted; otherwise
      its outcome, error and times, a one-shot job disabled, the others waiting from the time the
      callback was done. */
  ghost predicate Executed(oracle: CronOracle, before: Job, r: Reading, after: Job) {
    && !(before.schedule.kind == At && before.deleteAfterRun)
    && after == before.(lastStatus := after.lastStatus, lastError := r.error, lastRun := Some(r.start),
                        updatedAt := r.updated, enabled := after.enabled, next := after.next)
    && after.lastStatus == Some(if r.error == None then "ok" else "error")
    && if before.schedule.kind == At then !after.enabled && after.next == None
       else after.enabled == before.enabled && WaitsFrom(oracle, after, r.done)
  }

  lemma RanIsExecuted(oracle: CronOracle, x: Job, id: string, r: Reading, j: Job)
    ensures Becomes(oracle, x, id, r, j) <==> if x.id == id then Executed(oracle, x, r, j) else j == x
  {
  }

  /** A manual run executes the first job with the id if it is enabled or forced, and otherwise
      changes no job; the other jobs stay. */
  lemma RunNowExecutes(oracle: CronOracle, s: State, id: string, force: bool, r: Reading)
    requires s.clock <= r.start <= r.updated <= r.done && Unique(Loaded(s))
    ensures var s' := Apply(oracle, s, RunNow(id, force, r));
      if exists x :: x in Loaded(s) && x.id == id && (force || x.enabled) then
        && s'.store == Some(s'.disk) && s'.clock == r.done && s'.fires == s.fires
        && forall j :: j in s'.disk <==>
             exists x :: x in Loaded(s) && if x.id == id then Executed(oracle, x, r, j) else j == x
      else s'.store == Some(Loaded(s)) && s'.disk == s.disk
  {
    var jobs := Loaded(s);
    var k := IndexOf(jobs, id);
    assert k < |jobs| ==> jobs[k] in jobs;
    forall j ensures j in ExecuteIn(oracle, jobs, id, r) <==>
             exists x :: x in jobs && if x.id == id then Executed(oracle, x, r, j) else j == x {
      ExecuteInMembers(oracle, jobs, id, r, j);
      forall x ensures Becomes(oracle, x, id, r, j) <==> if x.id == id then Executed(oracle, x, r, j) else j == x {
        RanIsExecuted(oracle, x, id, r, j);
      }
    }
  }

  // ---------------------------------------------------------------- what a tick starts

  /** The job is enabled and its time has come. */
  predicate TimeHasCome(j: Job, now: int) {
    j.enabled && j.next.Some? && j.next.value != 0 && j.next.value <= now
  }

  ghost predicate StartedIn(s: State, s': State, id: string) {
    exists i :: |s.fires| <= i < |s'.fires| && s'.fires[i].id == id
  }

  lemma FiresAreOf(due: seq<Job>, rs: seq<Reading>, fires: seq<Fire>, all: seq<Fire>, id: string)
    requires |due| == |rs| && all == fires + Fires(due, rs)
    ensures (exists i :: |fires| <= i < |all| && all[i].id == id) <==> Mentions(due, id)
    ensures forall i :: |fires| <= i < |all| ==> all[i].start == rs[i - |fires|].start
  {
    if Mentions(due, id) {
      var i :| 0 <= i < |due| && due[i].id == id;
      assert all[|fires| + i].id == id;
    }
    if exists i :: |fires| <= i < |all| && all[i].id == id {
      var i :| |fires| <= i < |all| && all[i].id == id;
      assert due[i - |fires|].id == id;
    }
  }

  lemma StartedIffDue(oracle: CronOracle, s: State, now: int, rs: seq<Reading>, id: string)
    requires Inv(s) && Possible(s, Tick(now, rs))
    ensures var s' := Apply(oracle, s, Tick(now, rs));
      && (StartedIn(s, s', id) <==> Mentions(DueJobs(s.store.value, now), id))
      && (forall i :: |s.fires| <= i < |s'.fires| ==> s'.fires[i].start >= now)
  {
    FiresAreOf(DueJobs(s.store.value, now), rs, s.fires, Apply(oracle, s, Tick(now, rs)).fires, id);
  }

  /** A tick starts exactly the enabled jobs whose time has come, none before the tick's reading. */
  lemma TickStartsExactly(oracle: CronOracle, s: State, now: int, rs: seq<Reading>, x: Job)
    requires Inv(s) && Possible(s, Tick(now, rs)) && x in s.store.value
    ensures var s' := Apply(oracle, s, Tick(now, rs));
      && (StartedIn(s, s', x.id) <==> TimeHasCome(x, now))
      && (forall i :: |s.fires| <= i < |s'.fires| ==> s'.fires[i].start >= now)
  {
    StartedIffDue(oracle, s, now, rs, x.id);
    MentionedIffDue(s.store.value, now, x);
  }

  /** It executes the jobs that it starts, and the others stay as they are. */
  lemma TickExecutesExactly(oracle: CronOracle, s: State, now: int, rs: seq<Reading>, x: Job)
    requires Inv(s) && Possible(s, Tick(now, rs)) && x in s.store.value
    ensures var s' := Apply(oracle, s, Tick(now, rs));
      if TimeHasCome(x, now) then
        exists r :: r in rs && forall j :: j in s'.disk && j.id == x.id <==> Executed(oracle, x, r, j)
      else forall j :: j in s'.disk && j.id == x.id <==> j == x
  {
    var due := DueJobs(s.store.value, now);
    DueJobsMembers(s.store.value, now);
    MentionedIffDue(s.store.value, now, x);
    if TimeHasCome(x, now) {
      var i :| 0 <= i < |due| && due[i].id == x.id;
      TickExecutes(oracle, s.store.value, due, rs, x, i);
    } else {
      TickSpares(oracle, s.store.value, due, rs, x);
    }
  }

  lemma OnlyOneHasId(jobs: seq<Job>, x: Job, y: Job)
    requires Unique(jobs) && x in jobs && y in jobs && x.id == y.id
    ensures x == y
  {
    var a :| 0 <= a < |jobs| && jobs[a] == x;
    var b :| 0 <= b < |jobs| && jobs[b] == y;
    assert a == b;
  }

  lemma TickExecutes(oracle: CronOracle, jobs: seq<Job>, due: seq<Job>, rs: seq<Reading>, x: Job, i: nat)
    requires Unique(jobs) && Unique(due) && |due| == |rs| && x in jobs && i < |due| && due[i].id == x.id
    ensures rs[i] in rs
    ensures forall j :: j in ExecuteAll(oracle, jobs, due, rs) && j.id == x.id <==> Executed(oracle, x, rs[i], j)
  {
    forall j ensures j in ExecuteAll(oracle, jobs, due, rs) && j.id == x.id <==> Executed(oracle, x, rs[i], j) {
      ExecuteAllMembers(oracle, jobs, due, rs, j);
      RanIsExecuted(oracle, x, x.id, rs[i], j);
      EndsOnlyAs(oracle, due, rs, x, i, j);
      if j in ExecuteAll(oracle, jobs, due, rs) && j.id == x.id {
        var y :| y in jobs && EndsAs(oracle, due, rs, y, j);
        OnlyOneHasId(jobs, x, y);
      }
    }
  }

  lemma EndsOnlyAs(oracle: CronOracle, due: seq<Job>, rs: seq<Reading>, x: Job, i: nat, j: Job)
    requires Unique(due) && |due| == |rs| && i < |due| && due[i].id == x.id
    ensures EndsAs(oracle, due, rs, x, j) <==> Becomes(oracle, x, x.id, rs[i], j)
  {
    assert Mentions(due, x.id);
    if EndsAs(oracle, due, rs, x, j) {
      var k :| 0 <= k < |due| && due[k].id == x.id && !Gone(x) && j == Ran(oracle, x, rs[k]);
      assert k == i;
    }
  }

  lemma TickSpares(oracle: CronOracle, jobs: seq<Job>, due: seq<Job>, rs: seq<Reading>, x: Job)
    requires Unique(jobs) && Unique(due) && |due| == |rs| && x in jobs && !Mentions(due, x.id)
    ensures forall j :: j in ExecuteAll(oracle, jobs, due, rs) && j.id == x.id <==> j == x
  {
    forall j ensures j in ExecuteAll(oracle, jobs, due, rs) && j.id == x.id <==> j == x {
      ExecuteAllMembers(oracle, jobs, due, rs, j);
      if j in ExecuteAll(oracle, jobs, due, rs) && j.id == x.id {
        var y :| y in jobs && EndsAs(oracle, due, rs, y, j);
        OnlyOneHasId(jobs, x, y);
        assert j == x;
      }
      if j == x { assert EndsAs(oracle, due, rs, x, j); }
    }
  }

  // ---------------------------------------------------------------- no job is forgotten

  /** The event neither ends the process nor is about the job. */
  predicate LeavesAlone(e: Event, id: string) {
    match e
    case Start(_) => false
    case Stop => false
    case Crash => false
    case CrashInTick(_, _) => false
    case Add(_, _, _) => true
    case Remove(other) => other != id
    case Enable(other, _, _) => other != id
    case RunNow(other, _, _) => other != id
    case Tick(_, _) => true
    case Wait(_) => true
  }

  ghost predicate AllLeaveAlone(events: seq<Event>, id: string) {
    forall k :: 0 <= k < |events| ==> LeavesAlone(events[k], id)
  }

  /** A running service holds the job with its next run still to come, and nothing started it. */
  ghost predicate Awaits(s0: State, s: State, j: Job) {
    && s.running && s.store.Some? && j in s.store.value
    && |s0.fires| <= |s.fires| && !StartedIn(s0, s, j.id)
  }

  ghost predicate TicksBefore(events: seq<Event>, t: int) {
    forall k :: 0 <= k < |events| && events[k].Tick? ==> events[k].now < t
  }

  lemma StepKeepsAwaiting(oracle: CronOracle, s0: State, s: State, e: Event, j: Job)
    requires Inv(s) && Awaits(s0, s, j) && LeavesAlone(e, j.id)
    requires e.Tick? && j.enabled && j.next.Some? ==> e.now < j.next.value
    requires j.enabled && j.next.Some?
    ensures Awaits(s0, Apply(oracle, s, e), j)
  {
    if Possible(s, e) {
      match e
      case Tick(now, rs) =>
        TickStartsExactly(oracle, s, now, rs, j);
        TickExecutesExactly(oracle, s, now, rs, j);
      case Remove(id) => WithoutMembers(s.store.value, id);
      case Enable(id, enabled, now) => EnableSetsTime(oracle, s, id, enabled, now);
      case RunNow(id, force, r) => ExecuteInMembers(oracle, s.store.value, id, r, j);
      case _ =>
    }
  }

  lemma {:induction false} KeepsAwaiting(oracle: CronOracle, s: State, events: seq<Event>, j: Job)
    requires Inv(s) && Awaits(s, s, j) && AllLeaveAlone(events, j.id)
    requires j.enabled && j.next.Some? && TicksBefore(events, j.next.value)
    ensures Inv(Run(oracle, s, events)) && Awaits(s, Run(oracle, s, events), j)
  {
    if events != [] {
      var n := |events| - 1;
      KeepsAwaiting(oracle, s, events[..n], j);
      StepKeepsAwaiting(oracle, s, Run(oracle, s, events[..n]), events[n], j);
      StepKeepsInv(oracle, Run(oracle, s, events[..n]), events[n]);
    }
  }

  /** No waiting job is forgotten: whatever else a running service does meanwhile, the job is not
      started by a tick before its time, the timer is armed for no later than its time, and the first
      tick at or after it starts the job. */
  lemma FirstTickStartsTheJob(oracle: CronOracle, s: State, events: seq<Event>, now: int, rs: seq<Reading>, j: Job)
    requires Inv(s) && s.running && j in s.store.value && j.enabled && j.next.Some? && j.next.value != 0
    requires AllLeaveAlone(events, j.id) && TicksBefore(events, j.next.value) && j.next.value <= now
    requires var s1 := Run(oracle, s, events);
      s1.clock <= now && (s1.store.Some? ==> |rs| == |DueJobs(s1.store.value, now)|)
    requires forall i :: 0 <= i < |rs| ==> now <= rs[i].start <= rs[i].updated <= rs[i].done
    requires forall i, k :: 0 <= i < k < |rs| ==> rs[i].done <= rs[k].start
    ensures var s1 := Run(oracle, s, events);
      && !StartedIn(s, s1, j.id) && s1.armed.Some? && s1.armed.value <= j.next.value
      && StartedIn(s1, Apply(oracle, s1, Tick(now, rs)), j.id)
  {
    KeepsAwaiting(oracle, s, events, j);
    var s1 := Run(oracle, s, events);
    NextWakeIsEarliest(s1.store.value);
    assert j in s1.store.value && j.enabled && Truthy(j.next);
    TickStartsExactly(oracle, s1, now, rs, j);
  }

  /** A process that has loaded nothing and waits for nothing, on the same disk. */
  ghost predicate JustCrashed(s: State, s': State) {
    !s'.running && s'.store.None? && s'.armed.None? && s'.disk == s.disk && s'.schedules == s.schedules
  }

  /** A crash in a tick keeps the fires of the jobs that it had come to, in store order, and loses what
      they left in memory. */
  lemma CrashInTickLosesMemory(oracle: CronOracle, s: State, now: int, rs: seq<Reading>)
    requires s.clock <= now && s.armed.Some? && s.running && |rs| <= |DueJobs(Loaded(s), now)|
    requires forall i :: 0 <= i < |rs| ==> now <= rs[i].start <= rs[i].updated <= rs[i].done
    requires forall i, k :: 0 <= i < k < |rs| ==> rs[i].done <= rs[k].start
    ensures var s', due := Apply(oracle, s, CrashInTick(now, rs)), DueJobs(Loaded(s), now);
      && JustCrashed(s, s') && |s'.fires| == |s.fires| + |rs| && s.fires <= s'.fires
      && (forall i :: 0 <= i < |rs| ==> s'.fires[|s.fires| + i] == Fire(due[i].id, rs[i].start))
      && s'.clock == if rs == [] then now else rs[|rs| - 1].done
  {
    assert Possible(s, CrashInTick(now, rs));
    var due := DueJobs(Loaded(s), now);
    assert Apply(oracle, s, CrashInTick(now, rs)).fires == s.fires + Fires(due[..|rs|], rs);
  }

  lemma CrashAndWait(oracle: CronOracle, s: State, now: int)
    requires s.clock <= now
    ensures var s' := Apply(oracle, s, Crash); JustCrashed(s, s') && s'.fires == s.fires && s'.clock == s.clock
    ensures Apply(oracle, s, Wait(now)) == s.(clock := now)
  {
  }
}
