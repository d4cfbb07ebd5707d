/** The job scheduler: one-shot and periodic jobs, a store on disk, a timer, and restarts.
    Callbacks run to completion without a service call in between, the clock never goes back,
    nobody else edits the store, and job ids are never reused. */
module Cron {
  import opened Prelude

  datatype Kind = At | Every | CronExpr

  datatype Schedule = Schedule(kind: Kind, atMs: Option<int>, everyMs: Option<int>, expr: Option<string>, tz: Option<string>)

  datatype Payload = Payload(kind: string, message: string, deliver: bool, channel: Option<string>, recipient: Option<string>)

  datatype Job = Job(
    id: string, name: string, enabled: bool, schedule: Schedule, payload: Payload,
    next: Option<int>, lastRun: Option<int>, lastStatus: Option<string>, lastError: Option<string>,
    createdAt: int, updatedAt: int, deleteAfterRun: bool)

  /** The next time after `now` that matches a cron expression; None when it cannot be computed. */
  type CronOracle = f: (Schedule, int) -> Option<int> |
    forall s, now :: f(s, now).Some? ==> f(s, now).value > now
    witness (s: Schedule, now: int) => None

  /** The clock readings of one execution, and the callback's error if it raised. */
  datatype Reading = Reading(start: int, updated: int, done: int, error: Option<string>)

  datatype Fire = Fire(id: string, start: int)

  /** `store` is None in a process that has not loaded it yet; `fires` records the callbacks the
      timer started, `schedules` the schedule under which each id was added. */
  datatype State = State(
    store: Option<seq<Job>>, disk: seq<Job>, running: bool, armed: Option<int>, clock: int,
    fires: seq<Fire>, schedules: map<string, Schedule>)

  datatype Event =
    | Start(now: int)
    | Stop
    | Add(job: Job, zoneKnown: bool, now: int)
    | Remove(id: string)
    | Enable(id: string, enabled: bool, now: int)
    | RunNow(id: string, force: bool, reading: Reading)
    | Tick(now: int, readings: seq<Reading>)
    | CrashInTick(now: int, readings: seq<Reading>)
    | Crash
    | Wait(now: int)

  // ---------------------------------------------------------------- schedules

  /** `if x` for an optional number. */
  predicate Truthy(x: Option<int>) {
    x.Some? && x.value != 0
  }

  function ComputeNext(oracle: CronOracle, s: Schedule, now: int): Option<int> {
    match s.kind
    case At => if Truthy(s.atMs) && s.atMs.value > now then s.atMs else None
    case Every => if s.everyMs.None? || s.everyMs.value <= 0 then None else Some(now + s.everyMs.value)
    case CronExpr => if s.expr.Some? && s.expr.value != "" then oracle(s, now) else None
  }

  predicate Due(j: Job, now: int) {
    j.enabled && Truthy(j.next) && now >= j.next.value
  }

  function DueJobs(jobs: seq<Job>, now: int): seq<Job> {
    if jobs == [] then []
    else
      var n := |jobs| - 1;
      DueJobs(jobs[..n], now) + if Due(jobs[n], now) then [jobs[n]] else []
  }

  // ---------------------------------------------------------------- executing

  predicate Gone(j: Job) {
    j.schedule.kind == At && j.deleteAfterRun
  }

  /** The job after an execution, unless it is deleted. */
  function Ran(oracle: CronOracle, j: Job, r: Reading): Job {
    var after := j.(lastStatus := Some(if r.error.None? then "ok" else "error"), lastError := r.error,
                    lastRun := Some(r.start), updatedAt := r.updated);
    if j.schedule.kind == At then after.(enabled := false, next := None)
    else after.(next := ComputeNext(oracle, j.schedule, r.done))
  }

  /** The store after executing the job with the given id. */
  function ExecuteIn(oracle: CronOracle, jobs: seq<Job>, id: string, r: Reading): seq<Job> {
    if jobs == [] then []
    else
      var n := |jobs| - 1;
      ExecuteIn(oracle, jobs[..n], id, r) +
      if jobs[n].id != id then [jobs[n]]
      else if Gone(jobs[n]) then []
      else [Ran(oracle, jobs[n], r)]
  }

  function ExecuteAll(oracle: CronOracle, jobs: seq<Job>, due: seq<Job>, rs: seq<Reading>): seq<Job>
    requires |due| <= |rs|
  {
    if due == [] then jobs
    else
      var n := |due| - 1;
      ExecuteIn(oracle, ExecuteAll(oracle, jobs, due[..n], rs), due[n].id, rs[n])
  }

  function Fires(due: seq<Job>, rs: seq<Reading>): (f: seq<Fire>)
    requires |due| <= |rs|
    ensures |f| == |due|
    ensures forall i :: 0 <= i < |due| ==> f[i] == Fire(due[i].id, rs[i].start)
  {
    seq(|due|, i requires 0 <= i < |due| => Fire(due[i].id, rs[i].start))
  }

  /** Readings of executions one after the other, none before `now`. */
  predicate InOrder(now: int, rs: seq<Reading>) {
    && (forall i :: 0 <= i < |rs| ==> now <= rs[i].start <= rs[i].updated <= rs[i].done)
    && (forall i, k :: 0 <= i < k < |rs| ==> rs[i].done <= rs[k].start)
  }

  function LastReading(now: int, rs: seq<Reading>): int {
    if rs == [] then now else rs[|rs| - 1].done
  }

  // ---------------------------------------------------------------- the timer

  /** The earliest next run over the enabled jobs. */
  function NextWake(jobs: seq<Job>): Option<int> {
    if jobs == [] then None
    else
      var n := |jobs| - 1;
      var before := NextWake(jobs[..n]);
      if !jobs[n].enabled || !Truthy(jobs[n].next) then before
      else if before.None? then jobs[n].next
      else Some(Min(before.value, jobs[n].next.value))
  }

  function Arm(s: State): State {
    s.(armed := if s.running && s.store.Some? then NextWake(s.store.value) else None)
  }

  /** Write the store to disk and arm the timer. */
  function Commit(s: State, jobs: seq<Job>): State {
    Arm(s.(store := Some(jobs), disk := jobs))
  }

  function Loaded(s: State): seq<Job> {
    if s.store.Some? then s.store.value else s.disk
  }

  function Recomputed(oracle: CronOracle, jobs: seq<Job>, now: int): (r: seq<Job>)
    ensures |r| == |jobs|
    ensures forall i :: 0 <= i < |jobs| ==>
      r[i] == if jobs[i].enabled then jobs[i].(next := ComputeNext(oracle, jobs[i].schedule, now)) else jobs[i]
  {
    seq(|jobs|, i requires 0 <= i < |jobs| =>
      if jobs[i].enabled then jobs[i].(next := ComputeNext(oracle, jobs[i].schedule, now)) else jobs[i])
  }

  function Without(jobs: seq<Job>, id: string): seq<Job> {
    if jobs == [] then []
    else
      var n := |jobs| - 1;
      Without(jobs[..n], id) + if jobs[n].id == id then [] else [jobs[n]]
  }

  /** The position of the first job with the id, or |jobs|. */
  function IndexOf(jobs: seq<Job>, id: string): (k: nat)
    ensures k <= |jobs|
    ensures k < |jobs| ==> jobs[k].id == id
    ensures forall i :: 0 <= i < k ==> jobs[i].id != id
  {
    if jobs == [] then 0 else if jobs[0].id == id then 0 else 1 + IndexOf(jobs[1..], id)
  }

  function Toggled(oracle: CronOracle, j: Job, enabled: bool, now: int): Job {
    j.(enabled := enabled, updatedAt := now,
       next := if enabled then ComputeNext(oracle, j.schedule, now) else None)
  }

  /** A new process on the same disk. */
  function Dead(s: State): State {
    s.(store := None, running := false, armed := None)
  }

  /** A time zone is allowed for cron expressions only, and must be a known one. */
  predicate ValidForAdd(s: Schedule, zoneKnown: bool) {
    s.tz.Some? && s.tz.value != "" ==> s.kind == CronExpr && zoneKnown
  }

  /** What the readings of an event must be, for the clock to be one that never goes back. */
  predicate Possible(s: State, e: Event) {
    match e
    case Start(now) => s.clock <= now
    case Add(job, _, now) => s.clock <= now && job.id !in s.schedules
    case Enable(_, _, now) => s.clock <= now
    case RunNow(_, _, r) => s.clock <= r.start <= r.updated <= r.done
    case Tick(now, rs) => s.clock <= now && s.armed.Some? && s.running && |rs| == |DueJobs(Loaded(s), now)| && InOrder(now, rs)
    case CrashInTick(now, rs) => s.clock <= now && s.armed.Some? && s.running && |rs| <= |DueJobs(Loaded(s), now)| && InOrder(now, rs)
    case Wait(now) => s.clock <= now
    case _ => true
  }

  function Apply(oracle: CronOracle, s: State, e: Event): State {
    if !Possible(s, e) then s else
    match e
    case Start(now) => Commit(s.(running := true, clock := now), Recomputed(oracle, Loaded(s), now))
    case Stop => s.(running := false, armed := None)
    case Add(job, zoneKnown, now) =>
      if !ValidForAdd(job.schedule, zoneKnown) then s.(store := Some(Loaded(s)), clock := now) else
      var fresh_ := job.(enabled := true, next := ComputeNext(oracle, job.schedule, now),
                         lastRun := None, lastStatus := None, lastError := None, createdAt := now, updatedAt := now);
      Commit(s.(clock := now, schedules := s.schedules[job.id := job.schedule]), Loaded(s) + [fresh_])
    case Remove(id) =>
      var jobs := Loaded(s);
      var left := Without(jobs, id);
      if |left| < |jobs| then Commit(s, left) else s.(store := Some(jobs))
    case Enable(id, enabled, now) =>
      var jobs := Loaded(s);
      var k := IndexOf(jobs, id);
      if k == |jobs| then s.(store := Some(jobs), clock := now)
      else Commit(s.(clock := now), jobs[k := Toggled(oracle, jobs[k], enabled, now)])
    case RunNow(id, force, r) =>
      var jobs := Loaded(s);
      var k := IndexOf(jobs, id);
      if k == |jobs| || (!force && !jobs[k].enabled) then s.(store := Some(jobs))
      else Commit(s.(clock := r.done), ExecuteIn(oracle, jobs, id, r))
    case Tick(now, rs) =>
      var jobs := Loaded(s);
      var due := DueJobs(jobs, now);
      Commit(s.(clock := LastReading(now, rs), fires := s.fires + Fires(due, rs)),
             ExecuteAll(oracle, jobs, due, rs))
    case CrashInTick(now, rs) =>
      Dead(s.(clock := LastReading(now, rs),
              fires := s.fires + Fires(DueJobs(Loaded(s), now)[..|rs|], rs)))
    case Crash => Dead(s)
    case Wait(now) => s.(clock := now)
  }

  function Run(oracle: CronOracle, s: State, events: seq<Event>): State {
    if events == [] then s
    else Apply(oracle, Run(oracle, s, events[..|events| - 1]), events[|events| - 1])
  }

  function Initial(now: int): State {
    State(None, [], false, None, now, [], map[])
  }

  // ---------------------------------------------------------------- invariant

  /** When a job that fired at `start` may fire again: never, a period later, or later. */
  predicate Allowed(s: Schedule, start: int, again: int) {
    match s.kind
    case At => false
    case Every => s.everyMs.Some? && s.everyMs.value > 0 && again >= start + s.everyMs.value
    case CronExpr => again > start
  }

  ghost predicate Unique(jobs: seq<Job>) {
    forall i, k :: 0 <= i < k < |jobs| ==> jobs[i].id != jobs[k].id
  }

  /** A stored job has its registered schedule; a one-shot job only ever waits for its time. */
  ghost predicate JobOk(s: State, j: Job) {
    && j.id in s.schedules && s.schedules[j.id] == j.schedule
    && (j.schedule.kind == At && j.next.Some? ==> j.next == j.schedule.atMs)
  }

  /** In a running service, what an enabled job waits for respects all its earlier fires. */
  ghost predicate WaitOk(s: State, j: Job) {
    forall i :: 0 <= i < |s.fires| && s.fires[i].id == j.id && j.enabled && j.next.Some? ==>
      Allowed(j.schedule, s.fires[i].start, j.next.value)
  }

  ghost predicate FireOk(s: State, f: Fire) {
    && f.id in s.schedules
    && f.start <= s.clock
    && var sched := s.schedules[f.id];
       sched.kind == At ==> sched.atMs.Some? && sched.atMs.value <= f.start
  }

  /** No one-shot job twice; periodic jobs at least a period apart. */
  ghost predicate Spaced(s: State) {
    forall i, k :: 0 <= i < k < |s.fires| && s.fires[i].id == s.fires[k].id && s.fires[i].id in s.schedules ==>
      Allowed(s.schedules[s.fires[i].id], s.fires[i].start, s.fires[k].start)
  }

  ghost predicate Inv(s: State) {
    && Unique(s.disk) && (forall j :: j in s.disk ==> JobOk(s, j))
    && (s.store.Some? ==> Unique(s.store.value) && forall j :: j in s.store.value ==> JobOk(s, j))
    && (s.running ==> s.store.Some? && forall j :: j in s.store.value ==> WaitOk(s, j))
    && s.armed == (if s.running then NextWake(s.store.value) else None)
    && (forall i :: 0 <= i < |s.fires| ==> FireOk(s, s.fires[i]))
    && Spaced(s)
  }

  // ---------------------------------------------------------------- the store after executions

  lemma UniqueSnoc(jobs: seq<Job>, j: Job)
    ensures Unique(jobs + [j]) <==> Unique(jobs) && forall x :: x in jobs ==> x.id != j.id
  {
    var more := jobs + [j];
    if Unique(more) {
      assert forall i :: 0 <= i < |jobs| ==> more[i] == jobs[i] && more[|jobs|] == j;
    }
  }

  /** What executing job `id` makes of one job. */
  predicate Becomes(oracle: CronOracle, x: Job, id: string, r: Reading, j: Job) {
    if x.id != id then j == x else !Gone(x) && j == Ran(oracle, x, r)
  }

  /** Executing a job replaces or deletes it and leaves the others alone. */
  lemma {:induction false} ExecuteInMembers(oracle: CronOracle, jobs: seq<Job>, id: string, r: Reading, j: Job)
    ensures j in ExecuteIn(oracle, jobs, id, r) <==> exists x :: x in jobs && Becomes(oracle, x, id, r, j)
  {
    if jobs != [] {
      var n := |jobs| - 1;
      ExecuteInMembers(oracle, jobs[..n], id, r, j);
      assert forall x :: x in jobs <==> x in jobs[..n] || x == jobs[n];
      assert j in ExecuteIn(oracle, jobs, id, r) <==>
        j in ExecuteIn(oracle, jobs[..n], id, r) || Becomes(oracle, jobs[n], id, r, j);
    }
  }

  lemma {:induction false} ExecuteInUnique(oracle: CronOracle, jobs: seq<Job>, id: string, r: Reading)
    requires Unique(jobs)
    ensures Unique(ExecuteIn(oracle, jobs, id, r))
  {
    if jobs != [] {
      var n := |jobs| - 1;
      var front := jobs[..n];
      assert jobs == front + [jobs[n]];
      UniqueSnoc(front, jobs[n]);
      ExecuteInUnique(oracle, front, id, r);
      var before := ExecuteIn(oracle, front, id, r);
      forall j | j in before ensures j.id != jobs[n].id {
        ExecuteInMembers(oracle, front, id, r, j);
      }
      UniqueSnoc(before, jobs[n]);
      UniqueSnoc(before, Ran(oracle, jobs[n], r));
      assert before + [] == before;
    }
  }

  ghost predicate Mentions(due: seq<Job>, id: string) {
    exists i :: 0 <= i < |due| && due[i].id == id
  }

  /** What executing all the due jobs makes of one job. */
  ghost predicate EndsAs(oracle: CronOracle, due: seq<Job>, rs: seq<Reading>, x: Job, j: Job)
    requires |due| <= |rs|
  {
    || (j == x && !Mentions(due, x.id))
    || (exists i :: 0 <= i < |due| && due[i].id == x.id && !Gone(x) && j == Ran(oracle, x, rs[i]))
  }

  lemma EndsAsSnoc(oracle: CronOracle, due: seq<Job>, rs: seq<Reading>, x: Job, j: Job)
    requires due != [] && |due| <= |rs| && Unique(due)
    ensures var n := |due| - 1;
      (exists y :: EndsAs(oracle, due[..n], rs, x, y) && Becomes(oracle, y, due[n].id, rs[n], j))
      <==> EndsAs(oracle, due, rs, x, j)
  {
    var n := |due| - 1;
    var front := due[..n];
    assert forall i :: 0 <= i < n ==> front[i] == due[i] && due[i].id != due[n].id;
    if x.id == due[n].id {
      assert due[n].id == x.id && !Mentions(front, x.id);
      assert EndsAs(oracle, front, rs, x, x);
    } else {
      assert Mentions(due, x.id) <==> Mentions(front, x.id) by {
        if Mentions(due, x.id) { var i :| 0 <= i < |due| && due[i].id == x.id; assert front[i].id == x.id; }
        if Mentions(front, x.id) { var i :| 0 <= i < n && front[i].id == x.id; assert due[i].id == x.id; }
      }
      if EndsAs(oracle, due, rs, x, j) { assert EndsAs(oracle, front, rs, x, j); }
    }
  }

  /** Executing the due jobs one by one: each runs once, with its own readings, and every other
      job is untouched. */
  lemma {:induction false} ExecuteAllMembers(oracle: CronOracle, jobs: seq<Job>, due: seq<Job>, rs: seq<Reading>, j: Job)
    requires |due| <= |rs| && Unique(due)
    ensures j in ExecuteAll(oracle, jobs, due, rs) <==> exists x :: x in jobs && EndsAs(oracle, due, rs, x, j)
  {
    if due == [] {
      assert forall x :: EndsAs(oracle, due, rs, x, j) <==> x == j;
    } else {
      var n := |due| - 1;
      var before := ExecuteAll(oracle, jobs, due[..n], rs);
      ExecuteInMembers(oracle, before, due[n].id, rs[n], j);
      forall y ensures y in before <==> exists x :: x in jobs && EndsAs(oracle, due[..n], rs, x, y) {
        ExecuteAllMembers(oracle, jobs, due[..n], rs, y);
      }
      forall x
        ensures (exists y :: EndsAs(oracle, due[..n], rs, x, y) && Becomes(oracle, y, due[n].id, rs[n], j))
          <==> EndsAs(oracle, due, rs, x, j)
      {
        EndsAsSnoc(oracle, due, rs, x, j);
      }
    }
  }

  lemma {:induction false} ExecuteAllUnique(oracle: CronOracle, jobs: seq<Job>, due: seq<Job>, rs: seq<Reading>)
    requires |due| <= |rs| && Unique(jobs)
    ensures Unique(ExecuteAll(oracle, jobs, due, rs))
  {
    if due != [] {
      var n := |due| - 1;
      ExecuteAllUnique(oracle, jobs, due[..n], rs);
      ExecuteInUnique(oracle, ExecuteAll(oracle, jobs, due[..n], rs), due[n].id, rs[n]);
    }
  }

  lemma {:induction false} DueJobsMembers(jobs: seq<Job>, now: int)
    ensures forall j :: j in DueJobs(jobs, now) <==> j in jobs && Due(j, now)
    ensures Unique(jobs) ==> Unique(DueJobs(jobs, now))
  {
    if jobs != [] {
      var n := |jobs| - 1;
      var front := jobs[..n];
      DueJobsMembers(front, now);
      assert jobs == front + [jobs[n]];
      UniqueSnoc(front, jobs[n]);
      UniqueSnoc(DueJobs(front, now), jobs[n]);
      assert forall j :: j in jobs <==> j in front || j == jobs[n];
    }
  }

  /** What the armed wake is: the least next run of the enabled jobs, if there is one. */
  lemma {:induction false} NextWakeIsEarliest(jobs: seq<Job>)
    ensures NextWake(jobs).None? <==> forall j :: j in jobs && j.enabled ==> !Truthy(j.next)
    ensures NextWake(jobs).Some? ==> exists j :: j in jobs && j.enabled && Truthy(j.next) && j.next == NextWake(jobs)
    ensures NextWake(jobs).Some? ==>
              forall j :: j in jobs && j.enabled && Truthy(j.next) ==> NextWake(jobs).value <= j.next.value
  {
    if jobs != [] {
      var n := |jobs| - 1;
      NextWakeIsEarliest(jobs[..n]);
      assert forall j :: j in jobs <==> j in jobs[..n] || j == jobs[n];
    }
  }

  lemma {:induction false} WithoutMembers(jobs: seq<Job>, id: string)
    ensures forall j :: j in Without(jobs, id) <==> j in jobs && j.id != id
    ensures Unique(jobs) ==> Unique(Without(jobs, id))
  {
    if jobs != [] {
      var n := |jobs| - 1;
      var front := jobs[..n];
      WithoutMembers(front, id);
      assert jobs == front + [jobs[n]];
      UniqueSnoc(front, jobs[n]);
      UniqueSnoc(Without(front, id), jobs[n]);
      assert Without(front, id) + [] == Without(front, id);
      assert forall j :: j in jobs <==> j in front || j == jobs[n];
    }
  }

  // ---------------------------------------------------------------- every step keeps it

  ghost predicate JobsOk(s: State, jobs: seq<Job>) {
    Unique(jobs) && (forall j :: j in jobs ==> JobOk(s, j))
  }

  ghost predicate WaitsOk(s: State, jobs: seq<Job>) {
    forall j :: j in jobs ==> WaitOk(s, j)
  }

  ghost predicate FiresOk(s: State) {
    (forall i :: 0 <= i < |s.fires| ==> FireOk(s, s.fires[i])) && Spaced(s)
  }

  /** Recomputing a schedule after a fire respects it: a one-shot time that has passed yields
      nothing, a period starts afresh. */
  lemma RecomputeRespectsFire(oracle: CronOracle, s: Schedule, start: int, now: int)
    requires start <= now
    requires s.kind == At ==> s.atMs.Some? && s.atMs.value <= start
    ensures ComputeNext(oracle, s, now).Some? ==> Allowed(s, start, ComputeNext(oracle, s, now).value)
  {
  }

  lemma RecomputedJobOk(oracle: CronOracle, s: State, j: Job, now: int)
    requires JobOk(s, j) && FiresOk(s) && s.clock <= now
    requires j.next == ComputeNext(oracle, j.schedule, now)
    ensures WaitOk(s, j)
  {
    forall i | 0 <= i < |s.fires| && s.fires[i].id == j.id && j.enabled && j.next.Some?
      ensures Allowed(j.schedule, s.fires[i].start, j.next.value)
    {
      assert FireOk(s, s.fires[i]);
      RecomputeRespectsFire(oracle, j.schedule, s.fires[i].start, now);
    }
  }

  lemma CommitKeeps(s: State, jobs: seq<Job>)
    requires JobsOk(s, jobs) && (s.running ==> WaitsOk(s, jobs)) && FiresOk(s)
    ensures Inv(Commit(s, jobs))
  {
    var s' := Commit(s, jobs);
    assert forall j :: JobOk(s', j) <==> JobOk(s, j);
    assert forall j :: WaitOk(s', j) <==> WaitOk(s, j);
    assert forall f :: FireOk(s', f) <==> FireOk(s, f);
  }

  /** Time passing changes no verdict about jobs. */
  lemma LaterIsFine(s: State, now: int)
    requires FiresOk(s) && s.clock <= now
    ensures FiresOk(s.(clock := now))
    ensures forall j :: JobOk(s.(clock := now), j) <==> JobOk(s, j)
    ensures forall j :: WaitOk(s.(clock := now), j) <==> WaitOk(s, j)
  {
    var s' := s.(clock := now);
    forall i | 0 <= i < |s'.fires| ensures FireOk(s', s'.fires[i]) { assert FireOk(s, s.fires[i]); }
  }

  lemma LoadedOk(s: State)
    requires Inv(s)
    ensures JobsOk(s, Loaded(s)) && (s.running ==> WaitsOk(s, Loaded(s))) && FiresOk(s)
  {
  }

  lemma StartKeeps(oracle: CronOracle, s: State, now: int)
    requires Inv(s) && s.clock <= now
    ensures Inv(Apply(oracle, s, Start(now)))
  {
    var jobs := Loaded(s);
    var jobs' := Recomputed(oracle, jobs, now);
    LoadedOk(s);
    LaterIsFine(s, now);
    var s1 := s.(running := true, clock := now);
    assert FiresOk(s1);
    forall j | j in jobs' ensures JobOk(s1, j) && WaitOk(s1, j) {
      var i :| 0 <= i < |jobs'| && jobs'[i] == j;
      assert jobs[i] in jobs && JobOk(s, jobs[i]);
      assert JobOk(s1, j);
      if j.enabled { RecomputedJobOk(oracle, s1, j, now); }
    }
    CommitKeeps(s1, jobs');
  }

  lemma AddKeeps(oracle: CronOracle, s: State, job: Job, zoneKnown: bool, now: int)
    requires Inv(s) && Possible(s, Add(job, zoneKnown, now))
    ensures Inv(Apply(oracle, s, Add(job, zoneKnown, now)))
  {
    LoadedOk(s);
    LaterIsFine(s, now);
    if ValidForAdd(job.schedule, zoneKnown) {
      var jobs := Loaded(s);
      var fresh_ := job.(enabled := true, next := ComputeNext(oracle, job.schedule, now),
                         lastRun := None, lastStatus := None, lastError := None, createdAt := now, updatedAt := now);
      var s1 := s.(clock := now, schedules := s.schedules[job.id := job.schedule]);
      forall j | j in jobs ensures j.id != job.id && JobOk(s1, j) && (s.running ==> WaitOk(s1, j)) {
        assert JobOk(s, j);
        assert s.running ==> WaitOk(s, j);
      }
      forall i | 0 <= i < |s1.fires| ensures s1.fires[i].id != job.id && FireOk(s1, s1.fires[i]) {
        assert FireOk(s, s.fires[i]);
      }
      UniqueSnoc(jobs, fresh_);
      assert JobOk(s1, fresh_) && WaitOk(s1, fresh_);
      CommitKeeps(s1, jobs + [fresh_]);
    }
  }

  lemma RemoveKeeps(oracle: CronOracle, s: State, id: string)
    requires Inv(s)
    ensures Inv(Apply(oracle, s, Remove(id)))
  {
    LoadedOk(s);
    WithoutMembers(Loaded(s), id);
    CommitKeeps(s, Without(Loaded(s), id));
  }

  lemma EnableKeeps(oracle: CronOracle, s: State, id: string, enabled: bool, now: int)
    requires Inv(s) && s.clock <= now
    ensures Inv(Apply(oracle, s, Enable(id, enabled, now)))
  {
    LoadedOk(s);
    LaterIsFine(s, now);
    var jobs := Loaded(s);
    var k := IndexOf(jobs, id);
    if k < |jobs| {
      var j := Toggled(oracle, jobs[k], enabled, now);
      var s1 := s.(clock := now);
      assert JobOk(s, jobs[k]);
      assert JobOk(s1, j);
      if enabled { RecomputedJobOk(oracle, s1, j, now); }
      assert WaitOk(s1, j);
      assert forall x :: x in jobs[k := j] ==> x == j || x in jobs;
      CommitKeeps(s1, jobs[k := j]);
    }
  }

  lemma RunNowKeeps(oracle: CronOracle, s: State, id: string, force: bool, r: Reading)
    requires Inv(s) && Possible(s, RunNow(id, force, r))
    ensures Inv(Apply(oracle, s, RunNow(id, force, r)))
  {
    LoadedOk(s);
    LaterIsFine(s, r.done);
    var jobs := Loaded(s);
    var jobs' := ExecuteIn(oracle, jobs, id, r);
    var s1 := s.(clock := r.done);
    ExecuteInUnique(oracle, jobs, id, r);
    forall j | j in jobs' ensures JobOk(s1, j) && (s.running ==> WaitOk(s1, j)) {
      ExecuteInMembers(oracle, jobs, id, r, j);
      var x :| x in jobs && Becomes(oracle, x, id, r, j);
      assert JobOk(s, x) && JobOk(s1, j);
      if x.id == id && j.schedule.kind != At { RecomputedJobOk(oracle, s1, j, r.done); }
    }
    CommitKeeps(s1, jobs');
  }

  // ---------------------------------------------------------------- the tick

  ghost function Fired(s: State, now: int, due: seq<Job>, rs: seq<Reading>): State
    requires |due| <= |rs|
  {
    s.(clock := LastReading(now, rs), fires := s.fires + Fires(due, rs))
  }

  /** The fires of a tick, or of the part of it that ran before a crash, are spaced as they should be. */
  lemma TickFiresOk(s: State, now: int, due: seq<Job>, rs: seq<Reading>)
    requires Inv(s) && s.running && s.clock <= now && |due| == |rs| && InOrder(now, rs)
    requires Unique(due) && forall j :: j in due ==> j in s.store.value && Due(j, now)
    ensures FiresOk(Fired(s, now, due, rs))
    ensures s.clock <= now <= LastReading(now, rs)
  {
    var s' := Fired(s, now, due, rs);
    var m := |s.fires|;
    assert forall i :: 0 <= i < |rs| ==> rs[i].start <= LastReading(now, rs);
    forall i | 0 <= i < |s'.fires| ensures FireOk(s', s'.fires[i]) {
      if i < m { assert FireOk(s, s.fires[i]); } else { assert due[i - m] in due && JobOk(s, due[i - m]); }
    }
    forall i, k | m <= i < k < |s'.fires| ensures s'.fires[i].id != s'.fires[k].id {
      assert due[i - m].id != due[k - m].id;
    }
    forall i, k | 0 <= i < m <= k < |s'.fires| && s'.fires[i].id == s'.fires[k].id
      ensures Allowed(s'.schedules[s'.fires[i].id], s'.fires[i].start, s'.fires[k].start)
    {
      var x := due[k - m];
      assert x in due && WaitOk(s, x) && JobOk(s, x);
      assert Allowed(x.schedule, s.fires[i].start, x.next.value);
    }
  }

  lemma TickKeeps(oracle: CronOracle, s: State, now: int, rs: seq<Reading>)
    requires Inv(s) && Possible(s, Tick(now, rs))
    ensures Inv(Apply(oracle, s, Tick(now, rs)))
  {
    var jobs := Loaded(s);
    var due := DueJobs(jobs, now);
    var jobs' := ExecuteAll(oracle, jobs, due, rs);
    var s1 := Fired(s, now, due, rs);
    LoadedOk(s);
    DueJobsMembers(jobs, now);
    TickFiresOk(s, now, due, rs);
    ExecuteAllUnique(oracle, jobs, due, rs);
    forall j | j in jobs' ensures JobOk(s1, j) && WaitOk(s1, j) {
      ExecuteAllMembers(oracle, jobs, due, rs, j);
      var x :| x in jobs && EndsAs(oracle, due, rs, x, j);
      assert JobOk(s, x) && WaitOk(s, x);
      TickedJobOk(oracle, s, now, due, rs, x, j);
    }
    CommitKeeps(s1, jobs');
  }

  lemma TickedJobOk(oracle: CronOracle, s: State, now: int, due: seq<Job>, rs: seq<Reading>, x: Job, j: Job)
    requires |due| == |rs| && InOrder(now, rs) && Unique(due) && s.clock <= now
    requires FiresOk(s) && FiresOk(Fired(s, now, due, rs))
    requires JobOk(s, x) && WaitOk(s, x) && EndsAs(oracle, due, rs, x, j)
    ensures JobOk(Fired(s, now, due, rs), j) && WaitOk(Fired(s, now, due, rs), j)
  {
    if j == x && !Mentions(due, x.id) {
      UntouchedJobOk(s, now, due, rs, x);
    } else {
      var d :| 0 <= d < |due| && due[d].id == x.id && j == Ran(oracle, x, rs[d]);
      RanJobOk(oracle, s, now, due, rs, x, d);
    }
  }

  lemma UntouchedJobOk(s: State, now: int, due: seq<Job>, rs: seq<Reading>, x: Job)
    requires |due| == |rs| && JobOk(s, x) && WaitOk(s, x) && !Mentions(due, x.id)
    ensures JobOk(Fired(s, now, due, rs), x) && WaitOk(Fired(s, now, due, rs), x)
  {
    var s1 := Fired(s, now, due, rs);
    forall i | |s.fires| <= i < |s1.fires| ensures s1.fires[i].id != x.id {
      assert due[i - |s.fires|].id != x.id;
    }
  }

  lemma RanJobOk(oracle: CronOracle, s: State, now: int, due: seq<Job>, rs: seq<Reading>, x: Job, d: nat)
    requires |due| == |rs| && InOrder(now, rs) && Unique(due) && s.clock <= now
    requires FiresOk(s) && FiresOk(Fired(s, now, due, rs)) && JobOk(s, x)
    requires d < |due| && due[d].id == x.id
    ensures JobOk(Fired(s, now, due, rs), Ran(oracle, x, rs[d])) && WaitOk(Fired(s, now, due, rs), Ran(oracle, x, rs[d]))
  {
    var s1, j, m := Fired(s, now, due, rs), Ran(oracle, x, rs[d]), |s.fires|;
    forall i | 0 <= i < |s1.fires| && s1.fires[i].id == j.id && j.enabled && j.next.Some?
      ensures Allowed(j.schedule, s1.fires[i].start, j.next.value)
    {
      assert FireOk(s1, s1.fires[i]);
      if i < m {
        assert FireOk(s, s.fires[i]);
      } else {
        assert due[i - m].id == due[d].id;
      }
      RecomputeRespectsFire(oracle, x.schedule, s1.fires[i].start, rs[d].done);
    }
  }

  lemma CrashInTickKeeps(oracle: CronOracle, s: State, now: int, rs: seq<Reading>)
    requires Inv(s) && Possible(s, CrashInTick(now, rs))
    ensures Inv(Apply(oracle, s, CrashInTick(now, rs)))
  {
    var due := DueJobs(Loaded(s), now);
    DueJobsMembers(Loaded(s), now);
    var ran := due[..|rs|];
    assert forall j :: j in ran ==> j in due;
    TickFiresOk(s, now, ran, rs);
    DeadKeeps(Fired(s, now, ran, rs));
  }

  lemma DeadKeeps(s: State)
    requires JobsOk(s, s.disk) && FiresOk(s)
    ensures Inv(Dead(s))
  {
    var s' := Dead(s);
    assert forall j :: JobOk(s', j) <==> JobOk(s, j);
    assert forall f :: FireOk(s', f) <==> FireOk(s, f);
  }

  lemma StepKeepsInv(oracle: CronOracle, s: State, e: Event)
    requires Inv(s)
    ensures Inv(Apply(oracle, s, e))
  {
    if Possible(s, e) {
      match e
      case Start(now) => StartKeeps(oracle, s, now);
      case Stop =>
        var s' := Apply(oracle, s, e);
        assert forall f :: FireOk(s', f) <==> FireOk(s, f);
        assert forall j :: JobOk(s', j) <==> JobOk(s, j);
      case Add(job, zoneKnown, now) => AddKeeps(oracle, s, job, zoneKnown, now);
      case Remove(id) => RemoveKeeps(oracle, s, id);
      case Enable(id, enabled, now) => EnableKeeps(oracle, s, id, enabled, now);
      case RunNow(id, force, r) => RunNowKeeps(oracle, s, id, force, r);
      case Tick(now, rs) => TickKeeps(oracle, s, now, rs);
      case CrashInTick(now, rs) => CrashInTickKeeps(oracle, s, now, rs);
      case Crash => DeadKeeps(s);
      case Wait(now) => LaterIsFine(s, now);
    }
  }

  lemma {:induction false} RunKeepsInv(oracle: CronOracle, now: int, events: seq<Event>)
    ensures Inv(Run(oracle, Initial(now), events))
  {
    if events != [] {
      RunKeepsInv(oracle, now, events[..|events| - 1]);
      StepKeepsInv(oracle, Run(oracle, Initial(now), events[..|events| - 1]), events[|events| - 1]);
    }
  }

  // ---------------------------------------------------------------- main results

  /** Over every run of ticks, service calls, manual runs, crashes at any point of a tick and
      restarts: the timer starts a one-shot job at most once, never before its time, and starts
      a periodic job again only a full period after its previous start. */
  lemma FiresOfEveryRun(oracle: CronOracle, now: int, events: seq<Event>, i: nat, k: nat)
    requires var s := Run(oracle, Initial(now), events);
      i < |s.fires| && k < |s.fires| && s.fires[i].id == s.fires[k].id
    ensures var s := Run(oracle, Initial(now), events);
      var id := s.fires[i].id;
      && id in s.schedules
      && var sched := s.schedules[id];
      && (sched.kind == At ==> i == k && sched.atMs.Some? && s.fires[i].start >= sched.atMs.value)
      && (sched.kind == Every && i < k ==>
            sched.everyMs.Some? && sched.everyMs.value > 0
            && s.fires[k].start - s.fires[i].start >= sched.everyMs.value)
      && (sched.kind == CronExpr && i < k ==> s.fires[k].start > s.fires[i].start)
  {
    RunKeepsInv(oracle, now, events);
    var s := Run(oracle, Initial(now), events);
    assert FireOk(s, s.fires[i]) && FireOk(s, s.fires[k]);
    if i < k { assert Allowed(s.schedules[s.fires[i].id], s.fires[i].start, s.fires[k].start); }
    if k < i { assert Allowed(s.schedules[s.fires[i].id], s.fires[k].start, s.fires[i].start); }
  }

  lemma MentionedIffDue(jobs: seq<Job>, now: int, x: Job)
    requires Unique(jobs) && x in jobs
    ensures Mentions(DueJobs(jobs, now), x.id) <==> Due(x, now)
  {
    var due := DueJobs(jobs, now);
    DueJobsMembers(jobs, now);
    if Mentions(due, x.id) {
      var i :| 0 <= i < |due| && due[i].id == x.id;
      assert due[i] in due;
      var a :| 0 <= a < |jobs| && jobs[a] == due[i];
      var b :| 0 <= b < |jobs| && jobs[b] == x;
      assert a == b;
    }
    if x in due {
      var i :| 0 <= i < |due| && due[i] == x;
      assert due[i].id == x.id;
    }
  }

  lemma NoneDueAfter(oracle: CronOracle, jobs: seq<Job>, now: int, rs: seq<Reading>, j: Job)
    requires Unique(jobs) && |rs| == |DueJobs(jobs, now)| && InOrder(now, rs)
    requires j in ExecuteAll(oracle, jobs, DueJobs(jobs, now), rs)
    ensures !Due(j, now)
  {
    var due := DueJobs(jobs, now);
    DueJobsMembers(jobs, now);
    ExecuteAllMembers(oracle, jobs, due, rs, j);
    var x :| x in jobs && EndsAs(oracle, due, rs, x, j);
    MentionedIffDue(jobs, now, x);
    if Due(x, now) {
      var i :| 0 <= i < |due| && due[i].id == x.id && j == Ran(oracle, x, rs[i]);
      RanIsLater(oracle, x, rs[i], now);
    }
  }

  lemma RanIsLater(oracle: CronOracle, x: Job, r: Reading, now: int)
    requires now <= r.done
    ensures !Due(Ran(oracle, x, r), now)
  {
  }

  lemma OthersUntouched(oracle: CronOracle, jobs: seq<Job>, now: int, rs: seq<Reading>, j: Job)
    requires Unique(jobs) && |rs| == |DueJobs(jobs, now)|
    requires j in jobs && !Due(j, now)
    ensures j in ExecuteAll(oracle, jobs, DueJobs(jobs, now), rs)
  {
    var due := DueJobs(jobs, now);
    DueJobsMembers(jobs, now);
    MentionedIffDue(jobs, now, j);
    assert EndsAs(oracle, due, rs, j, j);
    ExecuteAllMembers(oracle, jobs, due, rs, j);
  }

  /** A tick starts every due job once, in store order; afterwards no enabled job is due at the
      tick's time, jobs that were not due are untouched, and the timer is armed for the earliest
      next run. */
  lemma TickRunsTheDueJobs(oracle: CronOracle, s: State, now: int, rs: seq<Reading>)
    requires Inv(s) && Possible(s, Tick(now, rs))
    ensures var s' := Apply(oracle, s, Tick(now, rs));
      var due := DueJobs(s.store.value, now);
      && s'.store.Some? && s'.disk == s'.store.value && s'.armed == NextWake(s'.store.value)
      && s'.fires == s.fires + Fires(due, rs)
      && (forall j :: j in s'.store.value ==> !Due(j, now))
      && (forall j :: j in s.store.value && !Due(j, now) ==> j in s'.store.value)
  {
    var jobs := s.store.value;
    var jobs' := ExecuteAll(oracle, jobs, DueJobs(jobs, now), rs);
    forall j | j in jobs' ensures !Due(j, now) { NoneDueAfter(oracle, jobs, now, rs, j); }
    forall j | j in jobs && !Due(j, now) ensures j in jobs' { OthersUntouched(oracle, jobs, now, rs, j); }
  }

  /** In every reachable state a running service is armed for the earliest next run of its
      enabled jobs, and a stopped one is not armed. */
  lemma ArmedForTheEarliest(oracle: CronOracle, now: int, events: seq<Event>)
    ensures var s := Run(oracle, Initial(now), events);
      if !s.running then s.armed.None?
      else
        && s.store.Some?
        && var jobs := s.store.value;
        && (s.armed.None? <==> forall j :: j in jobs && j.enabled ==> !Truthy(j.next))
        && (s.armed.Some? ==> exists j :: j in jobs && j.enabled && j.next == s.armed)
        && (s.armed.Some? ==>
              forall j :: j in jobs && j.enabled && Truthy(j.next) ==> s.armed.value <= j.next.value)
  {
    RunKeepsInv(oracle, now, events);
    var s := Run(oracle, Initial(now), events);
    if s.running { NextWakeIsEarliest(s.store.value); }
  }
}
