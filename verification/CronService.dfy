/** The scheduler as it runs: a store kept in memory and on disk as a JSON document. */
module CronStoreFile {
  import opened Prelude
  import opened Cron

  datatype Json =
    | JNull | JBool(b: bool) | JInt(n: int) | JStr(s: string)
    | JObj(fields: map<string, Json>) | JList(items: seq<Json>)

  function OptInt(x: Option<int>): Json {
    match x case None => JNull case Some(n) => JInt(n)
  }

  function OptStr(x: Option<string>): Json {
    match x case None => JNull case Some(s) => JStr(s)
  }

  function KindName(k: Kind): string {
    match k case At => "at" case Every => "every" case CronExpr => "cron"
  }

  function ScheduleJson(s: Schedule): Json {
    JObj(map["kind" := JStr(KindName(s.kind)), "atMs" := OptInt(s.atMs), "everyMs" := OptInt(s.everyMs),
             "expr" := OptStr(s.expr), "tz" := OptStr(s.tz)])
  }

  function PayloadJson(p: Payload): Json {
    JObj(map["kind" := JStr(p.kind), "message" := JStr(p.message), "deliver" := JBool(p.deliver),
             "channel" := OptStr(p.channel), "to" := OptStr(p.recipient)])
  }

  function StateJson(j: Job): Json {
    JObj(map["nextRunAtMs" := OptInt(j.next), "lastRunAtMs" := OptInt(j.lastRun),
             "lastStatus" := OptStr(j.lastStatus), "lastError" := OptStr(j.lastError)])
  }

  function JobJson(j: Job): Json {
    JObj(map["id" := JStr(j.id), "name" := JStr(j.name), "enabled" := JBool(j.enabled),
             "schedule" := ScheduleJson(j.schedule), "payload" := PayloadJson(j.payload),
             "state" := StateJson(j), "createdAtMs" := JInt(j.createdAt), "updatedAtMs" := JInt(j.updatedAt),
             "deleteAfterRun" := JBool(j.deleteAfterRun)])
  }

  function StoreJson(jobs: seq<Job>): Json {
    JObj(map["version" := JInt(1), "jobs" := JList(seq(|jobs|, i requires 0 <= i < |jobs| => JobJson(jobs[i])))])
  }

  // Reading: `Get` is `dict.get` with a default; values of an unexpected shape read as the default.

  function Get(o: Json, key: string): Json {
    if o.JObj? && key in o.fields then o.fields[key] else JNull
  }

  function AsInt(x: Json, default: int): int {
    if x.JInt? then x.n else default
  }

  function AsBool(x: Json, default: bool): bool {
    if x.JBool? then x.b else default
  }

  function AsStr(x: Json, default: string): string {
    if x.JStr? then x.s else default
  }

  function AsOptInt(x: Json): Option<int> {
    if x.JInt? then Some(x.n) else None
  }

  function AsOptStr(x: Json): Option<string> {
    if x.JStr? then Some(x.s) else None
  }

  function KindOf(name: string): Option<Kind> {
    if name == "at" then Some(At) else if name == "every" then Some(Every)
    else if name == "cron" then Some(CronExpr) else None
  }

  function ReadSchedule(o: Json): Option<Schedule> {
    var kind := KindOf(AsStr(Get(o, "kind"), ""));
    if kind.None? then None else
    Some(Schedule(kind.value, AsOptInt(Get(o, "atMs")), AsOptInt(Get(o, "everyMs")),
                  AsOptStr(Get(o, "expr")), AsOptStr(Get(o, "tz"))))
  }

  function ReadPayload(o: Json): Payload {
    Payload(AsStr(Get(o, "kind"), "agent_turn"), AsStr(Get(o, "message"), ""), AsBool(Get(o, "deliver"), false),
            AsOptStr(Get(o, "channel")), AsOptStr(Get(o, "to")))
  }

  /** None stands for the KeyError of a missing id, name, schedule or payload. */
  function ReadJob(o: Json): Option<Job> {
    var schedule := ReadSchedule(Get(o, "schedule"));
    if !Get(o, "id").JStr? || !Get(o, "name").JStr? || schedule.None? || !Get(o, "payload").JObj? then None else
    var state := Get(o, "state");
    Some(Job(Get(o, "id").s, Get(o, "name").s, AsBool(Get(o, "enabled"), true), schedule.value,
             ReadPayload(Get(o, "payload")), AsOptInt(Get(state, "nextRunAtMs")), AsOptInt(Get(state, "lastRunAtMs")),
             AsOptStr(Get(state, "lastStatus")), AsOptStr(Get(state, "lastError")),
             AsInt(Get(o, "createdAtMs"), 0), AsInt(Get(o, "updatedAtMs"), 0), AsBool(Get(o, "deleteAfterRun"), false)))
  }

  function ReadJobs(items: seq<Json>): Option<seq<Job>> {
    if items == [] then Some([])
    else
      var n := |items| - 1;
      var front, last := ReadJobs(items[..n]), ReadJob(items[n]);
      if front.None? || last.None? then None else Some(front.value + [last.value])
  }

  /** What a job file without the optional keys reads as. */
  lemma MissingKeysReadAsDefaults(id: string, name: string)
    ensures var o := JObj(map["id" := JStr(id), "name" := JStr(name), "schedule" := JObj(map["kind" := JStr("every")]),
                             "payload" := JObj(map[])]);
      ReadJob(o) == Some(Job(id, name, true, Schedule(Every, None, None, None, None),
                             Payload("agent_turn", "", false, None, None), None, None, None, None, 0, 0, false))
  {
  }

  /** A job without an id, a name, a payload or a schedule of a known kind cannot be read. */
  lemma UnreadableJobs(fields: map<string, Json>)
    requires || "id" !in fields || "name" !in fields || "payload" !in fields || "schedule" !in fields
             || !fields["schedule"].JObj? || "kind" !in fields["schedule"].fields
             || fields["schedule"].fields["kind"] !in {JStr("at"), JStr("every"), JStr("cron")}
    ensures ReadJob(JObj(fields)).None?
  {
  }

  /** The document: its version, and the jobs in store order. */
  lemma StoreIsWritten(jobs: seq<Job>)
    ensures var o := StoreJson(jobs);
      && o.JObj? && o.fields.Keys == {"version", "jobs"} && o.fields["version"] == JInt(1) && o.fields["jobs"].JList?
      && |o.fields["jobs"].items| == |jobs| && forall i :: 0 <= i < |jobs| ==> o.fields["jobs"].items[i] == JobJson(jobs[i])
  {
  }

  /** A store that cannot be read counts as empty. */
  function ReadStore(file: Option<Json>): seq<Job> {
    if file.None? || !Get(file.value, "jobs").JList? then [] else
    match ReadJobs(Get(file.value, "jobs").items)
    case None => []
    case Some(jobs) => jobs
  }

  lemma ScheduleRoundTrip(s: Schedule)
    ensures ReadSchedule(ScheduleJson(s)) == Some(s)
  {
  }

  lemma PayloadRoundTrip(p: Payload)
    ensures ReadPayload(PayloadJson(p)) == p
  {
  }

  lemma StateRoundTrip(j: Job)
    ensures var o := StateJson(j);
      && AsOptInt(Get(o, "nextRunAtMs")) == j.next && AsOptInt(Get(o, "lastRunAtMs")) == j.lastRun
      && AsOptStr(Get(o, "lastStatus")) == j.lastStatus && AsOptStr(Get(o, "lastError")) == j.lastError
  {
  }

  lemma JobFields(j: Job)
    ensures var o := JobJson(j);
      && Get(o, "id") == JStr(j.id) && Get(o, "name") == JStr(j.name) && Get(o, "enabled") == JBool(j.enabled)
      && Get(o, "schedule") == ScheduleJson(j.schedule) && Get(o, "payload") == PayloadJson(j.payload)
      && Get(o, "state") == StateJson(j) && Get(o, "createdAtMs") == JInt(j.createdAt)
      && Get(o, "updatedAtMs") == JInt(j.updatedAt) && Get(o, "deleteAfterRun") == JBool(j.deleteAfterRun)
  {
  }

  lemma JobRoundTrip(j: Job)
    ensures ReadJob(JobJson(j)) == Some(j)
  {
    JobFields(j);
    ScheduleRoundTrip(j.schedule);
    PayloadRoundTrip(j.payload);
    StateRoundTrip(j);
  }

  lemma {:induction false} JobsRoundTrip(jobs: seq<Job>, items: seq<Json>)
    requires |items| == |jobs| && forall i :: 0 <= i < |jobs| ==> ReadJob(items[i]) == Some(jobs[i])
    ensures ReadJobs(items) == Some(jobs)
  {
    if jobs != [] {
      var n := |jobs| - 1;
      JobsRoundTrip(jobs[..n], items[..n]);
      assert jobs[..n] + [jobs[n]] == jobs;
    }
  }

  /** Saving and loading the store gives back every job with every field. */
  lemma StoreRoundTrip(jobs: seq<Job>)
    ensures ReadStore(Some(StoreJson(jobs))) == jobs
  {
    var items := Get(StoreJson(jobs), "jobs").items;
    forall i | 0 <= i < |jobs| ensures ReadJob(items[i]) == Some(jobs[i]) { JobRoundTrip(jobs[i]); }
    JobsRoundTrip(jobs, items);
  }
}

/** Each method performs exactly one event of the model, so the invariant and the results about
    runs in module Cron hold of every sequence of calls on a new service. */
module CronRuntime {
  import opened Prelude
  import opened Cron
  import opened CronStoreFile

  class CronService {
    const oracle: CronOracle
    var store: Option<seq<Job>>
    var file: Option<Json>
    var running: bool
    var armed: Option<int>
    ghost var clock: int
    ghost var fires: seq<Fire>
    ghost var schedules: map<string, Schedule>

    ghost function Abs(): State
      reads this
    {
      State(store, ReadStore(file), running, armed, clock, fires, schedules)
    }

    constructor (oracle: CronOracle, ghost now: int)
      ensures this.oracle == oracle && Abs() == Initial(now)
    {
      this.oracle := oracle;
      store, file, running, armed := None, None, false, None;
      clock, fires, schedules := now, [], map[];
    }

    method LoadStore() returns (jobs: seq<Job>)
      modifies this`store
      ensures jobs == Loaded(old(Abs())) && store == Some(jobs)
    {
      if store.None? { store := Some(ReadStore(file)); }
      jobs := store.value;
    }

    method SaveStore()
      requires store.Some?
      modifies this`file
      ensures ReadStore(file) == store.value
    {
      StoreRoundTrip(store.value);
      file := Some(StoreJson(store.value));
    }

    method GetNextWake() returns (wake: Option<int>)
      requires store.Some?
      ensures wake == NextWake(store.value)
    {
      wake := None;
      var jobs := store.value;
      for i := 0 to |jobs|
        invariant wake == NextWake(jobs[..i])
      {
        assert jobs[..i + 1][..i] == jobs[..i];
        if jobs[i].enabled && Truthy(jobs[i].next) {
          wake := if wake.None? then jobs[i].next else Some(Min(wake.value, jobs[i].next.value));
        }
      }
      assert jobs[..|jobs|] == jobs;
    }

    method ArmTimer()
      requires store.Some?
      modifies this`armed
      ensures armed == if running then NextWake(store.value) else None
    {
      armed := None;
      var wake := GetNextWake();
      if wake.None? || !running { return; }
      armed := wake;
    }

    method SaveAndArm()
      requires store.Some?
      modifies this`file, this`armed
      ensures Abs() == Commit(old(Abs()), store.value)
    {
      SaveStore();
      ArmTimer();
    }

    method RecomputeNextRuns(now: int)
      requires store.Some?
      modifies this`store
      ensures store == Some(Recomputed(oracle, old(store.value), now))
    {
      var before := store.value;
      var jobs := before;
      for i := 0 to |jobs|
        invariant |jobs| == |before|
        invariant forall k :: 0 <= k < i ==> jobs[k] == Recomputed(oracle, before, now)[k]
        invariant forall k :: i <= k < |jobs| ==> jobs[k] == before[k]
      {
        if jobs[i].enabled {
          jobs := jobs[i := jobs[i].(next := ComputeNext(oracle, jobs[i].schedule, now))];
        }
      }
      assert jobs == Recomputed(oracle, before, now);
      store := Some(jobs);
    }

    /** `start`: load, recompute every enabled job, save, arm. */
    method Start(now: int)
      requires clock <= now
      modifies this
      ensures Abs() == Apply(oracle, old(Abs()), Event.Start(now))
    {
      running := true;
      clock := now;
      var jobs := LoadStore();
      RecomputeNextRuns(now);
      SaveAndArm();
    }

    method Stop()
      modifies this
      ensures Abs() == Apply(oracle, old(Abs()), Event.Stop)
    {
      running := false;
      armed := None;
    }

    method AddJob(job: Job, zoneKnown: bool, now: int) returns (ok: bool)
      requires clock <= now && job.id !in schedules
      modifies this
      ensures Abs() == Apply(oracle, old(Abs()), Add(job, zoneKnown, now))
      ensures ok == ValidForAdd(job.schedule, zoneKnown)
    {
      var jobs := LoadStore();
      clock := now;
      var s := job.schedule;
      if s.tz.Some? && s.tz.value != "" && s.kind != CronExpr { return false; }
      if s.kind == CronExpr && s.tz.Some? && s.tz.value != "" && !zoneKnown { return false; }
      store := Some(jobs + [job.(enabled := true, next := ComputeNext(oracle, s, now),
        lastRun := None, lastStatus := None, lastError := None, createdAt := now, updatedAt := now)]);
      schedules := schedules[job.id := s];
      SaveAndArm();
      ok := true;
    }

    method Others(jobs: seq<Job>, id: string) returns (left: seq<Job>)
      ensures left == Without(jobs, id)
    {
      left := [];
      for i := 0 to |jobs|
        invariant left == Without(jobs[..i], id)
      {
        assert jobs[..i + 1][..i] == jobs[..i];
        if jobs[i].id != id { left := left + [jobs[i]]; }
      }
      assert jobs[..|jobs|] == jobs;
    }

    method RemoveJob(id: string) returns (removed: bool)
      modifies this
      ensures Abs() == Apply(oracle, old(Abs()), Remove(id))
      ensures removed <==> |Without(Loaded(old(Abs())), id)| < |Loaded(old(Abs()))|
    {
      var jobs := LoadStore();
      var left := Others(jobs, id);
      removed := |left| < |jobs|;
      if removed {
        store := Some(left);
        SaveAndArm();
      }
    }

    /** The loop over the jobs with its early return, as the first position of the id. */
    method FindJob(jobs: seq<Job>, id: string) returns (k: nat)
      ensures k == IndexOf(jobs, id)
    {
      k := 0;
      while k < |jobs|
        invariant k <= |jobs| && IndexOf(jobs, id) == k + IndexOf(jobs[k..], id)
      {
        if jobs[k].id == id { return; }
        k := k + 1;
      }
    }

    method EnableJob(id: string, enabled: bool, now: int) returns (found: bool)
      requires clock <= now
      modifies this
      ensures Abs() == Apply(oracle, old(Abs()), Enable(id, enabled, now))
      ensures found <==> IndexOf(Loaded(old(Abs())), id) < |Loaded(old(Abs()))|
    {
      var jobs := LoadStore();
      clock := now;
      var k := FindJob(jobs, id);
      if k == |jobs| { return false; }
      var job := jobs[k].(enabled := enabled, updatedAt := now);
      if enabled {
        job := job.(next := ComputeNext(oracle, job.schedule, now));
      } else {
        job := job.(next := None);
      }
      store := Some(jobs[k := job]);
      SaveAndArm();
      found := true;
    }

    /** `_execute_job`: the outcome is recorded on the job, a one-shot job is deleted or
        disabled, any other gets its next run. */
    method ExecuteJob(id: string, r: Reading)
      requires store.Some?
      modifies this`store
      ensures store == Some(ExecuteIn(oracle, old(store.value), id, r))
    {
      var jobs := store.value;
      var after := [];
      for i := 0 to |jobs|
        invariant after == ExecuteIn(oracle, jobs[..i], id, r)
      {
        assert jobs[..i + 1][..i] == jobs[..i];
        var job := jobs[i];
        if job.id == id {
          if r.error.None? {
            job := job.(lastStatus := Some("ok"), lastError := None);
          } else {
            job := job.(lastStatus := Some("error"), lastError := r.error);
          }
          job := job.(lastRun := Some(r.start), updatedAt := r.updated);
          if job.schedule.kind == At {
            if job.deleteAfterRun { continue; }
            job := job.(enabled := false, next := None);
          } else {
            job := job.(next := ComputeNext(oracle, job.schedule, r.done));
          }
        }
        after := after + [job];
      }
      assert jobs[..|jobs|] == jobs;
      store := Some(after);
    }

    method RunJob(id: string, force: bool, r: Reading) returns (ran: bool)
      requires clock <= r.start <= r.updated <= r.done
      modifies this
      ensures Abs() == Apply(oracle, old(Abs()), RunNow(id, force, r))
    {
      var jobs := LoadStore();
      var k := FindJob(jobs, id);
      if k == |jobs| || (!force && !jobs[k].enabled) { return false; }
      ExecuteAndSave(id, r);
      ran := true;
    }

    method ExecuteAndSave(id: string, r: Reading)
      requires store.Some?
      modifies this
      ensures Abs() == Commit(old(Abs()).(clock := r.done), ExecuteIn(oracle, old(store.value), id, r))
    {
      ExecuteJob(id, r);
      clock := r.done;
      SaveAndArm();
    }

    method CollectDue(now: int) returns (due: seq<Job>)
      requires store.Some?
      ensures due == DueJobs(store.value, now)
    {
      due := [];
      var jobs := store.value;
      for i := 0 to |jobs|
        invariant due == DueJobs(jobs[..i], now)
      {
        assert jobs[..i + 1][..i] == jobs[..i];
        if jobs[i].enabled && Truthy(jobs[i].next) && now >= jobs[i].next.value { due := due + [jobs[i]]; }
      }
      assert jobs[..|jobs|] == jobs;
    }

    method ExecuteDue(due: seq<Job>, rs: seq<Reading>)
      requires store.Some? && |due| <= |rs|
      modifies this`store
      ensures store == Some(ExecuteAll(oracle, old(store.value), due, rs))
    {
      ghost var jobs := store.value;
      for i := 0 to |due|
        invariant store == Some(ExecuteAll(oracle, jobs, due[..i], rs))
      {
        assert due[..i + 1][..i] == due[..i];
        ExecuteJob(due[i].id, rs[i]);
      }
      assert due[..|due|] == due;
    }

    /** `_on_timer`: the due jobs of this moment, executed one after the other. */
    method OnTimer(now: int, rs: seq<Reading>)
      requires Possible(Abs(), Tick(now, rs))
      modifies this
      ensures Abs() == Apply(oracle, old(Abs()), Tick(now, rs))
    {
      var jobs := LoadStore();
      var due := CollectDue(now);
      ExecuteDue(due, rs);
      fires := fires + Fires(due, rs);
      clock := LastReading(now, rs);
      SaveAndArm();
    }
  }
}
