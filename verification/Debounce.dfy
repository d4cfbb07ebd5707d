/** The directory watcher's debouncing of create and write events, as a timed machine: time
    passes, file-system events arrive, and the timer of a pending path expires exactly at its
    deadline. An event on a path whose timer is due counts only after the timer has run. */
module Debounce {
  import opened Prelude
  import opened Text

  datatype Flag = FCreate | FWrite | FRemove | FRename | FChmod

  datatype Op = Create | Write | Remove | Rename | Unspecified

  datatype Config = Config(debounce: nat, ignores: seq<string>, matches: (string, string) -> bool)

  datatype Pending = Pending(op: Op, deadline: int)

  /** An accepted input: a non-ignored event with a known operation. */
  datatype Stamp = Stamp(path: string, op: Op, time: int)

  datatype Out = Debounced(path: string, op: Op, time: int) | Immediate(path: string, op: Op, time: int)

  datatype State = State(pending: map<string, Pending>, now: int, out: seq<Out>, inputs: seq<Stamp>)

  datatype Event = Pass(to: int) | Fs(path: string, flags: set<Flag>) | Expire(path: string)

  function MapOp(flags: set<Flag>): Op {
    if FCreate in flags then Create else if FWrite in flags then Write
    else if FRemove in flags then Remove else if FRename in flags then Rename
    else Unspecified
  }

  /** `filepath.Base`. */
  function Base(path: string): string
    decreases |path|
  {
    if path == "" then "."
    else if path[|path| - 1] == '/' then (if |path| == 1 then "/" else Base(path[..|path| - 1]))
    else AfterSlash(path)
  }

  function AfterSlash(path: string): string {
    if path == "" || path[|path| - 1] == '/' then "" else AfterSlash(path[..|path| - 1]) + [path[|path| - 1]]
  }

  predicate EndsWith(s: string, suffix: string) {
    |suffix| <= |s| && s[|s| - |suffix|..] == suffix
  }

  predicate Ignored(cfg: Config, path: string) {
    var base := Base(path);
    || (exists i :: 0 <= i < |cfg.ignores| && cfg.matches(cfg.ignores[i], base))
    || StartsWith(base, ".") || EndsWith(base, ".tmp") || EndsWith(base, ".crdownload") || EndsWith(base, ".part")
  }

  predicate Delayed(op: Op) {
    op == Create || op == Write
  }

  /** An accepted event: delayed behind its path's timer, or passed through. */
  function Accept(cfg: Config, s: State, path: string, op: Op): State {
    var stamped := s.(inputs := s.inputs + [Stamp(path, op, s.now)]);
    if !Delayed(op) then stamped.(out := s.out + [Immediate(path, op, s.now)])
    else if path in s.pending then
      stamped.(pending := s.pending[path := s.pending[path].(deadline := s.now + cfg.debounce)])
    else stamped.(pending := s.pending[path := Pending(op, s.now + cfg.debounce)])
  }

  function HandleFs(cfg: Config, s: State, path: string, flags: set<Flag>): State {
    var op := MapOp(flags);
    if Ignored(cfg, path) || op == Unspecified then s else Accept(cfg, s, path, op)
  }

  predicate Possible(s: State, e: Event) {
    match e
    case Pass(to) => s.now <= to && forall p :: p in s.pending ==> to <= s.pending[p].deadline
    case Fs(path, _) => path in s.pending ==> s.now < s.pending[path].deadline
    case Expire(path) => path in s.pending && s.now == s.pending[path].deadline
  }

  function Apply(cfg: Config, s: State, e: Event): State {
    if !Possible(s, e) then s else
    match e
    case Pass(to) => s.(now := to)
    case Fs(path, flags) => HandleFs(cfg, s, path, flags)
    case Expire(path) =>
      s.(pending := s.pending - {path}, out := s.out + [Debounced(path, s.pending[path].op, s.now)])
  }

  function Run(cfg: Config, s: State, events: seq<Event>): State {
    if events == [] then s
    else Apply(cfg, Run(cfg, s, events[..|events| - 1]), events[|events| - 1])
  }

  function Initial(now: int): State {
    State(map[], now, [], [])
  }

  // ---------------------------------------------------------------- bursts

  /** The create and write events of one path, in order. */
  function EventsOf(inputs: seq<Stamp>, path: string): seq<Stamp> {
    if inputs == [] then []
    else
      var n := |inputs| - 1;
      EventsOf(inputs[..n], path)
        + if inputs[n].path == path && Delayed(inputs[n].op) then [inputs[n]] else []
  }

  function Last<T>(s: seq<T>): T
    requires s != []
  {
    s[|s| - 1]
  }

  /** The events cut wherever one comes at least the debounce interval after the one before. */
  function Bursts(d: nat, events: seq<Stamp>): (bs: seq<seq<Stamp>>)
    ensures events == [] <==> bs == []
    ensures bs != [] ==> Last(bs) != [] && Last(Last(bs)) == Last(events)
  {
    if events == [] then []
    else
      var front, e := events[..|events| - 1], Last(events);
      var bs := Bursts(d, front);
      if bs == [] || e.time - Last(front).time >= d then bs + [[e]]
      else bs[..|bs| - 1] + [Last(bs) + [e]]
  }

  /** Consecutive events of the burst are closer than the interval. */
  ghost predicate Tight(d: nat, burst: seq<Stamp>) {
    burst != [] && forall i, k :: 0 <= i < k < |burst| && k == i + 1 ==> burst[k].time - burst[i].time < d
  }

  /** The second burst starts at least the interval after the first one ends. */
  ghost predicate Apart(d: nat, a: seq<Stamp>, b: seq<Stamp>) {
    a != [] && b != [] && b[0].time - Last(a).time >= d
  }

  /** A partition of the events into maximal bursts. */
  ghost predicate MaximalBursts(d: nat, bs: seq<seq<Stamp>>, events: seq<Stamp>) {
    && Concat(bs) == events
    && (forall i :: 0 <= i < |bs| ==> Tight(d, bs[i]))
    && (forall i, k :: 0 <= i < k < |bs| && k == i + 1 ==> Apart(d, bs[i], bs[k]))
  }

  lemma MaximalSnoc(d: nat, init: seq<seq<Stamp>>, last: seq<Stamp>)
    ensures MaximalBursts(d, init + [last], Concat(init) + last) <==>
            MaximalBursts(d, init, Concat(init)) && Tight(d, last) && (init != [] ==> Apart(d, Last(init), last))
  {
    var bs := init + [last];
    ConcatSnoc(init, last);
    assert forall i :: 0 <= i < |init| ==> bs[i] == init[i];
    assert bs[|init|] == last;
  }

  lemma TightSnoc(d: nat, burst: seq<Stamp>, e: Stamp)
    requires burst != []
    ensures Tight(d, burst + [e]) <==> Tight(d, burst) && e.time - Last(burst).time < d
  {
    var more := burst + [e];
    assert forall i :: 0 <= i < |burst| ==> more[i] == burst[i];
    assert more[|burst|] == e;
  }

  lemma {:induction false} BurstsAreMaximal(d: nat, events: seq<Stamp>)
    ensures MaximalBursts(d, Bursts(d, events), events)
  {
    if events != [] {
      var front, e := events[..|events| - 1], Last(events);
      var bs := Bursts(d, front);
      BurstsAreMaximal(d, front);
      assert events == front + [e];
      if bs == [] || e.time - Last(front).time >= d {
        MaximalSnoc(d, bs, [e]);
      } else {
        var init, last := bs[..|bs| - 1], Last(bs);
        assert bs == init + [last];
        ConcatSnoc(init, last);
        MaximalSnoc(d, init, last);
        TightSnoc(d, last, e);
        MaximalSnoc(d, init, last + [e]);
        assert Concat(init) + (last + [e]) == events;
      }
    }
  }

  /** The partition into maximal bursts is unique, so `Bursts` is the only reading of the word. */
  lemma {:induction false} MaximalBurstsAreUnique(d: nat, bs: seq<seq<Stamp>>, events: seq<Stamp>)
    requires MaximalBursts(d, bs, events)
    ensures bs == Bursts(d, events)
    decreases |events|
  {
    if bs != [] {
      var init, last := bs[..|bs| - 1], Last(bs);
      assert bs == init + [last];
      ConcatSnoc(init, last);
      MaximalSnoc(d, init, last);
      var n, e := |last| - 1, Last(last);
      var shorter := last[..n];
      assert last == shorter + [e];
      var front := events[..|events| - 1];
      assert front == Concat(init) + shorter && Last(events) == e;
      if n == 0 {
        assert front == Concat(init);
        MaximalBurstsAreUnique(d, init, front);
      } else {
        TightSnoc(d, shorter, e);
        MaximalSnoc(d, init, shorter);
        MaximalBurstsAreUnique(d, init + [shorter], front);
        assert Last(front) == Last(shorter);
      }
    }
  }

  /** What one burst is reported as: its first operation, one interval after its last event. */
  function Report(d: nat, burst: seq<Stamp>): Out
    requires burst != []
  {
    Debounced(burst[0].path, burst[0].op, Last(burst).time + d)
  }

  function Reports(d: nat, bs: seq<seq<Stamp>>): seq<Out>
    requires forall i :: 0 <= i < |bs| ==> bs[i] != []
  {
    if bs == [] then [] else Reports(d, bs[..|bs| - 1]) + [Report(d, Last(bs))]
  }

  /** The debounced outputs of one path. */
  function OutputsOf(out: seq<Out>, path: string): seq<Out> {
    if out == [] then []
    else
      var o := Last(out);
      OutputsOf(out[..|out| - 1], path) + if o.Debounced? && o.path == path then [o] else []
  }

  /** The operations that pass through undelayed, on either side. */
  function PassedIn(inputs: seq<Stamp>): seq<Out> {
    if inputs == [] then []
    else
      var x := Last(inputs);
      PassedIn(inputs[..|inputs| - 1]) + if Delayed(x.op) then [] else [Immediate(x.path, x.op, x.time)]
  }

  function PassedOut(out: seq<Out>): seq<Out> {
    if out == [] then []
    else PassedOut(out[..|out| - 1]) + if Last(out).Immediate? then [Last(out)] else []
  }

  // ---------------------------------------------------------------- refinement

  function Entry(s: State, path: string): Option<Pending> {
    if path in s.pending then Some(s.pending[path]) else None
  }

  /** What the machine shows of one path: its events, its reports, its timer. The reports are
      those of the bursts that are over: all, or all but the one the timer waits on. */
  ghost predicate View(d: nat, path: string, events: seq<Stamp>, outputs: seq<Out>, timer: Option<Pending>, now: int) {
    var bs := Bursts(d, events);
    && (forall i :: 0 <= i < |bs| ==> bs[i] != [] && bs[i][0].path == path)
    && (events != [] ==> Last(events).time <= now)
    && match timer
       case Some(p) =>
         && bs != []
         && outputs == Reports(d, bs[..|bs| - 1])
         && p == Pending(Last(bs)[0].op, Last(events).time + d)
         && now <= p.deadline
       case None =>
         && outputs == Reports(d, bs)
         && (events != [] ==> Last(events).time + d <= now)
  }

  lemma ViewGetsEvent(d: nat, path: string, events: seq<Stamp>, outputs: seq<Out>, timer: Option<Pending>, x: Stamp,
                      events': seq<Stamp>, timer': Option<Pending>)
    requires View(d, path, events, outputs, timer, x.time) && x.path == path
    requires timer.Some? ==> x.time < timer.value.deadline
    requires events' == events + [x]
    requires timer' == Some(Pending(if timer.Some? then timer.value.op else x.op, x.time + d))
    ensures View(d, path, events', outputs, timer', x.time)
  {
    assert (events + [x])[..|events|] == events;
    var bs := Bursts(d, events);
    if timer.Some? {
      var bs' := bs[..|bs| - 1] + [Last(bs) + [x]];
      assert Bursts(d, events + [x]) == bs';
      assert bs'[..|bs'| - 1] == bs[..|bs| - 1];
    } else {
      var bs' := bs + [[x]];
      assert Bursts(d, events + [x]) == bs';
      assert bs'[..|bs'| - 1] == bs;
    }
  }

  lemma ViewExpires(d: nat, path: string, events: seq<Stamp>, outputs: seq<Out>, timer: Pending)
    requires View(d, path, events, outputs, Some(timer), timer.deadline)
    ensures View(d, path, events, outputs + [Debounced(path, timer.op, timer.deadline)], None, timer.deadline)
  {
  }

  ghost predicate PathOk(cfg: Config, s: State, path: string) {
    View(cfg.debounce, path, EventsOf(s.inputs, path), OutputsOf(s.out, path), Entry(s, path), s.now)
  }

  ghost predicate Inv(cfg: Config, s: State) {
    (forall path :: PathOk(cfg, s, path)) && PassedOut(s.out) == PassedIn(s.inputs)
  }

  lemma EventsSnoc(inputs: seq<Stamp>, x: Stamp, p: string)
    ensures EventsOf(inputs + [x], p) ==
            if x.path == p && Delayed(x.op) then EventsOf(inputs, p) + [x] else EventsOf(inputs, p)
    ensures PassedIn(inputs + [x]) ==
            if Delayed(x.op) then PassedIn(inputs) else PassedIn(inputs) + [Immediate(x.path, x.op, x.time)]
  {
    assert (inputs + [x])[..|inputs|] == inputs;
  }

  lemma OutputsSnoc(out: seq<Out>, o: Out, p: string)
    ensures OutputsOf(out + [o], p) ==
            if o.Debounced? && o.path == p then OutputsOf(out, p) + [o] else OutputsOf(out, p)
    ensures PassedOut(out + [o]) == if o.Immediate? then PassedOut(out) + [o] else PassedOut(out)
  {
    assert (out + [o])[..|out|] == out;
  }

  lemma AcceptElsewhere(cfg: Config, s: State, path: string, op: Op, p: string)
    requires PathOk(cfg, s, p) && (p != path || !Delayed(op))
    ensures PathOk(cfg, Accept(cfg, s, path, op), p)
  {
    EventsSnoc(s.inputs, Stamp(path, op, s.now), p);
    OutputsSnoc(s.out, Immediate(path, op, s.now), p);
    var s' := Accept(cfg, s, path, op);
    assert Entry(s', p) == Entry(s, p);
  }

  lemma ExpireKeepsPath(cfg: Config, s: State, path: string, p: string)
    requires PathOk(cfg, s, p) && Possible(s, Expire(path))
    requires PassedOut(s.out) == PassedIn(s.inputs)
    ensures PathOk(cfg, Apply(cfg, s, Expire(path)), p)
    ensures var s' := Apply(cfg, s, Expire(path)); PassedOut(s'.out) == PassedIn(s'.inputs)
  {
    OutputsSnoc(s.out, Debounced(path, s.pending[path].op, s.now), p);
    var s' := Apply(cfg, s, Expire(path));
    assert Entry(s', p) == if p == path then None else Entry(s, p);
    if p == path {
      ViewExpires(cfg.debounce, p, EventsOf(s.inputs, p), OutputsOf(s.out, p), s.pending[p]);
    }
  }

  lemma AcceptHere(cfg: Config, s: State, path: string, op: Op)
    requires PathOk(cfg, s, path) && Delayed(op) && (path in s.pending ==> s.now < s.pending[path].deadline)
    ensures PathOk(cfg, Accept(cfg, s, path, op), path)
  {
    var x := Stamp(path, op, s.now);
    var s' := Accept(cfg, s, path, op);
    EventsSnoc(s.inputs, x, path);
    ViewGetsEvent(cfg.debounce, path, EventsOf(s.inputs, path), OutputsOf(s.out, path), Entry(s, path), x,
                  EventsOf(s'.inputs, path), Entry(s', path));
  }

  lemma AcceptKeepsInv(cfg: Config, s: State, path: string, op: Op)
    requires Inv(cfg, s) && (path in s.pending ==> s.now < s.pending[path].deadline)
    ensures Inv(cfg, Accept(cfg, s, path, op))
  {
    EventsSnoc(s.inputs, Stamp(path, op, s.now), path);
    OutputsSnoc(s.out, Immediate(path, op, s.now), path);
    forall p ensures PathOk(cfg, Accept(cfg, s, path, op), p) {
      assert PathOk(cfg, s, p);
      if p == path && Delayed(op) {
        AcceptHere(cfg, s, path, op);
      } else {
        AcceptElsewhere(cfg, s, path, op, p);
      }
    }
  }

  lemma ExpireKeepsInv(cfg: Config, s: State, path: string)
    requires Inv(cfg, s) && Possible(s, Expire(path))
    ensures Inv(cfg, Apply(cfg, s, Expire(path)))
  {
    forall p ensures PathOk(cfg, Apply(cfg, s, Expire(path)), p) {
      assert PathOk(cfg, s, p);
      ExpireKeepsPath(cfg, s, path, p);
    }
    ExpireKeepsPath(cfg, s, path, path);
  }

  lemma StepKeepsInv(cfg: Config, s: State, e: Event)
    requires Inv(cfg, s)
    ensures Inv(cfg, Apply(cfg, s, e))
  {
    if Possible(s, e) {
      match e
      case Pass(to) =>
        forall p ensures PathOk(cfg, s.(now := to), p) {
          assert PathOk(cfg, s, p) && Entry(s.(now := to), p) == Entry(s, p);
        }
      case Fs(path, flags) => if HandleFs(cfg, s, path, flags) != s { AcceptKeepsInv(cfg, s, path, MapOp(flags)); }
      case Expire(path) => ExpireKeepsInv(cfg, s, path);
    }
  }

  lemma {:induction false} RunKeepsInv(cfg: Config, now: int, events: seq<Event>)
    ensures Inv(cfg, Run(cfg, Initial(now), events))
  {
    if events != [] {
      RunKeepsInv(cfg, now, events[..|events| - 1]);
      StepKeepsInv(cfg, Run(cfg, Initial(now), events[..|events| - 1]), Last(events));
    }
  }

  /** Over every run and for every path: the reports are those of its maximal bursts in order,
      each with the burst's first operation and at exactly one interval after its last event;
      only a last burst whose interval has not run out may be missing, and then its timer is
      set; removals and renames pass through at once, in order. */
  lemma DebouncerRefinesBursts(cfg: Config, now: int, events: seq<Event>, path: string)
    ensures var s := Run(cfg, Initial(now), events);
      var bs := Bursts(cfg.debounce, EventsOf(s.inputs, path));
      && MaximalBursts(cfg.debounce, bs, EventsOf(s.inputs, path))
      && (if path in s.pending then
            bs != [] && OutputsOf(s.out, path) == Reports(cfg.debounce, bs[..|bs| - 1])
            && s.pending[path].deadline == Last(Last(bs)).time + cfg.debounce >= s.now
          else
            OutputsOf(s.out, path) == Reports(cfg.debounce, bs)
            && (bs != [] ==> Last(Last(bs)).time + cfg.debounce <= s.now))
      && PassedOut(s.out) == PassedIn(s.inputs)
  {
    RunKeepsInv(cfg, now, events);
    var s := Run(cfg, Initial(now), events);
    assert PathOk(cfg, s, path);
    BurstsAreMaximal(cfg.debounce, EventsOf(s.inputs, path));
  }

  // ---------------------------------------------------------------- from the trace alone

  /** Every event of the trace happens when it can. */
  ghost predicate Feasible(cfg: Config, now: int, events: seq<Event>) {
    events == [] ||
    var n := |events| - 1;
    Feasible(cfg, now, events[..n]) && Possible(Run(cfg, Initial(now), events[..n]), events[n])
  }

  function Clock(now: int, events: seq<Event>): int {
    if events == [] then now
    else if Last(events).Pass? then Last(events).to
    else Clock(now, events[..|events| - 1])
  }

  /** The events of a trace that the watcher reports on, stamped with their times. */
  function Reported(cfg: Config, now: int, events: seq<Event>): seq<Stamp> {
    if events == [] then []
    else
      var front := events[..|events| - 1];
      Reported(cfg, now, front) +
      match Last(events)
      case Fs(path, flags) =>
        if Ignored(cfg, path) || MapOp(flags) == Unspecified then []
        else [Stamp(path, MapOp(flags), Clock(now, front))]
      case _ => []
  }

  lemma {:induction false} InputsOfTrace(cfg: Config, now: int, events: seq<Event>)
    requires Feasible(cfg, now, events)
    ensures Run(cfg, Initial(now), events).inputs == Reported(cfg, now, events)
    ensures Run(cfg, Initial(now), events).now == Clock(now, events)
  {
    if events != [] { InputsOfTrace(cfg, now, events[..|events| - 1]); }
  }

  /** No burst is lost: a path that has been quiet for longer than the interval has had exactly
      one report for each maximal burst of its events in the trace. */
  lemma QuietPathIsFullyReported(cfg: Config, now: int, events: seq<Event>, path: string, bs: seq<seq<Stamp>>)
    requires Feasible(cfg, now, events)
    requires MaximalBursts(cfg.debounce, bs, EventsOf(Reported(cfg, now, events), path))
    requires var mine := EventsOf(Reported(cfg, now, events), path);
      mine != [] ==> Last(mine).time + cfg.debounce < Clock(now, events)
    ensures (forall i :: 0 <= i < |bs| ==> bs[i] != [])
         && OutputsOf(Run(cfg, Initial(now), events).out, path) == Reports(cfg.debounce, bs)
  {
    DebouncerRefinesBursts(cfg, now, events, path);
    InputsOfTrace(cfg, now, events);
    MaximalBurstsAreUnique(cfg.debounce, bs, EventsOf(Reported(cfg, now, events), path));
    assert forall i :: 0 <= i < |bs| ==> Tight(cfg.debounce, bs[i]);
  }

  // ---------------------------------------------------------------- the watcher

  class Watcher {
    const cfg: Config
    var pending: map<string, Pending>
    var out: seq<Out>
    ghost var now: int
    ghost var inputs: seq<Stamp>

    ghost function Abs(): State
      reads this
    {
      State(pending, now, out, inputs)
    }

    constructor (cfg: Config, ghost now: int)
      ensures this.cfg == cfg && Abs() == Initial(now)
    {
      this.cfg, this.now := cfg, now;
      pending, out, inputs := map[], [], [];
    }

    method HandleFsEvent(path: string, flags: set<Flag>, time: int)
      requires time == now && Possible(Abs(), Fs(path, flags))
      modifies this
      ensures Abs() == Apply(cfg, old(Abs()), Fs(path, flags))
    {
      var base := Base(path);
      for i := 0 to |cfg.ignores|
        invariant forall k :: 0 <= k < i ==> !cfg.matches(cfg.ignores[k], base)
        invariant Abs() == old(Abs())
      {
        if cfg.matches(cfg.ignores[i], base) { return; }
      }
      if StartsWith(base, ".") || EndsWith(base, ".tmp") || EndsWith(base, ".crdownload") || EndsWith(base, ".part") {
        return;
      }
      var op := MapOp(flags);
      if op == Unspecified { return; }
      inputs := inputs + [Stamp(path, op, now)];
      if op == Create || op == Write {
        DebounceEvent(path, op, time);
        return;
      }
      out := out + [Immediate(path, op, time)];
    }

    /** A pending path only has its timer reset, so it keeps the first operation. */
    method DebounceEvent(path: string, op: Op, time: int)
      modifies this`pending
      ensures pending == old(pending)[path := Pending(if path in old(pending) then old(pending)[path].op else op,
                                                      time + cfg.debounce)]
    {
      if path in pending {
        pending := pending[path := pending[path].(deadline := time + cfg.debounce)];
        return;
      }
      pending := pending[path := Pending(op, time + cfg.debounce)];
    }

    method TimerExpires(path: string, time: int)
      requires time == now && Possible(Abs(), Expire(path))
      modifies this
      ensures Abs() == Apply(cfg, old(Abs()), Expire(path))
    {
      var event := pending[path];
      pending := pending - {path};
      out := out + [Debounced(path, event.op, time)];
    }
  }
}
