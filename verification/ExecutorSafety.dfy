/** When calls that run side by side lose no content: as long as no two unfinished calls clash. Two
    calls that have both passed their checks are safe exactly when they do not share a destination;
    the losing schedules are given, for every pair of requests that clashes. */
module ExecutorSafety {
  import opened Prelude
  import opened Mover
  import opened Executor

  ghost predicate Holds(fs: Fs, content: Bytes) {
    exists p :: p in fs.files && fs.files[p] == content
  }

  /** Two requests that can hurt each other: one moves its file to where the other one writes, or
      to where the other one moves its file from. Sharing a source is harmless. */
  predicate Clash(a: Request, b: Request) {
    && !a.dryRun && !b.dryRun
    && ((a.dst == b.dst && (a.removes || b.removes))
        || (a.removes && b.removes && (a.dst == b.src || b.dst == a.src)))
  }

  /** The guard a caller can check before it sends a request. */
  predicate MaySend(calls: seq<Call>, r: Request) {
    forall k :: 0 <= k < |calls| && !calls[k].phase.Answered? ==> !Clash(calls[k].request, r)
  }

  ghost predicate Apart(calls: seq<Call>) {
    forall j, k :: 0 <= j < |calls| && 0 <= k < |calls| && j != k
                   && !calls[j].phase.Answered? && !calls[k].phase.Answered? ==>
      !Clash(calls[j].request, calls[k].request)
  }

  /** The call found its destination free and may write there. */
  predicate Writes(phase: Phase) {
    !phase.Received? && !phase.SourceSeen? && !phase.Answered?
  }

  /** What a call relies on when it is about to remove its source. */
  ghost predicate CallOk(fs: Fs, c: Call) {
    && (Writes(c.phase) ==> !c.request.dryRun)
    && (c.phase.Verified? ==>
          c.request.removes && c.request.dst in fs.files && fs.files[c.request.dst] == c.phase.data)
  }

  ghost predicate Inv(x: Exec) {
    Apart(x.calls) && forall k :: 0 <= k < |x.calls| ==> CallOk(x.fs, x.calls[k])
  }

  /** A file that no call may overwrite, and that a move takes for what it is. */
  ghost predicate Kept(x: Exec, p: Path, content: Bytes) {
    && p in x.fs.files && x.fs.files[p] == content
    && forall k :: 0 <= k < |x.calls| ==> Spares(x.calls[k], p, content)
  }

  predicate Spares(c: Call, p: Path, content: Bytes) {
    && (Writes(c.phase) ==> c.request.dst != p)
    && (c.request.src == p && c.request.removes && (c.phase.Copied? || c.phase.Verified?) ==> c.phase.data == content)
  }

  /** Whether a turn has the destination check fail on an existing file. */
  predicate LyingTurn(x: Exec, t: Turn) {
    t.call < |x.calls| && x.calls[t.call].phase.SourceSeen? && t.fault.Lies?
  }

  ghost predicate SameAt(fs: Fs, fs': Fs, p: Path) {
    (p in fs'.files <==> p in fs.files) && (p in fs.files ==> fs'.files[p] == fs.files[p])
  }

  /** A step writes at its destination and removes its source, and nothing else. */
  lemma AdvanceStaysHome(fs: Fs, r: Request, phase: Phase, f: Fault, p: Path)
    requires (Writes(phase) ==> p != r.dst) && (phase.Verified? ==> p != r.src)
    ensures SameAt(fs, Advance(fs, r, phase, f).0, p)
  {
  }

  /** A call's own step keeps what it relies on. */
  lemma OwnStepKeeps(fs: Fs, c: Call, f: Fault)
    requires CallOk(fs, c)
    ensures var (fs', phase) := Advance(fs, c.request, c.phase, f); CallOk(fs', c.(phase := phase))
  {
  }

  lemma StepKeepsInv(x: Exec, t: Turn)
    requires Inv(x)
    ensures Inv(Step(x, t))
  {
    if t.call < |x.calls| {
      var c, x' := x.calls[t.call], Step(x, t);
      OwnStepKeeps(x.fs, c, t.fault);
      assert CallOk(x.fs, c);
      forall k | 0 <= k < |x.calls| && k != t.call ensures CallOk(x'.fs, x.calls[k]) {
        assert CallOk(x.fs, x.calls[k]);
        if x.calls[k].phase.Verified? {
          assert !c.phase.Answered? ==> !Clash(c.request, x.calls[k].request);
          AdvanceStaysHome(x.fs, c.request, c.phase, t.fault, x.calls[k].request.dst);
        }
      }
    }
  }

  /** What one step leaves of a kept file: the file, or after a removal of the source the verified
      copy. */
  lemma StepKeepsFile(x: Exec, t: Turn, p: Path, content: Bytes)
    requires Inv(x) && !LyingTurn(x, t) && Kept(x, p, content)
    ensures var x' := Step(x, t);
      || Kept(x', p, content)
      || (&& t.call < |x.calls| && x.calls[t.call].phase.Verified?
          && x.calls[t.call].request.src == p && Kept(x', x.calls[t.call].request.dst, content))
  {
    if t.call < |x.calls| {
      var c := x.calls[t.call];
      assert Spares(c, p, content) && CallOk(x.fs, c);
      if c.phase.Verified? && c.request.src == p {
        CopyIsKept(x, t, content);
      } else {
        AdvanceStaysHome(x.fs, c.request, c.phase, t.fault, p);
        OwnStepSpares(x.fs, c, t.fault, p);
      }
    }
  }

  lemma OwnStepSpares(fs: Fs, c: Call, f: Fault, p: Path)
    requires p in fs.files && Spares(c, p, fs.files[p]) && !(c.phase.SourceSeen? && f.Lies?)
    ensures Spares(c.(phase := Advance(fs, c.request, c.phase, f).1), p, fs.files[p])
  {
  }

  /** Once the source is removed its verified copy is the kept file: no other call may write there
      or move it away half-made. */
  lemma CopyIsKept(x: Exec, t: Turn, content: Bytes)
    requires Inv(x) && t.call < |x.calls| && x.calls[t.call].phase.Verified?
    requires Kept(x, x.calls[t.call].request.src, content)
    ensures var r := x.calls[t.call].request;
      Kept(Step(x, t), r.src, content) || Kept(Step(x, t), r.dst, content)
  {
    var c := x.calls[t.call];
    assert CallOk(x.fs, c) && Spares(c, c.request.src, content);
    forall k | 0 <= k < |x.calls| && k != t.call ensures Spares(x.calls[k], c.request.dst, content) {
      assert CallOk(x.fs, x.calls[k]);
      assert !x.calls[k].phase.Answered? ==> !Clash(c.request, x.calls[k].request);
    }
  }

  // ---------------------------------------------------------------- whole schedules

  predicate Honest(turns: seq<Turn>) {
    forall k :: 0 <= k < |turns| ==> !turns[k].fault.Lies?
  }

  predicate PastChecks(x: Exec) {
    forall k :: 0 <= k < |x.calls| ==> !x.calls[k].phase.Received? && !x.calls[k].phase.SourceSeen?
  }

  ghost predicate Survives(x: Exec, turns: seq<Turn>) {
    forall content :: Holds(x.fs, content) ==> Holds(Run(x, turns).fs, content)
  }

  lemma {:induction false} FileSurvives(x: Exec, turns: seq<Turn>, p: Path, content: Bytes) returns (q: Path)
    requires Inv(x) && Kept(x, p, content) && (PastChecks(x) || Honest(turns))
    ensures Inv(Run(x, turns)) && Kept(Run(x, turns), q, content)
    ensures PastChecks(x) ==> PastChecks(Run(x, turns))
  {
    if turns == [] { return p; }
    var n := |turns| - 1;
    q := FileSurvives(x, turns[..n], p, content);
    var x1 := Run(x, turns[..n]);
    StepKeepsInv(x1, turns[n]);
    StepKeepsFile(x1, turns[n], q, content);
    if !Kept(Step(x1, turns[n]), q, content) { q := x1.calls[turns[n].call].request.dst; }
  }

  lemma NothingIsLost(x: Exec, turns: seq<Turn>)
    requires Inv(x) && (PastChecks(x) || Honest(turns))
    requires forall p :: p in x.fs.files ==> Kept(x, p, x.fs.files[p])
    ensures Survives(x, turns)
  {
    forall content | Holds(x.fs, content) ensures Holds(Run(x, turns).fs, content) {
      var p :| p in x.fs.files && x.fs.files[p] == content;
      var q := FileSurvives(x, turns, p, content);
    }
  }

  // ---------------------------------------------------------------- two calls past their checks

  /** Both existence checks have passed in this file system; the next step of either is its first
      that writes. */
  ghost predicate BothChecked(fs: Fs, a: Request, b: Request) {
    && Tree(fs) && !a.dryRun && !b.dryRun
    && a.src in fs.files && b.src in fs.files && !Exists(fs, a.dst) && !Exists(fs, b.dst)
  }

  function Pair(fs: Fs, a: Request, b: Request): Exec {
    Exec(fs, [Call(a, DestinationFree), Call(b, DestinationFree)])
  }

  /** The same files and directories, with whatever contents. */
  ghost predicate SameShape(fs: Fs, fs': Fs) {
    fs'.files.Keys == fs.files.Keys && fs'.dirs == fs.dirs
  }

  ghost predicate EveryScheduleIsSafe(fs: Fs, a: Request, b: Request) {
    forall turns :: Survives(Pair(fs, a, b), turns)
  }

  /** A file stands where a directory above the destination would have to be made. */
  ghost predicate FileAbove(fs: Fs, dst: Path) {
    exists p :: p in Prefixes(Parent(dst)) && p in fs.files
  }

  /** Two calls that cannot hurt each other: different destinations, or nothing removed, or no
      way to create the common destination. */
  ghost predicate Compatible(fs: Fs, a: Request, b: Request) {
    a.dst != b.dst || (!a.removes && !b.removes) || FileAbove(fs, a.dst)
  }

  /** Where the directory cannot be made, nothing is written. */
  lemma {:induction false} BlockedCallsTouchNothing(x: Exec, turns: seq<Turn>)
    requires forall k :: 0 <= k < |x.calls| ==>
      FileAbove(x.fs, x.calls[k].request.dst) && (x.calls[k].phase.DestinationFree? || x.calls[k].phase.Answered?)
    ensures var x' := Run(x, turns);
      && x'.fs == x.fs && |x'.calls| == |x.calls|
      && forall k :: 0 <= k < |x.calls| ==>
        x'.calls[k].request == x.calls[k].request && (x'.calls[k].phase.DestinationFree? || x'.calls[k].phase.Answered?)
  {
    if turns != [] { BlockedCallsTouchNothing(x, turns[..|turns| - 1]); }
  }

  lemma CompatibleIsSafe(fs: Fs, a: Request, b: Request)
    requires BothChecked(fs, a, b) && Compatible(fs, a, b)
    ensures EveryScheduleIsSafe(fs, a, b)
  {
    forall turns ensures Survives(Pair(fs, a, b), turns) {
      if a.dst == b.dst && FileAbove(fs, a.dst) {
        BlockedCallsTouchNothing(Pair(fs, a, b), turns);
      } else {
        assert !Clash(a, b) && !Clash(b, a);
        NothingIsLost(Pair(fs, a, b), turns);
      }
    }
  }

  // ---------------------------------------------------------------- the losing schedule

  function Works(call: nat, n: nat): seq<Turn> {
    seq(n, i => Turn(call, Fault.Works))
  }

  lemma {:induction false} RunJoins(x: Exec, a: seq<Turn>, b: seq<Turn>)
    ensures Run(x, a + b) == Run(Run(x, a), b)
  {
    if b == [] {
      assert a + b == a;
    } else {
      assert (a + b)[..|a + b| - 1] == a + b[..|b| - 1];
      RunJoins(x, a, b[..|b| - 1]);
    }
  }

  lemma OneMore(x: Exec, call: nat, n: nat)
    ensures Run(x, Works(call, n + 1)) == Step(Run(x, Works(call, n)), Turn(call, Fault.Works))
  {
    assert Works(call, n + 1)[..n] == Works(call, n);
  }

  lemma NotAbove(fs: Fs, dst: Path)
    requires !Exists(fs, dst) && [] in fs.dirs
    ensures dst !in Prefixes(Parent(dst))
  {
  }

  lemma InThree(x: Exec, call: nat, x1: Exec, x2: Exec)
    requires x1 == Step(x, Turn(call, Fault.Works)) && x2 == Step(x1, Turn(call, Fault.Works))
    ensures Run(x, Works(call, 3)) == Step(x2, Turn(call, Fault.Works))
  {
    OneMore(x, call, 0);
    OneMore(x, call, 1);
    OneMore(x, call, 2);
  }

  lemma MakesDirectory(x: Exec, k: nat)
    requires k < |x.calls| && x.calls[k].phase.DestinationFree? && !FileAbove(x.fs, x.calls[k].request.dst)
    ensures var r := x.calls[k].request;
      Step(x, Turn(k, Fault.Works)) ==
      Exec(Fs(x.fs.files, x.fs.dirs + Prefixes(Parent(r.dst))), x.calls[k := Call(r, DirectoryMade)])
  {
  }

  lemma OpensBoth(x: Exec, k: nat)
    requires k < |x.calls| && x.calls[k].phase.DirectoryMade?
    requires var r := x.calls[k].request; r.src in x.fs.files && r.dst !in x.fs.dirs && r.src != r.dst
    ensures var r := x.calls[k].request;
      Step(Step(x, Turn(k, Fault.Works)), Turn(k, Fault.Works)) ==
      Exec(Fs(x.fs.files[r.dst := []], x.fs.dirs), x.calls[k := Call(r, DestinationOpen(x.fs.files[r.src]))])
  {
    var r := x.calls[k].request;
    assert Step(x, Turn(k, Fault.Works)) == Exec(x.fs, x.calls[k := Call(r, SourceOpen(x.fs.files[r.src]))]);
  }

  /** Three undisturbed steps of a call past its checks empty the destination. */
  lemma ThreeSteps(x: Exec, k: nat)
    requires k < |x.calls| && x.calls[k].phase.DestinationFree?
    requires var r := x.calls[k].request;
      r.src in x.fs.files && r.dst !in x.fs.dirs && r.dst !in Prefixes(Parent(r.dst)) && !FileAbove(x.fs, r.dst) && r.src != r.dst
    ensures var r := x.calls[k].request;
      Run(x, Works(k, 3)) == Exec(
        Fs(x.fs.files[r.dst := []], x.fs.dirs + Prefixes(Parent(r.dst))),
        x.calls[k := Call(r, DestinationOpen(x.fs.files[r.src]))])
  {
    var x1 := Step(x, Turn(k, Fault.Works));
    MakesDirectory(x, k);
    OpensBoth(x1, k);
    InThree(x, k, x1, Step(x1, Turn(k, Fault.Works)));
  }

  lemma CopiesAll(x: Exec, k: nat)
    requires k < |x.calls| && x.calls[k].phase.DestinationOpen?
    requires var r := x.calls[k].request; r.src in x.fs.files && r.dst in x.fs.files && x.fs.files[r.dst] == []
    ensures var r := x.calls[k].request;
      var data := x.fs.files[r.src];
      Step(x, Turn(k, Fault.Works)) == Exec(Fs(x.fs.files[r.dst := data], x.fs.dirs), x.calls[k := Call(r, Copied(data))])
  {
    var data := x.fs.files[x.calls[k].request.src];
    assert data + [] == data;
  }

  lemma VerifiesCopy(x: Exec, k: nat)
    requires k < |x.calls| && x.calls[k].phase.Copied? && x.calls[k].request.removes
    requires var r := x.calls[k].request; r.dst in x.fs.files && x.fs.files[r.dst] == x.calls[k].phase.data
    ensures Step(x, Turn(k, Fault.Works)) ==
            Exec(x.fs, x.calls[k := Call(x.calls[k].request, Verified(x.calls[k].phase.data))])
  {
  }

  lemma InTwo(x: Exec, call: nat, x1: Exec)
    requires x1 == Step(x, Turn(call, Fault.Works))
    ensures Run(x, Works(call, 2)) == Step(x1, Turn(call, Fault.Works))
  {
    OneMore(x, call, 0);
    OneMore(x, call, 1);
  }

  lemma ChecksPass(x: Exec, k: nat)
    requires k < |x.calls| && x.calls[k].phase.Received? && !x.calls[k].request.dryRun
    requires var r := x.calls[k].request; r.src in x.fs.files && r.src !in x.fs.dirs && !Exists(x.fs, r.dst)
    ensures Run(x, Works(k, 2)) == Exec(x.fs, x.calls[k := Call(x.calls[k].request, DestinationFree)])
  {
    var r := x.calls[k].request;
    InTwo(x, k, Exec(x.fs, x.calls[k := Call(r, SourceSeen(|x.fs.files[r.src]|))]));
  }

  lemma CopiesAndVerifies(x: Exec, k: nat)
    requires k < |x.calls| && x.calls[k].phase.DestinationOpen? && x.calls[k].request.removes
    requires var r := x.calls[k].request;
      r.src in x.fs.files && r.dst in x.fs.files && x.fs.files[r.dst] == [] && r.src != r.dst
    ensures var r := x.calls[k].request;
      var data := x.fs.files[r.src];
      Run(x, Works(k, 2)) == Exec(Fs(x.fs.files[r.dst := data], x.fs.dirs), x.calls[k := Call(r, Verified(data))])
  {
    var x1 := Step(x, Turn(k, Fault.Works));
    CopiesAll(x, k);
    VerifiesCopy(x1, k);
    InTwo(x, k, x1);
  }

  lemma Removes(x: Exec, k: nat)
    requires k < |x.calls| && x.calls[k].phase.Verified? && x.calls[k].request.src in x.fs.files
    ensures Run(x, Works(k, 1)).fs == Fs(x.fs.files - {x.calls[k].request.src}, x.fs.dirs)
    ensures var x' := Run(x, Works(k, 1));
      |x'.calls| == |x.calls| && forall j :: 0 <= j < |x.calls| && j != k ==> x'.calls[j] == x.calls[j]
  {
    OneMore(x, k, 0);
  }

  /** The second call makes its directory and opens its source. */
  lemma OpensSource(x: Exec, k: nat)
    requires k < |x.calls| && x.calls[k].phase.DestinationFree?
    requires var r := x.calls[k].request; r.src in x.fs.files && !FileAbove(x.fs, r.dst)
    ensures var r := x.calls[k].request;
      Run(x, Works(k, 2)) == Exec(Fs(x.fs.files, x.fs.dirs + Prefixes(Parent(r.dst))),
                                  x.calls[k := Call(r, SourceOpen(x.fs.files[r.src]))])
  {
    MakesDirectory(x, k);
    InTwo(x, k, Step(x, Turn(k, Fault.Works)));
  }

  lemma Truncates(x: Exec, k: nat)
    requires k < |x.calls| && x.calls[k].phase.SourceOpen? && x.calls[k].request.dst !in x.fs.dirs
    ensures Run(x, Works(k, 1)).fs.files == x.fs.files[x.calls[k].request.dst := []]
  {
    OneMore(x, k, 0);
  }

  /** One call copies and verifies; the other opens its source; the first removes its own; the
      second creates the destination. */
  function Truncating(first: nat, second: nat): seq<Turn> {
    (Works(first, 3) + Works(first, 2)) + Works(second, 2) + Works(first, 1) + Works(second, 1)
  }

  lemma FirstIsVerified(x: Exec, k: nat)
    requires k < |x.calls| && x.calls[k].phase.DestinationFree? && x.calls[k].request.removes
    requires var r := x.calls[k].request;
      r.src in x.fs.files && r.dst !in x.fs.dirs && r.dst !in Prefixes(Parent(r.dst)) && !FileAbove(x.fs, r.dst) && r.src != r.dst
    ensures var r := x.calls[k].request;
      var data := x.fs.files[r.src];
      Run(x, Works(k, 3) + Works(k, 2)) == Exec(Fs(x.fs.files[r.dst := data], x.fs.dirs + Prefixes(Parent(r.dst))),
                                                x.calls[k := Call(r, Verified(data))])
  {
    ThreeSteps(x, k);
    CopiesAndVerifies(Run(x, Works(k, 3)), k);
    RunJoins(x, Works(k, 3), Works(k, 2));
  }

  lemma RemovesUnderneath(x: Exec, first: nat, second: nat)
    requires |x.calls| == 2 && first < 2 && second < 2 && first != second
    requires x.calls[first].phase.Verified? && x.calls[second].phase.DestinationFree?
    requires var a, b := x.calls[first].request, x.calls[second].request;
      && a.src in x.fs.files && b.src in x.fs.files && b.dst !in x.fs.dirs
      && b.dst !in Prefixes(Parent(b.dst)) && !FileAbove(x.fs, b.dst)
    ensures Run(Run(Run(x, Works(second, 2)), Works(first, 1)), Works(second, 1)).fs.files ==
            (x.fs.files - {x.calls[first].request.src})[x.calls[second].request.dst := []]
  {
    OpensSource(x, second);
    var x2 := Run(x, Works(second, 2));
    Removes(x2, first);
    Truncates(Run(x2, Works(first, 1)), second);
  }

  /** One call moves its file to the common destination, the other then empties it. */
  lemma SecondTruncatesFirst(x: Exec, first: nat, second: nat)
    requires |x.calls| == 2 && first < 2 && second < 2 && first != second
    requires x.calls[first].phase.DestinationFree? && x.calls[second].phase.DestinationFree?
    requires var a, b := x.calls[first].request, x.calls[second].request;
      BothChecked(x.fs, a, b) && a.dst == b.dst && a.removes && !FileAbove(x.fs, a.dst)
    ensures var a := x.calls[first].request;
      Run(x, Truncating(first, second)).fs.files == x.fs.files[a.dst := []] - {a.src}
  {
    var a := x.calls[first].request;
    NotAbove(x.fs, a.dst);
    FirstIsVerified(x, first);
    var x1 := Run(x, Works(first, 3) + Works(first, 2));
    assert x1.fs.files.Keys <= x.fs.files.Keys + {a.dst};
    RemovesUnderneath(x1, first, second);
    FourJoin(x, Works(first, 3) + Works(first, 2), Works(second, 2), Works(first, 1), Works(second, 1));
  }

  lemma SharedDestinationLoses(fs: Fs, a: Request, b: Request) returns (fs': Fs, turns: seq<Turn>)
    requires BothChecked(fs, a, b) && !Compatible(fs, a, b)
    ensures SameShape(fs, fs') && Faultless(turns) && !Survives(Pair(fs', a, b), turns)
  {
    var first, src := if a.removes then 0 else 1, if a.removes then a.src else b.src;
    fs' := fs.(files := map p | p in fs.files :: if p == src then [0] else [1]);
    turns := Truncating(first, 1 - first);
    assert fs'.files.Keys == fs.files.Keys;
    assert BothChecked(fs', a, b) && !FileAbove(fs', a.dst);
    SecondTruncatesFirst(Pair(fs', a, b), first, 1 - first);
    assert Holds(fs', [0]) by { assert fs'.files[src] == [0]; }
    assert !Holds(Run(Pair(fs', a, b), turns).fs, [0]);
  }

  /** Once both calls have passed their checks, every schedule and every choice of the remaining
      faults keeps all contents, whatever the files hold, if and only if the calls do not share a
      destination, or remove nothing, or cannot create the destination at all. */
  lemma SafeIffNoSharedDestination(fs: Fs, a: Request, b: Request)
    requires BothChecked(fs, a, b)
    ensures (forall fs' :: SameShape(fs, fs') ==> EveryScheduleIsSafe(fs', a, b)) <==> Compatible(fs, a, b)
  {
    if Compatible(fs, a, b) {
      forall fs' | SameShape(fs, fs') ensures EveryScheduleIsSafe(fs', a, b) {
        assert BothChecked(fs', a, b) && Compatible(fs', a, b);
        CompatibleIsSafe(fs', a, b);
      }
    } else {
      var fs', turns := SharedDestinationLoses(fs, a, b);
      assert !EveryScheduleIsSafe(fs', a, b);
    }
  }

  // ---------------------------------------------------------------- two requests, from their arrival

  function Start(fs: Fs, a: Request, b: Request): Exec {
    Exec(fs, [Call(a, Received), Call(b, Received)])
  }

  /** At some point of the schedule both calls have passed their checks and neither has written. */
  ghost predicate BothPass(fs: Fs, a: Request, b: Request, turns: seq<Turn>) {
    exists n :: 0 <= n <= |turns| && Run(Start(fs, a, b), turns[..n]).calls == Pair(fs, a, b).calls
  }

  predicate Unrelated(p: Path, q: Path) {
    !(p <= q) && !(q <= p)
  }

  /** Both write one destination, at least one is a move, and no path stands in the way of another. */
  predicate Collide(a: Request, b: Request) {
    && !a.dryRun && !b.dryRun && a.dst == b.dst && (a.removes || b.removes)
    && (a.src == b.src || Unrelated(a.src, b.src)) && Unrelated(a.src, a.dst) && Unrelated(b.src, a.dst)
  }

  predicate Checking(phase: Phase) {
    phase.Received? || phase.SourceSeen? || phase.DestinationFree?
  }

  /** What the checks of a call have found out. */
  ghost predicate Seen(fs: Fs, c: Call) {
    && (!c.phase.Received? ==> c.request.src in fs.files)
    && (c.phase.DestinationFree? ==> !c.request.dryRun && !Exists(fs, c.request.dst))
  }

  lemma {:induction false} ChecksChangeNothing(x: Exec, turns: seq<Turn>)
    requires Honest(turns) && forall k :: 0 <= k < |x.calls| ==> x.calls[k].phase.Received?
    ensures var x' := Run(x, turns);
      && |x'.calls| == |x.calls| && (forall k :: 0 <= k < |x.calls| ==> x'.calls[k].request == x.calls[k].request)
      && ((forall k :: 0 <= k < |x.calls| ==> Checking(x'.calls[k].phase)) ==>
            x'.fs == x.fs && forall k :: 0 <= k < |x.calls| ==> Seen(x.fs, x'.calls[k]))
  {
    if turns != [] {
      var n := |turns| - 1;
      ChecksChangeNothing(x, turns[..n]);
      var x1, t := Run(x, turns[..n]), turns[n];
      if t.call < |x1.calls| {
        var c := x1.calls[t.call];
        CheckSees(x1.fs, c, t.fault);
        assert forall k :: 0 <= k < |x1.calls| && k != t.call ==> Step(x1, t).calls[k] == x1.calls[k];
      }
    }
  }

  lemma CheckSees(fs: Fs, c: Call, f: Fault)
    requires !f.Lies?
    ensures var (fs', phase) := Advance(fs, c.request, c.phase, f);
      Checking(phase) ==> Checking(c.phase) && fs' == fs && (Seen(fs, c) ==> Seen(fs, c.(phase := phase)))
  {
  }

  lemma NotUnder(p: Path, q: Path)
    ensures p in Prefixes(Parent(q)) <==> p <= q && (p != q || q == [])
  {
    if p <= q && p != q { assert p == Parent(q)[..|p|]; }
    if p in Prefixes(Parent(q)) {
      var k :| 0 <= k <= |Parent(q)| && p == Parent(q)[..k];
      assert p == q[..k];
    }
  }

  /** Where the destination can be made, the paths of two calls past their checks are unrelated. */
  lemma CheckedPathsAreUnrelated(fs: Fs, a: Request, b: Request)
    requires BothChecked(fs, a, b) && a.dst == b.dst && !FileAbove(fs, a.dst)
    ensures (a.src == b.src || Unrelated(a.src, b.src)) && Unrelated(a.src, a.dst) && Unrelated(b.src, a.dst)
  {
    NotUnder(a.src, a.dst);
    NotUnder(b.src, a.dst);
    PrefixIsDirectory(fs, a.dst, a.src);
    PrefixIsDirectory(fs, a.dst, b.src);
    PrefixIsDirectory(fs, a.src, b.src);
    PrefixIsDirectory(fs, b.src, a.src);
  }

  lemma PrefixIsDirectory(fs: Fs, p: Path, q: Path)
    requires Tree(fs) && q in fs.files
    ensures p <= q ==> p == q || p in fs.dirs
  {
    if p <= q && p != q { assert p == q[..|p|]; }
  }

  lemma SafeOnceBothPass(fs: Fs, a: Request, b: Request, turns: seq<Turn>)
    requires Tree(fs) && Honest(turns) && BothPass(fs, a, b, turns) && !Collide(a, b)
    ensures Survives(Start(fs, a, b), turns)
  {
    var x := Start(fs, a, b);
    var n :| 0 <= n <= |turns| && Run(x, turns[..n]).calls == Pair(fs, a, b).calls;
    var x1 := Run(x, turns[..n]);
    ChecksChangeNothing(x, turns[..n]);
    assert Seen(fs, x1.calls[0]) && Seen(fs, x1.calls[1]);
    assert x1 == Pair(fs, a, b) && BothChecked(fs, a, b);
    if a.dst == b.dst && !FileAbove(fs, a.dst) { CheckedPathsAreUnrelated(fs, a, b); }
    CompatibleIsSafe(fs, a, b);
    RunJoins(x, turns[..n], turns[n..]);
    assert turns[..n] + turns[n..] == turns;
    assert Survives(Pair(fs, a, b), turns[n..]);
  }

  function BothCheck(): seq<Turn> {
    Works(0, 2) + Works(1, 2)
  }

  lemma BothCheckPass(fs: Fs, a: Request, b: Request)
    requires BothChecked(fs, a, b)
    ensures Run(Start(fs, a, b), BothCheck()) == Pair(fs, a, b)
  {
    var x := Start(fs, a, b);
    ChecksPass(x, 0);
    ChecksPass(Run(x, Works(0, 2)), 1);
    RunJoins(x, Works(0, 2), Works(1, 2));
  }

  /** The sources and the directories above them. */
  function Seeded(p: Path, q: Path): Fs {
    Fs(map[p := [0], q := [0]], Prefixes(Parent(p)) + Prefixes(Parent(q)))
  }

  lemma SeededIsChecked(a: Request, b: Request)
    requires Collide(a, b)
    ensures BothChecked(Seeded(a.src, b.src), a, b) && !FileAbove(Seeded(a.src, b.src), a.dst)
  {
    var fs := Seeded(a.src, b.src);
    SeededIsTree(a.src, b.src);
    NotUnder(a.dst, a.src);
    NotUnder(a.dst, b.src);
    NotUnder(a.src, a.dst);
    NotUnder(b.src, a.dst);
  }

  lemma SeededIsTree(p: Path, q: Path)
    requires p != [] && q != [] && (p == q || Unrelated(p, q))
    ensures Tree(Seeded(p, q))
  {
    NotUnder(p, q);
    NotUnder(q, p);
    NotUnder(p, p);
    NotUnder(q, q);
    NotUnder([], p);
    forall r, k | r in Seeded(p, q).files && 0 <= k < |r| ensures r[..k] in Seeded(p, q).dirs { NotUnder(r[..k], r); }
  }

  lemma CollisionLoses(a: Request, b: Request) returns (fs: Fs, turns: seq<Turn>)
    requires Collide(a, b)
    ensures Tree(fs) && Faultless(turns) && BothPass(fs, a, b, turns) && !Survives(Start(fs, a, b), turns)
  {
    SeededIsChecked(a, b);
    var ending;
    fs, ending := SharedDestinationLoses(Seeded(a.src, b.src), a, b);
    turns := BothCheck() + ending;
    BothCheckPass(fs, a, b);
    RunJoins(Start(fs, a, b), BothCheck(), ending);
    assert turns[..4] == BothCheck();
    FaultlessJoin(Works(0, 2), Works(1, 2));
    FaultlessJoin(BothCheck(), ending);
  }

  /** Two requests, on every tree of files: the truthful schedules in which both checks pass before
      either call writes keep all contents if and only if the requests do not collide. */
  lemma SafeOnceCheckedIff(a: Request, b: Request)
    ensures (forall fs, turns :: Tree(fs) && Honest(turns) && BothPass(fs, a, b, turns) ==> Survives(Start(fs, a, b), turns))
        <==> !Collide(a, b)
  {
    if Collide(a, b) {
      var fs, turns := CollisionLoses(a, b);
    } else {
      forall fs, turns | Tree(fs) && Honest(turns) && BothPass(fs, a, b, turns) ensures Survives(Start(fs, a, b), turns) {
        SafeOnceBothPass(fs, a, b, turns);
      }
    }
  }

  // ---------------------------------------------------------------- a chain of moves

  ghost predicate Faultless(turns: seq<Turn>) {
    forall k :: 0 <= k < |turns| ==> turns[k].fault.Works?
  }

  lemma FaultlessJoin(a: seq<Turn>, b: seq<Turn>)
    requires Faultless(a) && Faultless(b)
    ensures Faultless(a + b)
  {
  }

  lemma FourJoin(x: Exec, a: seq<Turn>, b: seq<Turn>, c: seq<Turn>, d: seq<Turn>)
    ensures Run(x, a + b + c + d) == Run(Run(Run(Run(x, a), b), c), d)
  {
    RunJoins(x, a, b);
    RunJoins(x, a + b, c);
    RunJoins(x, a + b + c, d);
  }

  /** A file is to move on from where another one is to move to. */
  predicate Chains(a: Request, b: Request) {
    && !a.dryRun && !b.dryRun && a.removes && b.removes && a.dst == b.src
    && Unrelated(a.src, a.dst) && Unrelated(a.src, b.dst) && Unrelated(b.src, b.dst)
  }

  /** The first call opens its destination, which the second takes for its source, copies and
      verifies half-made; the first then copies and verifies; both remove. */
  function Chain(i: nat, j: nat): seq<Turn> {
    (Works(i, 2) + Works(i, 3) + Works(j, 2) + Works(j, 3)) + (Works(j, 2) + Works(i, 2) + Works(j, 1) + Works(i, 1))
  }

  ghost predicate Begun(x: Exec, i: nat, j: nat, content: Bytes) {
    && |x.calls| == 2 && i < 2 && j < 2 && i != j
    && x.calls[i].phase == DestinationOpen(content) && x.calls[j].phase == DestinationOpen([])
    && var a, b := x.calls[i].request, x.calls[j].request;
    && Chains(a, b) && x.fs.files == map[a.src := content, a.dst := [], b.dst := []]
  }

  lemma ChainBegins(x: Exec, i: nat, j: nat, content: Bytes)
    requires |x.calls| == 2 && i < 2 && j < 2 && i != j && x.calls[i].phase.Received? && x.calls[j].phase.Received?
    requires var a, b := x.calls[i].request, x.calls[j].request;
      Chains(a, b) && x.fs == Fs(map[a.src := content], Prefixes(Parent(a.src)))
    ensures Begun(Run(x, Works(i, 2) + Works(i, 3) + Works(j, 2) + Works(j, 3)), i, j, content)
  {
    var a, b := x.calls[i].request, x.calls[j].request;
    forall p, q ensures p in Prefixes(Parent(q)) <==> p <= q && (p != q || q == []) { NotUnder(p, q); }
    ChecksPass(x, i);
    var x1 := Run(x, Works(i, 2));
    ThreeSteps(x1, i);
    var x2 := Run(x1, Works(i, 3));
    ChecksPass(x2, j);
    ThreeSteps(Run(x2, Works(j, 2)), j);
    FourJoin(x, Works(i, 2), Works(i, 3), Works(j, 2), Works(j, 3));
  }

  lemma BothVerify(x: Exec, i: nat, j: nat, content: Bytes)
    requires Begun(x, i, j, content)
    ensures var x2 := Run(Run(x, Works(j, 2)), Works(i, 2));
      var a, b := x.calls[i].request, x.calls[j].request;
      && x2.fs.files == map[a.src := content, a.dst := content, b.dst := []]
      && x2.calls == x.calls[j := Call(b, Verified([]))][i := Call(a, Verified(content))]
  {
    CopiesAndVerifies(x, j);
    CopiesAndVerifies(Run(x, Works(j, 2)), i);
  }

  lemma OneStays(p: Path, q: Path, r: Path, content: Bytes)
    requires p != r && q != r
    ensures map[p := content, q := content, r := []] - {q} - {p} == map[r := []]
  {
  }

  lemma BothRemove(x: Exec, i: nat, j: nat)
    requires |x.calls| == 2 && i < 2 && j < 2 && i != j && x.calls[i].phase.Verified? && x.calls[j].phase.Verified?
    requires x.calls[i].request.src in x.fs.files && x.calls[j].request.src in x.fs.files
    requires x.calls[i].request.src != x.calls[j].request.src
    ensures Run(Run(x, Works(j, 1)), Works(i, 1)).fs.files == x.fs.files - {x.calls[j].request.src} - {x.calls[i].request.src}
  {
    Removes(x, j);
    Removes(Run(x, Works(j, 1)), i);
  }

  lemma ChainEnds(x: Exec, i: nat, j: nat, content: Bytes)
    requires Begun(x, i, j, content)
    ensures Run(x, Works(j, 2) + Works(i, 2) + Works(j, 1) + Works(i, 1)).fs.files == map[x.calls[j].request.dst := []]
  {
    var a, b := x.calls[i].request, x.calls[j].request;
    BothVerify(x, i, j, content);
    BothRemove(Run(Run(x, Works(j, 2)), Works(i, 2)), i, j);
    OneStays(a.src, a.dst, b.dst, content);
    FourJoin(x, Works(j, 2), Works(i, 2), Works(j, 1), Works(i, 1));
  }

  lemma ChainIsFaultless(i: nat, j: nat)
    ensures Faultless(Chain(i, j))
  {
    FaultlessJoin(Works(i, 2) + Works(i, 3) + Works(j, 2) + Works(j, 3), Works(j, 2) + Works(i, 2) + Works(j, 1) + Works(i, 1));
  }

  /** Different destinations are not enough while a check is still to come: a move that takes
      another move's half-made destination for its source removes it after the other one has
      verified it. Every check tells the truth, nothing fails, and the content is gone. */
  lemma ChainLosesContent(x: Exec, i: nat, j: nat, content: Bytes)
    requires content != []
    requires |x.calls| == 2 && i < 2 && j < 2 && i != j && x.calls[i].phase.Received? && x.calls[j].phase.Received?
    requires var a, b := x.calls[i].request, x.calls[j].request;
      Chains(a, b) && x.fs == Fs(map[a.src := content], Prefixes(Parent(a.src)))
    ensures Tree(x.fs) && Faultless(Chain(i, j))
    ensures Holds(x.fs, content) && !Holds(Run(x, Chain(i, j)).fs, content)
  {
    var a := x.calls[i].request;
    ChainIsFaultless(i, j);
    ChainBegins(x, i, j, content);
    var x1 := Run(x, Works(i, 2) + Works(i, 3) + Works(j, 2) + Works(j, 3));
    ChainEnds(x1, i, j, content);
    RunJoins(x, Works(i, 2) + Works(i, 3) + Works(j, 2) + Works(j, 3), Works(j, 2) + Works(i, 2) + Works(j, 1) + Works(i, 1));
    assert x.fs.files[a.src] == content;
    SeededIsTree(a.src, a.src);
  }

  // ---------------------------------------------------------------- the guard is exact

  /** No path of the two requests lies inside another, none leads to itself, and they do not swap. */
  predicate Untangled(a: Request, b: Request) {
    && Unrelated(a.src, a.dst) && Unrelated(b.src, b.dst)
    && (a.src == b.src || Unrelated(a.src, b.src)) && (a.dst == b.dst || Unrelated(a.dst, b.dst))
    && (a.src == b.dst || Unrelated(a.src, b.dst)) && (b.src == a.dst || Unrelated(b.src, a.dst))
    && !(a.src == b.dst && b.src == a.dst)
  }

  lemma ClashLoses(a: Request, b: Request) returns (fs: Fs, turns: seq<Turn>)
    requires Clash(a, b) && Untangled(a, b)
    ensures Tree(fs) && Faultless(turns) && !Survives(Start(fs, a, b), turns)
  {
    if a.dst == b.dst {
      fs, turns := CollisionLoses(a, b);
    } else {
      var i, src := if a.dst == b.src then 0 else 1, if a.dst == b.src then a.src else b.src;
      fs, turns := Fs(map[src := [0]], Prefixes(Parent(src))), Chain(i, 1 - i);
      ChainLosesContent(Start(fs, a, b), i, 1 - i, [0]);
    }
  }

  /** The guard on sending is exact: for two requests whose paths are not tangled, every truthful
      schedule on every tree of files keeps all contents if and only if they do not clash. */
  lemma GuardIsExact(a: Request, b: Request)
    requires Untangled(a, b)
    ensures (forall fs, turns :: Tree(fs) && Honest(turns) ==> Survives(Start(fs, a, b), turns)) <==> !Clash(a, b)
  {
    if Clash(a, b) {
      var fs, turns := ClashLoses(a, b);
      assert Honest(turns);
    } else {
      forall fs, turns | Tree(fs) && Honest(turns) ensures Survives(Start(fs, a, b), turns) {
        NothingIsLost(Start(fs, a, b), turns);
      }
    }
  }
}
