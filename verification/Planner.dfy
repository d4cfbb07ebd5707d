/** Batch planning for tasks that exceed the context window, and the batch-by-batch execution. */
module Planner {
  import opened Prelude
  import opened Text

  datatype Measurement = Measurement(fileCount: nat, estimatedTokens: nat, paths: seq<string>)

  datatype Step =
    | Direct | ListDir(path: string) | BatchRead(index: nat, items: seq<string>)
    | SummarizeBatch(index: nat) | MergeSummaries | WriteOutput

  datatype Plan = Plan(simple: bool, steps: seq<Step>, contextBudget: nat, estimatedBatches: nat)

  const OVERHEAD := 500
  const BATCH_PROMPT_CAP := 50

  /** The context left after a reserve of two fifths, over the reals. */
  function UsableContext(window: nat): (u: nat)
    ensures 5 * u <= 3 * window < 5 * u + 5
  {
    (window as real * 0.6).Floor
  }

  function FilesPerBatch(usable: nat, average: nat): (f: nat)
    ensures f >= 1
  {
    Max(1, usable / Max(1, average + OVERHEAD))
  }

  function BatchCount(fileCount: nat, filesPerBatch: nat): nat
    requires filesPerBatch >= 1
  {
    (fileCount + filesPerBatch - 1) / filesPerBatch
  }

  /** The items of batch i. */
  function Batch(paths: seq<string>, f: nat, i: nat): seq<string> {
    Slice(paths, i * f, Min(i * f + f, |paths|))
  }

  function Batches(paths: seq<string>, f: nat, n: nat): seq<seq<string>> {
    if n == 0 then [] else Batches(paths, f, n - 1) + [Batch(paths, f, n - 1)]
  }

  predicate IsSimple(m: Measurement, usable: nat) {
    m.fileCount == 0 || m.estimatedTokens * 2 < usable
  }

  /** The item lists of the batch steps, in order. */
  function BatchItems(steps: seq<Step>): seq<seq<string>> {
    if steps == [] then []
    else
      var last := steps[|steps| - 1];
      BatchItems(steps[..|steps| - 1]) + if last.BatchRead? then [last.items] else []
  }

  lemma BatchItemsSnoc(steps: seq<Step>, step: Step)
    ensures BatchItems(steps + [step]) == if step.BatchRead? then BatchItems(steps) + [step.items] else BatchItems(steps)
  {
    assert (steps + [step])[..|steps|] == steps;
  }

  /** A listing of each of the first five paths. */
  function DirSteps(paths: seq<string>): (steps: seq<Step>)
    ensures |steps| == Min(5, |paths|) && forall i :: 0 <= i < |steps| ==> steps[i] == ListDir(paths[i])
  {
    seq(Min(5, |paths|), i requires 0 <= i < Min(5, |paths|) => ListDir(paths[i]))
  }

  /** A reading and a summary of each batch. */
  function ReadSteps(paths: seq<string>, f: nat, n: nat): seq<Step> {
    if n == 0 then [] else ReadSteps(paths, f, n - 1) + [BatchRead(n - 1, Batch(paths, f, n - 1)), SummarizeBatch(n - 1)]
  }

  lemma {:induction false} ReadStepsCount(paths: seq<string>, f: nat, n: nat)
    ensures |ReadSteps(paths, f, n)| == 2 * n
  {
    if n > 0 { ReadStepsCount(paths, f, n - 1); }
  }

  /** Step 2i reads batch i, and step 2i + 1 summarises it. */
  lemma {:induction false} ReadStepsTell(paths: seq<string>, f: nat, n: nat, i: nat)
    requires i < n
    ensures |ReadSteps(paths, f, n)| == 2 * n
    ensures ReadSteps(paths, f, n)[2 * i] == BatchRead(i, Batch(paths, f, i))
    ensures ReadSteps(paths, f, n)[2 * i + 1] == SummarizeBatch(i)
  {
    ReadStepsCount(paths, f, n);
    ReadStepsCount(paths, f, n - 1);
    if i < n - 1 { ReadStepsTell(paths, f, n - 1, i); }
  }

  /** A task is simple if nothing is referenced or it takes less than half of the usable context;
      otherwise the plan lists directories, reads and summarises batch by batch, merges and writes. */
  method CreatePlan(m: Measurement, window: nat) returns (plan: Plan)
    ensures plan.contextBudget == UsableContext(window)
    ensures plan.simple <==> m.fileCount == 0 || 2 * m.estimatedTokens < UsableContext(window)
    ensures plan.simple ==> plan.steps == [Direct] && plan.estimatedBatches == 1
    ensures !plan.simple ==>
      var f := FilesPerBatch(UsableContext(window), m.estimatedTokens / m.fileCount);
      && plan.estimatedBatches == BatchCount(m.fileCount, f)
      && plan.steps == DirSteps(m.paths) + ReadSteps(m.paths, f, plan.estimatedBatches) + [MergeSummaries, WriteOutput]
      && BatchItems(plan.steps) == Batches(m.paths, f, plan.estimatedBatches)
  {
    var usable := UsableContext(window);
    if IsSimple(m, usable) { return Plan(true, [Direct], usable, 1); }
    var average := m.estimatedTokens / m.fileCount;
    var f := FilesPerBatch(usable, average);
    var batches := BatchCount(m.fileCount, f);
    var steps: seq<Step> := [];
    for i := 0 to Min(5, |m.paths|)
      invariant BatchItems(steps) == [] && steps == DirSteps(m.paths)[..i]
    {
      BatchItemsSnoc(steps, ListDir(m.paths[i]));
      steps := steps + [ListDir(m.paths[i])];
    }
    assert DirSteps(m.paths)[..Min(5, |m.paths|)] == DirSteps(m.paths);
    steps := AddBatches(steps, m.paths, f, batches);
    BatchItemsSnoc(steps, MergeSummaries);
    steps := steps + [MergeSummaries];
    BatchItemsSnoc(steps, WriteOutput);
    steps := steps + [WriteOutput];
    plan := Plan(false, steps, usable, batches);
  }

  method AddBatches(before: seq<Step>, paths: seq<string>, f: nat, batches: nat) returns (steps: seq<Step>)
    requires BatchItems(before) == []
    ensures steps == before + ReadSteps(paths, f, batches) && BatchItems(steps) == Batches(paths, f, batches)
  {
    steps := before;
    for i := 0 to batches
      invariant steps == before + ReadSteps(paths, f, i) && BatchItems(steps) == Batches(paths, f, i)
    {
      var read := ReadBatch(paths, f, i);
      PairAdded(steps, read, i);
      steps := steps + [read];
      steps := steps + [SummarizeBatch(i)];
    }
  }

  method ReadBatch(paths: seq<string>, f: nat, i: nat) returns (step: Step)
    ensures step == BatchRead(i, Batch(paths, f, i))
  {
    var start := i * f;
    var stop := Min(start + f, |paths|);
    step := BatchRead(i, Slice(paths, start, stop));
  }

  lemma PairAdded(steps: seq<Step>, read: Step, i: nat)
    requires read.BatchRead?
    ensures BatchItems(steps + [read] + [SummarizeBatch(i)]) == BatchItems(steps) + [read.items]
    ensures steps + [read] + [SummarizeBatch(i)] == steps + [read, SummarizeBatch(i)]
  {
    BatchItemsSnoc(steps, read);
    BatchItemsSnoc(steps + [read], SummarizeBatch(i));
  }

  lemma PieceOf(paths: seq<string>, start: nat, f: nat)
    ensures var piece := Slice(paths, start, Min(start + f, |paths|));
      |piece| <= f && piece == if start <= |paths| then paths[start..Min(start + f, |paths|)] else []
  {
  }

  lemma BatchIsPiece(paths: seq<string>, f: nat, i: nat)
    ensures |Batch(paths, f, i)| <= f
    ensures i * f <= |paths| ==> Batch(paths, f, i) == paths[i * f..Min(i * f + f, |paths|)]
    ensures i * f > |paths| ==> Batch(paths, f, i) == []
  {
    PieceOf(paths, i * f, f);
  }

  lemma {:induction false} BatchSizes(paths: seq<string>, f: nat, n: nat)
    ensures |Batches(paths, f, n)| == n
    ensures forall i :: 0 <= i < n ==> |Batches(paths, f, n)[i]| <= f
  {
    if n > 0 {
      BatchSizes(paths, f, n - 1);
      BatchIsPiece(paths, f, n - 1);
    }
  }

  /** The batches in order are a prefix of the paths. */
  lemma {:induction false} BatchesConcatenate(paths: seq<string>, f: nat, n: nat)
    ensures Concat(Batches(paths, f, n)) == paths[..Min(n * f, |paths|)]
  {
    if n > 0 {
      var front, piece := Batches(paths, f, n - 1), Batch(paths, f, n - 1);
      BatchesConcatenate(paths, f, n - 1);
      assert Concat(front + [piece]) == Concat(front) + piece by { ConcatSnoc(front, piece); }
      BatchIsPiece(paths, f, n - 1);
      assert n * f == (n - 1) * f + f;
      PieceExtends(paths, (n - 1) * f, f);
    }
  }

  lemma PieceExtends(paths: seq<string>, start: nat, f: nat)
    ensures start <= |paths| ==>
      paths[..start] + paths[start..Min(start + f, |paths|)] == paths[..Min(start + f, |paths|)]
  {
  }

  lemma BatchCountIsCeiling(fileCount: nat, f: nat)
    requires f >= 1
    ensures var n := BatchCount(fileCount, f); fileCount <= n * f < fileCount + f
  {
    var n := BatchCount(fileCount, f);
    assert n * f <= fileCount + f - 1 < n * f + f;
  }

  /** The batches number ceil(fileCount / f), and they cover all referenced paths, each once
      and in order, if and only if there are at most batches times f of them; fileCount paths
      or fewer always fit. */
  lemma BatchesCoverPaths(paths: seq<string>, f: nat, fileCount: nat)
    requires f >= 1
    ensures var n := BatchCount(fileCount, f);
      && fileCount <= n * f < fileCount + f
      && (Concat(Batches(paths, f, n)) == paths <==> |paths| <= n * f)
      && (|paths| <= fileCount ==> Concat(Batches(paths, f, n)) == paths)
  {
    var n := BatchCount(fileCount, f);
    BatchCountIsCeiling(fileCount, f);
    BatchesConcatenate(paths, f, n);
    assert paths[..|paths|] == paths;
  }

  /** A batch of average files, each with 500 tokens more for the instructions, fits the context unless
      it is a single file, and no larger batch would. */
  lemma BatchFitsContext(usable: nat, average: nat)
    ensures var f := FilesPerBatch(usable, average);
      f >= 1 && (f == 1 || f * (average + 500) <= usable) && usable < (f + 1) * (average + 500)
  {
    var unit := average + OVERHEAD;
    assert (usable / unit) * unit <= usable < (usable / unit + 1) * unit;
  }

  /** A batch that ran leaves its result under its number, unless it is empty, and one that failed its
      error; the others are not held up. */
  lemma PartialsTell(outcomes: nat -> Outcome, n: nat)
    ensures Partials(outcomes, 0) == []
    ensures Partials(outcomes, n + 1) == Partials(outcomes, n) +
      match outcomes(n)
      case Ran(result) => if |result| == 0 then [] else ["## Batch " + Decimal(n + 1) + "\n" + result]
      case Raised(error) => ["## Batch " + Decimal(n + 1) + "\n(Failed: " + error + ")"]
  {
  }

  // ---------------------------------------------------------------- execution

  /** What the agent returns for a batch; `Ran("")` is an empty result. */
  datatype Outcome = Ran(result: string) | Raised(error: string)

  function Partial(i: nat, o: Outcome): seq<string> {
    match o
    case Ran(result) => if result == "" then [] else ["## Batch " + Decimal(i + 1) + "\n" + result]
    case Raised(error) => ["## Batch " + Decimal(i + 1) + "\n(Failed: " + error + ")"]
  }

  function Partials(outcomes: nat -> Outcome, n: nat): seq<string> {
    if n == 0 then [] else Partials(outcomes, n - 1) + Partial(n - 1, outcomes(n - 1))
  }

  /** What the prompts of the batches list. */
  function Prompted(items: seq<seq<string>>): (r: seq<seq<string>>)
    ensures |r| == |items|
    ensures forall i :: 0 <= i < |items| ==> r[i] == Slice(items[i], 0, BATCH_PROMPT_CAP)
  {
    seq(|items|, i requires 0 <= i < |items| => Slice(items[i], 0, BATCH_PROMPT_CAP))
  }

  /** Every batch is run, also after a failure; each prompt lists at most the first fifty items. */
  method ExecuteChunked(plan: Plan, outcomes: nat -> Outcome) returns (prompted: seq<seq<string>>, partials: seq<string>)
    requires !plan.simple
    ensures var items := BatchItems(plan.steps);
      && prompted == Prompted(items)
      && partials == Partials(outcomes, |items|)
  {
    var items := BatchSteps(plan.steps);
    prompted, partials := [], [];
    for i := 0 to |items|
      invariant prompted == Prompted(items)[..i]
      invariant partials == Partials(outcomes, i)
    {
      prompted := prompted + [Slice(items[i], 0, BATCH_PROMPT_CAP)];
      match outcomes(i) {
        case Ran(result) =>
          if result != "" { partials := partials + ["## Batch " + Decimal(i + 1) + "\n" + result]; }
        case Raised(error) =>
          partials := partials + ["## Batch " + Decimal(i + 1) + "\n(Failed: " + error + ")"];
      }
    }
  }

  method BatchSteps(steps: seq<Step>) returns (items: seq<seq<string>>)
    ensures items == BatchItems(steps)
  {
    items := [];
    for i := 0 to |steps|
      invariant items == BatchItems(steps[..i])
    {
      assert steps[..i + 1][..i] == steps[..i];
      if steps[i].BatchRead? { items := items + [steps[i].items]; }
    }
    assert steps[..|steps|] == steps;
  }

  // ---------------------------------------------------------------- what the prompts leave out

  lemma {:induction false} PromptedIsShorter(items: seq<seq<string>>)
    ensures |Concat(Prompted(items))| <= |Concat(items)|
    ensures |Concat(Prompted(items))| == |Concat(items)| <==>
            forall i :: 0 <= i < |items| ==> |items[i]| <= BATCH_PROMPT_CAP
  {
    if items != [] {
      PromptedIsShorter(items[1..]);
      assert Prompted(items)[1..] == Prompted(items[1..]);
      assert forall i :: 0 < i < |items| ==> items[i] == items[1..][i - 1];
    }
  }

  lemma NothingCut(items: seq<seq<string>>)
    requires forall i :: 0 <= i < |items| ==> |items[i]| <= BATCH_PROMPT_CAP
    ensures Prompted(items) == items
  {
    forall i | 0 <= i < |items| ensures Prompted(items)[i] == items[i] {
      assert |items[i]| <= BATCH_PROMPT_CAP;
    }
  }

  /** All batches are within the cap exactly when their size is, or there are few paths at all. */
  lemma BatchesWithinCap(paths: seq<string>, f: nat, n: nat)
    requires f >= 1 && n >= 1
    ensures (forall i :: 0 <= i < n ==> |Batch(paths, f, i)| <= BATCH_PROMPT_CAP)
       <==> f <= BATCH_PROMPT_CAP || |paths| <= BATCH_PROMPT_CAP
  {
    assert Batch(paths, f, 0) == paths[..Min(f, |paths|)] by { BatchIsPiece(paths, f, 0); }
    forall i | 0 <= i < n ensures |Batch(paths, f, i)| <= f && |Batch(paths, f, i)| <= |paths| {
      BatchIsPiece(paths, f, i);
    }
  }

  lemma {:induction false} BatchAt(paths: seq<string>, f: nat, n: nat, i: nat)
    requires i < n
    ensures |Batches(paths, f, n)| == n && Batches(paths, f, n)[i] == Batch(paths, f, i)
  {
    BatchSizes(paths, f, n);
    if i < n - 1 {
      BatchSizes(paths, f, n - 1);
      BatchAt(paths, f, n - 1, i);
    } else {
      BatchSizes(paths, f, n - 1);
    }
  }

  /** The prompts list all referenced paths, once and in order, if and only if the batches cover
      them and either a batch is never longer than the cap or there are no more paths than that. */
  lemma EveryPathIsPromptedIff(paths: seq<string>, f: nat, fileCount: nat)
    requires f >= 1 && fileCount >= 1
    ensures var n := BatchCount(fileCount, f);
      Concat(Prompted(Batches(paths, f, n))) == paths
      <==> |paths| <= n * f && (f <= BATCH_PROMPT_CAP || |paths| <= BATCH_PROMPT_CAP)
  {
    var n := BatchCount(fileCount, f);
    var items := Batches(paths, f, n);
    BatchCountIsCeiling(fileCount, f);
    assert n >= 1;
    BatchesCoverPaths(paths, f, fileCount);
    BatchesConcatenate(paths, f, n);
    BatchSizes(paths, f, n);
    forall i | 0 <= i < n ensures items[i] == Batch(paths, f, i) { BatchAt(paths, f, n, i); }
    BatchesWithinCap(paths, f, n);
    PromptedIsShorter(items);
    if forall i :: 0 <= i < |items| ==> |items[i]| <= BATCH_PROMPT_CAP { NothingCut(items); }
  }

  /** What the prompts of a chunked run of this measurement list. */
  function PromptsOf(m: Measurement, usable: nat): seq<string>
    requires m.fileCount >= 1
  {
    var f := FilesPerBatch(usable, m.estimatedTokens / m.fileCount);
    Concat(Prompted(Batches(m.paths, f, BatchCount(m.fileCount, f))))
  }

  /** A measurement that is chunked and references no more paths than it has files. */
  predicate Chunked(m: Measurement, usable: nat) {
    !IsSimple(m, usable) && |m.paths| <= m.fileCount
  }

  /** 51 paths among very many very small files. */
  function ManySmallFiles(usable: nat): Measurement {
    Measurement(usable + 1, usable, seq(51, (i: nat) => "/inbox/" + Decimal(i)))
  }

  /** From a usable context of 25500 on, reached by a window of 42500, the prompts of this chunked
      run list fewer paths than it references. */
  lemma DroppedPathWitness(usable: nat)
    requires usable >= 25500
    ensures Chunked(ManySmallFiles(usable), usable)
    ensures |PromptsOf(ManySmallFiles(usable), usable)| < |ManySmallFiles(usable).paths|
    ensures UsableContext(42500) == 25500
  {
    var m := ManySmallFiles(usable);
    assert usable / (usable + 1) == 0;
    var f := FilesPerBatch(usable, 0);
    assert f > BATCH_PROMPT_CAP;
    EveryPathIsPromptedIff(m.paths, f, m.fileCount);
    BatchesCoverPaths(m.paths, f, m.fileCount);
    var items := Batches(m.paths, f, BatchCount(m.fileCount, f));
    PromptedIsShorter(items);
    if forall i :: 0 <= i < |items| ==> |items[i]| <= BATCH_PROMPT_CAP { NothingCut(items); }
  }

  /** The cap never drops a path, for any chunked measurement, if and only if the usable context
      is below 25500. */
  lemma CapIsHarmlessIff(usable: nat)
    ensures (forall m: Measurement :: Chunked(m, usable) ==> PromptsOf(m, usable) == m.paths) <==> usable < 25500
  {
    if usable < 25500 {
      forall m: Measurement | Chunked(m, usable) ensures PromptsOf(m, usable) == m.paths {
        var f := FilesPerBatch(usable, m.estimatedTokens / m.fileCount);
        SmallContextSmallBatches(usable, m.estimatedTokens / m.fileCount);
        BatchCountIsCeiling(m.fileCount, f);
        EveryPathIsPromptedIff(m.paths, f, m.fileCount);
      }
    } else {
      DroppedPathWitness(usable);
      assert Chunked(ManySmallFiles(usable), usable);
    }
  }

  lemma SmallContextSmallBatches(usable: nat, average: nat)
    requires usable < 25500
    ensures FilesPerBatch(usable, average) <= BATCH_PROMPT_CAP
  {
    var unit := average + OVERHEAD;
    var f := usable / unit;
    assert f * unit <= usable;
    assert f * OVERHEAD <= f * unit;
  }
}
