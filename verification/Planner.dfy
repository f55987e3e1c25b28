/** The planner that turns a task into steps (go-core/internal/kernel/planner.go:85-249) and the
    step-to-artifact conversion in front of the executor
    (go-core/internal/kernel/advanced_planner.go:391-459). */
module Planner {
  import opened Basics
  import opened Text
  import opened PlanGraph
  import opened ConflictScheduling
  import opened PlanExecution

  datatype TaskType = Code | Fix | Plan | Review | Test | Docs | Research | Other

  datatype Complexity = Low | Medium | High | Critical

  datatype Task = Task(
    id: string,
    kind: TaskType,
    complexity: Complexity,
    files: seq<string>,
    acceptanceCriteria: seq<string>,
    sourcecraft: bool)

  /** A step before it is given ids: the suffix its id gets, the suffixes it comes after, the
      files it works on and the conflict keys it declares. */
  datatype Draft = Draft(suffix: string, after: seq<string>, files: seq<string>, conflictKeys: seq<string>)

  datatype PlanStep = PlanStep(id: string, dependencies: seq<string>, files: seq<string>, conflictKeys: seq<string>)

  // ---------------------------------------------------------------- clusters

  function CompactStrings(values: seq<string>): seq<string> {
    if values == [] then []
    else
      var value := Trim(values[0]);
      (if value == "" then [] else [value]) + CompactStrings(values[1..])
  }

  /** Compacting trims every value and drops the blank ones, keeping order and repeats. */
  lemma {:induction false} CompactMeans(values: seq<string>, k: nat)
    ensures forall v :: v in CompactStrings(values) ==> v != "" && Trim(v) == v
    ensures k < |values| ==>
              CompactStrings(values) ==
                CompactStrings(values[..k]) + (if Trim(values[k]) == "" then [] else [Trim(values[k])])
                + CompactStrings(values[k + 1..])
    ensures |CompactStrings(values)| == Count(values, v => Trim(v) != "")
  {
    hide *;
    CompactClean(values);
    CompactCount(values);
    if k < |values| {
      CompactSplit(values, k);
    }
  }

  lemma {:induction false} CompactSplit(values: seq<string>, k: nat)
    requires k < |values|
    ensures CompactStrings(values) ==
              CompactStrings(values[..k]) + (if Trim(values[k]) == "" then [] else [Trim(values[k])])
              + CompactStrings(values[k + 1..])
  {
    hide Trim;
    CompactConcat(values[..k], values[k..]);
    assert values[..k] + values[k..] == values;
    assert values[k..][0] == values[k] && values[k..][1..] == values[k + 1..];
  }

  lemma {:induction false} CompactClean(values: seq<string>)
    ensures forall v :: v in CompactStrings(values) ==> v != "" && Trim(v) == v
  {
    hide Trim;
    if values != [] {
      TrimIdempotent(values[0]);
      CompactClean(values[1..]);
    }
  }

  lemma {:induction false} CompactConcat(a: seq<string>, b: seq<string>)
    ensures CompactStrings(a + b) == CompactStrings(a) + CompactStrings(b)
  {
    hide Trim;
    if a == [] {
      assert a + b == b;
    } else {
      assert (a + b)[0] == a[0] && (a + b)[1..] == a[1..] + b;
      CompactConcat(a[1..], b);
    }
  }

  lemma {:induction false} CompactCount(values: seq<string>)
    ensures |CompactStrings(values)| == Count(values, v => Trim(v) != "")
  {
    hide Trim;
    if values != [] {
      CompactCount(values[1..]);
      CountConcat([values[0]], values[1..], v => Trim(v) != "");
      assert [values[0]] + values[1..] == values;
      CountAppend([], values[0], v => Trim(v) != "");
      assert [] + [values[0]] == [values[0]];
    }
  }

  function MaxFilesPerCodeCluster(complexity: Complexity): nat {
    match complexity
    case Low | Medium => 3
    case High => 2
    case Critical => 1
  }

  /** How many files a cluster may hold. */
  function ClusterSize(maxPerCluster: int): (n: nat)
    ensures 1 <= n <= 3
  {
    if maxPerCluster <= 0 then 2 else if maxPerCluster > 3 then 3 else maxPerCluster
  }

  /** How many files are clustered at all; a configured limit of 0 means all. */
  function ClusterLimit(count: nat, maxClusteredFiles: nat): (limit: nat)
    ensures limit <= count
  {
    if maxClusteredFiles > 0 && count > maxClusteredFiles then maxClusteredFiles else count
  }

  function Flatten(parts: seq<seq<string>>): seq<string> {
    if parts == [] then [] else parts[0] + Flatten(parts[1..])
  }

  lemma {:induction false} FlattenAppend(parts: seq<seq<string>>, part: seq<string>)
    ensures Flatten(parts + [part]) == Flatten(parts) + part
  {
    if parts == [] {
      assert parts + [part] == [part];
      assert Flatten([part][1..]) == [];
    } else {
      assert (parts + [part])[1..] == parts[1..] + [part];
      FlattenAppend(parts[1..], part);
    }
  }

  /** Every cluster is full except possibly the last, which is not empty. */
  ghost predicate PackedClusters(clusters: seq<seq<string>>, size: nat) {
    && (forall i :: 0 <= i < |clusters| ==> 0 < |clusters[i]| <= size)
    && (forall i :: 0 <= i < |clusters| - 1 ==> |clusters[i]| == size)
  }

  /** The clusters, laid end to end, are exactly the first `limit` files in order. */
  method ClusterPlanFiles(files: seq<string>, maxPerCluster: int, maxClusteredFiles: nat)
    returns (clusters: seq<seq<string>>)
    ensures Flatten(clusters) == files[..ClusterLimit(|files|, maxClusteredFiles)]
    ensures PackedClusters(clusters, ClusterSize(maxPerCluster))
    ensures files != [] ==> clusters != []
  {
    clusters := [];
    if |files| == 0 {
      return;
    }
    var size := ClusterSize(maxPerCluster);
    var limit := ClusterLimit(|files|, maxClusteredFiles);
    var start := 0;
    while start < limit
      invariant 0 <= start
      invariant start <= limit ==> |clusters| * size == start
      invariant start > limit ==> clusters != []
      invariant Flatten(clusters) == files[..if start <= limit then start else limit]
      invariant forall i :: 0 <= i < |clusters| ==> 0 < |clusters[i]| <= size
      invariant forall i :: 0 <= i < |clusters| - (if start <= limit then 0 else 1) ==> |clusters[i]| == size
    {
      var end := if start + size > limit then limit else start + size;
      FlattenAppend(clusters, files[start..end]);
      assert files[..start] + files[start..end] == files[..end];
      clusters := clusters + [files[start..end]];
      start := start + size;
    }
  }

  // ---------------------------------------------------------------- steps

  function Decimal(n: nat): (s: string)
    ensures s != "" && '0' <= s[|s| - 1] <= '9'
    ensures forall i :: 0 <= i < |s| ==> '0' <= s[i] <= '9'
  {
    var digit := ['0', '1', '2', '3', '4', '5', '6', '7', '8', '9'][n % 10];
    if n < 10 then [digit] else Decimal(n / 10) + [digit]
  }

  lemma {:induction false} DecimalInjective(m: nat, n: nat)
    requires Decimal(m) == Decimal(n)
    ensures m == n
  {
    var dm, dn := Decimal(m), Decimal(n);
    assert dm[|dm| - 1] == dn[|dn| - 1];
    assert m % 10 == n % 10;
    if m >= 10 && n >= 10 {
      assert dm[..|dm| - 1] == Decimal(m / 10) && dn[..|dn| - 1] == Decimal(n / 10);
      DecimalInjective(m / 10, n / 10);
    }
  }

  function BranchSuffix(index: nat): string { "-branch-" + Decimal(index + 1) }

  function BranchSuffixes(count: nat): seq<string> {
    seq(count, i requires 0 <= i => BranchSuffix(i))
  }

  function BranchDrafts(clusters: seq<seq<string>>): seq<Draft> {
    seq(|clusters|, i requires 0 <= i < |clusters| => Draft(BranchSuffix(i), ["-analyze"], clusters[i], clusters[i]))
  }

  predicate Parallelizable(task: Task, files: seq<string>) {
    |files| > 1
        && (task.complexity == High || task.complexity == Critical || |files| > 2 || |task.acceptanceCriteria| > 1)
  }

  /** Steps run one after the other, the first after the analysis. */
  function Chain(suffixes: seq<string>, files: seq<string>, conflictKeys: seq<string>): seq<Draft> {
    seq(|suffixes|, i requires 0 <= i < |suffixes| =>
      Draft(suffixes[i], [if i == 0 then "-analyze" else suffixes[i - 1]], files, conflictKeys))
  }

  /** The step suffixes of a plan that is not split into parallel branches. */
  function ChainSuffixes(task: Task): seq<string> {
    if task.sourcecraft then
      ["-repo-context", "-workflow-policy", "-draft-sourcecraft", "-review-sourcecraft"]
      + (if task.kind in {Code, Fix, Test} then ["-validate-sourcecraft"] else [])
    else
      match task.kind
      case Code | Fix => ["-implement", "-review", "-test"]
      case Plan => ["-draft-plan", "-review-plan"]
      case Review => ["-audit", "-report"]
      case Test => ["-run-tests", "-verify-results"]
      case Docs | Research => ["-collect-context", "-write-output", "-review-output"]
      case Other => ["-execute", "-verify"]
  }

  /** What a step is for: gathering context, setting the frame, doing the work, reviewing it, testing it. */
  function Purpose(suffix: string): nat {
    if suffix in ["-analyze", "-repo-context", "-collect-context"] then 0
    else if suffix == "-workflow-policy" then 1
    else if suffix in ["-review", "-review-plan", "-report", "-verify-results", "-review-output", "-verify",
                       "-review-sourcecraft", "-merge-review"] then 3
    else if suffix in ["-test", "-validate-sourcecraft"] then 4
    else 2
  }

  lemma {:induction false} SourcecraftPurposes()
    ensures Purpose("-repo-context") == 0 && Purpose("-workflow-policy") == 1 && Purpose("-draft-sourcecraft") == 2
    ensures Purpose("-review-sourcecraft") == 3 && Purpose("-validate-sourcecraft") == 4
  {
  }

  lemma {:induction false} WorkPurposes()
    ensures Purpose("-implement") == Purpose("-draft-plan") == Purpose("-audit") == Purpose("-run-tests") == 2
    ensures Purpose("-write-output") == Purpose("-execute") == 2 && Purpose("-collect-context") == 0
  {
  }

  lemma {:induction false} CheckPurposes()
    ensures Purpose("-review") == Purpose("-review-plan") == Purpose("-report") == Purpose("-verify-results") == 3
    ensures Purpose("-review-output") == Purpose("-verify") == 3 && Purpose("-test") == 4
  {
  }

  /** In every plan that runs in line, work comes after its context and before its review, and tests
      come last: the steps ascend in purpose, step `work` does the work and the next one reviews it. */
  lemma {:induction false} WorkIsReviewed(task: Task) returns (work: nat)
    ensures var all := ChainSuffixes(task);
            && (forall i, j :: 0 <= i < j < |all| ==> Purpose(all[i]) < Purpose(all[j]))
            && work < |all| - 1 && Purpose(all[work]) == 2 && Purpose(all[work + 1]) == 3
            && (Purpose(all[|all| - 1]) == 4 <==>
                  task.kind in {Code, Fix} || (task.sourcecraft && task.kind == Test))
  {
    SourcecraftPurposes();
    WorkPurposes();
    CheckPurposes();
    hide Purpose;
    work := if task.sourcecraft then 2 else if task.kind in {Docs, Research} then 1 else 0;
  }

  predicate IsCodeWork(task: Task) {
    !task.sourcecraft && task.kind in {Code, Fix}
  }

  /** The steps after the analysis step. `clusters` is how the planner grouped the files. */
  function WorkDrafts(task: Task, clusters: seq<seq<string>>): seq<Draft> {
    var files := CompactStrings(task.files);
    if IsCodeWork(task) && Parallelizable(task, files) then
      BranchDrafts(clusters)
      + [ Draft("-merge-review", BranchSuffixes(|clusters|), files, files),
          Draft("-test", ["-merge-review"], files, files) ]
    else
      Chain(ChainSuffixes(task), files, if IsCodeWork(task) then files else [])
  }

  function DefaultDrafts(task: Task, clusters: seq<seq<string>>): seq<Draft> {
    [Draft("-analyze", [], CompactStrings(task.files), [])] + WorkDrafts(task, clusters)
  }

  function Prefixed(id: string, suffixes: seq<string>): seq<string> {
    seq(|suffixes|, i requires 0 <= i < |suffixes| => id + suffixes[i])
  }

  function ToStep(id: string, draft: Draft): PlanStep {
    PlanStep(id + draft.suffix, Prefixed(id, draft.after), draft.files, draft.conflictKeys)
  }

  /** The plan of a task. */
  function DefaultSteps(task: Task, clusters: seq<seq<string>>): seq<PlanStep> {
    var drafts := DefaultDrafts(task, clusters);
    seq(|drafts|, i requires 0 <= i < |drafts| => ToStep(task.id, drafts[i]))
  }

  // ---------------------------------------------------------------- order

  /** A suffix starts with a dash and ends in a visible character. */
  predicate ProperSuffix(s: string) {
    |s| >= 2 && s[0] == '-' && !IsSpace(s[|s| - 1])
  }

  ghost predicate ProperAndDistinct(drafts: seq<Draft>) {
    && (forall i :: 0 <= i < |drafts| ==> ProperSuffix(drafts[i].suffix))
    && (forall i, j :: 0 <= i < j < |drafts| ==> drafts[i].suffix != drafts[j].suffix)
  }

  /** Some step before position `i` has this suffix. */
  ghost predicate Earlier(drafts: seq<Draft>, i: nat, suffix: string)
    requires i <= |drafts|
  {
    exists j :: 0 <= j < i && drafts[j].suffix == suffix
  }

  /** Suffixes are proper and distinct, and every step comes after the ones it names. */
  ghost predicate Ordered(drafts: seq<Draft>) {
    && ProperAndDistinct(drafts)
    && (forall i, a :: 0 <= i < |drafts| && a in drafts[i].after ==> Earlier(drafts, i, a))
  }

  ghost predicate GoodSuffixes(suffixes: seq<string>) {
    && (forall i :: 0 <= i < |suffixes| ==> ProperSuffix(suffixes[i]) && suffixes[i] != "-analyze")
    && Distinct(suffixes)
  }

  lemma {:induction false} ChainIsOrdered(first: Draft, suffixes: seq<string>, files: seq<string>,
                                          conflictKeys: seq<string>)
    requires first.suffix == "-analyze" && first.after == []
    requires GoodSuffixes(suffixes)
    ensures Ordered([first] + Chain(suffixes, files, conflictKeys))
  {
    assert ProperSuffix("-analyze");
    hide ProperSuffix;
    var all := [first] + Chain(suffixes, files, conflictKeys);
    forall i, a | 0 <= i < |all| && a in all[i].after ensures Earlier(all, i, a) {
      assert a == all[i - 1].suffix;
    }
  }

  lemma {:induction false} ProperByEnds(s: string)
    requires |s| >= 2 && s[0] == '-' && 'a' <= s[|s| - 1] <= 'z'
    ensures ProperSuffix(s)
  {
  }

  lemma {:induction false} ChainSuffixesGood(task: Task)
    ensures GoodSuffixes(ChainSuffixes(task))
  {
    hide ProperSuffix;
    forall s | s in ChainSuffixes(task) ensures ProperSuffix(s) && s != "-analyze" {
      ProperByEnds(s);
    }
  }

  lemma {:induction false} BranchSuffixProper(i: nat)
    ensures |BranchSuffix(i)| >= 2 && ProperSuffix(BranchSuffix(i)) && BranchSuffix(i)[1] == 'b'
  {
    hide Decimal;
    var d := Decimal(i + 1);
    assert BranchSuffix(i)[|BranchSuffix(i)| - 1] == d[|d| - 1];
  }

  lemma {:induction false} BranchSuffixDistinct(i: nat, j: nat)
    requires BranchSuffix(i) == BranchSuffix(j)
    ensures i == j
  {
    hide Decimal;
    assert BranchSuffix(i)[8..] == Decimal(i + 1) && BranchSuffix(j)[8..] == Decimal(j + 1);
    DecimalInjective(i + 1, j + 1);
  }

  /** What position `i` of the parallel code plan holds: analysis, then `n` branches, then a merge
      of all branches, then the tests. */
  ghost predicate ParallelSlot(all: seq<Draft>, n: nat, i: nat)
    requires |all| == n + 3 && i < |all|
  {
    if i == 0 then all[i].suffix == "-analyze" && all[i].after == []
    else if i <= n then all[i].suffix == BranchSuffix(i - 1) && all[i].after == ["-analyze"]
    else if i == n + 1 then all[i].suffix == "-merge-review" && all[i].after == BranchSuffixes(n)
    else all[i].suffix == "-test" && all[i].after == ["-merge-review"]
  }

  lemma {:induction false} ParallelSuffixesGood(all: seq<Draft>, n: nat)
    requires |all| == n + 3 && forall i :: 0 <= i < |all| ==> ParallelSlot(all, n, i)
    ensures ProperAndDistinct(all)
  {
    hide BranchSuffix, ProperSuffix, BranchSuffixes;
    forall i | 0 <= i < |all| ensures ProperSuffix(all[i].suffix) && |all[i].suffix| >= 2
        && (all[i].suffix[1] == 'b' <==> 1 <= i <= n) {
      assert ParallelSlot(all, n, i);
      if 1 <= i <= n {
        BranchSuffixProper(i - 1);
      } else {
        ProperByEnds(all[i].suffix);
      }
    }
    forall i, j | 0 <= i < j < |all| ensures all[i].suffix != all[j].suffix {
      assert ParallelSlot(all, n, i) && ParallelSlot(all, n, j);
      if 1 <= i && j <= n && all[i].suffix == all[j].suffix {
        BranchSuffixDistinct(i - 1, j - 1);
      }
    }
  }

  lemma {:induction false} ParallelIsOrdered(all: seq<Draft>, n: nat)
    requires |all| == n + 3 && forall i :: 0 <= i < |all| ==> ParallelSlot(all, n, i)
    ensures Ordered(all)
  {
    hide BranchSuffix, ProperAndDistinct;
    ParallelSuffixesGood(all, n);
    forall i, a | 0 <= i < |all| && a in all[i].after ensures Earlier(all, i, a) {
      assert ParallelSlot(all, n, i) && ParallelSlot(all, n, 0);
      if i == n + 1 {
        var k :| 0 <= k < n && BranchSuffixes(n)[k] == a;
        assert ParallelSlot(all, n, k + 1) && all[k + 1].suffix == a;
      } else if i == n + 2 {
        assert ParallelSlot(all, n, n + 1) && all[n + 1].suffix == a;
      } else {
        assert all[0].suffix == a;
      }
    }
  }

  /** In every plan the planner can build, step suffixes are distinct and every dependency is an
      earlier step. */
  lemma {:induction false} DraftsOrdered(task: Task, clusters: seq<seq<string>>)
    ensures Ordered(DefaultDrafts(task, clusters))
  {
    hide CompactStrings, BranchSuffixes, BranchSuffix, Ordered, ChainSuffixes;
    var drafts := DefaultDrafts(task, clusters);
    var files := CompactStrings(task.files);
    if IsCodeWork(task) && Parallelizable(task, files) {
      ParallelIsOrdered(drafts, |clusters|);
    } else {
      ChainSuffixesGood(task);
      ChainIsOrdered(drafts[0], ChainSuffixes(task), files, if IsCodeWork(task) then files else []);
    }
  }

  // ---------------------------------------------------------------- executability

  /** The executor's view of a step; `weigh` stands for the cost estimate. */
  function ToArtifact(step: PlanStep, weigh: PlanStep -> real): PlanTask {
    var conflictKeys := if step.conflictKeys == [] then step.files else step.conflictKeys;
    PlanTask(step.id, step.dependencies, conflictKeys, step.files, weigh(step))
  }

  function BuildPlanArtifact(steps: seq<PlanStep>, weigh: PlanStep -> real): seq<PlanTask> {
    seq(|steps|, i requires 0 <= i < |steps| => ToArtifact(steps[i], weigh))
  }

  /** Where white space in a step id comes from: only from the front of the task id. */
  lemma {:induction false} TrimStepId(id: string, suffix: string)
    requires ProperSuffix(suffix)
    ensures Trim(id + suffix) == TrimLeft(id) + suffix
  {
    TrimLeftStepId(id, suffix);
    EndOfConcat(TrimLeft(id), suffix);
    TrimByLeft(id + suffix, TrimLeft(id) + suffix);
  }

  lemma {:induction false} EndOfConcat(a: string, b: string)
    requires b != ""
    ensures a + b != "" && (a + b)[|a + b| - 1] == b[|b| - 1]
  {
  }

  lemma {:induction false} TrimLeftStepId(id: string, suffix: string)
    requires ProperSuffix(suffix)
    ensures TrimLeft(id + suffix) == TrimLeft(id) + suffix
  {
    assert !IsSpace(suffix[0]);
    hide IsSpace;
    if id == "" {
      assert id + suffix == suffix && TrimLeft(id) == "";
      assert TrimLeft(id) + suffix == suffix;
    } else if IsSpace(id[0]) {
      assert (id + suffix)[1..] == id[1..] + suffix;
      TrimLeftStepId(id[1..], suffix);
    }
  }

  /** A task id that does not begin with white space. */
  predicate UsableTaskId(id: string) {
    id == "" || !IsSpace(id[0])
  }

  lemma {:induction false} CleanStepId(id: string, suffix: string)
    requires ProperSuffix(suffix)
    ensures CleanId(id + suffix) <==> UsableTaskId(id)
  {
    TrimStepId(id, suffix);
    if CleanId(id + suffix) {
      assert |TrimLeft(id)| == |id|;
    }
  }

  lemma {:induction false} SameSuffix(prefix: string, a: string, b: string)
    requires prefix + a == prefix + b
    ensures a == b
  {
    assert (prefix + a)[|prefix|..] == a && (prefix + b)[|prefix|..] == b;
  }

  /** `tasks` are the artifacts of ordered drafts. */
  ghost predicate Realizes(tasks: seq<PlanTask>, id: string, drafts: seq<Draft>) {
    && |tasks| == |drafts|
    && forall i :: 0 <= i < |drafts| ==>
         tasks[i].id == id + drafts[i].suffix && tasks[i].dependencies == Prefixed(id, drafts[i].after)
  }

  lemma {:induction false} RealizedIdsDistinct(tasks: seq<PlanTask>, id: string, drafts: seq<Draft>)
    requires Realizes(tasks, id, drafts) && Ordered(drafts)
    ensures DistinctIds(tasks)
  {
    hide ProperSuffix, Prefixed, Trim, TrimLeft;
    forall i, j | 0 <= i < j < |tasks| ensures Trim(tasks[i].id) != Trim(tasks[j].id) {
      TrimStepId(id, drafts[i].suffix);
      TrimStepId(id, drafts[j].suffix);
      if Trim(tasks[i].id) == Trim(tasks[j].id) {
        SameSuffix(TrimLeft(id), drafts[i].suffix, drafts[j].suffix);
      }
    }
  }

  /** Running the steps in plan order is a schedule. */
  lemma {:induction false} PlanOrderIsSchedule(tasks: seq<PlanTask>, id: string, drafts: seq<Draft>)
    requires Realizes(tasks, id, drafts) && Ordered(drafts) && DistinctIds(tasks)
    ensures IsSchedule(DependencyGraph(tasks), TaskIds(tasks))
  {
    hide ProperSuffix, Trim, DependencyGraph, ProperAndDistinct;
    var g, order := DependencyGraph(tasks), TaskIds(tasks);
    GraphKeys(tasks);
    OrderHasIds(tasks);
    forall i | 0 <= i < |order| ensures order[i] in g && g[order[i]] <= Elements(order[..i]) {
      GraphOfTask(tasks, tasks[i]);
      forall d | d in tasks[i].dependencies ensures d in Elements(order[..i]) {
        var k :| 0 <= k < |drafts[i].after| && tasks[i].dependencies[k] == d;
        assert Earlier(drafts, i, drafts[i].after[k]);
        var j :| 0 <= j < i && drafts[j].suffix == drafts[i].after[k];
        assert order[..i][j] == d;
      }
    }
  }

  lemma {:induction false} DefaultStepsRealize(task: Task, clusters: seq<seq<string>>, weigh: PlanStep -> real)
    ensures Realizes(BuildPlanArtifact(DefaultSteps(task, clusters), weigh), task.id, DefaultDrafts(task, clusters))
  {
    hide DefaultDrafts, Prefixed;
  }

  /** A planner-built plan is executable exactly when the task id does not begin with white space:
      its dependencies are always closed and acyclic, but a leading blank in the task id makes
      every step id one the executor never finds ready. */
  lemma {:induction false} PlannerPlanExecutable(task: Task, clusters: seq<seq<string>>, weigh: PlanStep -> real)
    ensures var tasks := BuildPlanArtifact(DefaultSteps(task, clusters), weigh);
            && DistinctIds(tasks) && Runnable(DependencyGraph(tasks))
            && (Executable(tasks) <==> UsableTaskId(task.id))
            && tasks != [] && (!UsableTaskId(task.id) ==> forall t :: t in tasks ==> !CleanId(t.id))
  {
    hide DefaultDrafts, ProperSuffix, DependencyGraph, Runnable, CleanId, UsableTaskId, BuildPlanArtifact,
         DefaultSteps, DistinctIds, IsSchedule;
    var drafts := DefaultDrafts(task, clusters);
    var tasks := BuildPlanArtifact(DefaultSteps(task, clusters), weigh);
    DraftsOrdered(task, clusters);
    DefaultStepsRealize(task, clusters, weigh);
    RealizedIdsDistinct(tasks, task.id, drafts);
    PlanOrderIsSchedule(tasks, task.id, drafts);
    ScheduleMeansRunnable(DependencyGraph(tasks), TaskIds(tasks));
    forall t | t in tasks ensures CleanId(t.id) <==> UsableTaskId(task.id) {
      var k :| 0 <= k < |tasks| && tasks[k] == t;
      CleanStepId(task.id, drafts[k].suffix);
    }
    assert tasks[0] in tasks by {
      HasAnalysis(task, clusters);
    }
  }

  lemma {:induction false} HasAnalysis(task: Task, clusters: seq<seq<string>>)
    ensures DefaultDrafts(task, clusters) != []
  {
    hide WorkDrafts;
  }

  // ---------------------------------------------------------------- building the plan

  function FilesOf(steps: seq<PlanStep>): seq<string> {
    if steps == [] then [] else steps[0].files + FilesOf(steps[1..])
  }

  /** Analysis, then branches that wait for it alone and share out `files` among them in order, each
      with at most `size` and guarding its own; then a merge of all the branches; then the tests. */
  ghost predicate FansOut(steps: seq<PlanStep>, files: seq<string>, size: nat) {
    && |steps| >= 4 && steps[0].dependencies == []
    && var n := |steps| - 3;
       && FilesOf(steps[1..n + 1]) == files
       && (forall i :: 1 <= i <= n ==>
             && 0 < |steps[i].files| <= size && steps[i].conflictKeys == steps[i].files
             && steps[i].dependencies == [steps[0].id])
       && |steps[n + 1].dependencies| == n
       && (forall i :: 1 <= i <= n ==> steps[n + 1].dependencies[i - 1] == steps[i].id)
       && steps[n + 2].dependencies == [steps[n + 1].id]
  }

  /** Every step waits for the one before it. */
  ghost predicate RunsInLine(steps: seq<PlanStep>) {
    && |steps| >= 3 && steps[0].dependencies == []
    && (forall i :: 1 <= i < |steps| ==> steps[i].dependencies == [steps[i - 1].id])
  }

  lemma {:induction false} FilesOfBranches(steps: seq<PlanStep>, clusters: seq<seq<string>>)
    requires |steps| == |clusters| && forall i :: 0 <= i < |steps| ==> steps[i].files == clusters[i]
    ensures FilesOf(steps) == Flatten(clusters)
  {
    if steps != [] {
      FilesOfBranches(steps[1..], clusters[1..]);
    }
  }

  /** The implementation branches, one for each cluster, and their ids. */
  method CodeBranches(task: Task, clusters: seq<seq<string>>) returns (steps: seq<PlanStep>, branchIds: seq<string>)
    ensures |steps| == |branchIds| == |clusters|
    ensures forall i :: 0 <= i < |clusters| ==>
              && steps[i] == PlanStep(branchIds[i], [task.id + "-analyze"], clusters[i], clusters[i])
              && branchIds[i] == task.id + BranchSuffix(i)
  {
    hide BranchSuffix;
    steps, branchIds := [], [];
    for index := 0 to |clusters|
      invariant |steps| == |branchIds| == index
      invariant forall i :: 0 <= i < index ==>
                  && steps[i] == PlanStep(branchIds[i], [task.id + "-analyze"], clusters[i], clusters[i])
                  && branchIds[i] == task.id + BranchSuffix(i)
    {
      var branchId := task.id + BranchSuffix(index);
      branchIds := branchIds + [branchId];
      steps := steps + [PlanStep(branchId, [task.id + "-analyze"], clusters[index], clusters[index])];
    }
  }

  lemma {:induction false} ParallelSteps(task: Task, clusters: seq<seq<string>>, branches: seq<PlanStep>,
                                         branchIds: seq<string>)
    requires IsCodeWork(task) && Parallelizable(task, CompactStrings(task.files))
    requires |branches| == |branchIds| == |clusters|
    requires forall i :: 0 <= i < |clusters| ==>
               && branches[i] == PlanStep(branchIds[i], [task.id + "-analyze"], clusters[i], clusters[i])
               && branchIds[i] == task.id + BranchSuffix(i)
    ensures var files := CompactStrings(task.files);
            DefaultSteps(task, clusters) ==
              [PlanStep(task.id + "-analyze", [], files, [])] + branches
              + [PlanStep(task.id + "-merge-review", branchIds, files, files),
                 PlanStep(task.id + "-test", [task.id + "-merge-review"], files, files)]
  {
    hide CompactStrings, BranchSuffix;
    var files := CompactStrings(task.files);
    var drafts, steps := DefaultDrafts(task, clusters), DefaultSteps(task, clusters);
    var n := |clusters|;
    var last := [PlanStep(task.id + "-merge-review", branchIds, files, files),
                 PlanStep(task.id + "-test", [task.id + "-merge-review"], files, files)];
    var whole := [PlanStep(task.id + "-analyze", [], files, [])] + branches + last;
    assert Prefixed(task.id, []) == [] && Prefixed(task.id, BranchSuffixes(n)) == branchIds;
    assert Prefixed(task.id, ["-analyze"]) == [task.id + "-analyze"];
    assert Prefixed(task.id, ["-merge-review"]) == [task.id + "-merge-review"];
    forall i | 0 <= i < n + 3 ensures steps[i] == whole[i] {
      if 1 <= i <= n {
        assert drafts[i] == Draft(BranchSuffix(i - 1), ["-analyze"], clusters[i - 1], clusters[i - 1]);
        assert whole[i] == branches[i - 1];
      } else if i > n {
        assert whole[i] == last[i - n - 1];
      }
    }
    assert |steps| == |whole| == n + 3;
    assert steps == whole;
  }

  lemma {:induction false} ParallelFansOut(task: Task, clusters: seq<seq<string>>, size: nat, branches: seq<PlanStep>,
                                           branchIds: seq<string>, steps: seq<PlanStep>)
    requires clusters != [] && PackedClusters(clusters, size) && |branches| == |branchIds| == |clusters|
    requires forall i :: 0 <= i < |clusters| ==>
               && branches[i] == PlanStep(branchIds[i], [task.id + "-analyze"], clusters[i], clusters[i])
    requires var files := CompactStrings(task.files);
             steps == [PlanStep(task.id + "-analyze", [], files, [])] + branches
               + [PlanStep(task.id + "-merge-review", branchIds, files, files),
                  PlanStep(task.id + "-test", [task.id + "-merge-review"], files, files)]
    ensures FansOut(steps, Flatten(clusters), size)
  {
    hide CompactStrings;
    var n := |clusters|;
    assert steps[1..n + 1] == branches;
    FilesOfBranches(branches, clusters);
    hide FilesOf, Flatten;
    forall i | 1 <= i <= n ensures steps[i] == branches[i - 1] {
    }
  }

  lemma {:induction false} ChainRunsInLine(task: Task)
    requires !(IsCodeWork(task) && Parallelizable(task, CompactStrings(task.files)))
    ensures RunsInLine(DefaultSteps(task, []))
  {
    hide CompactStrings;
    var suffixes := ChainSuffixes(task);
    assert |suffixes| >= 2;
    hide ChainSuffixes;
    var drafts, steps := DefaultDrafts(task, []), DefaultSteps(task, []);
    forall i | 1 <= i < |steps| ensures steps[i].dependencies == [steps[i - 1].id] {
      assert drafts[i].after == [drafts[i - 1].suffix];
    }
  }

  /** The plan of a task, as the executor will see it: always closed and acyclic, and one it can run
      to the end exactly when the task id does not begin with white space, whatever the weights. A
      code or fix task on several files, unless it is a sourcecraft one, fans out when it is complex,
      has more than two files or several acceptance criteria: into branches that share out its first
      files, each file at its place in exactly one branch, three, two or one to a branch as complexity
      grows. Every other task runs in line. */
  method BuildPlan(task: Task, maxClusteredFiles: nat) returns (steps: seq<PlanStep>)
    ensures forall weigh ::
              var tasks := BuildPlanArtifact(steps, weigh);
              DistinctIds(tasks) && Runnable(DependencyGraph(tasks)) && (Executable(tasks) <==> UsableTaskId(task.id))
    ensures var files := CompactStrings(task.files);
            var limit := if maxClusteredFiles == 0 then |files| else Min(maxClusteredFiles, |files|);
            if !task.sourcecraft && (task.kind == Code || task.kind == Fix) && |files| >= 2
               && (task.complexity in {High, Critical} || |files| >= 3 || |task.acceptanceCriteria| >= 2) then
              FansOut(steps, files[..limit],
                  if task.complexity == Critical then 1 else if task.complexity == High then 2 else 3)
            else RunsInLine(steps)
  {
    hide CompactStrings, BuildPlanArtifact, DefaultSteps, DependencyGraph, Runnable, Executable, DistinctIds,
         UsableTaskId, FansOut, RunsInLine, Flatten, PackedClusters, BranchSuffix;
    var files := CompactStrings(task.files);
    ghost var grouped: seq<seq<string>> := [];
    if IsCodeWork(task) && Parallelizable(task, files) {
      var size := MaxFilesPerCodeCluster(task.complexity);
      var clusters := ClusterPlanFiles(files, size, maxClusteredFiles);
      var branches, branchIds := CodeBranches(task, clusters);
      steps := [PlanStep(task.id + "-analyze", [], files, [])] + branches
        + [PlanStep(task.id + "-merge-review", branchIds, files, files),
           PlanStep(task.id + "-test", [task.id + "-merge-review"], files, files)];
      grouped := clusters;
      ParallelSteps(task, clusters, branches, branchIds);
      ParallelFansOut(task, clusters, ClusterSize(size), branches, branchIds, steps);
    } else {
      steps := DefaultSteps(task, []);
      ChainRunsInLine(task);
    }
    forall weigh ensures
        var tasks := BuildPlanArtifact(steps, weigh);
        DistinctIds(tasks) && Runnable(DependencyGraph(tasks)) && (Executable(tasks) <==> UsableTaskId(task.id)) {
      PlannerPlanExecutable(task, grouped, weigh);
    }
  }

  /** What becomes of a planner-built plan when no step fails, for every order of results: with a
      usable task id every step completes, otherwise the run stops blocked with all steps pending. */
  lemma {:induction false} PlannerRunOutcome(task: Task, clusters: seq<seq<string>>, weigh: PlanStep -> real,
                                             trace: seq<Exec>)
    requires var tasks := BuildPlanArtifact(DefaultSteps(task, clusters), weigh);
             && IsTrace(tasks, trace) && trace[0] == Start(TaskIds(tasks), [])
             && Launch(tasks, trace[|trace| - 1]).running == map[]
    ensures trace[|trace| - 1].pending == [] <==> UsableTaskId(task.id)
    ensures trace[|trace| - 1].completed == [] <==> !UsableTaskId(task.id)
  {
    hide DefaultSteps, BuildPlanArtifact, UsableTaskId, Launch, Executable, DistinctIds, IsSchedule, DependencyGraph,
         Step, Inv, Progressed;
    var tasks := BuildPlanArtifact(DefaultSteps(task, clusters), weigh);
    PlannerPlanExecutable(task, clusters, weigh);
    NothingDone(tasks);
    RunOutcome(tasks, [], trace);
    TraceInv(tasks, [], trace, |trace| - 1);
    if !UsableTaskId(task.id) {
      NoCleanIdNothingCompleted(tasks, [], trace[|trace| - 1]);
    } else {
      CompletedPlanIsNotEmpty(tasks, [], trace[|trace| - 1]);
    }
  }

  /** Every step of a planner-built plan guards exactly the files it works on. */
  lemma {:induction false} StepsGuardFiles(task: Task, clusters: seq<seq<string>>, weigh: PlanStep -> real, i: nat)
    requires i < |DefaultDrafts(task, clusters)|
    ensures var tasks := BuildPlanArtifact(DefaultSteps(task, clusters), weigh);
            i < |tasks| && Keys(tasks[i]) == TrimmedSet(tasks[i].files)
  {
    hide TrimmedSet, CompactStrings;
    var drafts := DefaultDrafts(task, clusters);
    assert drafts[i].conflictKeys == [] || drafts[i].conflictKeys == drafts[i].files;
  }

  /** At no time do two steps of a planner-built plan that work on a common file run together. */
  lemma {:induction false} FilesAreExclusive(task: Task, clusters: seq<seq<string>>, weigh: PlanStep -> real,
                                             trace: seq<Exec>, i: nat, a: string, b: string)
    requires var tasks := BuildPlanArtifact(DefaultSteps(task, clusters), weigh);
             && IsTrace(tasks, trace) && i < |trace| && trace[0] == Start(TaskIds(tasks), [])
             && a != b && a in Launch(tasks, trace[i]).running && b in Launch(tasks, trace[i]).running
    ensures var running := Launch(BuildPlanArtifact(DefaultSteps(task, clusters), weigh), trace[i]).running;
            TrimmedSet(running[a].files) !! TrimmedSet(running[b].files)
  {
    var tasks := BuildPlanArtifact(DefaultSteps(task, clusters), weigh);
    PlannerPlanExecutable(task, clusters, weigh);
    NothingDone(tasks);
    hide Launch, DefaultSteps, BuildPlanArtifact, DistinctIds, DependencyGraph, Runnable, Executable, TrimmedSet,
         UsableTaskId, Progressed, Keys, Inv;
    RunningTasksNeverConflict(tasks, [], trace, i, a, b);
    TraceInv(tasks, [], trace, i);
    RunsAtSomePlace(tasks, Launch(tasks, trace[i]), a);
    RunsAtSomePlace(tasks, Launch(tasks, trace[i]), b);
    forall k | 0 <= k < |tasks| ensures Keys(tasks[k]) == TrimmedSet(tasks[k].files) {
      SameLength(task, clusters, weigh);
      StepsGuardFiles(task, clusters, weigh, k);
    }
  }

  lemma {:induction false} SameLength(task: Task, clusters: seq<seq<string>>, weigh: PlanStep -> real)
    ensures |BuildPlanArtifact(DefaultSteps(task, clusters), weigh)| == |DefaultDrafts(task, clusters)|
  {
    hide DefaultDrafts;
  }

  lemma {:induction false} RunsAtSomePlace(plan: seq<PlanTask>, e: Exec, id: string)
    requires DistinctIds(plan) && Inv(plan, [], e) && id in e.running
    ensures exists k :: 0 <= k < |plan| && plan[k] == e.running[id]
  {
    hide Progressed, ConflictFree, LogMatches, DistinctIds;
    assert e.running[id] in plan;
  }

  lemma {:induction false} CompletedIsCleanTask(tasks: seq<PlanTask>, base: seq<string>, e: Exec, id: string)
    requires DistinctIds(tasks) && Inv(tasks, base, e) && id in e.completed
    ensures exists t :: t in tasks && t.id == id && CleanId(t.id)
  {
    hide DistinctIds, RespectsDependencies, Distinct, LogMatches, ConflictFree, AllStartable;
    assert id in Elements(e.completed);
    assert id in Ids(tasks);
  }

  lemma {:induction false} NoCleanIdNothingCompleted(tasks: seq<PlanTask>, base: seq<string>, e: Exec)
    requires DistinctIds(tasks) && Inv(tasks, base, e) && forall t :: t in tasks ==> !CleanId(t.id)
    ensures e.completed == []
  {
    hide *;
    if e.completed != [] {
      CompletedIsCleanTask(tasks, base, e, e.completed[0]);
    }
  }

  lemma {:induction false} CompletedPlanIsNotEmpty(tasks: seq<PlanTask>, base: seq<string>, e: Exec)
    requires DistinctIds(tasks) && Inv(tasks, base, e) && tasks != [] && e.pending == []
    ensures e.completed != []
  {
    hide CleanId, DistinctIds, RespectsDependencies, Distinct, LogMatches, ConflictFree, AllStartable;
    assert Elements(e.pending) == {};
    assert tasks[0].id in Ids(tasks);
    assert tasks[0].id in Elements(e.completed);
  }
}
