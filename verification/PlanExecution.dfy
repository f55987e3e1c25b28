/** The parallel plan executor as a transition system (go-core/internal/kernel/advanced_planner.go:297-359,
    625-735). One round starts every task the conflict rule lets start, then takes one result, in
    whatever order results arrive. */
module PlanExecution {
  import opened Basics
  import opened Text
  import opened Sorting
  import opened PlanGraph
  import opened ConflictScheduling

  // ---------------------------------------------------------------- ready tasks

  method CompletedSet(ids: seq<string>) returns (out: set<string>)
    ensures out == TrimmedSet(ids)
  {
    assert TrimmedSet(ids[..0]) == {};
    hide Trim, TrimmedSet;
    out := {};
    for i := 0 to |ids|
      invariant out == TrimmedSet(ids[..i])
    {
      TrimmedSetStep(ids, i);
      var trimmed := Trim(ids[i]);
      if trimmed == "" {
        continue;
      }
      out := out + {trimmed};
    }
    assert ids[..|ids|] == ids;
  }

  predicate IsReady(task: PlanTask, pending: set<string>, completed: set<string>) {
    task.id in pending && forall d :: d in task.dependencies ==> d in completed
  }

  function ReadyInPlanOrder(tasks: seq<PlanTask>, pending: set<string>, completed: set<string>): seq<PlanTask> {
    Select(tasks, t => IsReady(t, pending, completed))
  }

  lemma {:induction false} ReadyInPlanOrderHas(tasks: seq<PlanTask>, pending: set<string>, completed: set<string>,
                                               t: PlanTask)
    ensures t in ReadyInPlanOrder(tasks, pending, completed) <==> t in tasks && IsReady(t, pending, completed)
  {
    hide IsReady;
    SelectHas(tasks, x => IsReady(x, pending, completed), t);
  }

  function Ready(tasks: seq<PlanTask>, pending: seq<string>, completed: seq<string>): seq<PlanTask> {
    Sort(IdBefore, ReadyInPlanOrder(tasks, TrimmedSet(pending), TrimmedSet(completed)))
  }

  method ReadyPlanArtifacts(tasks: seq<PlanTask>, pending: seq<string>, completed: seq<string>)
    returns (ready: seq<PlanTask>)
    ensures ready == Ready(tasks, pending, completed)
  {
    hide TrimmedSet, Sort;
    var pendingSet := CompletedSet(pending);
    var completedSet := CompletedSet(completed);
    ready := [];
    for i := 0 to |tasks|
      invariant ready == ReadyInPlanOrder(tasks[..i], pendingSet, completedSet)
    {
      SelectStep(tasks, i, t => IsReady(t, pendingSet, completedSet));
      if tasks[i].id !in pendingSet {
        continue;
      }
      var done := DependenciesDone(tasks[i].dependencies, completedSet);
      if done {
        ready := ready + [tasks[i]];
      }
    }
    assert tasks[..|tasks|] == tasks;
    ready := Sort(IdBefore, ready);
  }

  function RemovePending(pending: seq<string>, id: string): (out: seq<string>)
    ensures forall x :: x in out <==> x in pending && x != id
    ensures |out| <= |pending|
    ensures id in pending ==> |out| < |pending|
  {
    if pending == [] then []
    else
      var rest := RemovePending(pending[1..], id);
      if pending[0] == id then rest else [pending[0]] + rest
  }

  lemma {:induction false} RemovePendingDistinct(pending: seq<string>, id: string)
    requires Distinct(pending)
    ensures Distinct(RemovePending(pending, id))
  {
    if pending != [] {
      RemovePendingDistinct(pending[1..], id);
      var rest := RemovePending(pending[1..], id);
      if pending[0] != id {
        assert pending[0] !in rest;
      }
    }
  }

  // ---------------------------------------------------------------- the transition system

  /** What one executor run holds in memory; `launched` logs every task start. */
  datatype Exec = Exec(pending: seq<string>, completed: seq<string>, running: map<string, PlanTask>,
      launched: seq<string>)

  function RunningKeys(running: map<string, PlanTask>): set<string> {
    set id, k | id in running && k in Keys(running[id]) :: k
  }

  method CollectConflictKeys(running: map<string, PlanTask>) returns (used: set<string>)
    ensures used == RunningKeys(running)
  {
    hide Keys;
    used := {};
    var rest := running.Keys;
    while rest != {}
      invariant rest <= running.Keys
      invariant used <= RunningKeys(running)
      invariant forall id :: id in running && id !in rest ==> Keys(running[id]) <= used
      decreases rest
    {
      var id :| id in rest;
      used := RegisterConflictKeys(running[id], used);
      rest := rest - {id};
    }
    forall k | k in RunningKeys(running) ensures k in used {
      var id :| id in running && k in Keys(running[id]);
    }
  }

  function LaunchOne(e: Exec, task: PlanTask): Exec {
    if task.id in e.running then e
    else e.(running := e.running[task.id := task], launched := e.launched + [task.id])
  }

  function LaunchAll(e: Exec, tasks: seq<PlanTask>): Exec
    decreases |tasks|
  {
    if tasks == [] then e else LaunchAll(LaunchOne(e, tasks[0]), tasks[1..])
  }

  function Chosen(plan: seq<PlanTask>, e: Exec): seq<PlanTask> {
    Schedule(Ready(plan, e.pending, e.completed), RunningKeys(e.running))
  }

  /** Start everything that may start. */
  function Launch(plan: seq<PlanTask>, e: Exec): Exec {
    LaunchAll(e, Chosen(plan, e))
  }

  /** Take the successful result of `id`. */
  function Finish(e: Exec, id: string): Exec {
    e.(pending := RemovePending(e.pending, id), completed := e.completed + [id], running := e.running - {id})
  }

  ghost predicate Step(plan: seq<PlanTask>, e: Exec, e': Exec) {
    exists id :: id in Launch(plan, e).running && e' == Finish(Launch(plan, e), id)
  }

  /** A run in which every task taken so far succeeded. */
  ghost predicate IsTrace(plan: seq<PlanTask>, trace: seq<Exec>) {
    trace != [] && forall i :: 0 <= i < |trace| - 1 ==> Step(plan, trace[i], trace[i + 1])
  }

  // ---------------------------------------------------------------- plans

  /** Task ids stay distinct once trimmed. */
  ghost predicate DistinctIds(plan: seq<PlanTask>) {
    forall i, j :: 0 <= i < j < |plan| ==> Trim(plan[i].id) != Trim(plan[j].id)
  }

  ghost function Ids(plan: seq<PlanTask>): set<string> {
    set t | t in plan :: t.id
  }

  lemma {:induction false} SameId(plan: seq<PlanTask>, a: PlanTask, b: PlanTask)
    requires DistinctIds(plan) && a in plan && b in plan && Trim(a.id) == Trim(b.id)
    ensures a == b
  {
    hide Trim;
    var i :| 0 <= i < |plan| && plan[i] == a;
    var j :| 0 <= j < |plan| && plan[j] == b;
  }

  lemma {:induction false} IdsAreKeys(plan: seq<PlanTask>)
    requires DistinctIds(plan)
    ensures forall a, b :: a in plan && b in plan && a.id == b.id ==> a == b
  {
    forall a, b | a in plan && b in plan && a.id == b.id ensures a == b {
      SameId(plan, a, b);
    }
  }

  /** What each task waits for. */
  ghost function DependencyGraph(plan: seq<PlanTask>): Graph
    requires DistinctIds(plan)
  {
    IdsAreKeys(plan);
    map t | t in plan :: t.id := Elements(t.dependencies)
  }

  lemma {:induction false} GraphOfTask(plan: seq<PlanTask>, t: PlanTask)
    requires DistinctIds(plan) && t in plan
    ensures t.id in DependencyGraph(plan) && DependencyGraph(plan)[t.id] == Elements(t.dependencies)
  {
    IdsAreKeys(plan);
  }

  lemma {:induction false} GraphKeys(plan: seq<PlanTask>)
    requires DistinctIds(plan)
    ensures DependencyGraph(plan).Keys == Ids(plan)
  {
  }

  predicate CleanId(id: string) {
    id != "" && Trim(id) == id
  }

  /** What a plan needs in order to run to the end: ids free of surrounding white space, and
      dependencies that name tasks of the plan and form no cycle. */
  ghost predicate Executable(plan: seq<PlanTask>)
    requires DistinctIds(plan)
  {
    (forall t :: t in plan ==> CleanId(t.id)) && Runnable(DependencyGraph(plan))
  }

  // ---------------------------------------------------------------- invariants

  /** Pending and completed ids split the plan; everything completed came after its dependencies. */
  ghost predicate Progressed(plan: seq<PlanTask>, pending: seq<string>, completed: seq<string>)
    requires DistinctIds(plan)
  {
    && Distinct(pending) && Distinct(completed)
    && Elements(pending) !! Elements(completed)
    && Elements(pending) + Elements(completed) == Ids(plan)
    && RespectsDependencies(DependencyGraph(plan), completed)
    && (forall id :: id in completed ==> CleanId(id))
  }

  /** `task` has been found ready to run. */
  ghost predicate Startable(plan: seq<PlanTask>, pending: seq<string>, completed: seq<string>, task: PlanTask) {
    && task in plan && CleanId(task.id) && task.id in pending
    && Elements(task.dependencies) <= Elements(completed)
  }

  ghost predicate AllStartable(plan: seq<PlanTask>, e: Exec) {
    forall id :: id in e.running ==> e.running[id].id == id && Startable(plan, e.pending, e.completed, e.running[id])
  }

  ghost predicate ConflictFree(running: map<string, PlanTask>) {
    forall a, b :: a in running && b in running && a != b ==> Keys(running[a]) !! Keys(running[b])
  }

  /** The start log holds each id once: the ones still running and the ones finished since the
      run began with `base` completed. */
  ghost predicate LogMatches(base: seq<string>, e: Exec) {
    && base <= e.completed
    && Distinct(e.launched)
    && Elements(e.launched) == e.running.Keys + Elements(e.completed[|base|..])
  }

  ghost predicate Inv(plan: seq<PlanTask>, base: seq<string>, e: Exec)
    requires DistinctIds(plan)
  {
    && Progressed(plan, e.pending, e.completed)
    && AllStartable(plan, e)
    && ConflictFree(e.running)
    && LogMatches(base, e)
  }

  // ---------------------------------------------------------------- readiness

  lemma {:induction false} InReady(plan: seq<PlanTask>, pending: seq<string>, completed: seq<string>, task: PlanTask)
    ensures task in Ready(plan, pending, completed)
       <==> task in plan && IsReady(task, TrimmedSet(pending), TrimmedSet(completed))
  {
    hide TrimmedSet, IsReady, IdBefore;
    var unsorted := ReadyInPlanOrder(plan, TrimmedSet(pending), TrimmedSet(completed));
    ReadyInPlanOrderHas(plan, TrimmedSet(pending), TrimmedSet(completed), task);
    assert task in Sort(IdBefore, unsorted) <==> task in multiset(Sort(IdBefore, unsorted));
    assert task in unsorted <==> task in multiset(unsorted);
  }

  lemma {:induction false} CleanTrimmedSet(ids: seq<string>)
    requires forall id :: id in ids ==> CleanId(id)
    ensures TrimmedSet(ids) == Elements(ids)
  {
    forall id | id in Elements(ids) ensures id in TrimmedSet(ids) {
      assert CleanId(id);
      TrimmedSetHas(ids, id);
    }
    forall id | id in TrimmedSet(ids) ensures id in Elements(ids) {
      var x := TrimmedSetSource(ids, id);
      assert CleanId(x);
    }
  }

  lemma {:induction false} PendingIsClean(plan: seq<PlanTask>, pending: seq<string>, task: PlanTask)
    requires DistinctIds(plan) && Elements(pending) <= Ids(plan) && task in plan
    ensures task.id in TrimmedSet(pending) <==> CleanId(task.id) && task.id in pending
  {
    hide Trim, TrimmedSet;
    if task.id in TrimmedSet(pending) {
      var x := TrimmedSetSource(pending, task.id);
      TrimIdempotent(x);
      assert x in Elements(pending);
      var other :| other in plan && other.id == x;
      SameId(plan, other, task);
    } else if CleanId(task.id) && task.id in pending {
      TrimmedSetHas(pending, task.id);
    }
  }

  lemma {:induction false} ReadyIsStartable(plan: seq<PlanTask>, pending: seq<string>, completed: seq<string>,
                                            task: PlanTask)
    requires DistinctIds(plan) && Progressed(plan, pending, completed)
    ensures task in Ready(plan, pending, completed) <==> Startable(plan, pending, completed, task)
  {
    hide Trim, TrimmedSet, Ready, CleanId, RespectsDependencies, DependencyGraph, Distinct;
    InReady(plan, pending, completed, task);
    CleanTrimmedSet(completed);
    if task in plan {
      PendingIsClean(plan, pending, task);
    }
  }

  // ---------------------------------------------------------------- starting tasks

  ghost predicate Separate(tasks: seq<PlanTask>, running: map<string, PlanTask>) {
    PairwiseDisjoint(tasks) && forall t :: t in tasks ==> Keys(t) !! RunningKeys(running)
  }

  lemma {:induction false} SeparateTail(tasks: seq<PlanTask>, running: map<string, PlanTask>,
                                        running': map<string, PlanTask>)
    requires tasks != [] && Separate(tasks, running)
    requires RunningKeys(running') <= RunningKeys(running) + Keys(tasks[0])
    ensures Separate(tasks[1..], running')
  {
    hide Keys, RunningKeys;
    forall t | t in tasks[1..] ensures Keys(t) !! RunningKeys(running') {
      var i :| 1 <= i < |tasks| && tasks[i] == t;
      assert Keys(tasks[0]) !! Keys(tasks[i]);
      assert t in tasks;
    }
  }

  lemma {:induction false} LaunchOneKeys(e: Exec, task: PlanTask)
    requires ConflictFree(e.running) && Keys(task) !! RunningKeys(e.running)
    ensures ConflictFree(LaunchOne(e, task).running)
    ensures RunningKeys(LaunchOne(e, task).running) <= RunningKeys(e.running) + Keys(task)
  {
    hide Keys;
    var e' := LaunchOne(e, task);
    if task.id !in e.running {
      forall k | k in RunningKeys(e'.running) ensures k in RunningKeys(e.running) + Keys(task) {
        var id :| id in e'.running && k in Keys(e'.running[id]);
        assert id != task.id ==> id in e.running && k in Keys(e.running[id]);
      }
      assert forall id :: id in e.running ==> Keys(e.running[id]) <= RunningKeys(e.running);
    }
  }

  lemma {:induction false} LaunchOneLog(base: seq<string>, e: Exec, task: PlanTask)
    requires LogMatches(base, e) && task.id !in e.completed
    ensures LogMatches(base, LaunchOne(e, task))
  {
    if task.id !in e.running {
      ElementsOfAppend(e.launched, task.id);
      assert task.id !in Elements(e.launched);
    }
  }

  lemma {:induction false} LaunchOneStartable(plan: seq<PlanTask>, e: Exec, task: PlanTask)
    requires AllStartable(plan, e) && Startable(plan, e.pending, e.completed, task)
    ensures AllStartable(plan, LaunchOne(e, task))
  {
    hide Startable;
  }

  lemma {:induction false} StartableIsUnfinished(plan: seq<PlanTask>, pending: seq<string>, completed: seq<string>,
                                                 task: PlanTask)
    requires DistinctIds(plan) && Progressed(plan, pending, completed) && Startable(plan, pending, completed, task)
    ensures task.id !in completed
  {
    hide CleanId, DistinctIds, RespectsDependencies, Distinct, Ids;
    assert task.id in Elements(pending);
  }

  lemma {:induction false} LaunchOneInv(plan: seq<PlanTask>, base: seq<string>, e: Exec, task: PlanTask)
    requires DistinctIds(plan) && Inv(plan, base, e)
    requires Startable(plan, e.pending, e.completed, task) && Keys(task) !! RunningKeys(e.running)
    ensures Inv(plan, base, LaunchOne(e, task))
    ensures RunningKeys(LaunchOne(e, task).running) <= RunningKeys(e.running) + Keys(task)
  {
    hide Keys, RunningKeys, ConflictFree, LogMatches, Progressed, Startable, DistinctIds, AllStartable;
    StartableIsUnfinished(plan, e.pending, e.completed, task);
    LaunchOneKeys(e, task);
    LaunchOneLog(base, e, task);
    LaunchOneStartable(plan, e, task);
  }

  lemma {:induction false} LaunchAllInv(plan: seq<PlanTask>, base: seq<string>, e: Exec, tasks: seq<PlanTask>)
    requires DistinctIds(plan) && Inv(plan, base, e)
    requires forall t :: t in tasks ==> Startable(plan, e.pending, e.completed, t)
    requires Separate(tasks, e.running)
    ensures Inv(plan, base, LaunchAll(e, tasks))
    ensures LaunchAll(e, tasks).pending == e.pending && LaunchAll(e, tasks).completed == e.completed
    ensures e.running.Keys <= LaunchAll(e, tasks).running.Keys
    ensures tasks != [] ==> tasks[0].id in LaunchAll(e, tasks).running
    ensures e.launched <= LaunchAll(e, tasks).launched
    decreases |tasks|
  {
    hide Inv, Startable, RunningKeys, Keys, DistinctIds;
    if tasks != [] {
      assert tasks[0] in tasks && Keys(tasks[0]) !! RunningKeys(e.running);
      LaunchOneInv(plan, base, e, tasks[0]);
      var e' := LaunchOne(e, tasks[0]);
      SeparateTail(tasks, e.running, e'.running);
      hide Separate;
      LaunchAllInv(plan, base, e', tasks[1..]);
    }
  }

  /** Starting tasks keeps every invariant, in particular no two running tasks share a key. */
  lemma {:induction false} LaunchInv(plan: seq<PlanTask>, base: seq<string>, e: Exec)
    requires DistinctIds(plan) && Inv(plan, base, e)
    ensures Inv(plan, base, Launch(plan, e))
    ensures Launch(plan, e).pending == e.pending && Launch(plan, e).completed == e.completed
    ensures e.launched <= Launch(plan, e).launched
    ensures e.running.Keys <= Launch(plan, e).running.Keys
    ensures Chosen(plan, e) != [] ==> Launch(plan, e).running != map[]
  {
    hide Startable, Progressed, ConflictFree, LogMatches, AllStartable, Keys, RunningKeys, DistinctIds, Schedule,
         Ready, LaunchAll, Displaced;
    var ready := Ready(plan, e.pending, e.completed);
    var chosen := Chosen(plan, e);
    ScheduleIsMaximal(ready, RunningKeys(e.running));
    forall t | t in chosen ensures Startable(plan, e.pending, e.completed, t) {
      assert t in multiset(chosen);
      assert t in ready;
      ReadyIsStartable(plan, e.pending, e.completed, t);
    }
    LaunchAllInv(plan, base, e, chosen);
  }

  // ---------------------------------------------------------------- taking a result

  lemma {:induction false} RemovedElements(pending: seq<string>, id: string)
    ensures Elements(RemovePending(pending, id)) == Elements(pending) - {id}
  {
  }

  /** Moving an id from one side of a partition to the other. */
  lemma {:induction false} MoveId(pending: seq<string>, completed: seq<string>, all: set<string>, id: string)
    requires id in pending
    requires Elements(pending) !! Elements(completed) && Elements(pending) + Elements(completed) == all
    ensures Elements(RemovePending(pending, id)) !! Elements(completed + [id])
    ensures Elements(RemovePending(pending, id)) + Elements(completed + [id]) == all
    ensures id in all && id !in completed && Elements(completed) <= Elements(completed + [id])
  {
    assert id in Elements(pending);
    RemovedElements(pending, id);
    ElementsOfAppend(completed, id);
    assert id !in completed by {
      assert id !in Elements(completed);
    }
    hide Elements, RemovePending;
  }

  lemma {:induction false} FinishProgress(plan: seq<PlanTask>, pending: seq<string>, completed: seq<string>,
                                          task: PlanTask)
    requires DistinctIds(plan) && Progressed(plan, pending, completed)
    requires Startable(plan, pending, completed, task)
    ensures Progressed(plan, RemovePending(pending, task.id), completed + [task.id])
    ensures Elements(completed) <= Elements(completed + [task.id])
  {
    hide CleanId, RespectsDependencies, DependencyGraph, DistinctIds, Distinct, Elements, Ids, RemovePending;
    var id := task.id;
    MoveId(pending, completed, Ids(plan), id);
    RemovePendingDistinct(pending, id);
    GraphOfTask(plan, task);
    Extend(DependencyGraph(plan), completed, id);
  }

  lemma {:induction false} FinishRunning(plan: seq<PlanTask>, e: Exec, id: string)
    requires AllStartable(plan, e) && ConflictFree(e.running) && id in e.running
    requires Elements(e.completed) <= Elements(Finish(e, id).completed)
    ensures AllStartable(plan, Finish(e, id)) && ConflictFree(Finish(e, id).running)
  {
    hide CleanId, Elements, Keys;
    var e' := Finish(e, id);
    forall k | k in e'.running ensures Startable(plan, e'.pending, e'.completed, e'.running[k]) {
      assert e'.running[k] == e.running[k] && k != id;
    }
  }

  lemma {:induction false} FinishLog(base: seq<string>, e: Exec, id: string)
    requires LogMatches(base, e) && id in e.running
    ensures LogMatches(base, Finish(e, id))
  {
    hide RemovePending, Distinct;
    assert (e.completed + [id])[|base|..] == e.completed[|base|..] + [id];
    ElementsOfAppend(e.completed[|base|..], id);
  }

  lemma {:induction false} FinishInv(plan: seq<PlanTask>, base: seq<string>, e: Exec, id: string)
    requires DistinctIds(plan) && Inv(plan, base, e) && id in e.running
    ensures Inv(plan, base, Finish(e, id))
    ensures |Finish(e, id).pending| < |e.pending|
  {
    assert id in e.pending;
    FinishProgress(plan, e.pending, e.completed, e.running[id]);
    FinishRunning(plan, e, id);
    FinishLog(base, e, id);
    hide Progressed, AllStartable, ConflictFree, LogMatches;
  }

  // ---------------------------------------------------------------- runs

  function Start(pending: seq<string>, completed: seq<string>): Exec {
    Exec(pending, completed, map[], [])
  }

  lemma {:induction false} StartInv(plan: seq<PlanTask>, pending: seq<string>, completed: seq<string>)
    requires DistinctIds(plan) && Progressed(plan, pending, completed)
    ensures Inv(plan, completed, Start(pending, completed))
  {
    hide Progressed;
    assert completed[|completed|..] == [];
  }

  function TaskIds(tasks: seq<PlanTask>): seq<string> {
    seq(|tasks|, i requires 0 <= i < |tasks| => tasks[i].id)
  }

  lemma {:induction false} OrderHasIds(tasks: seq<PlanTask>)
    requires DistinctIds(tasks)
    ensures Distinct(TaskIds(tasks)) && Elements(TaskIds(tasks)) == Ids(tasks)
  {
    hide Trim;
    var order := TaskIds(tasks);
    forall x | x in Ids(tasks) ensures x in Elements(order) {
      var t :| t in tasks && t.id == x;
      var k :| 0 <= k < |tasks| && tasks[k] == t;
      assert order[k] == x;
    }
  }

  /** A plan nothing of which has run. */
  lemma {:induction false} NothingDone(tasks: seq<PlanTask>)
    requires DistinctIds(tasks)
    ensures Progressed(tasks, TaskIds(tasks), [])
  {
    OrderHasIds(tasks);
    hide Ids, DistinctIds, TaskIds;
    assert Elements<string>([]) == {};
  }

  lemma {:induction false} StepInv(plan: seq<PlanTask>, base: seq<string>, e: Exec, e': Exec)
    requires DistinctIds(plan) && Inv(plan, base, e) && Step(plan, e, e')
    ensures Inv(plan, base, e') && |e'.pending| < |e.pending|
  {
    hide Inv, Launch, Finish, DistinctIds;
    LaunchInv(plan, base, e);
    var id :| id in Launch(plan, e).running && e' == Finish(Launch(plan, e), id);
    FinishInv(plan, base, Launch(plan, e), id);
  }

  /** Every state of every run, before and after tasks are started, keeps the invariant; each
      round retires one pending task. */
  lemma {:induction false} TraceInv(plan: seq<PlanTask>, base: seq<string>, trace: seq<Exec>, i: nat)
    requires DistinctIds(plan) && IsTrace(plan, trace) && i < |trace|
    requires trace[0] == Start(trace[0].pending, base) && Progressed(plan, trace[0].pending, base)
    ensures Inv(plan, base, trace[i]) && Inv(plan, base, Launch(plan, trace[i]))
    ensures |trace[i].pending| + i <= |trace[0].pending|
  {
    hide Inv, Launch, Step, Progressed, DistinctIds;
    if i > 0 {
      TraceInv(plan, base, trace, i - 1);
      assert Step(plan, trace[i - 1], trace[i]);
      StepInv(plan, base, trace[i - 1], trace[i]);
    } else {
      StartInv(plan, trace[0].pending, base);
    }
    LaunchInv(plan, base, trace[i]);
  }

  /** No two distinct running tasks ever share a conflict key. */
  lemma {:induction false} RunningTasksNeverConflict(plan: seq<PlanTask>, base: seq<string>, trace: seq<Exec>, i: nat,
                                                     a: string, b: string)
    requires DistinctIds(plan) && IsTrace(plan, trace) && i < |trace|
    requires trace[0] == Start(trace[0].pending, base) && Progressed(plan, trace[0].pending, base)
    requires a != b && a in Launch(plan, trace[i]).running && b in Launch(plan, trace[i]).running
    ensures Keys(Launch(plan, trace[i]).running[a]) !! Keys(Launch(plan, trace[i]).running[b])
  {
    hide Launch, Progressed, DistinctIds, Keys;
    TraceInv(plan, base, trace, i);
  }

  /** An executable plan with work left always has something running after the start phase, so
      the "blocked" exit is not taken. */
  lemma {:induction false} ExecutableNeverBlocks(plan: seq<PlanTask>, base: seq<string>, e: Exec)
    requires DistinctIds(plan) && Inv(plan, base, e) && Executable(plan)
    requires e.pending != []
    ensures Launch(plan, e).running != map[]
  {
    LaunchInv(plan, base, e);
    if e.running == map[] {
      assert RunningKeys(e.running) == {};
      var task := SomeTaskIsReady(plan, e.pending, e.completed);
      hide Launch, Inv, Executable, DistinctIds, Ready;
      IdleScheduleStarts(Ready(plan, e.pending, e.completed));
    } else {
      hide Launch, Inv, Executable, DistinctIds, Ready;
      var id :| id in e.running;
      assert id in Launch(plan, e).running;
    }
  }

  lemma {:induction false} SomeTaskIsReady(plan: seq<PlanTask>, pending: seq<string>, completed: seq<string>)
    returns (task: PlanTask)
    requires DistinctIds(plan) && Progressed(plan, pending, completed) && Executable(plan)
    requires pending != []
    ensures task in Ready(plan, pending, completed)
  {
    hide CleanId, Ready, DependencyGraph, Runnable, RespectsDependencies, Distinct, DistinctIds;
    var g := DependencyGraph(plan);
    GraphKeys(plan);
    assert pending[0] in Elements(pending);
    var id := SomeStepIsReady(g, Elements(completed));
    task :| task in plan && task.id == id;
    GraphOfTask(plan, task);
    assert id in Elements(pending);
    ReadyIsStartable(plan, pending, completed, task);
  }

  /** A run that empties the pending list proves the plan executable: its completion order is a
      schedule of the dependency graph. */
  lemma {:induction false} FinishedIsSchedule(plan: seq<PlanTask>, completed: seq<string>)
    requires DistinctIds(plan) && Progressed(plan, [], completed)
    ensures IsSchedule(DependencyGraph(plan), completed) && Executable(plan)
  {
    hide CleanId, DependencyGraph, Runnable, RespectsDependencies, Distinct, DistinctIds;
    GraphKeys(plan);
    assert Elements<string>([]) == {};
    ScheduleMeansRunnable(DependencyGraph(plan), completed);
    forall t | t in plan ensures CleanId(t.id) {
      assert t.id in Elements(completed);
    }
  }

  /** Nothing that was completed when the run began is started again, and no more tasks are
      started than the plan holds. */
  lemma {:induction false} LaunchedIsNew(plan: seq<PlanTask>, base: seq<string>, e: Exec)
    requires DistinctIds(plan) && Inv(plan, base, e)
    ensures Elements(e.launched) !! Elements(base)
    ensures |e.launched| <= |plan|
    ensures e.running == map[] ==> Elements(e.launched) == Elements(e.completed) - Elements(base)
  {
    hide CleanId, DependencyGraph, RespectsDependencies, DistinctIds;
    SuffixIsNew(base, e.completed);
    forall id | id in e.running ensures id in Elements(e.pending) {
    }
    assert e.running.Keys <= Elements(e.pending);
    assert Elements(base) <= Elements(e.completed);
    DistinctSize(e.launched);
    SubsetSize(Elements(e.launched), Ids(plan));
    IdsBound(plan);
  }

  lemma {:induction false} IdsBound(plan: seq<PlanTask>)
    ensures |Ids(plan)| <= |plan|
  {
    if plan == [] {
      assert Ids(plan) == {};
    } else {
      var front, last := plan[..|plan| - 1], plan[|plan| - 1];
      assert plan == front + [last];
      IdsBound(front);
      assert Ids(plan) == Ids(front) + {last.id};
    }
  }

  lemma {:induction false} SuffixIsNew(base: seq<string>, completed: seq<string>)
    requires base <= completed && Distinct(completed)
    ensures Elements(completed[|base|..]) == Elements(completed) - Elements(base)
  {
    var tail := completed[|base|..];
    assert completed == base + tail;
    forall id | id in Elements(tail) ensures id !in Elements(base) {
      var k :| 0 <= k < |tail| && tail[k] == id;
      assert completed[|base| + k] == id;
      assert forall j :: 0 <= j < |base| ==> completed[j] == base[j];
    }
  }

  /** The outcome of a run in which no task fails, whatever order results arrive in. When no
      round can follow, the run has completed every task exactly if the plan is executable;
      otherwise it stopped with nothing running and work pending. On an executable plan the
      completion order is a schedule of the graph and every task pending at the start was
      started exactly once. */
  lemma {:induction false} RunOutcome(plan: seq<PlanTask>, base: seq<string>, trace: seq<Exec>)
    requires DistinctIds(plan) && IsTrace(plan, trace)
    requires trace[0] == Start(trace[0].pending, base) && Progressed(plan, trace[0].pending, base)
    requires Launch(plan, trace[|trace| - 1]).running == map[]
    ensures var last := trace[|trace| - 1];
            && (Executable(plan) <==> last.pending == [])
            && (Executable(plan) ==> IsSchedule(DependencyGraph(plan), last.completed))
            && (Executable(plan) ==> Distinct(last.launched) && Elements(last.launched) == Elements(trace[0].pending))
            && base <= last.completed && Elements(last.launched) !! Elements(base)
            && |trace| - 1 <= |trace[0].pending|
  {
    hide Launch, Step, Executable, DistinctIds, DependencyGraph, IsSchedule, AllStartable, ConflictFree, CleanId, Ids,
         RespectsDependencies;
    var last := trace[|trace| - 1];
    TraceInv(plan, base, trace, |trace| - 1);
    LaunchInv(plan, base, last);
    assert last.running.Keys <= {};
    LaunchedIsNew(plan, base, last);
    if last.pending == [] {
      FinishedIsSchedule(plan, last.completed);
      assert Elements(last.pending) == {};
      assert Elements(last.completed) == Elements(trace[0].pending) + Elements(base);
    } else if Executable(plan) {
      ExecutableNeverBlocks(plan, base, last);
    }
  }
}
