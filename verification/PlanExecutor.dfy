/** The parallel plan executor over durable checkpoints (go-core/internal/kernel/advanced_planner.go:14-369):
    preview, run, resume. Task outcomes, the order results arrive in and the fate of every write
    are left open. */
module PlanExecutor {
  import opened Basics
  import opened Text
  import opened PlanGraph
  import opened ConflictScheduling
  import opened PlanExecution
  import opened PlanCheckpoint

  // ---------------------------------------------------------------- consistent checkpoints

  /** `cp` is a checkpoint of the plan that `spec` describes. */
  ghost predicate SameIdentity(spec: Checkpoint, cp: Checkpoint) {
    && StaticHalf(cp) == StaticHalf(spec)
  }

  /** A plan fit to be stored: under its own name, with ids distinct once trimmed. */
  ghost predicate PlanSpec(spec: Checkpoint) {
    WellNamed(spec) && spec.rootTask.sessionId != "" && DistinctIds(spec.tasks)
  }

  /** What every stored or loaded checkpoint satisfies: pending and completed ids split the plan,
      completed ids came after their dependencies, the batch number counts completions. */
  ghost predicate Consistent(spec: Checkpoint, cp: Checkpoint)
    requires PlanSpec(spec)
  {
    && SameIdentity(spec, cp)
    && Progressed(spec.tasks, cp.pending, cp.completed)
    && cp.batchNo == |cp.completed| + 1
    && (cp.status == Completed ==> cp.pending == [])
  }

  ghost function Rebuild(spec: Checkpoint, record: Checkpoint): Checkpoint {
    record.(rootTask := spec.rootTask, plan := spec.plan, tasks := spec.tasks)
  }

  ghost predicate RuntimeOk(spec: Checkpoint, record: Checkpoint)
    requires PlanSpec(spec)
  {
    record == RuntimeHalf(record) && Consistent(spec, Rebuild(spec, record))
  }

  ghost function RuntimeKey(spec: Checkpoint): (string, string) { (spec.sessionId, BranchName(spec.rootTaskId)) }

  ghost function StaticKey(spec: Checkpoint): (string, string) { (spec.sessionId, StaticBranchName(spec.rootTaskId)) }

  /** Every configured backend holds both halves of a consistent checkpoint of the plan. */
  ghost predicate Stored(spec: Checkpoint, b: Backends)
    requires PlanSpec(spec)
  {
    && (b.hasStore || b.hasVfs)
    && (b.hasStore ==>
          && RuntimeKey(spec) in b.store && RuntimeOk(spec, b.store[RuntimeKey(spec)])
          && StaticKey(spec) in b.store && b.store[StaticKey(spec)] == StaticHalf(spec))
    && (b.hasVfs ==>
          && RuntimePath(spec.rootTaskId) in b.vfs && RuntimeOk(spec, b.vfs[RuntimePath(spec.rootTaskId)])
          && StaticPath(spec.rootTaskId) in b.vfs && b.vfs[StaticPath(spec.rootTaskId)] == StaticHalf(spec))
  }

  /** The runtime record a load reads. */
  ghost function Current(spec: Checkpoint, b: Backends): Checkpoint
    requires PlanSpec(spec) && Stored(spec, b)
  {
    if b.hasVfs then b.vfs[RuntimePath(spec.rootTaskId)] else b.store[RuntimeKey(spec)]
  }

  /** What is stored loads as a consistent checkpoint of the plan. */
  lemma {:induction false} StoredLoads(spec: Checkpoint, b: Backends)
    requires PlanSpec(spec) && Stored(spec, b)
    ensures Load(b, spec.sessionId, spec.rootTaskId) == Some(Rebuild(spec, Current(spec, b)))
    ensures Consistent(spec, Rebuild(spec, Current(spec, b)))
    ensures Current(spec, b) == RuntimeHalf(Rebuild(spec, Current(spec, b)))
  {
    hide Progressed, DistinctIds, BranchName, StaticBranchName, RuntimePath, StaticPath;
    var record := Current(spec, b);
    assert ReadEither(b, RuntimeKey(spec), RuntimePath(spec.rootTaskId)) == Some(record);
    assert record.rootTaskId == spec.rootTaskId && record.sessionId == spec.sessionId && record.branch == spec.branch;
    assert Named(record, spec.sessionId, spec.rootTaskId) == record;
    assert LoadStatic(b, spec.sessionId, spec.rootTaskId) == Some(StaticHalf(spec));
    assert Hydrate(b, record) == Rebuild(spec, record);
  }

  lemma {:induction false} RuntimeHalfOk(spec: Checkpoint, cp: Checkpoint)
    requires PlanSpec(spec) && Consistent(spec, cp)
    ensures RuntimeOk(spec, RuntimeHalf(cp))
  {
    hide Progressed, DistinctIds, BranchName;
    assert Rebuild(spec, RuntimeHalf(cp)) == cp;
  }

  lemma {:induction false} ConsistentNames(spec: Checkpoint, cp: Checkpoint)
    requires PlanSpec(spec) && Consistent(spec, cp)
    ensures StaticHalf(cp) == StaticHalf(spec)
    ensures cp.rootTaskId == spec.rootTaskId && cp.sessionId == spec.sessionId && cp.branch == spec.branch
  {
    hide Progressed, DistinctIds, BranchName;
  }

  /** A save of a consistent checkpoint, however its writes go, keeps the plan stored; a resume
      then starts either from what it would have started from before or from the new checkpoint,
      and certainly from the new one if the save succeeded. */
  lemma {:induction false} SaveRuntimeKeepsStored(spec: Checkpoint, b: Backends, cp: Checkpoint, sw: Write, vw: Write)
    requires PlanSpec(spec) && Stored(spec, b) && Consistent(spec, cp)
    ensures var (b', ok) := SaveRuntime(b, cp, sw, vw);
            && Stored(spec, b')
            && Current(spec, b') in {Current(spec, b), RuntimeHalf(cp)}
            && (ok ==> Current(spec, b') == RuntimeHalf(cp))
  {
    hide Progressed, DistinctIds, TrimRight, BranchName, StaticBranchName, RuntimePath, StaticPath, RuntimeOk;
    NamesDiffer(spec.rootTaskId, spec.rootTaskId);
    RuntimeHalfOk(spec, cp);
    ConsistentNames(spec, cp);
    hide Consistent;
  }

  lemma {:induction false} SaveStaticKeepsStored(spec: Checkpoint, b: Backends, cp: Checkpoint, sw: Write, vw: Write)
    requires PlanSpec(spec) && Stored(spec, b) && Consistent(spec, cp)
    ensures var (b', ok) := SaveStatic(b, cp, sw, vw);
            Stored(spec, b') && Current(spec, b') == Current(spec, b)
  {
    hide Progressed, DistinctIds, TrimRight, BranchName, StaticBranchName, RuntimePath, StaticPath, RuntimeOk;
    NamesDiffer(spec.rootTaskId, spec.rootTaskId);
    ConsistentNames(spec, cp);
    hide Consistent;
  }

  lemma {:induction false} FirstSavesStore(spec: Checkpoint, b: Backends, sw: Write, vw: Write, sw': Write, vw': Write)
    requires PlanSpec(spec) && Consistent(spec, spec) && (b.hasStore || b.hasVfs)
    requires SaveStatic(b, spec, sw, vw).1 && SaveRuntime(SaveStatic(b, spec, sw, vw).0, spec, sw', vw').1
    ensures var b' := SaveRuntime(SaveStatic(b, spec, sw, vw).0, spec, sw', vw').0;
            Stored(spec, b') && Current(spec, b') == RuntimeHalf(spec)
  {
    hide Progressed, DistinctIds, TrimRight, BranchName, StaticBranchName, RuntimePath, StaticPath, RuntimeOk;
    NamesDiffer(spec.rootTaskId, spec.rootTaskId);
    RuntimeHalfOk(spec, spec);
    hide Consistent;
  }

  /** What a preview builds. */
  ghost predicate Previewed(spec: Checkpoint) {
    && PlanSpec(spec) && spec.status == Planned && spec.pending == TaskIds(spec.tasks) && spec.completed == []
    && spec.batchNo == 1
  }

  lemma {:induction false} PreviewedIsConsistent(spec: Checkpoint)
    requires Previewed(spec)
    ensures Consistent(spec, spec)
  {
    NothingDone(spec.tasks);
    hide Progressed, DistinctIds, TaskIds;
  }

  // ---------------------------------------------------------------- the executor

  /** How a run ended. */
  datatype Outcome =
    | Finished
    | BlockedByDependencies
    | TaskFailed(id: string)
    | SaveFailed
    | NotFound

  /** The defaults a run fills in before it starts. */
  function Normalize(cp: Checkpoint): Checkpoint {
    var session := if cp.sessionId != "" then cp.sessionId
                   else if cp.rootTask.sessionId != "" then cp.rootTask.sessionId
                   else cp.rootTaskId;
    var branch := if cp.branch == "" then BranchName(cp.rootTaskId) else cp.branch;
    var root := if cp.rootTask.id == "" then RootTask(cp.rootTaskId, session) else cp.rootTask;
    cp.(sessionId := session,
        branch := branch,
        rootTask := if root.sessionId == "" then root.(sessionId := session) else root,
        batchNo := if cp.batchNo <= 0 then 1 else cp.batchNo)
  }

  lemma {:induction false} NormalizeConsistent(spec: Checkpoint, cp: Checkpoint)
    requires PlanSpec(spec) && Consistent(spec, cp)
    ensures Normalize(cp) == cp
  {
    hide Progressed, DistinctIds, BranchName;
  }

  /** The defaults only fill in what is missing: nothing that was set changes, and filling in again
      changes nothing. With a root id, every name a save needs is there. */
  lemma {:induction false} NormalizeOnlyFills(cp: Checkpoint)
    ensures var n := Normalize(cp);
            && Normalize(n) == n
            && (cp.sessionId != "" ==> n.sessionId == cp.sessionId) && (cp.branch != "" ==> n.branch == cp.branch)
            && (cp.rootTask.id != "" ==> n.rootTask.id == cp.rootTask.id)
            && (cp.rootTask.sessionId != "" && cp.rootTask.id != "" ==> n.rootTask == cp.rootTask)
            && n.rootTaskId == cp.rootTaskId && n.tasks == cp.tasks && n.plan == cp.plan && n.status == cp.status
            && n.pending == cp.pending && n.completed == cp.completed && n.results == cp.results
            && n.batchNo == (if cp.batchNo <= 0 then 1 else cp.batchNo)
            && (cp.rootTaskId != "" ==>
                  && n.sessionId != "" && n.branch in {cp.branch, "parallel_plan:" + cp.rootTaskId} && n.branch != ""
                  && n.rootTask.id in {cp.rootTask.id, cp.rootTaskId} && n.rootTask.id != ""
                  && n.rootTask.sessionId in {cp.rootTask.sessionId, n.sessionId} && n.rootTask.sessionId != "")
  {
  }

  /** What one run of the executor does, in terms of the transition system: `trace` is the run it
      made from the loaded checkpoint, `cp` where it stopped. */
  ghost predicate RanFrom(spec: Checkpoint, loaded: Checkpoint, trace: seq<Exec>, cp: Checkpoint, launched: seq<string>)
    requires PlanSpec(spec)
  {
    && IsTrace(spec.tasks, trace)
    && trace[0] == Start(loaded.pending, loaded.completed)
    && trace[|trace| - 1].completed == cp.completed && trace[|trace| - 1].pending == cp.pending
    && launched in {trace[|trace| - 1].launched, Launch(spec.tasks, trace[|trace| - 1]).launched}
  }

  /** `cp` after the successful result of `id`. */
  function AfterResult(cp: Checkpoint, id: string): Checkpoint {
    cp.(results := cp.results[id := "completed"],
        pending := RemovePending(cp.pending, id),
        completed := cp.completed + [id],
        batchNo := cp.batchNo + 1)
  }

  /** Everything completed since `loaded` is a task that succeeded, and says so. */
  ghost predicate Earned(loaded: Checkpoint, cp: Checkpoint, succeeds: string -> bool) {
    && loaded.completed <= cp.completed
    && forall k :: |loaded.completed| <= k < |cp.completed| ==>
         && succeeds(cp.completed[k])
         && cp.completed[k] in cp.results && cp.results[cp.completed[k]] == "completed"
  }

  /** How a run that ended this way leaves its checkpoint: a failed task is still pending. */
  ghost predicate LeftBy(outcome: Outcome, cp: Checkpoint, succeeds: string -> bool) {
    match outcome
    case Finished => cp.pending == [] && cp.status == Completed
    case BlockedByDependencies => cp.pending != [] && cp.status == Blocked
    case TaskFailed(id) =>
      && !succeeds(id) && id in cp.pending && id !in cp.completed && cp.status == Failed
      && id in cp.results && cp.results[id] == "failed"
    case SaveFailed => true
    case NotFound => false
  }

  /** What is left in memory and in the backends `b` when a run from `loaded` stops. */
  ghost predicate Stopped(spec: Checkpoint, loaded: Checkpoint, b: Backends, outcome: Outcome, cp: Checkpoint,
                          launched: seq<string>, trace: seq<Exec>, succeeds: string -> bool, reliable: bool)
    requires PlanSpec(spec)
  {
    && Stored(spec, b) && Consistent(spec, cp) && RanFrom(spec, loaded, trace, cp, launched)
    && loaded.completed <= Current(spec, b).completed <= cp.completed
    && Earned(loaded, cp, succeeds) && LeftBy(outcome, cp, succeeds)
    && (outcome.Finished? || reliable ==> Current(spec, b) == RuntimeHalf(cp))
    && (outcome.BlockedByDependencies? ==> Launch(spec.tasks, trace[|trace| - 1]).running == map[])
    && (reliable ==> !outcome.SaveFailed?)
  }

  /** What is promised of a resume from the record `was`. Nothing it lists as completed is started, and
      the completed list only grows, by tasks that succeed. With reliable writes the run finishes
      exactly when the plan can be run and every task left to do succeeds. */
  ghost predicate Resumed(spec: Checkpoint, was: Checkpoint, b: Backends, outcome: Outcome, launched: seq<string>,
                          succeeds: string -> bool, reliable: bool)
    requires PlanSpec(spec)
  {
    && Stored(spec, b)
    && was.completed <= Current(spec, b).completed
    && (forall id :: id in Current(spec, b).completed ==> id in was.completed || succeeds(id))
    && (forall id :: id in launched ==> id !in was.completed)
    && Distinct(launched) && |launched| <= |spec.tasks|
    && (outcome.Finished? ==>
          && Executable(spec.tasks) && IsSchedule(DependencyGraph(spec.tasks), Current(spec, b).completed)
          && forall id :: id in was.pending ==> succeeds(id))
    && (outcome.BlockedByDependencies? ==> !Executable(spec.tasks))
    && (outcome.TaskFailed? ==> !succeeds(outcome.id) && outcome.id in was.pending)
    && (outcome.TaskFailed? && reliable ==> FailureOnRecord(Current(spec, b), outcome.id))
    && (reliable ==> !outcome.SaveFailed?)
    && (reliable ==>
          (outcome.Finished? <==> Executable(spec.tasks) && forall id :: id in was.pending ==> succeeds(id)))
  }

  method StartTasks(chosen: seq<PlanTask>, running: map<string, PlanTask>, launched: seq<string>,
                    ghost pending: seq<string>, ghost completed: seq<string>)
    returns (running': map<string, PlanTask>, launched': seq<string>)
    ensures Exec(pending, completed, running', launched') ==
              LaunchAll(Exec(pending, completed, running, launched), chosen)
  {
    running', launched' := running, launched;
    for i := 0 to |chosen|
      invariant LaunchAll(Exec(pending, completed, running', launched'), chosen[i..])
             == LaunchAll(Exec(pending, completed, running, launched), chosen)
    {
      assert chosen[i..][1..] == chosen[i + 1..];
      if chosen[i].id in running' {
        continue;
      }
      running' := running'[chosen[i].id := chosen[i]];
      launched' := launched' + [chosen[i].id];
    }
  }

  /** The start phase of one round. */
  method StartRound(tasks: seq<PlanTask>, pending: seq<string>, completed: seq<string>, running: map<string, PlanTask>,
                    launched: seq<string>)
    returns (running': map<string, PlanTask>, launched': seq<string>)
    ensures Exec(pending, completed, running', launched') == Launch(tasks, Exec(pending, completed, running, launched))
  {
    hide RunningKeys, Ready, Schedule, LaunchAll;
    var active := CollectConflictKeys(running);
    var ready := ReadyPlanArtifacts(tasks, pending, completed);
    var chosen := ScheduleReadyArtifacts(ready, active);
    running', launched' := StartTasks(chosen, running, launched, pending, completed);
  }

  class Executor {
    var durable: Backends

    constructor (hasStore: bool, hasVfs: bool)
      ensures durable == Backends(hasStore, hasVfs, map[], map[])
    {
      durable := Backends(hasStore, hasVfs, map[], map[]);
    }

    method SaveParallelCheckpoint(ghost spec: Checkpoint, cp: Checkpoint, reliable: bool) returns (ok: bool)
      requires PlanSpec(spec) && Stored(spec, durable) && Consistent(spec, cp)
      modifies this
      ensures Stored(spec, durable)
      ensures Current(spec, durable) in {old(Current(spec, durable)), RuntimeHalf(cp)}
      ensures Current(spec, durable).completed in {old(Current(spec, durable)).completed, cp.completed}
      ensures ok ==> Current(spec, durable) == RuntimeHalf(cp)
      ensures reliable ==> ok
    {
      hide Stored, Consistent, Current;
      var sw: Write, vw: Write := *, *;
      if reliable {
        sw, vw := Ok, Ok;
      }
      SaveRuntimeKeepsStored(spec, durable, cp, sw, vw);
      var (b, saved) := SaveRuntime(durable, cp, sw, vw);
      durable, ok := b, saved;
    }

    method SaveParallelCheckpointStatic(ghost spec: Checkpoint, cp: Checkpoint, reliable: bool) returns (ok: bool)
      requires PlanSpec(spec) && Stored(spec, durable) && Consistent(spec, cp)
      modifies this
      ensures Stored(spec, durable)
      ensures Current(spec, durable) == old(Current(spec, durable))
      ensures reliable ==> ok
    {
      hide Stored, Consistent, Current;
      var sw: Write, vw: Write := *, *;
      if reliable {
        sw, vw := Ok, Ok;
      }
      SaveStaticKeepsStored(spec, durable, cp, sw, vw);
      var (b, saved) := SaveStatic(durable, cp, sw, vw);
      durable, ok := b, saved;
    }

    /** Build the first checkpoint of a plan and store it. */
    method PreviewExecutionPlan(rootTask: RootTask, plan: ExecutionPlan, tasks: seq<PlanTask>, reliable: bool)
      returns (cp: Checkpoint, ok: bool)
      requires rootTask.id != "" && rootTask.sessionId != "" && DistinctIds(tasks)
      modifies this
      ensures PlanSpec(cp) && Consistent(cp, cp) && cp.tasks == tasks
      ensures cp.pending == TaskIds(tasks) && cp.completed == [] && cp.status == Planned
      ensures durable.hasStore == old(durable.hasStore) && durable.hasVfs == old(durable.hasVfs)
      ensures ok && (durable.hasStore || durable.hasVfs) ==>
                Stored(cp, durable) && Current(cp, durable) == RuntimeHalf(cp)
      ensures reliable ==> ok
    {
      hide Stored, Current, Consistent, Progressed, DistinctIds, RuntimePath, StaticPath, StaticBranchName;
      var pending: seq<string> := [];
      for i := 0 to |tasks|
        invariant |pending| == i && forall k :: 0 <= k < i ==> pending[k] == tasks[k].id
      {
        pending := pending + [tasks[i].id];
      }
      cp := Checkpoint(rootTask.id, rootTask.sessionId, BranchName(rootTask.id), rootTask, plan, tasks, pending, [],
          map[], 1, Planned);
      assert pending == TaskIds(tasks);
      PreviewedIsConsistent(cp);
      var sw: Write, vw: Write, sw': Write, vw': Write := *, *, *, *;
      if reliable {
        sw, vw, sw', vw' := Ok, Ok, Ok, Ok;
      }
      var (b1, ok1) := SaveStatic(durable, cp, sw, vw);
      var (b2, ok2) := SaveRuntime(b1, cp, sw', vw');
      if ok1 && ok2 && (durable.hasStore || durable.hasVfs) {
        FirstSavesStore(cp, durable, sw, vw, sw', vw');
      }
      durable := b1;
      if !ok1 {
        return cp, false;
      }
      durable := b2;
      ok := ok2;
    }

    /** Run a loaded checkpoint to the end, to a block or to the first failure. `succeeds` says how the
        tasks turn out; unless `reliable`, any write may fail, with or without taking effect. */
    method ExecuteParallelPlan(ghost spec: Checkpoint, loaded: Checkpoint, succeeds: string -> bool, reliable: bool)
      returns (outcome: Outcome, cp: Checkpoint, launched: seq<string>, ghost trace: seq<Exec>)
      requires PlanSpec(spec) && Stored(spec, durable) && Consistent(spec, loaded)
      requires Current(spec, durable) == RuntimeHalf(loaded)
      modifies this
      ensures Stopped(spec, loaded, durable, outcome, cp, launched, trace, succeeds, reliable)
    {
      hide Stored, Consistent, Current, Progressed, DistinctIds, Launch, LaunchAll, IsTrace, Normalize;
      NormalizeConsistent(spec, loaded);
      ConsistentFields(spec, loaded);
      cp, launched := Normalize(loaded), [];
      trace := [Start(cp.pending, cp.completed)];
      SingletonTrace(spec.tasks, trace[0]);
      var ok := SaveParallelCheckpointStatic(spec, cp, reliable);
      if !ok {
        return SaveFailed, cp, launched, trace;
      }
      if cp.status == Completed {
        return Finished, cp, launched, trace;
      }
      ConsistentStatus(spec, cp, Running, cp.results);
      cp := cp.(status := Running);
      ok := SaveParallelCheckpoint(spec, cp, reliable);
      if !ok {
        return SaveFailed, cp, launched, trace;
      }
      outcome, cp, launched, trace := RunRounds(spec, loaded, cp, succeeds, reliable);
    }

    /** Set the status of the run and save it. */
    method Conclude(ghost spec: Checkpoint, cp: Checkpoint, status: Status, results: map<string, string>,
                    reliable: bool)
      returns (cp': Checkpoint, ok: bool)
      requires PlanSpec(spec) && Stored(spec, durable) && Consistent(spec, cp)
                 && (status == Completed ==> cp.pending == [])
      modifies this
      ensures cp' == cp.(status := status, results := results)
      ensures Stored(spec, durable) && Consistent(spec, cp')
      ensures Current(spec, durable).completed in {old(Current(spec, durable)).completed, cp.completed}
      ensures ok ==> Current(spec, durable) == RuntimeHalf(cp')
      ensures reliable ==> ok
    {
      hide Stored, Consistent, Current;
      ConsistentStatus(spec, cp, status, results);
      cp' := cp.(status := status, results := results);
      ok := SaveParallelCheckpoint(spec, cp', reliable);
    }

    /** Save how the run ended. When that save fails, a finished run reports it; the other endings
        have something worse to report. */
    method EndRun(ghost spec: Checkpoint, ghost loaded: Checkpoint, cp: Checkpoint, launched: seq<string>,
                  ghost trace: seq<Exec>, succeeds: string -> bool, reliable: bool, status: Status,
                  results: map<string, string>, ended: Outcome)
      returns (outcome: Outcome, cp': Checkpoint)
      requires PlanSpec(spec) && Stored(spec, durable) && Consistent(spec, cp)
      requires status == Completed ==> cp.pending == []
      requires RanFrom(spec, loaded, trace, cp, launched)
      requires loaded.completed <= Current(spec, durable).completed <= cp.completed
      requires Earned(loaded, cp.(results := results), succeeds)
      requires !ended.SaveFailed? && LeftBy(ended, cp.(status := status, results := results), succeeds)
      requires ended.BlockedByDependencies? ==> Launch(spec.tasks, trace[|trace| - 1]).running == map[]
      modifies this
      ensures Stopped(spec, loaded, durable, outcome, cp', launched, trace, succeeds, reliable)
    {
      hide Stored, Consistent, Current, DistinctIds, Launch, WellNamed, Earned, RanFrom;
      StopKeeps(spec, loaded, trace, cp, launched, status, results, succeeds);
      var ok;
      cp', ok := Conclude(spec, cp, status, results, reliable);
      outcome := if ended.Finished? && !ok then SaveFailed else ended;
    }

    /** The rounds of a run, from a checkpoint just marked running. */
    method RunRounds(ghost spec: Checkpoint, ghost loaded: Checkpoint, start: Checkpoint, succeeds: string -> bool,
                     reliable: bool)
      returns (outcome: Outcome, cp: Checkpoint, launched: seq<string>, ghost trace: seq<Exec>)
      requires PlanSpec(spec) && Stored(spec, durable) && Consistent(spec, start) && start.status == Running
      requires start.pending == loaded.pending && start.completed == loaded.completed
      requires Current(spec, durable) == RuntimeHalf(start)
      modifies this
      ensures Stopped(spec, loaded, durable, outcome, cp, launched, trace, succeeds, reliable)
    {
      hide Stored, Consistent, Current, DistinctIds, Launch, WellNamed, Midway, Earned, RanFrom, RemovePending, Inv,
           Progressed, IsTrace, LaunchAll, RuntimeHalf, Stopped;
      HalfCompleted(start);
      cp, launched := start, [];
      trace := [Start(cp.pending, cp.completed)];
      MidwayStart(spec, loaded, cp, succeeds);
      var running: map<string, PlanTask> := map[];
      while cp.pending != [] || running != map[]
        invariant Stored(spec, durable)
        invariant Midway(spec, loaded, cp, trace, Exec(cp.pending, cp.completed, running, launched), succeeds)
        invariant cp.tasks == spec.tasks && loaded.completed <= Current(spec, durable).completed <= cp.completed
        invariant reliable ==> Current(spec, durable) == RuntimeHalf(cp)
        decreases |cp.pending|, |running|
      {
        ghost var e := Exec(cp.pending, cp.completed, running, launched);
        running, launched := StartRound(cp.tasks, cp.pending, cp.completed, running, launched);
        ghost var after := Exec(cp.pending, cp.completed, running, launched);
        MidwayMeans(spec, loaded, cp, trace, e, succeeds);
        if running == map[] {
          outcome, cp :=
            EndRun(spec, loaded, cp, launched, trace, succeeds, reliable, Blocked, cp.results, BlockedByDependencies);
          return outcome, cp, launched, trace;
        }
        var id :| id in running.Keys;
        MidwayResult(spec, loaded, cp, trace, e, succeeds, id);
        running := running - {id};
        if !succeeds(id) {
          outcome, cp := EndRun(spec, loaded, cp, launched, trace, succeeds, reliable, Failed,
                                cp.results[id := "failed"], TaskFailed(id));
          return outcome, cp, launched, trace;
        }
        trace := trace + [Finish(after, id)];
        cp := AfterResult(cp, id);
        var saved := SaveParallelCheckpoint(spec, cp, reliable);
        if !saved {
          SaveFailedStops(spec, loaded, durable, cp, launched, trace, succeeds, reliable);
          return SaveFailed, cp, launched, trace;
        }
      }
      MidwayMeans(spec, loaded, cp, trace, Exec(cp.pending, cp.completed, running, launched), succeeds);
      outcome, cp := EndRun(spec, loaded, cp, launched, trace, succeeds, reliable, Completed, cp.results, Finished);
      return outcome, cp, launched, trace;
    }

    /** Load what is stored for the plan and run it; without a record nothing happens. */
    method ResumeExecutionPlan(ghost spec: Checkpoint, session: string, root: string, succeeds: string -> bool,
                               reliable: bool)
      returns (outcome: Outcome, launched: seq<string>, ghost trace: seq<Exec>)
      requires Load(durable, session, root) == None || (PlanSpec(spec) && Stored(spec, durable))
      requires session == spec.sessionId && root == spec.rootTaskId
      modifies this
      ensures outcome.NotFound? <==> old(Load(durable, session, root)) == None
      ensures outcome.NotFound? ==> durable == old(durable) && launched == []
      ensures !outcome.NotFound? ==>
                Resumed(spec, old(Current(spec, durable)), durable, outcome, launched, succeeds, reliable)
    {
      hide Stored, Current, Progressed, DistinctIds, Consistent, Launch, IsTrace, RanFrom, IsSchedule, Executable,
           Load, DependencyGraph, FailureOnRecord, Earned, LeftBy;
      var found := Load(durable, session, root);
      if found == None {
        return NotFound, [], [];
      }
      StoredLoads(spec, durable);
      var cp;
      outcome, cp, launched, trace := ExecuteParallelPlan(spec, found.value, succeeds, reliable);
      RunMeaning(spec, found.value, durable, outcome, cp, launched, trace, succeeds, reliable);
    }

    /** Preview a plan and run it. Without a backend to hold the checkpoint nothing is found to run. */
    method RunExecutionPlan(rootTask: RootTask, plan: ExecutionPlan, tasks: seq<PlanTask>, succeeds: string -> bool,
                            reliable: bool)
      returns (outcome: Outcome, launched: seq<string>)
      requires rootTask.id != "" && rootTask.sessionId != "" && DistinctIds(tasks)
      modifies this
      ensures Distinct(launched) && |launched| <= |tasks|
      ensures outcome.Finished? ==> Executable(tasks) && forall t :: t in tasks ==> succeeds(t.id)
      ensures outcome.BlockedByDependencies? ==> !Executable(tasks)
      ensures outcome.TaskFailed? ==> !succeeds(outcome.id) && outcome.id in TaskIds(tasks)
      ensures reliable ==> (outcome.NotFound? <==> !old(durable).hasStore && !old(durable).hasVfs)
      ensures reliable && (old(durable).hasStore || old(durable).hasVfs) ==>
                (outcome.Finished? <==> Executable(tasks) && forall t :: t in tasks ==> succeeds(t.id))
    {
      hide Stored, Current, DistinctIds, Consistent, Executable, IsSchedule, DependencyGraph, Hydrate, Progressed,
           FailureOnRecord;
      var cp, ok := PreviewExecutionPlan(rootTask, plan, tasks, reliable);
      if !ok {
        return SaveFailed, [];
      }
      assert !durable.hasStore && !durable.hasVfs ==> Load(durable, cp.sessionId, cp.rootTaskId) == None;
      if durable.hasStore || durable.hasVfs {
        StoredLoads(cp, durable);
        AllPending(tasks);
        HalfCompleted(cp);
      }
      var o, started, _ := ResumeExecutionPlan(cp, cp.sessionId, cp.rootTaskId, succeeds, reliable);
      return o, started;
    }

    /** Any number of resumes in a row, whatever fails in between: once a task is in the completed
        list a resume loads, no later resume starts it, and the loaded lists form a chain. */
    method ResumeRepeatedly(ghost spec: Checkpoint, session: string, root: string, times: nat,
                            succeeds: (nat, string) -> bool, reliable: nat -> bool)
      returns (loaded: seq<seq<string>>, launches: seq<seq<string>>)
      requires PlanSpec(spec) && Stored(spec, durable)
      requires session == spec.sessionId && root == spec.rootTaskId
      modifies this
      ensures Stored(spec, durable)
      ensures |loaded| == |launches| == times
      ensures forall i, j :: 0 <= i <= j < times ==> loaded[i] <= loaded[j]
      ensures forall i, j :: 0 <= i <= j < times ==> forall id :: id in loaded[i] ==> id !in launches[j]
    {
      hide Stored, Current, DistinctIds, IsSchedule, Executable, DependencyGraph, Load;
      loaded, launches := [], [];
      for k := 0 to times
        invariant Stored(spec, durable)
        invariant |loaded| == |launches| == k
        invariant forall i :: 0 <= i < k ==> loaded[i] <= Current(spec, durable).completed
        invariant forall i, j :: 0 <= i <= j < k ==> loaded[i] <= loaded[j]
        invariant forall i, j :: 0 <= i <= j < k ==> forall id :: id in loaded[i] ==> id !in launches[j]
      {
        StoredLoads(spec, durable);
        var before := Load(durable, session, root).value.completed;
        var _, launched, _ := ResumeExecutionPlan(spec, session, root, id => succeeds(k, id), reliable(k));
        forall i, id | 0 <= i < k && id in loaded[i] ensures id in before {
          assert loaded[i] <= before;
        }
        loaded, launches := loaded + [before], launches + [launched];
      }
    }
  }

  /** A run from `loaded` that has made `trace` and is about to start its next round. */
  ghost predicate Midway(spec: Checkpoint, loaded: Checkpoint, cp: Checkpoint, trace: seq<Exec>, e: Exec,
                         succeeds: string -> bool)
    requires PlanSpec(spec)
  {
    && Consistent(spec, cp) && cp.status == Running
    && e.pending == cp.pending && e.completed == cp.completed
    && Inv(spec.tasks, loaded.completed, e)
    && trace != [] && IsTrace(spec.tasks, trace) && trace[0] == Start(loaded.pending, loaded.completed)
    && trace[|trace| - 1] == e
    && Earned(loaded, cp, succeeds)
  }

  lemma {:induction false} MidwayStart(spec: Checkpoint, loaded: Checkpoint, cp: Checkpoint, succeeds: string -> bool)
    requires PlanSpec(spec) && Consistent(spec, cp) && cp.status == Running
    requires cp.pending == loaded.pending && cp.completed == loaded.completed
    ensures var e := Start(cp.pending, cp.completed); Midway(spec, loaded, cp, [e], e, succeeds)
    ensures cp.tasks == spec.tasks
  {
    hide Consistent, Progressed, DistinctIds, Inv, IsTrace;
    var e := Start(cp.pending, cp.completed);
    ConsistentFields(spec, cp);
    SingletonTrace(spec.tasks, e);
    StartInv(spec.tasks, cp.pending, cp.completed);
  }

  /** Where the run may stop: blocked, or with nothing left. */
  lemma {:induction false} MidwayMeans(spec: Checkpoint, loaded: Checkpoint, cp: Checkpoint, trace: seq<Exec>, e: Exec,
                                       succeeds: string -> bool)
    requires PlanSpec(spec) && Midway(spec, loaded, cp, trace, e, succeeds)
    ensures Consistent(spec, cp) && cp.status == Running
    ensures trace != [] && trace[|trace| - 1] == e
    ensures cp.pending != [] || e.running != map[] ==> cp.pending != []
    ensures RanFrom(spec, loaded, trace, cp, e.launched)
    ensures RanFrom(spec, loaded, trace, cp, Launch(spec.tasks, e).launched)
    ensures Earned(loaded, cp, succeeds)
  {
    hide Consistent, DistinctIds, Inv, IsTrace, Launch;
    if cp.pending != [] || e.running != map[] {
      NothingRunningMeansPending(spec.tasks, loaded.completed, e);
    }
  }

  /** What the result of `id` does to the run, either way. */
  lemma {:induction false} MidwayResult(spec: Checkpoint, loaded: Checkpoint, cp: Checkpoint, trace: seq<Exec>, e: Exec,
                                        succeeds: string -> bool, id: string)
    requires PlanSpec(spec) && Midway(spec, loaded, cp, trace, e, succeeds) && id in Launch(spec.tasks, e).running
    ensures Launch(spec.tasks, e).pending == e.pending && Launch(spec.tasks, e).completed == e.completed
    ensures id in cp.pending && id !in cp.completed
    ensures Earned(loaded, cp.(results := cp.results[id := "failed"]), succeeds)
    ensures var e', cp' := Finish(Launch(spec.tasks, e), id), AfterResult(cp, id);
            && |cp'.pending| < |cp.pending| && Consistent(spec, cp')
            && (succeeds(id) ==> Midway(spec, loaded, cp', trace + [e'], e', succeeds))
            && (succeeds(id) ==> RanFrom(spec, loaded, trace + [e'], cp', e'.launched) && Earned(loaded, cp', succeeds))
  {
    hide Consistent, Progressed, DistinctIds, Inv, Launch, IsTrace, RemovePending, Earned;
    var after := Launch(spec.tasks, e);
    LaunchInv(spec.tasks, loaded.completed, e);
    RunningIsPending(spec.tasks, loaded.completed, after, id);
    EarnedNoted(loaded, cp, succeeds, id);
    FinishInv(spec.tasks, loaded.completed, after, id);
    Extended(spec.tasks, trace, Finish(after, id), id);
    ConsistentFinish(spec, loaded.completed, cp, Finish(after, id), id);
    if succeeds(id) {
      EarnedOneMore(loaded, cp, succeeds, id);
    }
  }

  lemma {:induction false} AllPending(tasks: seq<PlanTask>)
    ensures forall id :: id in TaskIds(tasks) <==> exists t :: t in tasks && t.id == id
  {
    forall id ensures id in TaskIds(tasks) <==> exists t :: t in tasks && t.id == id {
      if t :| t in tasks && t.id == id {
        var k :| 0 <= k < |tasks| && tasks[k] == t;
        assert TaskIds(tasks)[k] == id;
      }
    }
  }

  lemma {:induction false} EarnedNoted(loaded: Checkpoint, cp: Checkpoint, succeeds: string -> bool, id: string)
    requires Earned(loaded, cp, succeeds) && id !in cp.completed
    ensures Earned(loaded, cp.(results := cp.results[id := "failed"]), succeeds)
  {
  }

  /** Only the status, and what is noted of unfinished tasks, changes when a run stops. */
  lemma {:induction false} StopKeeps(spec: Checkpoint, loaded: Checkpoint, trace: seq<Exec>, cp: Checkpoint,
                                     launched: seq<string>, status: Status, results: map<string, string>,
                                     succeeds: string -> bool)
    requires PlanSpec(spec) && RanFrom(spec, loaded, trace, cp, launched)
    requires Earned(loaded, cp.(results := results), succeeds)
    ensures var cp' := cp.(status := status, results := results);
            RanFrom(spec, loaded, trace, cp', launched) && Earned(loaded, cp', succeeds)
  {
    hide IsTrace, Launch;
  }

  lemma {:induction false} EarnedOneMore(loaded: Checkpoint, cp: Checkpoint, succeeds: string -> bool, id: string)
    requires Earned(loaded, cp, succeeds) && succeeds(id)
    ensures Earned(loaded, AfterResult(cp, id), succeeds)
  {
    hide RemovePending;
  }

  lemma {:induction false} SaveFailedStops(spec: Checkpoint, loaded: Checkpoint, b: Backends, cp: Checkpoint,
                                           launched: seq<string>, trace: seq<Exec>, succeeds: string -> bool,
                                           reliable: bool)
    requires PlanSpec(spec) && Stored(spec, b) && Consistent(spec, cp) && RanFrom(spec, loaded, trace, cp, launched)
    requires loaded.completed <= Current(spec, b).completed <= cp.completed
    requires Earned(loaded, cp, succeeds) && !reliable
    ensures Stopped(spec, loaded, b, SaveFailed, cp, launched, trace, succeeds, reliable)
  {
    hide Stored, Consistent, Current, DistinctIds, Launch, WellNamed, Earned, RanFrom;
  }

  lemma {:induction false} RunningIsPending(plan: seq<PlanTask>, base: seq<string>, e: Exec, id: string)
    requires DistinctIds(plan) && Inv(plan, base, e) && id in e.running
    ensures id in e.pending && id !in e.completed
  {
    StartableIsUnfinished(plan, e.pending, e.completed, e.running[id]);
    hide Progressed, ConflictFree, LogMatches;
  }

  lemma {:induction false} RanFromInv(spec: Checkpoint, loaded: Checkpoint, trace: seq<Exec>, cp: Checkpoint,
                                      launched: seq<string>)
    requires PlanSpec(spec) && Consistent(spec, loaded) && RanFrom(spec, loaded, trace, cp, launched)
    ensures trace != []
    ensures Inv(spec.tasks, loaded.completed, trace[|trace| - 1])
    ensures Inv(spec.tasks, loaded.completed, Launch(spec.tasks, trace[|trace| - 1]))
  {
    hide DistinctIds, Step, Launch, Inv, Progressed;
    TraceInv(spec.tasks, loaded.completed, trace, |trace| - 1);
  }

  /** What a run from a consistent checkpoint means for the plan, in the backends `b` it leaves. Only
      tasks that succeeded join the completed ones, in memory and in store; with reliable writes it
      finishes exactly when the plan can be run and every task still to do succeeds, and the failure
      it stops at is on record with the task still pending. */
  lemma {:induction false} RunMeaning(spec: Checkpoint, loaded: Checkpoint, b: Backends, outcome: Outcome,
                                      cp: Checkpoint, launched: seq<string>, trace: seq<Exec>,
                                      succeeds: string -> bool, reliable: bool)
    requires PlanSpec(spec) && Consistent(spec, loaded)
    requires Stopped(spec, loaded, b, outcome, cp, launched, trace, succeeds, reliable)
    ensures Distinct(launched) && |launched| <= |spec.tasks| && !outcome.NotFound?
    ensures forall id :: id in launched ==> id !in loaded.completed
    ensures forall id :: id in Current(spec, b).completed ==> id in loaded.completed || succeeds(id)
    ensures outcome.Finished? ==>
              && Executable(spec.tasks) && IsSchedule(DependencyGraph(spec.tasks), Current(spec, b).completed)
              && forall id :: id in loaded.pending ==> succeeds(id)
    ensures outcome.BlockedByDependencies? ==> !Executable(spec.tasks)
    ensures outcome.TaskFailed? ==> outcome.id in loaded.pending && !succeeds(outcome.id)
    ensures outcome.TaskFailed? && reliable ==> FailureOnRecord(Current(spec, b), outcome.id)
    ensures reliable ==>
              (outcome.Finished? <==> Executable(spec.tasks) && forall id :: id in loaded.pending ==> succeeds(id))
  {
    hide DistinctIds, Step, Launch, Inv, Progressed, Executable, IsSchedule, DependencyGraph, Stored, Consistent,
         Current, RanFrom, WellNamed;
    HalfCompleted(cp);
    PlanMeaning(spec, loaded, trace, cp, launched, outcome);
    if reliable {
      OnRecord(cp, outcome, succeeds);
    }
    SamePlanIds(spec, loaded, cp);
    forall id | id in cp.completed && id !in loaded.completed ensures succeeds(id) {
      var since := cp.completed[|loaded.completed|..];
      assert cp.completed == loaded.completed + since;
      var k :| 0 <= k < |since| && since[k] == id;
      assert cp.completed[|loaded.completed| + k] == id;
    }
  }

  /** The record says that the run failed, that the task did, and that it is still to do. */
  predicate FailureOnRecord(record: Checkpoint, id: string) {
    && record.status == Failed && id in record.pending && id !in record.completed
    && id in record.results && record.results[id] == "failed"
  }

  lemma {:induction false} OnRecord(cp: Checkpoint, outcome: Outcome, succeeds: string -> bool)
    requires LeftBy(outcome, cp, succeeds)
    ensures outcome.TaskFailed? ==> FailureOnRecord(RuntimeHalf(cp), outcome.id)
  {
  }

  lemma {:induction false} SamePlanIds(spec: Checkpoint, loaded: Checkpoint, cp: Checkpoint)
    requires PlanSpec(spec) && Consistent(spec, loaded) && Consistent(spec, cp)
    ensures forall id :: id in loaded.pending || id in loaded.completed <==> id in cp.pending || id in cp.completed
    ensures forall id :: id in loaded.pending ==> id !in loaded.completed
    ensures forall id :: id in cp.pending ==> id !in cp.completed
  {
    ConsistentFields(spec, loaded);
    ConsistentFields(spec, cp);
    SplitIds(spec.tasks, loaded.pending, loaded.completed);
    SplitIds(spec.tasks, cp.pending, cp.completed);
    hide *;
  }

  lemma {:induction false} SplitIds(plan: seq<PlanTask>, pending: seq<string>, completed: seq<string>)
    requires DistinctIds(plan) && Progressed(plan, pending, completed)
    ensures forall id :: id in pending || id in completed <==> id in Ids(plan)
    ensures forall id :: id in pending ==> id !in completed
  {
    hide DistinctIds, CleanId, RespectsDependencies, Ids, Distinct;
    forall id ensures id in pending || id in completed <==> id in Ids(plan) {
      assert id in Elements(pending) + Elements(completed) <==> id in Ids(plan);
    }
    forall id | id in pending ensures id !in completed {
      assert id in Elements(pending);
    }
  }

  lemma {:induction false} PlanMeaning(spec: Checkpoint, loaded: Checkpoint, trace: seq<Exec>, cp: Checkpoint,
                                       launched: seq<string>, outcome: Outcome)
    requires PlanSpec(spec) && Consistent(spec, loaded) && Consistent(spec, cp)
               && RanFrom(spec, loaded, trace, cp, launched)
    requires outcome.Finished? ==> cp.pending == []
    requires outcome.BlockedByDependencies? ==>
               cp.pending != [] && Launch(spec.tasks, trace[|trace| - 1]).running == map[]
    ensures Distinct(launched) && |launched| <= |spec.tasks|
    ensures forall id :: id in launched ==> id !in loaded.completed
    ensures outcome.Finished? ==> Executable(spec.tasks) && IsSchedule(DependencyGraph(spec.tasks), cp.completed)
    ensures outcome.BlockedByDependencies? ==> !Executable(spec.tasks)
  {
    hide DistinctIds, Step, Launch, Inv, Progressed, Executable, IsSchedule, DependencyGraph;
    RanFromInv(spec, loaded, trace, cp, launched);
    var last := trace[|trace| - 1];
    var e := if launched == last.launched then last else Launch(spec.tasks, last);
    LaunchedOnce(spec.tasks, loaded.completed, e);
    LaunchedIsNew(spec.tasks, loaded.completed, e);
    forall id | id in launched ensures id !in loaded.completed {
      assert id in Elements(launched);
    }
    hide Elements;
    ConsistentFields(spec, cp);
    if cp.pending == [] {
      FinishedIsSchedule(spec.tasks, cp.completed);
    } else if outcome.BlockedByDependencies? && Executable(spec.tasks) {
      ExecutableNeverBlocks(spec.tasks, loaded.completed, last);
    }
  }

  lemma {:induction false} LaunchedOnce(plan: seq<PlanTask>, base: seq<string>, e: Exec)
    requires DistinctIds(plan) && Inv(plan, base, e)
    ensures Distinct(e.launched)
  {
    hide Distinct;
  }

  /** What the two writes of a save leave: the store's list and the record a resume reads. */
  lemma {:induction false} SaveLeaves(spec: Checkpoint, b: Backends, cp: Checkpoint, sw: Write, vw: Write)
    requires PlanSpec(spec) && Stored(spec, b) && Consistent(spec, cp)
    ensures var b' := SaveRuntime(b, cp, sw, vw).0;
            && Stored(spec, b')
            && StoreCompleted(b', spec.sessionId, spec.rootTaskId) ==
                 (if b.hasStore && TookEffect(sw) then cp.completed
                  else StoreCompleted(b, spec.sessionId, spec.rootTaskId))
            && (!b.hasStore ==> StoreCompleted(b, spec.sessionId, spec.rootTaskId) == [])
            && (!b.hasVfs ==> StoreCompleted(b, spec.sessionId, spec.rootTaskId) == Current(spec, b).completed)
            && (if b.hasVfs then
                  Current(spec, b') ==
                    if (b.hasStore ==> sw == Ok) && TookEffect(vw) then RuntimeHalf(cp) else Current(spec, b)
                else Current(spec, b').completed == StoreCompleted(b', spec.sessionId, spec.rootTaskId))
  {
    SaveRuntimeKeepsStored(spec, b, cp, sw, vw);
    ConsistentNames(spec, cp);
    hide Progressed, DistinctIds, BranchName, StaticBranchName, RuntimePath, StaticPath, RuntimeOk, Consistent;
  }

  /** The store lists `id` as completed, and the next resume starts it. */
  ghost predicate Restarted(spec: Checkpoint, b: Backends, id: string) {
    && id in StoreCompleted(b, spec.sessionId, spec.rootTaskId)
    && match Load(b, spec.sessionId, spec.rootTaskId)
       case None => false
       case Some(cp) => id in Launch(spec.tasks, Start(cp.pending, cp.completed)).launched
  }

  /** What a stored plan starts next is new; so the store's list is wrong about it exactly when it
      has it and the loaded list does not. */
  lemma {:induction false} RestartedMeansListed(spec: Checkpoint, cp: Checkpoint, b: Backends, id: string)
    requires PlanSpec(spec) && Stored(spec, b) && Consistent(spec, cp)
    requires id in Launch(spec.tasks, Start(cp.pending, cp.completed)).launched
    ensures id !in cp.completed
    ensures LoadedCompleted(b, spec.sessionId, spec.rootTaskId) == Current(spec, b).completed
    ensures Restarted(spec, b, id) ==>
              id in StoreCompleted(b, spec.sessionId, spec.rootTaskId) && id !in Current(spec, b).completed
    ensures Current(spec, b) == RuntimeHalf(cp) && id in StoreCompleted(b, spec.sessionId, spec.rootTaskId) ==>
              Restarted(spec, b, id)
  {
    hide DistinctIds, Launch, Stored, Current, StoreCompleted, Consistent, WellNamed, Load, Progressed, Inv, Start;
    StoredLoads(spec, b);
    LaunchedNotCompleted(spec, cp, id);
    var loaded := Rebuild(spec, Current(spec, b));
    if id in Launch(spec.tasks, Start(loaded.pending, loaded.completed)).launched {
      LaunchedNotCompleted(spec, loaded, id);
    }
  }

  lemma {:induction false} LaunchedNotCompleted(spec: Checkpoint, cp: Checkpoint, id: string)
    requires PlanSpec(spec) && Consistent(spec, cp)
    requires id in Launch(spec.tasks, Start(cp.pending, cp.completed)).launched
    ensures id !in cp.completed
  {
    hide DistinctIds, Launch, Consistent, WellNamed, Progressed, Inv;
    var e := Start(cp.pending, cp.completed);
    ConsistentFields(spec, cp);
    StartInv(spec.tasks, cp.pending, cp.completed);
    LaunchInv(spec.tasks, cp.completed, e);
    LaunchedIsNew(spec.tasks, cp.completed, Launch(spec.tasks, e));
    assert id in Elements(Launch(spec.tasks, e).launched);
  }

  /** The store being ahead is not harmless. Save the result of any task the next round starts,
      however its two writes go: the store lists the task as completed and the next resume starts it
      again exactly when both backends are in use, the store has the result, and the file system
      does not, because its write was refused or, the store having reported an error, never made.
      That is also exactly when the store lists the task and what a resume loads does not. */
  lemma {:induction false} StoredTaskRestarts(spec: Checkpoint, cp: Checkpoint, b: Backends, id: string, sw: Write,
                                              vw: Write)
    requires PlanSpec(spec) && Consistent(spec, cp) && cp.status == Running
    requires Stored(spec, b) && Current(spec, b) == RuntimeHalf(cp)
    requires id in Launch(spec.tasks, Start(cp.pending, cp.completed)).running
    ensures var b' := SaveRuntime(b, AfterResult(cp, id), sw, vw).0;
            && Stored(spec, b')
            && (Restarted(spec, b', id) <==>
                  && b.hasStore && b.hasVfs
                  && (TookEffect(sw) || id in StoreCompleted(b, spec.sessionId, spec.rootTaskId))
                  && (sw != Ok || !TookEffect(vw)))
            && (Restarted(spec, b', id) <==>
                  && id in StoreCompleted(b', spec.sessionId, spec.rootTaskId)
                  && id !in LoadedCompleted(b', spec.sessionId, spec.rootTaskId))
  {
    hide DistinctIds, Launch, Stored, Current, StoreCompleted, LoadedCompleted, SaveRuntime, Consistent, AfterResult,
         WellNamed, RuntimeHalf, Restarted;
    var result := AfterResult(cp, id);
    AfterResultConsistent(spec, cp, id);
    SaveLeaves(spec, b, result, sw, vw);
    var b' := SaveRuntime(b, result, sw, vw).0;
    HalfCompleted(result);
    HalfCompleted(cp);
    RestartedMeansListed(spec, cp, b', id);
  }

  lemma {:induction false} HalfCompleted(cp: Checkpoint)
    ensures RuntimeHalf(cp).completed == cp.completed && RuntimeHalf(cp).pending == cp.pending
  {
  }

  lemma {:induction false} AfterResultConsistent(spec: Checkpoint, cp: Checkpoint, id: string)
    requires PlanSpec(spec) && Consistent(spec, cp) && cp.status == Running
    requires id in Launch(spec.tasks, Start(cp.pending, cp.completed)).running
    ensures Consistent(spec, AfterResult(cp, id)) && id in AfterResult(cp, id).completed
    ensures id in Launch(spec.tasks, Start(cp.pending, cp.completed)).launched
  {
    hide Progressed, DistinctIds, Launch, Consistent, Inv, RemovePending, WellNamed;
    assert id in AfterResult(cp, id).completed;
    hide AfterResult;
    ConsistentFields(spec, cp);
    StartInv(spec.tasks, cp.pending, cp.completed);
    var e := Start(cp.pending, cp.completed);
    var after := Launch(spec.tasks, e);
    LaunchInv(spec.tasks, cp.completed, e);
    FinishInv(spec.tasks, cp.completed, after, id);
    ConsistentFinish(spec, cp.completed, cp, Finish(after, id), id);
    RunningIsLogged(spec.tasks, cp.completed, after, id);
  }

  /** What the backends hold when a run starts its first round, all writes having gone through: the
      preview's two saves, then the run's own two. */
  function FirstRound(b: Backends, spec: Checkpoint): Backends {
    var previewed := SaveRuntime(SaveStatic(b, spec, Ok, Ok).0, spec, Ok, Ok).0;
    SaveRuntime(SaveStatic(previewed, spec, Ok, Ok).0, spec.(status := Running), Ok, Ok).0
  }

  lemma {:induction false} FirstRoundStored(b: Backends, spec: Checkpoint)
    requires Previewed(spec) && (b.hasStore || b.hasVfs)
    ensures Consistent(spec, spec.(status := Running)) && Stored(spec, FirstRound(b, spec))
    ensures Current(spec, FirstRound(b, spec)) == RuntimeHalf(spec.(status := Running))
    ensures FirstRound(b, spec).hasStore == b.hasStore && FirstRound(b, spec).hasVfs == b.hasVfs
  {
    PreviewedIsConsistent(spec);
    var cp := spec.(status := Running);
    ConsistentStatus(spec, spec, Running, spec.results);
    SavesSucceed(b, spec);
    FirstSavesStore(spec, b, Ok, Ok, Ok, Ok);
    var b1 := SaveRuntime(SaveStatic(b, spec, Ok, Ok).0, spec, Ok, Ok).0;
    SaveStaticKeepsStored(spec, b1, spec, Ok, Ok);
    var b2 := SaveStatic(b1, spec, Ok, Ok).0;
    SavesSucceed(b2, cp);
    SaveRuntimeKeepsStored(spec, b2, cp, Ok, Ok);
    FirstRoundKeepsKinds(b, spec);
    hide *;
  }

  lemma {:induction false} SavesSucceed(b: Backends, cp: Checkpoint)
    ensures SaveStatic(b, cp, Ok, Ok).1 && SaveRuntime(b, cp, Ok, Ok).1
    ensures forall c :: SaveRuntime(SaveStatic(b, cp, Ok, Ok).0, c, Ok, Ok).1
  {
    hide RuntimePath, StaticPath, StaticBranchName;
  }

  lemma {:induction false} FirstRoundKeepsKinds(b: Backends, spec: Checkpoint)
    ensures FirstRound(b, spec).hasStore == b.hasStore && FirstRound(b, spec).hasVfs == b.hasVfs
  {
    hide RuntimePath, StaticPath, StaticBranchName;
  }

  /** Every run can restart a task its store lists as completed: from any backends, once a plan that
      can run to the end has been previewed and run up to its first round, some task is started whose
      result, with its file-system write refused, leads to that. */
  lemma {:induction false} EveryPlanCanRestart(b: Backends, spec: Checkpoint) returns (id: string)
    requires Previewed(spec) && Executable(spec.tasks) && spec.tasks != [] && b.hasStore && b.hasVfs
    ensures var started := Launch(spec.tasks, Start(spec.pending, []));
            var b' := SaveRuntime(FirstRound(b, spec), AfterResult(spec.(status := Running), id), Ok, ErrUnwritten).0;
            && id in started.running
            && Restarted(spec, b', id) && LoadedCompleted(b', spec.sessionId, spec.rootTaskId) == []
  {
    hide DistinctIds, Executable, Launch, Stored, Current, StoreCompleted, LoadedCompleted, SaveRuntime, Consistent,
         AfterResult, FirstRound, WellNamed, Progressed, Inv, RuntimeHalf;
    var cp := spec.(status := Running);
    FirstRoundStored(b, spec);
    ConsistentFields(spec, cp);
    StartInv(spec.tasks, spec.pending, []);
    TaskIdsNotEmpty(spec.tasks);
    ExecutableNeverBlocks(spec.tasks, [], Start(spec.pending, []));
    id :| id in Launch(spec.tasks, Start(spec.pending, [])).running;
    StoredTaskRestarts(spec, cp, FirstRound(b, spec), id, Ok, ErrUnwritten);
    NothingLoadedYet(spec, cp, b, id);
  }

  lemma {:induction false} NothingLoadedYet(spec: Checkpoint, cp: Checkpoint, b: Backends, id: string)
    requires Previewed(spec) && cp == spec.(status := Running) && b.hasStore && b.hasVfs
    requires id in Launch(spec.tasks, Start(spec.pending, [])).running
    ensures var b' := SaveRuntime(FirstRound(b, spec), AfterResult(cp, id), Ok, ErrUnwritten).0;
            LoadedCompleted(b', spec.sessionId, spec.rootTaskId) == []
  {
    hide DistinctIds, Launch, Stored, Current, StoreCompleted, LoadedCompleted, SaveRuntime, Consistent, AfterResult,
         FirstRound, WellNamed, Progressed, RuntimeHalf;
    FirstRoundStored(b, spec);
    AfterResultConsistent(spec, cp, id);
    SaveLeaves(spec, FirstRound(b, spec), AfterResult(cp, id), Ok, ErrUnwritten);
    RestartedMeansListed(spec, cp, SaveRuntime(FirstRound(b, spec), AfterResult(cp, id), Ok, ErrUnwritten).0, id);
    HalfCompleted(cp);
  }

  lemma {:induction false} TaskIdsNotEmpty(tasks: seq<PlanTask>)
    requires tasks != []
    ensures TaskIds(tasks) != []
  {
  }

  /** There are such plans: one task that waits for nothing. */
  lemma {:induction false} OneTaskPlan() returns (spec: Checkpoint)
    ensures Previewed(spec) && Executable(spec.tasks) && spec.tasks != []
  {
    var task := PlanTask("a", [], [], [], 1.0);
    spec := Checkpoint("t", "s", BranchName("t"), RootTask("t", "s"), NO_PLAN, [task], ["a"], [], map[], 1, Planned);
    assert TaskIds([task]) == ["a"];
    TrimFixpoint("a");
    assert DistinctIds([task]);
    var g := DependencyGraph([task]);
    GraphOfTask([task], task);
    GraphKeys([task]);
    assert Ids([task]) == {"a"};
    assert IsSchedule(g, ["a"]);
    ScheduleMeansRunnable(g, ["a"]);
    hide Trim, IsSchedule, Runnable, DependencyGraph;
  }

  lemma {:induction false} RunningIsLogged(plan: seq<PlanTask>, base: seq<string>, e: Exec, id: string)
    requires DistinctIds(plan) && Inv(plan, base, e) && id in e.running
    ensures id in e.launched
  {
    hide Progressed, AllStartable, ConflictFree, Distinct;
    assert id in Elements(e.launched);
  }

  lemma {:induction false} InvProgressed(plan: seq<PlanTask>, base: seq<string>, e: Exec)
    requires DistinctIds(plan) && Inv(plan, base, e)
    ensures Progressed(plan, e.pending, e.completed)
  {
    hide Progressed;
  }

  lemma {:induction false} NothingRunningMeansPending(plan: seq<PlanTask>, base: seq<string>, e: Exec)
    requires DistinctIds(plan) && Inv(plan, base, e)
    requires e.pending != [] || e.running != map[]
    ensures e.pending != []
  {
    hide Progressed, ConflictFree, LogMatches, DistinctIds;
    if e.running != map[] {
      var id :| id in e.running;
      assert id in e.pending;
    }
  }

  lemma {:induction false} Extended(plan: seq<PlanTask>, trace: seq<Exec>, e: Exec, id: string)
    requires IsTrace(plan, trace)
    requires id in Launch(plan, trace[|trace| - 1]).running && e == Finish(Launch(plan, trace[|trace| - 1]), id)
    ensures IsTrace(plan, trace + [e])
  {
    hide Launch, Finish;
    assert Step(plan, trace[|trace| - 1], e);
    hide Step;
  }

  lemma {:induction false} SingletonTrace(plan: seq<PlanTask>, e: Exec)
    ensures IsTrace(plan, [e])
  {
  }

  lemma {:induction false} ConsistentFields(spec: Checkpoint, cp: Checkpoint)
    requires PlanSpec(spec) && Consistent(spec, cp)
    ensures cp.tasks == spec.tasks && Progressed(spec.tasks, cp.pending, cp.completed)
    ensures cp.status == Completed ==> cp.pending == []
  {
    hide Progressed, DistinctIds;
  }

  lemma {:induction false} ConsistentStatus(spec: Checkpoint, cp: Checkpoint, status: Status,
                                            results: map<string, string>)
    requires PlanSpec(spec) && Consistent(spec, cp) && (status == Completed ==> cp.pending == [])
    ensures Consistent(spec, cp.(status := status, results := results))
  {
    hide Progressed, DistinctIds;
  }

  lemma {:induction false} ConsistentFinish(spec: Checkpoint, base: seq<string>, cp: Checkpoint, e: Exec, id: string)
    requires PlanSpec(spec) && Consistent(spec, cp) && cp.status != Completed
    requires Inv(spec.tasks, base, e)
    requires e.pending == RemovePending(cp.pending, id) && e.completed == cp.completed + [id]
    ensures Consistent(spec, AfterResult(cp, id))
  {
    hide DistinctIds, RemovePending;
    InvProgressed(spec.tasks, base, e);
    hide Progressed, Inv;
  }
}
