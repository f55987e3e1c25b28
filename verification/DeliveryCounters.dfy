/** The worker-pool counters add up (go-core/internal/delivery/worker_pool.go:26-41, 172-343). */
module DeliveryCounters {
  import opened Basics
  import opened DeliveryHistory
  import opened DeliveryProtocol
  import opened DeliveryRetries

  /** What a worker's envelope still has to be counted as. */
  datatype Due = Busy | Unclassified | Unresolved

  predicate Owes(stage: Stage, due: Due) {
    match due
    case Busy => !stage.Idle?
    case Unclassified => stage.Checking? || stage.Refusing? || stage.Establishing? || stage.Handling?
                           || stage.Finishing? || stage.Erring?
    case Unresolved => stage.Burying? || stage.Deciding? || stage.Resending? || stage.Resent? || stage.GivingUp?
                         || stage.Buried?
  }

  predicate OwesFor(worker: Worker, agent: string, due: Due) {
    worker.agent == agent && Owes(worker.stage, due)
  }

  /** How many of an agent's workers owe a count. */
  function Owing(workers: seq<Worker>, agent: string, due: Due): nat {
    Count(workers, w => OwesFor(w, agent, due))
  }

  /** Processed envelopes succeeded, failed, were refused or are still in hand; failures and refusals
      were retried, dead-lettered or are still being decided. */
  predicate Balanced(m: Metrics, workers: seq<Worker>, agent: string) {
    && m.active[agent] == Owing(workers, agent, Busy)
    && m.processed[agent] ==
         m.succeeded[agent] + m.failed[agent] + m.refused[agent] + Owing(workers, agent, Unclassified)
    && m.failed[agent] + m.refused[agent] ==
         m.retried[agent] + m.deadLettered[agent] + Owing(workers, agent, Unresolved)
  }

  lemma {:induction false} OwingUpdate(workers: seq<Worker>, w: nat, x: Worker, agent: string, due: Due)
    requires w < |workers|
    ensures Owing(workers[w := x], agent, due) ==
              Owing(workers, agent, due) - One(OwesFor(workers[w], agent, due)) + One(OwesFor(x, agent, due))
  {
    CountUpdate(workers, w, x, v => OwesFor(v, agent, due));
  }

  /** An envelope past the payload check belongs to a tracked delivery, so a failure is always either
      retried or given up. */
  lemma {:induction false} DecidingIsTracked(digest: Digest, records: Records, stage: Stage)
    requires StageOk(digest, records, stage) && stage.Deciding?
    ensures stage.e.id in records
  {
  }

  lemma {:induction false} LeaverIsActive(m: Metrics, workers: seq<Worker>, w: nat)
    requires w < |workers| && Balanced(m, workers, workers[w].agent) && workers[w].stage.Leaving?
    ensures m.active[workers[w].agent] > 0
  {
    OwingUpdate(workers, w, Worker(workers[w].agent, Idle), workers[w].agent, Busy);
    hide Owing;
  }

  /** What a worker still owes after a step. */
  lemma {:induction false} OwedAfter(digest: Digest, records: Records, stage: Stage, ok: bool)
    requires !stage.Idle? && (stage.Deciding? ==> stage.e.id in records)
    ensures var next := NextStage(digest, records, stage, ok);
            && One(Owes(next, Busy)) == One(Owes(stage, Busy)) - One(stage.Leaving?)
            && One(Owes(next, Unclassified)) ==
                 One(Owes(stage, Unclassified)) - One(stage.Refusing?) - One(stage.Finishing?) - One(stage.Erring?)
            && One(Owes(next, Unresolved)) == One(Owes(stage, Unresolved)) + One(stage.Refusing?) + One(stage.Erring?)
               - One(stage.Burying?) - One(stage.Resent?) - One(stage.Buried?)
  {
    hide MayRetry, Retried, Confirmed;
  }

  /** What the step counts, and for whom. */
  lemma {:induction false} CountedBy(m: Metrics, stage: Stage, owner: string, agent: string)
    requires stage.Leaving? && owner == agent ==> m.active[agent] > 0
    ensures var m', own := WorkerMetrics(m, stage, owner), owner == agent;
            && m'.processed == m.processed
            && m'.active[agent] == m.active[agent] - (if own then One(stage.Leaving?) else 0)
            && m'.succeeded[agent] == m.succeeded[agent] + (if own then One(stage.Finishing?) else 0)
            && m'.failed[agent] == m.failed[agent] + (if own then One(stage.Erring?) else 0)
            && m'.refused[agent] == m.refused[agent] + (if own then One(stage.Refusing?) else 0)
            && m'.retried[agent] == m.retried[agent] + (if own then One(stage.Resent?) else 0)
            && m'.deadLettered[agent] ==
                 m.deadLettered[agent] + (if own then One(stage.Burying?) + One(stage.Buried?) else 0)
  {
  }

  lemma {:induction false} OwesForIs(worker: Worker, agent: string, due: Due)
    ensures One(OwesFor(worker, agent, due)) == if worker.agent == agent then One(Owes(worker.stage, due)) else 0
  {
  }

  lemma {:induction false} WorkerIs(s: System, w: nat, ok: bool)
    requires w < |s.workers|
    ensures var Worker(owner, stage) := s.workers[w];
            && WorkerStep(s, w, ok).workers == s.workers[w := Worker(owner, NextStage(s.digest, s.records, stage, ok))]
            && WorkerStep(s, w, ok).metrics == WorkerMetrics(s.metrics, stage, owner)
  {
  }

  lemma {:induction false} MoveBalanced(digest: Digest, records: Records, m: Metrics, workers: seq<Worker>, w: nat,
                                        ok: bool, agent: string)
    requires w < |workers| && !workers[w].stage.Idle? && StageOk(digest, records, workers[w].stage)
               && Balanced(m, workers, agent)
    ensures var Worker(owner, stage) := workers[w];
            Balanced(WorkerMetrics(m, stage, owner),
                workers[w := Worker(owner, NextStage(digest, records, stage, ok))], agent)
  {
    var owner, stage := workers[w].agent, workers[w].stage;
    if stage.Leaving? && owner == agent {
      LeaverIsActive(m, workers, w);
    }
    if stage.Deciding? {
      DecidingIsTracked(digest, records, stage);
    }
    OwedAfter(digest, records, stage, ok);
    CountedBy(m, stage, owner, agent);
    hide Owing, OwesFor, StageOk, NextStage, WorkerMetrics, Owes, One;
    var next := Worker(owner, NextStage(digest, records, stage, ok));
    UpdateOwing(workers, w, next, agent, Busy);
    UpdateOwing(workers, w, next, agent, Unclassified);
    UpdateOwing(workers, w, next, agent, Unresolved);
  }

  lemma {:induction false} WorkerMovesBalanced(s: System, w: nat, ok: bool, agent: string)
    requires w < |s.workers| && !s.workers[w].stage.Idle? && StageOk(s.digest, s.records, s.workers[w].stage)
    requires Balanced(s.metrics, s.workers, agent)
    ensures Balanced(WorkerStep(s, w, ok).metrics, WorkerStep(s, w, ok).workers, agent)
  {
    WorkerIs(s, w, ok);
    MoveBalanced(s.digest, s.records, s.metrics, s.workers, w, ok, agent);
    hide *;
  }

  lemma {:induction false} UpdateOwing(workers: seq<Worker>, w: nat, x: Worker, agent: string, due: Due)
    requires w < |workers| && x.agent == workers[w].agent
    ensures Owing(workers[w := x], agent, due) ==
              Owing(workers, agent, due)
              + if x.agent == agent then One(Owes(x.stage, due)) - One(Owes(workers[w].stage, due)) else 0
  {
    OwingUpdate(workers, w, x, agent, due);
    OwesForIs(x, agent, due);
    OwesForIs(workers[w], agent, due);
    hide *;
  }

  lemma {:induction false} ReceivesBalanced(s: System, w: nat, k: nat, agent: string)
    requires Enabled(s, WorkerReceives(w, k)) && Balanced(s.metrics, s.workers, agent)
    ensures Balanced(Apply(s, WorkerReceives(w, k)).metrics, Apply(s, WorkerReceives(w, k)).workers, agent)
  {
    hide Owing;
    var next := Worker(s.workers[w].agent, Checking(s.post.mailbox[k]));
    OwingUpdate(s.workers, w, next, agent, Busy);
    OwingUpdate(s.workers, w, next, agent, Unclassified);
    OwingUpdate(s.workers, w, next, agent, Unresolved);
  }

  lemma {:induction false} StepKeepsBalance(s: System, a: Action, agent: string)
    requires HandsOk(s) && Enabled(s, a) && Balanced(s.metrics, s.workers, agent)
    ensures Balanced(Apply(s, a).metrics, Apply(s, a).workers, agent)
  {
    hide Balanced, WorkerStep, StageOk, CourierOk, IsNextFor, MayRetry, Retried, Send, Acked;
    match a
    case WorkerReceives(w, k) => ReceivesBalanced(s, w, k, agent);
    case WorkerMoves(w, ok) => WorkerMovesBalanced(s, w, ok, agent);
    case _ =>
  }

  lemma {:induction false} NobodyOwes(workers: seq<Worker>, agent: string, due: Due)
    requires forall w :: 0 <= w < |workers| ==> workers[w].stage.Idle?
    ensures Owing(workers, agent, due) == 0
  {
    CountNone(workers, w => OwesFor(w, agent, due));
  }

  lemma {:induction false} StartBalanced(digest: Digest, agents: seq<string>, agent: string)
    ensures Balanced(Start(digest, agents).metrics, Start(digest, agents).workers, agent)
  {
    var workers := Start(digest, agents).workers;
    NobodyOwes(workers, agent, Busy);
    NobodyOwes(workers, agent, Unclassified);
    NobodyOwes(workers, agent, Unresolved);
    hide Owing;
  }

  lemma {:induction false} RunKeepsBalance(s: System, run: seq<Action>, agent: string)
    requires Inv(s) && IsRun(s, run) && Balanced(s.metrics, s.workers, agent)
    ensures Balanced(After(s, run).metrics, After(s, run).workers, agent)
    decreases |run|
  {
    if run != [] {
      StepKeepsInv(s, run[0]);
      StepKeepsBalance(s, run[0], agent);
      hide Inv, Enabled, Apply, Balanced;
      RunKeepsBalance(Apply(s, run[0]), run[1..], agent);
    }
  }

  lemma {:induction false} NobodyBusy(workers: seq<Worker>, agent: string)
    requires Owing(workers, agent, Busy) == 0
    ensures Owing(workers, agent, Unclassified) == 0 && Owing(workers, agent, Unresolved) == 0
  {
    if workers != [] {
      NobodyBusy(workers[..|workers| - 1], agent);
    }
  }

  /** Whenever a pool has no active worker, its counters add up. */
  lemma {:induction false} IdleCountersAddUp(digest: Digest, agents: seq<string>, run: seq<Action>, agent: string)
    requires IsRun(Start(digest, agents), run) && After(Start(digest, agents), run).metrics.active[agent] == 0
    ensures var m := After(Start(digest, agents), run).metrics;
            && m.processed[agent] == m.succeeded[agent] + m.failed[agent] + m.refused[agent]
            && m.failed[agent] + m.refused[agent] == m.retried[agent] + m.deadLettered[agent]
  {
    StartInv(digest, agents);
    StartBalanced(digest, agents, agent);
    RunKeepsBalance(Start(digest, agents), run, agent);
    hide IsRun, After, Start, Inv, Owing, Apply, Enabled;
    NobodyBusy(After(Start(digest, agents), run).workers, agent);
  }
}
