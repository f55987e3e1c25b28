/** The submission pipeline around the fair scheduler: submitters, the bus list, the consumer
    goroutine, the filler and any number of workers, joined by three one-token signals
    (go-core/internal/delivery/message_bus.go:45-82, 198-213, 245-280;
    go-core/internal/kernel/orchestrator.go:326-376, 524-536, 837-859, 901-932). Each mutex section
    and each channel operation is one step, and steps of different goroutines interleave freely. */
module SubmissionPipeline {
  import opened Basics
  import opened SubmissionScheduler

  /** Moves tasks off the bus, one in hand at a time. */
  datatype Consumer = Polling | Rechecking | AwaitingTask | Handing(task: Task)

  /** Puts tasks into the scheduler, waiting while its buffer is full. */
  datatype Filler = Idle | Trying(task: Task) | AwaitingSpace(task: Task) | Announcing

  /** One worker. The stages after the task is settled still hold a unit of the group's cap. */
  datatype Worker =
    | Looking
    | AwaitingWork
    | Freeing(task: Task)
    | Working(task: Task)
    | Returning(group: string)
    | Leaving(group: string)
    | Waking

  datatype Pipeline = Pipeline(
    bus: seq<Task>, taskSignal: bool, notifying: nat,
    consumer: Consumer, filler: Filler,
    sched: State, wake: bool, space: bool,
    workers: seq<Worker>,
    acked: multiset<Task>, submitted: multiset<Task>)

  /** A step of one goroutine. A worker's step is told the scores it reads and whether the dispatch
      of its task succeeds. */
  datatype Action =
    | Submit(task: Task)
    | SubmitNotify
    | ConsumerMoves
    | HandOver
    | FillerMoves
    | WorkerMoves(w: nat, score: Score, ok: bool)

  predicate Enabled(p: Pipeline, a: Action) {
    match a
    case Submit(_) => true
    case SubmitNotify => p.notifying > 0
    case ConsumerMoves => ConsumerCanMove(p)
    case HandOver => p.consumer.Handing? && p.filler.Idle?
    case FillerMoves => FillerCanMove(p)
    case WorkerMoves(w, _, _) => w < |p.workers| && WorkerCanMove(p, w)
  }

  function Apply(p: Pipeline, a: Action): Pipeline
    requires Enabled(p, a)
  {
    match a
    case Submit(t) => p.(bus := p.bus + [t], notifying := p.notifying + 1, submitted := p.submitted + multiset{t})
    case SubmitNotify => p.(notifying := p.notifying - 1, taskSignal := true)
    case ConsumerMoves => ConsumerStep(p)
    case HandOver => p.(consumer := Polling, filler := Trying(p.consumer.task))
    case FillerMoves => FillerStep(p)
    case WorkerMoves(w, score, ok) => WorkerStep(p, w, score, ok)
  }

  predicate ConsumerCanMove(p: Pipeline) {
    p.consumer.Polling? || p.consumer.Rechecking? || (p.consumer.AwaitingTask? && p.taskSignal)
  }

  function ConsumerStep(p: Pipeline): Pipeline
    requires ConsumerCanMove(p)
  {
    match p.consumer
    case Polling =>
      if p.bus != [] then p.(bus := p.bus[1..], consumer := Handing(p.bus[0])) else p.(consumer := Rechecking)
    case Rechecking => p.(consumer := if p.bus != [] then Polling else AwaitingTask)
    case AwaitingTask => p.(consumer := Polling, taskSignal := false)
  }

  predicate FillerCanMove(p: Pipeline) {
    p.filler.Trying? || p.filler.Announcing? || (p.filler.AwaitingSpace? && p.space)
  }

  function FillerStep(p: Pipeline): Pipeline
    requires FillerCanMove(p)
  {
    match p.filler
    case Trying(t) =>
      if p.sched.totalPending < p.sched.maxBuffered then p.(sched := Enqueue(p.sched, t), filler := Announcing)
      else p.(filler := AwaitingSpace(t))
    case AwaitingSpace(t) => p.(filler := Trying(t), space := false)
    case Announcing => p.(filler := Idle, wake := true)
  }

  predicate WorkerCanMove(p: Pipeline, w: nat)
    requires w < |p.workers|
  {
    !p.workers[w].AwaitingWork? || p.wake
  }

  function WorkerStep(p: Pipeline, w: nat, score: Score, ok: bool): Pipeline
    requires w < |p.workers| && WorkerCanMove(p, w)
  {
    match p.workers[w]
    case Looking =>
      (match Pop(p.sched, score)
       case Nothing => p.(workers := p.workers[w := AwaitingWork])
       case Popped(t, next) => p.(workers := p.workers[w := Freeing(t)], sched := next))
    case AwaitingWork => p.(workers := p.workers[w := Looking], wake := false)
    case Freeing(t) => p.(workers := p.workers[w := Working(t)], space := true)
    case Working(t) =>
      if ok then p.(workers := p.workers[w := Leaving(t.group)], acked := p.acked + multiset{t})
      else p.(workers := p.workers[w := Returning(t.group)], bus := [t] + p.bus)
    case Returning(g) => p.(workers := p.workers[w := Leaving(g)], taskSignal := true)
    case Leaving(g) => p.(workers := p.workers[w := Waking], sched := Finished(p.sched, g))
    case Waking => p.(workers := p.workers[w := Looking], wake := true)
  }

  function Start(workers: nat, maxBuffered: int, cap: int): Pipeline {
    Pipeline([], false, 0, Polling, Idle, Fresh(maxBuffered, cap), false, false,
             seq(workers, i => Looking), multiset{}, multiset{})
  }

  ghost predicate IsRun(p: Pipeline, run: seq<Action>)
    decreases |run|
  {
    run == [] || (Enabled(p, run[0]) && IsRun(Apply(p, run[0]), run[1..]))
  }

  function After(p: Pipeline, run: seq<Action>): Pipeline
    requires IsRun(p, run)
    decreases |run|
  {
    if run == [] then p else After(Apply(p, run[0]), run[1..])
  }

  // ---------------------------------------------------------------- who holds what

  function InHand(c: Consumer, t: Task): nat {
    if c == Handing(t) then 1 else 0
  }

  function InFill(f: Filler, t: Task): nat {
    if f == Trying(t) || f == AwaitingSpace(t) then 1 else 0
  }

  predicate Holds(w: Worker, t: Task) {
    w == Freeing(t) || w == Working(t)
  }

  /** The worker occupies a unit of group `g`'s cap. */
  predicate Occupies(w: Worker, g: string) {
    match w
    case Freeing(t) => t.group == g
    case Working(t) => t.group == g
    case Returning(h) => h == g
    case Leaving(h) => h == g
    case _ => false
  }

  function InWork(workers: seq<Worker>, t: Task): nat {
    Count(workers, w => Holds(w, t))
  }

  function Occupying(workers: seq<Worker>, g: string): nat {
    Count(workers, w => Occupies(w, g))
  }

  lemma {:induction false} InWorkUpdate(workers: seq<Worker>, w: nat, x: Worker, t: Task)
    requires w < |workers|
    ensures InWork(workers[w := x], t) == InWork(workers, t) - One(Holds(workers[w], t)) + One(Holds(x, t))
  {
    CountUpdate(workers, w, x, v => Holds(v, t));
  }

  lemma {:induction false} OccupyingUpdate(workers: seq<Worker>, w: nat, x: Worker, g: string)
    requires w < |workers|
    ensures Occupying(workers[w := x], g) == Occupying(workers, g) - One(Occupies(workers[w], g)) + One(Occupies(x, g))
  {
    CountUpdate(workers, w, x, v => Occupies(v, g));
  }

  /** How many copies of `t` there are anywhere in the pipeline. */
  function Copies(p: Pipeline, t: Task): nat {
    multiset(p.bus)[t] + InHand(p.consumer, t) + InFill(p.filler, t) + Items(p.sched)[t] + InWork(p.workers, t)
        + p.acked[t]
  }

  /** Every submission is in exactly one place: on the bus, in the consumer's or the filler's hand,
      in a scheduler queue, with a worker, or acknowledged. */
  ghost predicate Conserved(p: Pipeline) {
    forall t :: Copies(p, t) == p.submitted[t]
  }

  /** A group's in-flight count is the number of workers on its items. */
  ghost predicate CountsAgree(p: Pipeline) {
    forall g :: Inflight(p.sched, g) == Occupying(p.workers, g)
  }

  /** A consumer asleep over a task has a wake-up on its way. */
  ghost predicate ConsumerWillWake(p: Pipeline) {
    p.consumer.AwaitingTask? && p.bus != [] ==>
      p.taskSignal || p.notifying > 0 || exists w :: 0 <= w < |p.workers| && p.workers[w].Returning?
  }

  /** A filler asleep beside free room has a wake-up on its way. */
  ghost predicate FillerWillWake(p: Pipeline) {
    p.filler.AwaitingSpace? && p.sched.totalPending < p.sched.maxBuffered ==>
      p.space || exists w :: 0 <= w < |p.workers| && p.workers[w].Freeing?
  }

  /** While some group has an item to hand out, some worker is up, or a wake-up is on its way. */
  ghost predicate WorkersWillWake(p: Pipeline) {
    (exists g :: Eligible(p.sched, g)) ==>
      p.wake || p.filler.Announcing? || exists w :: 0 <= w < |p.workers| && !p.workers[w].AwaitingWork?
  }

  ghost predicate Inv(p: Pipeline) {
    Valid(p.sched) && Conserved(p) && CountsAgree(p) && NobodyForgotten(p)
  }

  // ---------------------------------------------------------------- every step keeps it

  lemma {:induction false} StepKeepsSchedule(p: Pipeline, a: Action)
    requires Valid(p.sched) && Enabled(p, a)
    ensures Valid(Apply(p, a).sched)
  {
    hide Valid, Pop, Enqueue, Finished;
    if a.FillerMoves? && p.filler.Trying? && p.sched.totalPending < p.sched.maxBuffered {
      EnqueueValid(p.sched, p.filler.task);
    } else if a.WorkerMoves? && p.workers[a.w].Looking? && Pop(p.sched, a.score).Popped? {
      PopValid(p.sched, a.score);
    } else if a.WorkerMoves? && p.workers[a.w].Leaving? {
      FinishedValid(p.sched, p.workers[a.w].group);
    }
  }

  lemma {:induction false} ConsumerStepConserves(p: Pipeline, t: Task)
    requires ConsumerCanMove(p)
    ensures Copies(ConsumerStep(p), t) == Copies(p, t)
  {
    hide Items, InWork;
    if p.bus != [] {
      assert p.bus == [p.bus[0]] + p.bus[1..];
    }
  }

  lemma {:induction false} FillerStepConserves(p: Pipeline, t: Task)
    requires Valid(p.sched) && FillerCanMove(p)
    ensures Copies(FillerStep(p), t) == Copies(p, t)
  {
    hide Valid, Items, InWork, Enqueue;
    if p.filler.Trying? && p.sched.totalPending < p.sched.maxBuffered {
      EnqueueItems(p.sched, p.filler.task);
    }
  }

  /** A worker's step moves that worker alone. */
  lemma {:induction false} WorkerStepIs(p: Pipeline, w: nat, score: Score, ok: bool)
    requires w < |p.workers| && WorkerCanMove(p, w)
    ensures var now, p' := p.workers[w], WorkerStep(p, w, score, ok);
            && |p'.workers| == |p.workers| && p'.workers == p.workers[w := p'.workers[w]]
            && p'.consumer == p.consumer && p'.filler == p.filler && p'.notifying == p.notifying
                 && p'.submitted == p.submitted
  {
    hide Pop, Finished;
    var p' := WorkerStep(p, w, score, ok);
    match p.workers[w]
    case Looking =>
      match Pop(p.sched, score) {
        case Nothing => assert p'.workers == p.workers[w := AwaitingWork];
        case Popped(t, _) => assert p'.workers == p.workers[w := Freeing(t)];
      }
    case AwaitingWork => assert p'.workers == p.workers[w := Looking];
    case Freeing(t) => assert p'.workers == p.workers[w := Working(t)];
    case Working(t) => assert p'.workers == p.workers[w := if ok then Leaving(t.group) else Returning(t.group)];
    case Returning(g) => assert p'.workers == p.workers[w := Leaving(g)];
    case Leaving(_) => assert p'.workers == p.workers[w := Waking];
    case Waking => assert p'.workers == p.workers[w := Looking];
  }

  /** Where a settled task goes. */
  lemma {:induction false} WorkerSettles(p: Pipeline, w: nat, score: Score, ok: bool)
    requires w < |p.workers| && WorkerCanMove(p, w)
    ensures var now, p' := p.workers[w], WorkerStep(p, w, score, ok);
            && p'.bus == (if now.Working? && !ok then [now.task] + p.bus else p.bus)
            && p'.acked == (if now.Working? && ok then p.acked + multiset{now.task} else p.acked)
  {
    hide Pop, Finished;
  }

  /** The signals a worker's step raises and takes. */
  lemma {:induction false} WorkerSignalsAre(p: Pipeline, w: nat, score: Score, ok: bool)
    requires w < |p.workers| && WorkerCanMove(p, w)
    ensures var now, p' := p.workers[w], WorkerStep(p, w, score, ok);
            && p'.taskSignal == (p.taskSignal || now.Returning?) && p'.space == (p.space || now.Freeing?)
            && p'.wake == (now.Waking? || (p.wake && !now.AwaitingWork?))
  {
    hide Pop, Finished;
  }

  /** The stages a worker goes through, and the scheduler calls it makes between them. */
  lemma {:induction false} WorkerStageIs(p: Pipeline, w: nat, score: Score, ok: bool)
    requires w < |p.workers| && WorkerCanMove(p, w)
    ensures var now, p' := p.workers[w], WorkerStep(p, w, score, ok);
            && |p'.workers| == |p.workers|
            && p'.workers[w] == (match now
               case Looking => if Pop(p.sched, score).Popped? then Freeing(Pop(p.sched, score).task) else AwaitingWork
               case AwaitingWork => Looking
               case Freeing(t) => Working(t)
               case Working(t) => if ok then Leaving(t.group) else Returning(t.group)
               case Returning(g) => Leaving(g)
               case Leaving(_) => Waking
               case Waking => Looking)
            && p'.sched == (if now.Looking? && Pop(p.sched, score).Popped? then Pop(p.sched, score).next
               else if now.Leaving? then Finished(p.sched, now.group) else p.sched)
  {
    hide Pop, Finished;
  }

  /** How a worker's step changes the copies of a task. */
  lemma {:induction false} WorkerStepCopies(p: Pipeline, w: nat, score: Score, ok: bool, t: Task)
    requires w < |p.workers| && WorkerCanMove(p, w)
    ensures var p' := WorkerStep(p, w, score, ok);
            && |p'.workers| == |p.workers|
            && Copies(p', t) + multiset(p.bus)[t] + Items(p.sched)[t] + p.acked[t]
                 + (if Holds(p.workers[w], t) then 1 else 0)
            == Copies(p, t) + multiset(p'.bus)[t] + Items(p'.sched)[t] + p'.acked[t]
                + (if Holds(p'.workers[w], t) then 1 else 0)
  {
    hide Items, InWork, Holds, WorkerStep, InHand, InFill;
    WorkerStepIs(p, w, score, ok);
    InWorkUpdate(p.workers, w, WorkerStep(p, w, score, ok).workers[w], t);
  }

  lemma {:induction false} PopMovesOne(s: State, score: Score)
    requires Valid(s) && Pop(s, score).Popped?
    ensures Valid(Pop(s, score).next) && Items(s) == Items(Pop(s, score).next) + multiset{Pop(s, score).task}
  {
    PopValid(s, score);
    hide *;
  }

  lemma {:induction false} WorkerStepConserves(p: Pipeline, w: nat, score: Score, ok: bool, t: Task)
    requires Valid(p.sched) && w < |p.workers| && WorkerCanMove(p, w)
    ensures Copies(WorkerStep(p, w, score, ok), t) == Copies(p, t)
  {
    hide Valid, Items, Pop, Copies, Finished, WorkerStep, WorkerCanMove;
    WorkerStepCopies(p, w, score, ok, t);
    WorkerStepIs(p, w, score, ok);
    WorkerSettles(p, w, score, ok);
    WorkerStageIs(p, w, score, ok);
    var now := p.workers[w];
    if now.Looking? && Pop(p.sched, score).Popped? {
      PopMovesOne(p.sched, score);
    } else if now.Leaving? {
      FinishedValid(p.sched, now.group);
    } else if now.Working? && !ok {
      assert multiset([now.task] + p.bus) == multiset{now.task} + multiset(p.bus);
    }
  }

  lemma {:induction false} StepConserves(p: Pipeline, a: Action, t: Task)
    requires Valid(p.sched) && Enabled(p, a) && Copies(p, t) == p.submitted[t]
    ensures Copies(Apply(p, a), t) == Apply(p, a).submitted[t]
  {
    StepSubmitted(p, a);
    hide Valid, Items, InWork, ConsumerStep, FillerStep, WorkerStep;
    match a
    case ConsumerMoves => ConsumerStepConserves(p, t);
    case FillerMoves => FillerStepConserves(p, t);
    case WorkerMoves(w, score, ok) => WorkerStepConserves(p, w, score, ok, t);
    case _ =>
  }

  lemma {:induction false} StepSubmitted(p: Pipeline, a: Action)
    requires Enabled(p, a)
    ensures Apply(p, a).submitted == p.submitted + if a.Submit? then multiset{a.task} else multiset{}
  {
    hide Pop, Enqueue, Finished;
  }

  lemma {:induction false} PopCountsOne(s: State, score: Score, g: string)
    requires Valid(s) && Pop(s, score).Popped?
    ensures Inflight(Pop(s, score).next, g) == Inflight(s, g) + if Pop(s, score).task.group == g then 1 else 0
  {
    PopValid(s, score);
    hide *;
  }

  lemma {:induction false} FinishedCountsOne(s: State, g: string, h: string)
    requires Valid(s)
    ensures Inflight(Finished(s, h), g) == if g == h && Inflight(s, h) > 0 then Inflight(s, h) - 1 else Inflight(s, g)
  {
    FinishedValid(s, h);
    hide *;
  }

  lemma {:induction false} WorkerStepCounts(p: Pipeline, w: nat, score: Score, ok: bool, g: string)
    requires Valid(p.sched) && Inflight(p.sched, g) == Occupying(p.workers, g) && w < |p.workers| && WorkerCanMove(p, w)
    ensures Inflight(WorkerStep(p, w, score, ok).sched, g) == Occupying(WorkerStep(p, w, score, ok).workers, g)
  {
    hide Valid, Occupying, Pop, Finished, Inflight, WorkerStep, WorkerCanMove;
    WorkerStepIs(p, w, score, ok);
    WorkerStageIs(p, w, score, ok);
    var now := p.workers[w];
    OccupyingUpdate(p.workers, w, WorkerStep(p, w, score, ok).workers[w], g);
    if now.Looking? && Pop(p.sched, score).Popped? {
      PopCountsOne(p.sched, score, g);
    } else if now.Leaving? {
      FinishedCountsOne(p.sched, g, now.group);
      if g == now.group {
        SomeoneOccupies(p.workers, w, g);
      }
    }
  }

  lemma {:induction false} SomeoneOccupies(workers: seq<Worker>, w: nat, g: string)
    requires w < |workers| && Occupies(workers[w], g)
    ensures Occupying(workers, g) > 0
  {
    CountSome(workers, w, v => Occupies(v, g));
  }

  lemma {:induction false} StepCounts(p: Pipeline, a: Action, g: string)
    requires Valid(p.sched) && Inflight(p.sched, g) == Occupying(p.workers, g) && Enabled(p, a)
    ensures Inflight(Apply(p, a).sched, g) == Occupying(Apply(p, a).workers, g)
  {
    hide Valid, Occupying, WorkerStep, Enqueue;
    if a.WorkerMoves? {
      hide Inflight;
      WorkerStepCounts(p, a.w, a.score, a.ok, g);
    }
    EnqueueKeepsInflight(p.sched, if p.filler.Trying? then p.filler.task else Task("", ""));
  }

  lemma {:induction false} EnqueueKeepsInflight(s: State, t: Task)
    ensures Enqueue(s, t).inflight == s.inflight
  {
  }

  // ---------------------------------------------------------------- no lost wake-up

  /** A worker's step keeps a sleeping consumer's wake-up on its way. */
  lemma {:induction false} WorkerKeepsConsumerAwake(p: Pipeline, w: nat, score: Score, ok: bool)
    requires ConsumerWillWake(p) && w < |p.workers| && WorkerCanMove(p, w)
    ensures ConsumerWillWake(WorkerStep(p, w, score, ok))
  {
    hide Pop, Finished, WorkerStep, WorkerCanMove;
    WorkerStepIs(p, w, score, ok);
    WorkerSettles(p, w, score, ok);
    WorkerSignalsAre(p, w, score, ok);
    WorkerStageIs(p, w, score, ok);
    var p' := WorkerStep(p, w, score, ok);
    assert p.workers[w].Working? && !ok ==> p'.workers[w].Returning?;
    if v :| 0 <= v < |p.workers| && p.workers[v].Returning? {
      assert v != w ==> p'.workers[v].Returning?;
    }
  }

  /** A worker's step keeps a sleeping filler's wake-up on its way. */
  lemma {:induction false} WorkerKeepsFillerAwake(p: Pipeline, w: nat, score: Score, ok: bool)
    requires FillerWillWake(p) && w < |p.workers| && WorkerCanMove(p, w)
    ensures FillerWillWake(WorkerStep(p, w, score, ok))
  {
    hide Pop, Finished, WorkerStep, WorkerCanMove;
    WorkerStepIs(p, w, score, ok);
    WorkerSettles(p, w, score, ok);
    WorkerSignalsAre(p, w, score, ok);
    WorkerStageIs(p, w, score, ok);
    var p' := WorkerStep(p, w, score, ok);
    if p.workers[w].Leaving? {
      FinishedOnlyCounts(p.sched, p.workers[w].group);
    }
    assert p.workers[w].Looking? && Pop(p.sched, score).Popped? ==> p'.workers[w].Freeing?;
    if v :| 0 <= v < |p.workers| && p.workers[v].Freeing? {
      assert v != w ==> p'.workers[v].Freeing?;
    }
  }

  lemma {:induction false} FinishedOnlyCounts(s: State, g: string)
    ensures Finished(s, g).totalPending == s.totalPending && Finished(s, g).maxBuffered == s.maxBuffered
  {
  }

  /** Whatever a worker does, either it is still up afterwards or it just found nothing eligible. */
  lemma {:induction false} WorkerKeepsWorkersAwake(p: Pipeline, w: nat, score: Score, ok: bool)
    requires Valid(p.sched) && w < |p.workers| && WorkerCanMove(p, w)
    ensures WorkersWillWake(WorkerStep(p, w, score, ok))
  {
    hide Valid, Pop, Finished, WorkerStep, WorkerCanMove, Eligible, FirstBest;
    WorkerStepIs(p, w, score, ok);
    WorkerStageIs(p, w, score, ok);
    WorkerSignalsAre(p, w, score, ok);
    PopMeaning(p.sched, score);
    var p' := WorkerStep(p, w, score, ok);
    assert (p.workers[w].Looking? && Pop(p.sched, score).Nothing?) || !p'.workers[w].AwaitingWork?;
  }

  lemma {:induction false} FillerKeepsConsumerAwake(p: Pipeline)
    requires ConsumerWillWake(p) && FillerCanMove(p)
    ensures ConsumerWillWake(FillerStep(p))
  {
    hide Enqueue;
  }

  lemma {:induction false} FillerKeepsFillerAwake(p: Pipeline)
    requires FillerWillWake(p) && FillerCanMove(p)
    ensures FillerWillWake(FillerStep(p))
  {
    hide Enqueue;
  }

  lemma {:induction false} FillerKeepsWorkersAwake(p: Pipeline)
    requires WorkersWillWake(p) && FillerCanMove(p)
    ensures WorkersWillWake(FillerStep(p))
  {
    hide Enqueue, Eligible;
  }

  lemma {:induction false} OtherStepKeepsAwake(p: Pipeline, a: Action)
    requires ConsumerWillWake(p) && FillerWillWake(p) && WorkersWillWake(p) && Enabled(p, a)
    requires !a.WorkerMoves? && !a.FillerMoves?
    ensures ConsumerWillWake(Apply(p, a)) && FillerWillWake(Apply(p, a)) && WorkersWillWake(Apply(p, a))
  {
    hide Eligible, WorkerStep, FillerStep;
  }

  ghost predicate NobodyForgotten(p: Pipeline) {
    ConsumerWillWake(p) && FillerWillWake(p) && WorkersWillWake(p)
  }

  /** No interleaving loses a wake-up. */
  lemma {:induction false} StepKeepsAwake(p: Pipeline, a: Action)
    requires Valid(p.sched) && NobodyForgotten(p) && Enabled(p, a)
    ensures NobodyForgotten(Apply(p, a))
  {
    hide Valid, ConsumerWillWake, FillerWillWake, WorkersWillWake, ConsumerStep, FillerStep, WorkerStep;
    match a
    case WorkerMoves(w, score, ok) =>
      WorkerKeepsConsumerAwake(p, w, score, ok);
      WorkerKeepsFillerAwake(p, w, score, ok);
      WorkerKeepsWorkersAwake(p, w, score, ok);
    case FillerMoves =>
      FillerKeepsConsumerAwake(p);
      FillerKeepsFillerAwake(p);
      FillerKeepsWorkersAwake(p);
    case _ => OtherStepKeepsAwake(p, a);
  }

  lemma {:induction false} StepKeepsInv(p: Pipeline, a: Action)
    requires Inv(p) && Enabled(p, a)
    ensures Inv(Apply(p, a))
  {
    hide Valid, Copies, NobodyForgotten, Apply, Occupying, Inflight, Enabled;
    var p' := Apply(p, a);
    StepKeepsSchedule(p, a);
    forall t ensures Copies(p', t) == p'.submitted[t] {
      StepConserves(p, a, t);
    }
    forall g ensures Inflight(p'.sched, g) == Occupying(p'.workers, g) {
      StepCounts(p, a, g);
    }
    StepKeepsAwake(p, a);
  }

  // ---------------------------------------------------------------- whole runs

  lemma {:induction false} StartInv(workers: nat, maxBuffered: int, cap: int)
    ensures Inv(Start(workers, maxBuffered, cap))
  {
    var p := Start(workers, maxBuffered, cap);
    FreshValid(maxBuffered, cap);
    hide Valid, Backlog;
    forall t ensures InWork(p.workers, t) == 0 {
      NoneInWork(p.workers, t);
    }
    forall g ensures Occupying(p.workers, g) == 0 {
      NoneOccupying(p.workers, g);
    }
  }

  lemma {:induction false} NoneInWork(workers: seq<Worker>, t: Task)
    requires forall w :: 0 <= w < |workers| ==> workers[w].Looking? || workers[w].AwaitingWork?
    ensures InWork(workers, t) == 0
  {
    CountNone(workers, v => Holds(v, t));
  }

  lemma {:induction false} NoneOccupying(workers: seq<Worker>, g: string)
    requires forall w :: 0 <= w < |workers| ==> workers[w].Looking? || workers[w].AwaitingWork?
    ensures Occupying(workers, g) == 0
  {
    CountNone(workers, v => Occupies(v, g));
  }

  /** In every reachable state of every interleaving the scheduler is valid, each submission is in
      exactly one place, in-flight counts match the workers, and no sleeper is forgotten. */
  lemma {:induction false} RunKeepsInv(p: Pipeline, run: seq<Action>)
    requires Inv(p) && IsRun(p, run)
    ensures Inv(After(p, run)) && |After(p, run).workers| == |p.workers|
    decreases |run|
  {
    hide Inv, Enabled, Apply;
    if run != [] {
      StepKeepsInv(p, run[0]);
      WorkersStay(p, run[0]);
      RunKeepsInv(Apply(p, run[0]), run[1..]);
    }
  }

  lemma {:induction false} AppendStep(p: Pipeline, run: seq<Action>, a: Action)
    requires IsRun(p, run) && Enabled(After(p, run), a)
    ensures IsRun(p, run + [a]) && After(p, run + [a]) == Apply(After(p, run), a)
    decreases |run|
  {
    hide Enabled, Apply;
    if run == [] {
      assert (run + [a])[1..] == [] && (run + [a])[0] == a;
    } else {
      assert (run + [a])[0] == run[0] && (run + [a])[1..] == run[1..] + [a];
      AppendStep(Apply(p, run[0]), run[1..], a);
    }
  }

  lemma {:induction false} WorkersStay(p: Pipeline, a: Action)
    requires Enabled(p, a)
    ensures |Apply(p, a).workers| == |p.workers|
  {
    hide WorkerStep, Enqueue;
    if a.WorkerMoves? {
      WorkerStepIs(p, a.w, a.score, a.ok);
    }
  }

  /** In every state any interleaving reaches from the start: the scheduler is valid, each submission
      is in exactly one place, in-flight counts are the workers on the group, and nobody sleeps
      through work without a wake-up on its way. */
  lemma {:induction false} ReachableStatesAreSound(workers: nat, maxBuffered: int, cap: int, run: seq<Action>, t: Task,
                                                   g: string)
    requires IsRun(Start(workers, maxBuffered, cap), run)
    ensures var p := After(Start(workers, maxBuffered, cap), run);
            && Valid(p.sched) && Copies(p, t) == p.submitted[t]
            && Inflight(p.sched, g) == Occupying(p.workers, g) && NobodyForgotten(p)
  {
    StartInv(workers, maxBuffered, cap);
    RunKeepsInv(Start(workers, maxBuffered, cap), run);
    hide Start, After, IsRun, Valid, Copies, Inflight, Occupying, NobodyForgotten;
  }

  // ---------------------------------------------------------------- coming to rest

  /** Nothing can happen any more without a new submission. */
  ghost predicate AtRest(p: Pipeline) {
    forall a :: Enabled(p, a) ==> a.Submit?
  }

  lemma {:induction false} RestMeansWaiting(p: Pipeline)
    requires AtRest(p)
    ensures p.notifying == 0 && (p.consumer.Handing? || (p.consumer.AwaitingTask? && !p.taskSignal))
    ensures p.filler.Idle? || (p.filler.AwaitingSpace? && !p.space)
    ensures p.filler.Idle? ==> p.consumer.AwaitingTask?
    ensures forall w :: 0 <= w < |p.workers| ==> p.workers[w].AwaitingWork?
    ensures p.workers != [] ==> !p.wake
  {
    assert !Enabled(p, SubmitNotify) && !Enabled(p, ConsumerMoves) && !Enabled(p, HandOver) && !Enabled(p, FillerMoves);
    forall w | 0 <= w < |p.workers| ensures p.workers[w].AwaitingWork? {
      WorkerAtRest(p, w);
    }
    if p.workers != [] {
      WorkerAtRest(p, 0);
    }
  }

  lemma {:induction false} WorkerAtRest(p: Pipeline, w: nat)
    requires AtRest(p) && w < |p.workers|
    ensures p.workers[w].AwaitingWork? && !p.wake
  {
    assert !Enabled(p, WorkerMoves(w, _ => 0.0, true));
  }

  /** With nothing in flight and nothing eligible, the scheduler is empty. */
  lemma {:induction false} NothingEligibleIsEmpty(s: State)
    requires Valid(s) && forall g :: Inflight(s, g) == 0 && !Eligible(s, g)
    ensures s.order == [] && Items(s) == multiset{} && s.totalPending == 0 < s.maxBuffered
  {
    hide Inflight, InflightValid, CursorValid;
    if s.order != [] {
      IdleQueueIsEligible(s, s.order[0]);
    }
  }

  lemma {:induction false} IdleQueueIsEligible(s: State, g: string)
    requires Valid(s) && g in s.order && Inflight(s, g) == 0
    ensures Eligible(s, g)
  {
    hide Items, InflightValid;
  }

  /** The pipeline never comes to rest with work left: when no step is possible, every submitted
      task has been acknowledged, and the bus, the hands, the queues and the workers are empty. */
  lemma {:induction false} RestMeansAllAcknowledged(p: Pipeline)
    requires Inv(p) && |p.workers| > 0 && AtRest(p)
    ensures p.acked == p.submitted
    ensures p.bus == [] && p.consumer == AwaitingTask && p.filler == Idle && p.sched.order == []
              && p.sched.totalPending == 0
  {
    RestMeansWaiting(p);
    hide Valid, AtRest, Eligible, Inflight;
    assert p.workers[0].AwaitingWork?;
    forall g ensures Inflight(p.sched, g) == 0 && !Eligible(p.sched, g) {
      NoneOccupying(p.workers, g);
    }
    NothingEligibleIsEmpty(p.sched);
    hide Items, Occupying;
    forall t ensures p.acked[t] == p.submitted[t] {
      NoneInWork(p.workers, t);
      assert Copies(p, t) == p.submitted[t];
    }
  }

  // ---------------------------------------------------------------- getting there

  function ConsumerWork(p: Pipeline): nat {
    match p.consumer
    case Polling => if p.bus == [] then 2 else 0
    case Rechecking => 1
    case AwaitingTask => 0
    case Handing(_) => 16
  }

  function FillerWork(f: Filler): nat {
    match f
    case Idle => 0
    case Trying(_) => 13
    case AwaitingSpace(_) => 12
    case Announcing => 3
  }

  function StageWork(w: Worker): nat {
    match w
    case Looking => 1
    case AwaitingWork => 0
    case Freeing(_) => 9
    case Working(_) => 6
    case Returning(_) => 9
    case Leaving(_) => 5
    case Waking => 4
  }

  function WorkersWork(workers: seq<Worker>): nat {
    if workers == [] then 0 else WorkersWork(workers[..|workers| - 1]) + StageWork(workers[|workers| - 1])
  }

  /** An upper bound on the steps the pipeline can still take without a submission or a failed
      dispatch. */
  function WorkLeft(p: Pipeline): int {
    17 * |p.bus| + 3 * One(p.taskSignal) + 4 * p.notifying + ConsumerWork(p) + FillerWork(p.filler)
    + 9 * p.sched.totalPending + 2 * One(p.wake) + 2 * One(p.space) + WorkersWork(p.workers)
  }

  /** A step that neither brings in a task nor sends one back. */
  predicate Forward(p: Pipeline, a: Action)
    requires Enabled(p, a)
  {
    !a.Submit? && !(a.WorkerMoves? && p.workers[a.w].Working? && !a.ok)
  }

  lemma {:induction false} WorkersWorkUpdate(workers: seq<Worker>, w: nat, x: Worker)
    requires w < |workers|
    ensures WorkersWork(workers[w := x]) == WorkersWork(workers) - StageWork(workers[w]) + StageWork(x)
  {
    hide StageWork;
    var n := |workers| - 1;
    if w == n {
      assert workers[w := x][..n] == workers[..n];
    } else {
      assert workers[w := x][..n] == workers[..n][w := x];
      WorkersWorkUpdate(workers[..n], w, x);
    }
  }

  lemma {:induction false} PopTakesOne(s: State, score: Score)
    requires Pop(s, score).Popped?
    ensures Pop(s, score).next.totalPending == s.totalPending - 1
  {
    hide BestOffset, Position;
  }

  lemma {:induction false} WorkerStepSpends(p: Pipeline, w: nat, score: Score, ok: bool)
    requires w < |p.workers| && WorkerCanMove(p, w) && !(p.workers[w].Working? && !ok)
    ensures WorkLeft(WorkerStep(p, w, score, ok)) < WorkLeft(p)
  {
    hide Pop, Finished, WorkerStep, WorkersWork, FillerWork;
    WorkerStepIs(p, w, score, ok);
    WorkerSettles(p, w, score, ok);
    WorkerSignalsAre(p, w, score, ok);
    WorkerStageIs(p, w, score, ok);
    WorkersWorkUpdate(p.workers, w, WorkerStep(p, w, score, ok).workers[w]);
    if p.workers[w].Looking? && Pop(p.sched, score).Popped? {
      PopTakesOne(p.sched, score);
    } else if p.workers[w].Leaving? {
      FinishedOnlyCounts(p.sched, p.workers[w].group);
    }
  }

  lemma {:induction false} FillerStepSpends(p: Pipeline)
    requires FillerCanMove(p)
    ensures WorkLeft(FillerStep(p)) < WorkLeft(p)
  {
    hide WorkersWork;
  }

  lemma {:induction false} ForwardStepSpends(p: Pipeline, a: Action)
    requires Enabled(p, a) && Forward(p, a)
    ensures WorkLeft(Apply(p, a)) < WorkLeft(p)
  {
    hide WorkersWork, WorkerStep, FillerStep;
    match a
    case WorkerMoves(w, score, ok) =>
      hide WorkLeft;
      WorkerStepSpends(p, w, score, ok);
    case FillerMoves =>
      hide WorkLeft;
      FillerStepSpends(p);
    case _ =>
  }

  ghost predicate IsForwardRun(p: Pipeline, run: seq<Action>)
    decreases |run|
  {
    run == [] || (Enabled(p, run[0]) && Forward(p, run[0]) && IsForwardRun(Apply(p, run[0]), run[1..]))
  }

  lemma {:induction false} WorkLeftIsNat(p: Pipeline)
    requires Valid(p.sched)
    ensures WorkLeft(p) >= 0
  {
    hide QueuesValid, InflightValid, CursorValid;
  }

  /** Submissions and failed dispatches of a run: the steps that bring work in or send it back. */
  function Disturbances(p: Pipeline, run: seq<Action>): nat
    requires IsRun(p, run)
    decreases |run|
  {
    if run == [] then 0
    else (if Forward(p, run[0]) then 0 else 1) + Disturbances(Apply(p, run[0]), run[1..])
  }

  /** A disturbance adds no more than one task's way through the pipeline. */
  lemma {:induction false} DisturbanceCosts(p: Pipeline, a: Action)
    requires Enabled(p, a) && !Forward(p, a)
    ensures WorkLeft(Apply(p, a)) <= WorkLeft(p) + 21
  {
    hide WorkersWork, FillerWork, Pop, Finished;
    if a.WorkerMoves? {
      WorkersWorkUpdate(p.workers, a.w, Apply(p, a).workers[a.w]);
    }
  }

  /** The pipeline runs dry: any run, with submissions, failed dispatches and every interleaving, is
      no longer than the work left at its start plus 22 for each submission or failed dispatch in
      it; and where no step but a submission remains, all that was submitted has been acknowledged. */
  lemma {:induction false} PipelineDrains(p: Pipeline, run: seq<Action>)
    requires Inv(p) && |p.workers| > 0 && IsRun(p, run)
    ensures |run| <= WorkLeft(p) + 22 * Disturbances(p, run)
    ensures AtRest(After(p, run)) ==> After(p, run).acked == After(p, run).submitted
    decreases |run|
  {
    hide Valid, Conserved, CountsAgree, NobodyForgotten, Apply, Enabled, Forward, WorkLeft, AtRest;
    if run == [] {
      WorkLeftIsNat(p);
      if AtRest(p) {
        RestMeansAllAcknowledged(p);
      }
    } else {
      StepKeepsInv(p, run[0]);
      WorkersStay(p, run[0]);
      if Forward(p, run[0]) {
        ForwardStepSpends(p, run[0]);
      } else {
        DisturbanceCosts(p, run[0]);
      }
      PipelineDrains(Apply(p, run[0]), run[1..]);
    }
  }

  /** Left alone, a new pipeline does next to nothing: each worker looks once and the consumer twice. */
  lemma {:induction false} StartIsQuiet(workers: nat, maxBuffered: int, cap: int, run: seq<Action>)
    requires IsRun(Start(workers, maxBuffered, cap), run) && workers > 0
    ensures |run| <= workers + 2 + 22 * Disturbances(Start(workers, maxBuffered, cap), run)
  {
    var start := Start(workers, maxBuffered, cap);
    StartInv(workers, maxBuffered, cap);
    EachLooksOnce(start.workers);
    assert WorkLeft(start) == workers + 2 by {
      hide WorkersWork, IsRun;
    }
    hide Start, Inv, IsRun, Disturbances, WorkLeft;
    PipelineDrains(start, run);
  }

  lemma {:induction false} EachLooksOnce(workers: seq<Worker>)
    requires forall w :: 0 <= w < |workers| ==> workers[w].Looking?
    ensures WorkersWork(workers) == |workers|
  {
    if workers != [] {
      EachLooksOnce(workers[..|workers| - 1]);
    }
  }

  lemma {:induction false} NothingSubmitted(p: Pipeline, a: Action)
    requires Enabled(p, a) && Forward(p, a)
    ensures Apply(p, a).submitted == p.submitted
  {
    hide Apply;
    StepSubmitted(p, a);
  }

  /** From every reachable state the pipeline can be run dry, by letting every dispatch succeed. */
  lemma {:induction false} PipelineCanDrain(p: Pipeline) returns (run: seq<Action>)
    requires Inv(p) && |p.workers| > 0
    ensures IsForwardRun(p, run) && IsRun(p, run) && After(p, run).acked == After(p, run).submitted == p.submitted
    decreases WorkLeft(p)
  {
    hide Valid, Conserved, CountsAgree, NobodyForgotten, Apply, Enabled, Forward, WorkLeft, AtRest;
    if AtRest(p) {
      RestMeansAllAcknowledged(p);
      run := [];
    } else {
      var a := SomeForwardStep(p);
      StepKeepsInv(p, a);
      WorkersStay(p, a);
      ForwardStepSpends(p, a);
      NothingSubmitted(p, a);
      WorkLeftIsNat(Apply(p, a));
      var rest := PipelineCanDrain(Apply(p, a));
      run := [a] + rest;
      assert run[0] == a && run[1..] == rest;
    }
  }

  lemma {:induction false} SomeForwardStep(p: Pipeline) returns (a: Action)
    requires !AtRest(p)
    ensures Enabled(p, a) && Forward(p, a)
  {
    var b :| Enabled(p, b) && !b.Submit?;
    a := if b.WorkerMoves? then b.(ok := true) else b;
  }
}
