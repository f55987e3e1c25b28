/** Order from end to end (go-core/internal/kernel/orchestrator.go:326-427, 837-859, 901-932;
    go-core/internal/delivery/message_bus.go:198-205, 245-280): the tasks of a group are worked on in the
    order they were submitted exactly when two workers cannot have one of them each. */
module SubmissionOrder {
  import opened Basics
  import opened SubmissionScheduler
  import opened SubmissionPipeline

  function Only(t: Task, g: string): seq<Task> {
    if t.group == g then [t] else []
  }

  /** The tasks of group `g` in a list, in order. */
  function OfGroup(tasks: seq<Task>, g: string): seq<Task> {
    if tasks == [] then [] else Only(tasks[0], g) + OfGroup(tasks[1..], g)
  }

  /** The tasks of group `g` that workers have taken but not started. */
  function TakenOf(workers: seq<Worker>, g: string): seq<Task> {
    if workers == [] then []
    else
      var last := workers[|workers| - 1];
      TakenOf(workers[..|workers| - 1], g) + if last.Freeing? then Only(last.task, g) else []
  }

  function InFill(f: Filler, g: string): seq<Task> {
    if f.Trying? || f.AwaitingSpace? then Only(f.task, g) else []
  }

  function InHand(c: Consumer, g: string): seq<Task> {
    if c.Handing? then Only(c.task, g) else []
  }

  /** The tasks of group `g` that no worker has, those that a worker gets first in front. */
  function Behind(p: Pipeline, g: string): seq<Task> {
    Queue(p.sched, g) + (InFill(p.filler, g) + (InHand(p.consumer, g) + OfGroup(p.bus, g)))
  }

  /** The tasks of group `g` that have not started, those that start first in front. */
  function Line(p: Pipeline, g: string): seq<Task> {
    TakenOf(p.workers, g) + Behind(p, g)
  }

  /** The task of group `g` that this step starts. */
  function Starts(p: Pipeline, a: Action, g: string): seq<Task> {
    if a.WorkerMoves? && a.w < |p.workers| && p.workers[a.w].Freeing? then Only(p.workers[a.w].task, g) else []
  }

  function Submits(a: Action, g: string): seq<Task> {
    if a.Submit? then Only(a.task, g) else []
  }

  /** The step is not a failed dispatch of a task of group `g`. */
  predicate NoFailure(p: Pipeline, a: Action, g: string) {
    !(a.WorkerMoves? && a.w < |p.workers| && Fails(p.workers[a.w], a.ok, g))
  }

  predicate Fails(w: Worker, ok: bool, g: string) {
    w.Working? && w.task.group == g && !ok
  }

  /** No two workers can have a task of one group each: a group may have one task in flight, or
      there is one worker at most. */
  predicate OneAtATime(p: Pipeline) {
    p.sched.cap == 1 || |p.workers| <= 1
  }

  // ---------------------------------------------------------------- a group in flight once

  lemma {:induction false} NobodyHasTaken(workers: seq<Worker>, g: string)
    requires Occupying(workers, g) == 0
    ensures TakenOf(workers, g) == []
  {
    if workers != [] {
      NobodyHasTaken(workers[..|workers| - 1], g);
    }
  }

  /** When one worker alone is on the group, what it has taken is what is taken. */
  lemma {:induction false} OneHasTaken(workers: seq<Worker>, w: nat, g: string)
    requires w < |workers| && Occupies(workers[w], g) && Occupying(workers, g) == 1
    ensures TakenOf(workers, g) == if workers[w].Freeing? then [workers[w].task] else []
  {
    var n := |workers| - 1;
    if w == n {
      NobodyHasTaken(workers[..n], g);
    } else {
      SomeoneOccupies(workers[..n], w, g);
      OneHasTaken(workers[..n], w, g);
    }
  }

  lemma {:induction false} OthersKeepTaken(workers: seq<Worker>, w: nat, x: Worker, g: string)
    requires w < |workers|
    requires !(workers[w].Freeing? && workers[w].task.group == g) && !(x.Freeing? && x.task.group == g)
    ensures TakenOf(workers[w := x], g) == TakenOf(workers, g)
  {
    var n := |workers| - 1;
    if w == n {
      assert workers[w := x][..n] == workers[..n];
    } else {
      assert workers[w := x][..n] == workers[..n][w := x];
      OthersKeepTaken(workers[..n], w, x, g);
    }
  }

  lemma {:induction false} AtMostAllOccupy(workers: seq<Worker>, g: string)
    ensures Occupying(workers, g) <= |workers|
  {
    CountAtMost(workers, v => Occupies(v, g));
  }

  /** Then at most one worker is on any group. */
  lemma {:induction false} AtMostOne(p: Pipeline, g: string)
    requires Inv(p) && OneAtATime(p)
    ensures Occupying(p.workers, g) <= 1
  {
    hide Valid, Inv, Inflight, Occupying;
    InvValid(p);
    InflightIsOccupying(p, g);
    InflightAtMostCap(p.sched, g);
    AtMostAllOccupy(p.workers, g);
  }

  // ---------------------------------------------------------------- one step

  lemma {:induction false} EnqueueQueue(s: State, t: Task, g: string)
    ensures Queue(Enqueue(s, t), g) == Queue(s, g) + Only(t, g)
  {
  }

  lemma {:induction false} OfGroupAppend(tasks: seq<Task>, t: Task, g: string)
    ensures OfGroup(tasks + [t], g) == OfGroup(tasks, g) + Only(t, g)
  {
    hide Only;
    if tasks == [] {
      assert (tasks + [t])[1..] == [];
    } else {
      assert (tasks + [t])[0] == tasks[0] && (tasks + [t])[1..] == tasks[1..] + [t];
      OfGroupAppend(tasks[1..], t, g);
      assert Only(tasks[0], g) + (OfGroup(tasks[1..], g) + Only(t, g)) ==
               (Only(tasks[0], g) + OfGroup(tasks[1..], g)) + Only(t, g);
    }
  }

  lemma {:induction false} SubmitLinesUp(p: Pipeline, t: Task, g: string)
    ensures Behind(Apply(p, Submit(t)), g) == Behind(p, g) + Only(t, g)
  {
    OfGroupAppend(p.bus, t, g);
    hide OfGroup, Queue, Only, InFill, InHand;
    JoinBack(Queue(p.sched, g), InFill(p.filler, g), InHand(p.consumer, g), OfGroup(p.bus, g), Only(t, g));
  }

  lemma {:induction false} JoinBack(q: seq<Task>, f: seq<Task>, h: seq<Task>, b: seq<Task>, t: seq<Task>)
    ensures q + (f + (h + (b + t))) == (q + (f + (h + b))) + t
  {
    assert h + (b + t) == (h + b) + t;
    assert f + ((h + b) + t) == (f + (h + b)) + t;
  }

  lemma {:induction false} ConsumerKeepsBehind(p: Pipeline, g: string)
    requires ConsumerCanMove(p)
    ensures ConsumerStep(p).workers == p.workers && ConsumerStep(p).sched == p.sched
              && ConsumerStep(p).filler == p.filler
    ensures InHand(ConsumerStep(p).consumer, g) + OfGroup(ConsumerStep(p).bus, g) ==
              InHand(p.consumer, g) + OfGroup(p.bus, g)
  {
    hide Only;
  }

  lemma {:induction false} HandOverKeepsBehind(p: Pipeline, g: string)
    requires p.consumer.Handing? && p.filler.Idle?
    ensures Behind(Apply(p, HandOver), g) == Behind(p, g)
  {
    hide Only, Queue, OfGroup;
  }

  lemma {:induction false} FillerKeepsBehind(p: Pipeline, g: string)
    requires FillerCanMove(p)
    ensures FillerStep(p).workers == p.workers && FillerStep(p).consumer == p.consumer && FillerStep(p).bus == p.bus
    ensures Queue(FillerStep(p).sched, g) + InFill(FillerStep(p).filler, g) == Queue(p.sched, g) + InFill(p.filler, g)
  {
    hide Only, Queue, Enqueue;
    if p.filler.Trying? {
      EnqueueQueue(p.sched, p.filler.task, g);
    }
  }

  lemma {:induction false} Regroup(a: seq<Task>, b: seq<Task>, c: seq<Task>)
    ensures a + (b + c) == (a + b) + c
  {
  }

  /** A step that no worker makes only moves tasks up the line behind the workers. */
  lemma {:induction false} OtherStepMovesUp(p: Pipeline, a: Action, g: string)
    requires Enabled(p, a) && !a.WorkerMoves?
    ensures Apply(p, a).workers == p.workers && Behind(Apply(p, a), g) == Behind(p, g) + Submits(a, g)
  {
    hide Enqueue, Queue, Only, OfGroup, InFill, InHand, ConsumerStep, FillerStep;
    match a
    case Submit(t) => SubmitLinesUp(p, t, g);
    case SubmitNotify =>
    case ConsumerMoves => ConsumerKeepsBehind(p, g);
    case HandOver =>
      HandOverKeepsBehind(p, g);
      hide Behind;
    case FillerMoves =>
      FillerKeepsBehind(p, g);
      var rest := InHand(p.consumer, g) + OfGroup(p.bus, g);
      Regroup(Queue(p.sched, g), InFill(p.filler, g), rest);
      Regroup(Queue(FillerStep(p).sched, g), InFill(FillerStep(p).filler, g), rest);
  }

  lemma {:induction false} OtherInFront(t: Task, bus: seq<Task>, g: string)
    requires t.group != g
    ensures OfGroup([t] + bus, g) == OfGroup(bus, g)
  {
    assert ([t] + bus)[1..] == bus;
  }

  /** What a worker's step leaves alone behind the workers. */
  lemma {:induction false} WorkerLeavesBehind(p: Pipeline, w: nat, score: Score, ok: bool, g: string)
    requires w < |p.workers| && WorkerCanMove(p, w) && !Fails(p.workers[w], ok, g)
    ensures |WorkerStep(p, w, score, ok).workers| == |p.workers|
    ensures WorkerStep(p, w, score, ok).workers == p.workers[w := WorkerStep(p, w, score, ok).workers[w]]
    ensures Queue(p.sched, g) == Queue(WorkerStep(p, w, score, ok).sched, g) ==>
              Behind(WorkerStep(p, w, score, ok), g) == Behind(p, g)
    ensures forall t :: Queue(p.sched, g) == [t] + Queue(WorkerStep(p, w, score, ok).sched, g) ==>
              Behind(p, g) == [t] + Behind(WorkerStep(p, w, score, ok), g)
  {
    hide Queue, OfGroup, InFill, InHand, WorkerStep, WorkerCanMove;
    WorkerStepIs(p, w, score, ok);
    WorkerSettles(p, w, score, ok);
    var p' := WorkerStep(p, w, score, ok);
    if p.workers[w].Working? && !ok {
      OtherInFront(p.workers[w].task, p.bus, g);
    }
    var rest := InFill(p.filler, g) + (InHand(p.consumer, g) + OfGroup(p.bus, g));
    forall t | Queue(p.sched, g) == [t] + Queue(p'.sched, g) ensures Behind(p, g) == [t] + Behind(p', g) {
      Regroup([t], Queue(p'.sched, g), rest);
    }
  }

  /** A worker that finds a task moves it from the front of its queue to the workers. */
  lemma {:induction false} TakeMovesUp(p: Pipeline, w: nat, score: Score, ok: bool, g: string)
    requires Inv(p) && OneAtATime(p) && w < |p.workers| && p.workers[w].Looking?
    ensures Line(WorkerStep(p, w, score, ok), g) == Line(p, g)
  {
    hide WorkerStep, Pop, Inv, Behind, TakenOf;
    InvValid(p);
    WorkerStageIs(p, w, score, ok);
    WorkerLeavesBehind(p, w, score, ok, g);
    var x := WorkerStep(p, w, score, ok).workers[w];
    if Pop(p.sched, score).Popped? {
      var t := Pop(p.sched, score).task;
      PopOfGroup(p.sched, score, g);
      if t.group == g {
        TakenByPop(p, w, score, g);
      } else {
        OthersKeepTaken(p.workers, w, x, g);
      }
    } else {
      OthersKeepTaken(p.workers, w, x, g);
    }
    hide Valid, Queue;
  }

  lemma {:induction false} InvValid(p: Pipeline)
    requires Inv(p)
    ensures Valid(p.sched)
  {
    hide Valid, Conserved, CountsAgree, NobodyForgotten;
  }

  lemma {:induction false} TakenByPop(p: Pipeline, w: nat, score: Score, g: string)
    requires Inv(p) && OneAtATime(p) && w < |p.workers| && p.workers[w].Looking?
    requires Pop(p.sched, score).Popped? && Pop(p.sched, score).task.group == g
    ensures TakenOf(p.workers, g) == []
    ensures TakenOf(p.workers[w := Freeing(Pop(p.sched, score).task)], g) == [Pop(p.sched, score).task]
  {
    hide Pop, Inv, Valid, Inflight, Occupying, TakenOf;
    InvValid(p);
    var x := Freeing(Pop(p.sched, score).task);
    PopOfGroup(p.sched, score, g);
    PopKeepsCap(p.sched, score);
    PopCountsOne(p.sched, score, g);
    InflightIsOccupying(p, g);
    InflightAtMostCap(Pop(p.sched, score).next, g);
    OccupyingUpdate(p.workers, w, x, g);
    AtMostAllOccupy(p.workers[w := x], g);
    NobodyHasTaken(p.workers, g);
    OneHasTaken(p.workers[w := x], w, g);
  }

  lemma {:induction false} PopKeepsCap(s: State, score: Score)
    ensures Pop(s, score).Popped? ==> Pop(s, score).next.cap == s.cap
  {
    hide BestOffset, Position;
  }

  /** A worker that starts its task takes it off the front of the line. */
  lemma {:induction false} StartTakesFirst(p: Pipeline, w: nat, score: Score, ok: bool, g: string)
    requires Inv(p) && OneAtATime(p) && w < |p.workers| && p.workers[w].Freeing?
    ensures Only(p.workers[w].task, g) + Line(WorkerStep(p, w, score, ok), g) == Line(p, g)
  {
    hide WorkerStep, Inv, Behind, TakenOf, Valid, Occupying, Queue;
    var t := p.workers[w].task;
    WorkerStageIs(p, w, score, ok);
    WorkerLeavesBehind(p, w, score, ok, g);
    if t.group == g {
      AtMostOne(p, g);
      SomeoneOccupies(p.workers, w, g);
      OneHasTaken(p.workers, w, g);
      OccupyingUpdate(p.workers, w, Working(t), g);
      OneHasTaken(p.workers[w := Working(t)], w, g);
    } else {
      OthersKeepTaken(p.workers, w, Working(t), g);
    }
  }

  /** Any other step of a worker that fails no task of the group leaves the line as it is. */
  lemma {:induction false} OtherWorkKeepsLine(p: Pipeline, w: nat, score: Score, ok: bool, g: string)
    requires w < |p.workers| && WorkerCanMove(p, w) && !Fails(p.workers[w], ok, g)
    requires !p.workers[w].Looking? && !p.workers[w].Freeing?
    ensures Line(WorkerStep(p, w, score, ok), g) == Line(p, g)
  {
    hide WorkerStep, Behind, TakenOf, Queue, WorkerCanMove, Finished;
    WorkerStageIs(p, w, score, ok);
    WorkerLeavesBehind(p, w, score, ok, g);
    OthersKeepTaken(p.workers, w, WorkerStep(p, w, score, ok).workers[w], g);
    if p.workers[w].Leaving? {
      FinishedKeepsQueue(p.sched, p.workers[w].group, g);
    }
  }

  lemma {:induction false} FinishedKeepsQueue(s: State, h: string, g: string)
    ensures Queue(Finished(s, h), g) == Queue(s, g)
  {
  }

  /** Whatever step is taken, short of a failed dispatch of the group's: what it starts, and the line it leaves, are
      the line it found and what it submits. */
  lemma {:induction false} StepKeepsLine(p: Pipeline, a: Action, g: string)
    requires Inv(p) && OneAtATime(p) && Enabled(p, a) && NoFailure(p, a, g)
    ensures Starts(p, a, g) + Line(Apply(p, a), g) == Line(p, g) + Submits(a, g)
  {
    hide Inv, WorkerStep, ConsumerStep, FillerStep, Only, Line;
    if a.WorkerMoves? {
      if p.workers[a.w].Looking? {
        TakeMovesUp(p, a.w, a.score, a.ok, g);
      } else if p.workers[a.w].Freeing? {
        StartTakesFirst(p, a.w, a.score, a.ok, g);
      } else {
        OtherWorkKeepsLine(p, a.w, a.score, a.ok, g);
      }
    } else {
      OtherStepKeepsLine(p, a, g);
    }
  }

  lemma {:induction false} OtherStepKeepsLine(p: Pipeline, a: Action, g: string)
    requires Enabled(p, a) && !a.WorkerMoves?
    ensures Line(Apply(p, a), g) == Line(p, g) + Submits(a, g)
  {
    hide Apply, Enabled, Behind, TakenOf, Submits;
    OtherStepMovesUp(p, a, g);
    Regroup(TakenOf(p.workers, g), Behind(p, g), Submits(a, g));
  }

  // ---------------------------------------------------------------- whole runs

  /** The tasks of group `g` that a run starts, in order. */
  function Started(p: Pipeline, run: seq<Action>, g: string): seq<Task>
    requires IsRun(p, run)
    decreases |run|
  {
    if run == [] then [] else Starts(p, run[0], g) + Started(Apply(p, run[0]), run[1..], g)
  }

  /** The tasks of group `g` that a run submits, in order. */
  function Submitted(run: seq<Action>, g: string): seq<Task> {
    if run == [] then [] else Submits(run[0], g) + Submitted(run[1..], g)
  }

  /** No dispatch of a task of group `g` fails. */
  ghost predicate NothingFails(p: Pipeline, run: seq<Action>, g: string)
    requires IsRun(p, run)
    decreases |run|
  {
    run == [] || (NoFailure(p, run[0], g) && NothingFails(Apply(p, run[0]), run[1..], g))
  }

  lemma {:induction false} StepKeepsCap(p: Pipeline, a: Action)
    requires Enabled(p, a)
    ensures Apply(p, a).sched.cap == p.sched.cap
  {
    hide WorkerStep, Pop;
    if a.WorkerMoves? {
      WorkerStageIs(p, a.w, a.score, a.ok);
      PopKeepsCap(p.sched, a.score);
    }
  }

  lemma {:induction false} Chain(s1: seq<Task>, l1: seq<Task>, l0: seq<Task>, u1: seq<Task>, s2: seq<Task>,
                                 l2: seq<Task>, u2: seq<Task>)
    requires s1 + l1 == l0 + u1 && s2 + l2 == l1 + u2
    ensures (s1 + s2) + l2 == l0 + (u1 + u2)
  {
    Regroup(s1, s2, l2);
    Regroup(s1, l1, u2);
    Regroup(l0, u1, u2);
  }

  lemma {:induction false} RunKeepsLine(p: Pipeline, run: seq<Action>, g: string)
    requires Inv(p) && OneAtATime(p) && IsRun(p, run) && NothingFails(p, run, g)
    ensures Started(p, run, g) + Line(After(p, run), g) == Line(p, g) + Submitted(run, g)
    decreases |run|
  {
    if run == [] {
      hide Line, Inv;
    } else {
      hide Line, Inv, Apply, Enabled, NoFailure, Starts, Submits;
      var p' := Apply(p, run[0]);
      StepKeepsInv(p, run[0]);
      StepKeepsCap(p, run[0]);
      WorkersStay(p, run[0]);
      StepKeepsLine(p, run[0], g);
      RunKeepsLine(p', run[1..], g);
      Chain(Starts(p, run[0], g), Line(p', g), Line(p, g), Submits(run[0], g),
            Started(p', run[1..], g), Line(After(p', run[1..]), g), Submitted(run[1..], g));
    }
  }

  /** End to end, when no two workers can have a task of one group each, and no dispatch of the
      group's fails: its tasks are started in the order they were submitted, whatever the other
      groups do and however steps interleave, and those not started yet stand in line in that order. */
  lemma {:induction false} GroupsStartInOrder(workers: nat, maxBuffered: int, cap: int, run: seq<Action>, g: string)
    requires OneAtATime(Start(workers, maxBuffered, cap)) && IsRun(Start(workers, maxBuffered, cap), run)
    requires NothingFails(Start(workers, maxBuffered, cap), run, g)
    ensures var start := Start(workers, maxBuffered, cap);
            && Started(start, run, g) + Line(After(start, run), g) == Submitted(run, g)
            && Started(start, run, g) <= Submitted(run, g)
  {
    hide *;
    StartInv(workers, maxBuffered, cap);
    NobodyInLine(workers, maxBuffered, cap, g);
    RunKeepsLine(Start(workers, maxBuffered, cap), run, g);
  }

  lemma {:induction false} NobodyInLine(workers: nat, maxBuffered: int, cap: int, g: string)
    ensures Line(Start(workers, maxBuffered, cap), g) == []
  {
    var start := Start(workers, maxBuffered, cap);
    NoneOccupying(start.workers, g);
    NobodyHasTaken(start.workers, g);
  }

  lemma {:induction false} InflightIsOccupying(p: Pipeline, g: string)
    requires Inv(p)
    ensures Inflight(p.sched, g) == Occupying(p.workers, g)
  {
    hide Valid, Conserved, NobodyForgotten, Inflight, Occupying;
  }

  lemma {:induction false} InflightAtMostCap(s: State, g: string)
    requires Valid(s)
    ensures Inflight(s, g) <= s.cap
  {
    hide Items, QueuesValid;
  }

  lemma {:induction false} PopOfGroup(s: State, score: Score, g: string)
    requires Valid(s) && Pop(s, score).Popped?
    ensures Queue(s, g) == Only(Pop(s, score).task, g) + Queue(Pop(s, score).next, g)
    ensures Valid(Pop(s, score).next)
  {
    PopValid(s, score);
    hide Valid, Pop, Queue;
  }

  // ---------------------------------------------------------------- where the order is lost

  lemma {:induction false} StartedAppend(p: Pipeline, run: seq<Action>, a: Action, g: string)
    requires IsRun(p, run) && Enabled(After(p, run), a)
    ensures IsRun(p, run + [a]) && After(p, run + [a]) == Apply(After(p, run), a)
    ensures Started(p, run + [a], g) == Started(p, run, g) + Starts(After(p, run), a, g)
    ensures Submitted(run + [a], g) == Submitted(run, g) + Submits(a, g)
    ensures NothingFails(p, run + [a], g) <==> NothingFails(p, run, g) && NoFailure(After(p, run), a, g)
    decreases |run|
  {
    hide Enabled, Apply, Starts, Submits, NoFailure;
    AppendStep(p, run, a);
    if run == [] {
      assert (run + [a])[1..] == [] && (run + [a])[0] == a;
    } else {
      assert (run + [a])[0] == run[0] && (run + [a])[1..] == run[1..] + [a];
      StartedAppend(Apply(p, run[0]), run[1..], a, g);
      Regroup(Starts(p, run[0], g), Started(Apply(p, run[0]), run[1..], g),
              Starts(After(Apply(p, run[0]), run[1..]), a, g));
      Regroup(Submits(run[0], g), Submitted(run[1..], g), Submits(a, g));
    }
  }

  /** `run` leads from `start` to `q`, starting `started` and submitting `submitted` of the group's
      tasks; when `calm`, none of them fails. */
  ghost predicate Leads(start: Pipeline, run: seq<Action>, q: Pipeline, g: string, started: seq<Task>,
                        submitted: seq<Task>, calm: bool) {
    && IsRun(start, run) && After(start, run) == q && (calm ==> NothingFails(start, run, g))
    && Started(start, run, g) == started && Submitted(run, g) == submitted
  }

  lemma {:induction false} LeadsOn(start: Pipeline, run: seq<Action>, q: Pipeline, a: Action, g: string,
                                   started: seq<Task>, submitted: seq<Task>, calm: bool)
    returns (run': seq<Action>, q': Pipeline)
    requires Leads(start, run, q, g, started, submitted, calm) && Enabled(q, a) && (calm ==> NoFailure(q, a, g))
    ensures q' == Apply(q, a)
    ensures Leads(start, run', q', g, started + Starts(q, a, g), submitted + Submits(a, g), calm)
  {
    StartedAppend(start, run, a, g);
    run', q' := run + [a], Apply(q, a);
    hide IsRun, After, Enabled, Apply, NothingFails, NoFailure, Started, Submitted, Starts, Submits;
  }

  /** A step that neither starts nor submits a task of the group. */
  lemma {:induction false} LeadsQuietly(start: Pipeline, run: seq<Action>, q: Pipeline, a: Action, g: string,
                                        started: seq<Task>, submitted: seq<Task>, calm: bool)
    returns (run': seq<Action>, q': Pipeline)
    requires Leads(start, run, q, g, started, submitted, calm) && Enabled(q, a) && (calm ==> NoFailure(q, a, g))
    requires !a.Submit? && (a.WorkerMoves? ==> !q.workers[a.w].Freeing?)
    ensures q' == Apply(q, a) && Leads(start, run', q', g, started, submitted, calm)
  {
    assert Starts(q, a, g) == [] && Submits(a, g) == [];
    run', q' := LeadsOn(start, run, q, a, g, started, submitted, calm);
    assert started + [] == started && submitted + [] == submitted;
    hide *;
  }

  lemma {:induction false} LeadsSubmits(start: Pipeline, run: seq<Action>, q: Pipeline, t: Task, submitted: seq<Task>)
    returns (run': seq<Action>, q': Pipeline)
    requires Leads(start, run, q, t.group, [], submitted, true)
    ensures q' == Apply(q, Submit(t)) && Leads(start, run', q', t.group, [], submitted + [t], true)
  {
    hide Leads;
    assert Starts(q, Submit(t), t.group) == [] && Submits(Submit(t), t.group) == [t];
    assert [] + Starts(q, Submit(t), t.group) == [];
    run', q' := LeadsOn(start, run, q, Submit(t), t.group, [], submitted, true);
  }

  lemma {:induction false} LeadsStarts(start: Pipeline, run: seq<Action>, q: Pipeline, w: nat, t: Task,
                                       started: seq<Task>, submitted: seq<Task>, calm: bool)
    returns (run': seq<Action>, q': Pipeline)
    requires Leads(start, run, q, t.group, started, submitted, calm)
    requires w < |q.workers| && q.workers[w] == Freeing(t)
    ensures q' == q.(workers := q.workers[w := Working(t)], space := true)
    ensures Leads(start, run', q', t.group, started + [t], submitted, calm)
  {
    var a := WorkerMoves(w, FLAT, true);
    assert Starts(q, a, t.group) == [t] && Submits(a, t.group) == [];
    assert submitted + [] == submitted;
    run', q' := LeadsOn(start, run, q, a, t.group, started, submitted, calm);
    hide Leads, Starts, Submits, Pop, Finished;
  }

  /** A task at the head of the bus reaches an empty scheduler and a worker takes it. */
  lemma {:induction false} WorkerTakesNext(start: Pipeline, run: seq<Action>, q: Pipeline, w: nat, g: string,
                                           started: seq<Task>, submitted: seq<Task>, calm: bool)
    returns (run': seq<Action>, q': Pipeline)
    requires Leads(start, run, q, g, started, submitted, calm)
    requires q.bus != [] && q.consumer.Polling? && q.filler.Idle?
    requires w < |q.workers| && q.workers[w].Looking?
    requires Valid(q.sched) && q.sched.order == [] && Inflight(q.sched, q.bus[0].group) < q.sched.cap
    ensures Leads(start, run', q', g, started, submitted, calm)
    ensures q'.bus == q.bus[1..] && q'.consumer.Polling? && q'.filler.Idle? && q'.submitted == q.submitted
    ensures q'.workers == q.workers[w := Freeing(q.bus[0])]
    ensures Valid(q'.sched) && q'.sched.order == [] && q'.sched.cap == q.sched.cap
    ensures Inflight(q'.sched, q.bus[0].group) == Inflight(q.sched, q.bus[0].group) + 1
  {
    hide Leads, Pop, Enqueue, Valid, Inflight;
    var t := q.bus[0];
    NothingQueued(q.sched);
    PopsTheOnly(q.sched, t, FLAT);
    run', q' := LeadsQuietly(start, run, q, ConsumerMoves, g, started, submitted, calm);
    run', q' := LeadsQuietly(start, run', q', HandOver, g, started, submitted, calm);
    run', q' := LeadsQuietly(start, run', q', FillerMoves, g, started, submitted, calm);
    run', q' := LeadsQuietly(start, run', q', FillerMoves, g, started, submitted, calm);
    run', q' := LeadsQuietly(start, run', q', WorkerMoves(w, FLAT, true), g, started, submitted, calm);
  }

  /** A task of a group is on the bus, and everybody is up. */
  lemma {:induction false} OneSubmitted(workers: nat, maxBuffered: int, cap: int, a: Task)
    returns (run: seq<Action>, q: Pipeline)
    ensures Leads(Start(workers, maxBuffered, cap), run, q, a.group, [], [a], true)
    ensures q.bus == [a] && q.consumer.Polling? && q.filler.Idle? && q.sched == Fresh(maxBuffered, cap)
    ensures |q.workers| == workers && forall w :: 0 <= w < workers ==> q.workers[w].Looking?
    ensures q.submitted == multiset{a}
  {
    var start := Start(workers, maxBuffered, cap);
    assert Leads(start, [], start, a.group, [], [], true);
    hide Leads, Fresh;
    run, q := LeadsSubmits(start, [], start, a, []);
    assert [] + [a] == [a];
  }

  lemma {:induction false} FreshIsIdle(maxBuffered: int, cap: int, g: string)
    ensures var s := Fresh(maxBuffered, cap);
            Valid(s) && s.order == [] && Inflight(s, g) == 0 && s.cap == Max(cap, 1)
  {
    FreshValid(maxBuffered, cap);
    hide Valid;
  }

  /** Two workers and two places in flight: the first worker takes the older task, the second takes
      the newer one and starts it first. */
  lemma {:induction false} NewerStartsFirst(workers: nat, maxBuffered: int, cap: int, a: Task, b: Task)
    returns (run: seq<Action>)
    requires workers >= 2 && cap >= 2 && a.group == b.group
    ensures IsRun(Start(workers, maxBuffered, cap), run) && NothingFails(Start(workers, maxBuffered, cap), run, a.group)
    ensures Submitted(run, a.group) == [a, b] && Started(Start(workers, maxBuffered, cap), run, a.group) == [b]
  {
    hide Leads, Start, Fresh, Valid, Inflight, Started, Submitted, NothingFails, IsRun;
    var start, g := Start(workers, maxBuffered, cap), a.group;
    FreshIsIdle(maxBuffered, cap, g);
    var q;
    run, q := OneSubmitted(workers, maxBuffered, cap, a);
    run, q := LeadsSubmits(start, run, q, b, [a]);
    assert [a] + [b] == [a, b] && [] + [b] == [b];
    run, q := WorkerTakesNext(start, run, q, 0, g, [], [a, b], true);
    run, q := WorkerTakesNext(start, run, q, 1, g, [], [a, b], true);
    run, q := LeadsStarts(start, run, q, 1, b, [], [a, b], true);
    LeadsMeans(start, run, q, g, [b], [a, b]);
  }

  lemma {:induction false} LeadsMeans(start: Pipeline, run: seq<Action>, q: Pipeline, g: string, started: seq<Task>,
                                      submitted: seq<Task>)
    requires Leads(start, run, q, g, started, submitted, true)
    ensures IsRun(start, run) && NothingFails(start, run, g)
    ensures Started(start, run, g) == started && Submitted(run, g) == submitted
  {
    hide IsRun, After, Started, Submitted, NothingFails;
  }

  /** Unless a dispatch of a task of group `g` fails, `run` starts the tasks of the group in the order
      it submits them. */
  ghost predicate InOrder(start: Pipeline, run: seq<Action>, g: string) {
    IsRun(start, run) && NothingFails(start, run, g) ==> Started(start, run, g) <= Submitted(run, g)
  }

  /** Groups are worked on in the order of submission, in every run in which no dispatch of theirs
      fails, exactly when there is one worker at most or a group may have one task in flight only. */
  lemma {:induction false} OrderNeedsOneAtATime(workers: nat, maxBuffered: int, cap: int)
    ensures (forall run, g :: InOrder(Start(workers, maxBuffered, cap), run, g))
       <==> workers <= 1 || Fresh(maxBuffered, cap).cap == 1
  {
    var start := Start(workers, maxBuffered, cap);
    assert |start.workers| == workers && start.sched == Fresh(maxBuffered, cap);
    if OneAtATime(start) {
      forall run, g ensures InOrder(start, run, g) {
        hide *;
        KeepsOrder(workers, maxBuffered, cap, run, g);
      }
    } else {
      var run := NewerStartsFirst(workers, maxBuffered, cap, Task("1", "g"), Task("2", "g"));
      assert Started(start, run, "g")[0] != Submitted(run, "g")[0];
      assert !InOrder(start, run, "g");
    }
  }

  lemma {:induction false} KeepsOrder(workers: nat, maxBuffered: int, cap: int, run: seq<Action>, g: string)
    requires OneAtATime(Start(workers, maxBuffered, cap))
    ensures InOrder(Start(workers, maxBuffered, cap), run, g)
  {
    hide Start, OneAtATime, IsRun, NothingFails, Started, Submitted;
    var start := Start(workers, maxBuffered, cap);
    if IsRun(start, run) && NothingFails(start, run, g) {
      GroupsStartInOrder(workers, maxBuffered, cap, run, g);
    }
  }

  // ---------------------------------------------------------------- a dispatch that keeps failing

  /** `t`, the one task submitted, is on the bus, nothing of its group is queued or in flight, and
      worker 0 is up. */
  ghost predicate Waits(p: Pipeline, t: Task) {
    && p.bus == [t] && p.consumer.Polling? && p.filler.Idle? && p.workers != [] && p.workers[0].Looking?
    && Valid(p.sched) && p.sched.order == [] && Inflight(p.sched, t.group) == 0
    && p.submitted == multiset{t}
  }

  /** The failed worker puts the task back and gives its unit of the group back. */
  lemma {:induction false} FailsAndReturns(start: Pipeline, run: seq<Action>, q: Pipeline, t: Task, started: seq<Task>)
    returns (run': seq<Action>, q': Pipeline)
    requires Leads(start, run, q, t.group, started, [t], false) && q.workers != [] && q.workers[0] == Working(t)
    ensures Leads(start, run', q', t.group, started, [t], false)
    ensures q' == q.(workers := q.workers[0 := Looking], bus := [t] + q.bus, taskSignal := true,
                     sched := Finished(q.sched, t.group), wake := true)
  {
    hide Leads, Pop, Finished;
    var g := t.group;
    run', q' := LeadsQuietly(start, run, q, WorkerMoves(0, FLAT, false), g, started, [t], false);
    assert q'.workers[0] == Returning(g);
    run', q' := LeadsQuietly(start, run', q', WorkerMoves(0, FLAT, true), g, started, [t], false);
    assert q'.workers[0] == Leaving(g);
    run', q' := LeadsQuietly(start, run', q', WorkerMoves(0, FLAT, true), g, started, [t], false);
    run', q' := LeadsQuietly(start, run', q', WorkerMoves(0, FLAT, true), g, started, [t], false);
  }

  /** One failing attempt: the task is taken, started, fails, and waits on the bus as before. */
  lemma {:induction false} FailsOnce(start: Pipeline, run: seq<Action>, q: Pipeline, t: Task, started: seq<Task>)
    returns (run': seq<Action>, q': Pipeline)
    requires Leads(start, run, q, t.group, started, [t], false) && Waits(q, t)
    ensures Leads(start, run', q', t.group, started + [t], [t], false) && Waits(q', t)
  {
    ValidFields(q.sched);
    hide Leads, Finished, Valid, Inflight;
    run', q' := WorkerTakesNext(start, run, q, 0, t.group, started, [t], false);
    run', q' := LeadsStarts(start, run', q', 0, t, started, [t], false);
    FinishedValid(q'.sched, t.group);
    FinishedOnlyCounts(q'.sched, t.group);
    run', q' := FailsAndReturns(start, run', q', t, started + [t]);
  }

  /** `k` attempts at one task. */
  function Attempts(t: Task, k: nat): seq<Task> {
    seq(k, _ => t)
  }

  lemma {:induction false} KeepsFailing(workers: nat, maxBuffered: int, cap: int, t: Task, k: nat)
    returns (run: seq<Action>, q: Pipeline)
    requires workers >= 1
    ensures Leads(Start(workers, maxBuffered, cap), run, q, t.group, Attempts(t, k), [t], false) && Waits(q, t)
  {
    hide Leads, Start, Fresh, Valid, Inflight;
    if k == 0 {
      run, q := OneSubmitted(workers, maxBuffered, cap, t);
      FreshIsIdle(maxBuffered, cap, t.group);
      LeadsAnyhow(Start(workers, maxBuffered, cap), run, q, t.group, [], [t]);
      assert Attempts(t, 0) == [];
    } else {
      hide Waits;
      run, q := KeepsFailing(workers, maxBuffered, cap, t, k - 1);
      run, q := FailsOnce(Start(workers, maxBuffered, cap), run, q, t, Attempts(t, k - 1));
      assert Attempts(t, k - 1) + [t] == Attempts(t, k);
    }
  }

  lemma {:induction false} LeadsAnyhow(start: Pipeline, run: seq<Action>, q: Pipeline, g: string, started: seq<Task>,
                                       submitted: seq<Task>)
    requires Leads(start, run, q, g, started, submitted, true)
    ensures Leads(start, run, q, g, started, submitted, false)
  {
    hide IsRun, After, Started, Submitted, NothingFails;
  }

  lemma {:induction false} StepsCount(p: Pipeline, run: seq<Action>, g: string)
    requires IsRun(p, run)
    ensures |Started(p, run, g)| + |Submitted(run, g)| <= |run|
    decreases |run|
  {
    hide Apply, Enabled;
    if run != [] {
      StepsCount(Apply(p, run[0]), run[1..], g);
    }
  }

  /** A dispatch that keeps failing keeps the pipeline busy: with a single submission there are runs
      of any length, which start the one task over and over. So neither the length of a run nor the
      order of starts can be bounded without regard to failed dispatches. */
  lemma {:induction false} FailingTaskNeverRests(workers: nat, maxBuffered: int, cap: int, t: Task, k: nat)
    returns (run: seq<Action>)
    requires workers >= 1
    ensures IsRun(Start(workers, maxBuffered, cap), run) && |run| > k
    ensures After(Start(workers, maxBuffered, cap), run).submitted == multiset{t} && Submitted(run, t.group) == [t]
    ensures Started(Start(workers, maxBuffered, cap), run, t.group) == Attempts(t, k)
  {
    hide Start, IsRun, After, Started, Submitted, NothingFails, Valid, Inflight;
    var q;
    run, q := KeepsFailing(workers, maxBuffered, cap, t, k);
    StepsCount(Start(workers, maxBuffered, cap), run, t.group);
  }

  // ---------------------------------------------------------------- a task that comes back

  /** The consumer takes a task off the bus. */
  predicate Polls(p: Pipeline, a: Action) {
    a.ConsumerMoves? && p.consumer.Polling? && p.bus != []
  }

  /** Nobody takes a task off the bus, and no dispatch fails. */
  ghost predicate BusIsLeft(p: Pipeline, run: seq<Action>)
    requires IsRun(p, run)
    decreases |run|
  {
    run == [] || (!Polls(p, run[0]) && NoFailureAtAll(p, run[0]) && BusIsLeft(Apply(p, run[0]), run[1..]))
  }

  predicate NoFailureAtAll(p: Pipeline, a: Action) {
    !(a.WorkerMoves? && a.w < |p.workers| && p.workers[a.w].Working? && !a.ok)
  }

  lemma {:induction false} StepKeepsBusHead(p: Pipeline, a: Action)
    requires Enabled(p, a) && p.bus != [] && !Polls(p, a) && NoFailureAtAll(p, a)
    ensures Apply(p, a).bus != [] && Apply(p, a).bus[0] == p.bus[0]
  {
    hide WorkerStep, Enqueue, WorkerCanMove;
    if a.WorkerMoves? {
      WorkerSettles(p, a.w, a.score, a.ok);
    }
  }

  lemma {:induction false} RunKeepsBusHead(p: Pipeline, run: seq<Action>)
    requires IsRun(p, run) && p.bus != [] && BusIsLeft(p, run)
    ensures After(p, run).bus != [] && After(p, run).bus[0] == p.bus[0]
    decreases |run|
  {
    hide Enabled, Apply, Polls, NoFailureAtAll;
    if run != [] {
      StepKeepsBusHead(p, run[0]);
      RunKeepsBusHead(Apply(p, run[0]), run[1..]);
    }
  }

  /** A task whose dispatch failed goes ahead of everything on the bus: unless another dispatch fails,
      it is the next one the consumer takes, whatever happens in between. */
  lemma {:induction false} FailedTaskIsNext(p: Pipeline, w: nat, score: Score, run: seq<Action>)
    requires w < |p.workers| && p.workers[w].Working?
    requires var failed := Apply(p, WorkerMoves(w, score, false)); IsRun(failed, run) && BusIsLeft(failed, run)
    requires Polls(After(Apply(p, WorkerMoves(w, score, false)), run), ConsumerMoves)
    ensures var before := After(Apply(p, WorkerMoves(w, score, false)), run);
            && Apply(before, ConsumerMoves).consumer == Handing(p.workers[w].task)
            && Apply(before, ConsumerMoves).bus == before.bus[1..]
  {
    var failed := Apply(p, WorkerMoves(w, score, false));
    assert failed.bus[0] == p.workers[w].task;
    RunKeepsBusHead(failed, run);
    hide IsRun, After, BusIsLeft;
  }
}
