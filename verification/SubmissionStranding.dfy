/** When a worker can sleep beside work it could do
    (go-core/internal/kernel/orchestrator.go:326-376, 524-536): the wake channel holds one token, so
    two notifications can leave a single one behind. */
module SubmissionStranding {
  import opened Basics
  import opened SubmissionScheduler
  import opened SubmissionPipeline

  /** Some worker sleeps and some group could be served, but no token is set and nobody is about to
      set one or to look. */
  ghost predicate Stranded(p: Pipeline) {
    && (exists w :: 0 <= w < |p.workers| && p.workers[w].AwaitingWork?)
    && !p.wake && !p.filler.Announcing?
    && (forall w :: 0 <= w < |p.workers| ==> !p.workers[w].Looking? && !p.workers[w].Waking?)
    && (exists g :: Eligible(p.sched, g))
  }

  // ---------------------------------------------------------------- where it happens

  ghost predicate Reaches(p: Pipeline, q: Pipeline) {
    exists run :: IsRun(p, run) && After(p, run) == q
  }

  lemma {:induction false} ReachesStep(p: Pipeline, q: Pipeline, a: Action) returns (r: Pipeline)
    requires Reaches(p, q) && Enabled(q, a)
    ensures r == Apply(q, a) && Reaches(p, r)
  {
    hide Enabled, Apply, IsRun, After;
    var run :| IsRun(p, run) && After(p, run) == q;
    AppendStep(p, run, a);
    r := Apply(q, a);
  }

  lemma {:induction false} ReachesSelf(p: Pipeline)
    ensures Reaches(p, p)
  {
    assert IsRun(p, []) && After(p, []) == p;
  }

  lemma {:induction false} FreshHasNothing(maxBuffered: int, cap: int, score: Score)
    ensures Pop(Fresh(maxBuffered, cap), score).Nothing?
  {
  }

  /** A task on the bus reaches its queue, with the wake token set. */
  lemma {:induction false} TaskArrives(start: Pipeline, p: Pipeline) returns (q: Pipeline)
    requires Reaches(start, p) && p.consumer.Polling? && p.filler.Idle? && p.bus != []
               && p.sched.totalPending < p.sched.maxBuffered
    ensures Reaches(start, q)
    ensures q == p.(bus := p.bus[1..], sched := Enqueue(p.sched, p.bus[0]), wake := true)
  {
    hide Reaches, Enqueue;
    q := ReachesStep(start, p, ConsumerMoves);
    q := ReachesStep(start, q, HandOver);
    q := ReachesStep(start, q, FillerMoves);
    q := ReachesStep(start, q, FillerMoves);
  }

  /** The first `k` of `n` workers have found nothing and gone to sleep. */
  function Asleep(n: nat, k: nat): seq<Worker> {
    seq(n, i => if i < k then AwaitingWork else Looking)
  }

  lemma {:induction false} AllFallAsleep(n: nat, maxBuffered: int, cap: int, k: nat) returns (q: Pipeline)
    requires k <= n
    ensures Reaches(Start(n, maxBuffered, cap), q)
    ensures q == Start(n, maxBuffered, cap).(workers := Asleep(n, k))
  {
    hide Reaches, Pop;
    var start := Start(n, maxBuffered, cap);
    if k == 0 {
      ReachesSelf(start);
      q := start;
      assert start.workers == Asleep(n, 0);
    } else {
      q := AllFallAsleep(n, maxBuffered, cap, k - 1);
      FreshHasNothing(maxBuffered, cap, FLAT);
      q := ReachesStep(start, q, WorkerMoves(k - 1, FLAT, true));
      assert q.workers == Asleep(n, k);
    }
  }

  /** All workers asleep, two tasks of different groups queued, one token. */
  lemma {:induction false} TwoTasksOneToken(n: nat, a: Task, b: Task, maxBuffered: int, cap: int) returns (q: Pipeline)
    requires Fresh(maxBuffered, cap).maxBuffered >= 2
    ensures Reaches(Start(n, maxBuffered, cap), q)
    ensures q.workers == Asleep(n, n) && q.filler.Idle? && q.wake
    ensures q.sched == Enqueue(Enqueue(Fresh(maxBuffered, cap), a), b)
  {
    hide Reaches, Pop, Enqueue, Asleep;
    var start := Start(n, maxBuffered, cap);
    q := AllFallAsleep(n, maxBuffered, cap, n);
    q := ReachesStep(start, q, Submit(a));
    q := ReachesStep(start, q, Submit(b));
    EnqueueCounts(start.sched, a);
    q := TaskArrives(start, q);
    q := TaskArrives(start, q);
  }

  lemma {:induction false} EnqueueCounts(s: State, t: Task)
    ensures Enqueue(s, t).totalPending == s.totalPending + 1 && Enqueue(s, t).maxBuffered == s.maxBuffered
  {
  }

  /** Popping leaves the other group as it was. */
  lemma {:induction false} OtherGroupStays(a: Task, b: Task, maxBuffered: int, cap: int)
    requires a.group != b.group && Fresh(maxBuffered, cap).maxBuffered >= 2
    ensures var s := Enqueue(Enqueue(Fresh(maxBuffered, cap), a), b);
            Pop(s, FLAT).Popped? && exists g :: Eligible(Pop(s, FLAT).next, g)
  {
    FreshValid(maxBuffered, cap);
    EnqueueValid(Fresh(maxBuffered, cap), a);
    EnqueueCounts(Fresh(maxBuffered, cap), a);
    var s := Enqueue(Enqueue(Fresh(maxBuffered, cap), a), b);
    EnqueueValid(Enqueue(Fresh(maxBuffered, cap), a), b);
    assert Eligible(s, a.group) && Eligible(s, b.group);
    hide Valid, Pop, Enqueue, Fresh;
    PopMeaning(s, FLAT);
    PopValid(s, FLAT);
    var t := Pop(s, FLAT).task;
    assert Eligible(Pop(s, FLAT).next, if t.group == a.group then b.group else a.group);
  }

  /** Two enqueues leave one token; the worker that takes it moves on without passing it. */
  lemma {:induction false} WorkerCanIdleBesideWork(n: nat, a: Task, b: Task, maxBuffered: int, cap: int)
    returns (q: Pipeline)
    requires n >= 2 && a.group != b.group && Fresh(maxBuffered, cap).maxBuffered >= 2
    ensures Reaches(Start(n, maxBuffered, cap), q) && Stranded(q)
  {
    hide Reaches, Pop, Eligible;
    var start := Start(n, maxBuffered, cap);
    q := TwoTasksOneToken(n, a, b, maxBuffered, cap);
    OtherGroupStays(a, b, maxBuffered, cap);
    hide Start, Enqueue, Fresh;
    q := ReachesStep(start, q, WorkerMoves(0, FLAT, true));
    q := ReachesStep(start, q, WorkerMoves(0, FLAT, true));
    q := ReachesStep(start, q, WorkerMoves(0, FLAT, true));
    assert q.workers[1].AwaitingWork?;
  }

  // ---------------------------------------------------------------- where it does not

  /** Whoever could be served has a worker about to look, or a token set or about to be. */
  ghost predicate SeenSoon(p: Pipeline) {
    (exists g :: Eligible(p.sched, g)) ==>
      p.wake || p.filler.Announcing? || exists w ::
          0 <= w < |p.workers| && (p.workers[w].Looking? || p.workers[w].Waking?)
  }

  lemma {:induction false} NothingPending(s: State)
    requires Valid(s) && s.totalPending <= 0
    ensures forall g :: !Eligible(s, g)
  {
    GroupsFitBuffer(s);
    forall g ensures !Eligible(s, g) {
      if Eligible(s, g) {
        QueuedGroupsAreListed(s, g);
      }
    }
    hide Valid;
  }

  lemma {:induction false} LookKeepsSeen(p: Pipeline, w: nat, score: Score, ok: bool)
    requires Valid(p.sched) && p.sched.totalPending <= 1 && w < |p.workers| && p.workers[w].Looking?
    ensures SeenSoon(WorkerStep(p, w, score, ok))
  {
    WorkerStageIs(p, w, score, ok);
    PopMeaning(p.sched, score);
    if Pop(p.sched, score).Popped? {
      PopTakesOne(p.sched, score);
      PopMovesOne(p.sched, score);
      NothingPending(Pop(p.sched, score).next);
    }
    hide Valid, Pop, WorkerStep, Eligible, FirstBest;
  }

  lemma {:induction false} WorkerKeepsSeen(p: Pipeline, w: nat, score: Score, ok: bool)
    requires Valid(p.sched) && p.sched.totalPending <= 1 && SeenSoon(p) && w < |p.workers| && WorkerCanMove(p, w)
    ensures SeenSoon(WorkerStep(p, w, score, ok))
  {
    hide Valid, Pop, Finished, WorkerStep, WorkerCanMove, Eligible;
    if p.workers[w].Looking? {
      LookKeepsSeen(p, w, score, ok);
    } else {
      WorkerStepIs(p, w, score, ok);
      WorkerSignalsAre(p, w, score, ok);
      WorkerStageIs(p, w, score, ok);
      var p' := WorkerStep(p, w, score, ok);
      assert p.workers[w].AwaitingWork? || p.workers[w].Leaving? ==> p'.workers[w].Looking? || p'.workers[w].Waking?;
      if v :| 0 <= v < |p.workers| && (p.workers[v].Looking? || p.workers[v].Waking?) {
        assert v != w ==> p'.workers[v] == p.workers[v];
      }
    }
  }

  lemma {:induction false} StepKeepsSeen(p: Pipeline, a: Action)
    requires Valid(p.sched) && p.sched.totalPending <= 1 && SeenSoon(p) && Enabled(p, a)
    ensures SeenSoon(Apply(p, a))
  {
    hide Valid, WorkerStep, Enqueue, Eligible;
    if a.WorkerMoves? {
      WorkerKeepsSeen(p, a.w, a.score, a.ok);
    }
  }

  lemma {:induction false} StepKeepsBuffer(p: Pipeline, a: Action)
    requires Enabled(p, a)
    ensures Apply(p, a).sched.maxBuffered == p.sched.maxBuffered
  {
    hide WorkerStep, Pop, Finished, Enqueue;
    if a.WorkerMoves? {
      WorkerStageIs(p, a.w, a.score, a.ok);
      PopKeepsBuffer(p.sched, a.score);
      FinishedOnlyCounts(p.sched, if p.workers[a.w].Leaving? then p.workers[a.w].group else "");
    }
    EnqueueCounts(p.sched, if p.filler.Trying? then p.filler.task else Task("", ""));
  }

  lemma {:induction false} PopKeepsBuffer(s: State, score: Score)
    ensures Pop(s, score).Popped? ==> Pop(s, score).next.maxBuffered == s.maxBuffered
  {
    hide BestOffset, Position;
  }

  lemma {:induction false} RunKeepsSeen(p: Pipeline, run: seq<Action>)
    requires Inv(p) && p.sched.maxBuffered <= 1 && SeenSoon(p) && IsRun(p, run)
    ensures SeenSoon(After(p, run))
    decreases |run|
  {
    if run != [] {
      StepKeepsInv(p, run[0]);
      InvBounds(p);
      hide Inv, SeenSoon, Enabled, Apply;
      StepKeepsSeen(p, run[0]);
      StepKeepsBuffer(p, run[0]);
      RunKeepsSeen(Apply(p, run[0]), run[1..]);
    }
  }

  lemma {:induction false} InvBounds(p: Pipeline)
    requires Inv(p)
    ensures Valid(p.sched) && p.sched.totalPending <= p.sched.maxBuffered && NobodyForgotten(p)
  {
    GroupsFitBuffer(p.sched);
    hide Valid, Conserved, CountsAgree, NobodyForgotten;
  }

  /** A worker can sleep beside work, with no token set and nobody about to look, exactly when there
      are at least two workers and room to buffer at least two tasks. */
  lemma {:induction false} StrandingNeedsTwoAndTwo(workers: nat, maxBuffered: int, cap: int)
    ensures (exists run ::
              IsRun(Start(workers, maxBuffered, cap), run) && Stranded(After(Start(workers, maxBuffered, cap), run)))
       <==> workers >= 2 && Fresh(maxBuffered, cap).maxBuffered >= 2
  {
    var start := Start(workers, maxBuffered, cap);
    assert start.sched == Fresh(maxBuffered, cap) && |start.workers| == workers;
    if workers >= 2 && Fresh(maxBuffered, cap).maxBuffered >= 2 {
      var q := WorkerCanIdleBesideWork(workers, Task("1", "a"), Task("2", "b"), maxBuffered, cap);
      var run :| IsRun(start, run) && After(start, run) == q;
      assert Stranded(After(start, run));
    } else {
      NothingAtStart(workers, maxBuffered, cap);
      StartInv(workers, maxBuffered, cap);
      hide Start, Fresh;
      forall run | IsRun(start, run) ensures !Stranded(After(start, run)) {
        RunKeepsInv(start, run);
        InvBounds(After(start, run));
        if workers >= 2 {
          FreshHolds(maxBuffered, cap);
          RunKeepsSeen(start, run);
        }
        hide IsRun, After, Inv, Eligible;
        FewIsNotStranded(After(start, run));
      }
    }
  }

  lemma {:induction false} FreshHolds(maxBuffered: int, cap: int)
    ensures Fresh(maxBuffered, cap).maxBuffered >= 1
  {
  }

  lemma {:induction false} NothingAtStart(workers: nat, maxBuffered: int, cap: int)
    ensures SeenSoon(Start(workers, maxBuffered, cap))
  {
  }

  lemma {:induction false} FewIsNotStranded(p: Pipeline)
    requires NobodyForgotten(p) && (|p.workers| <= 1 || SeenSoon(p))
    ensures !Stranded(p)
  {
    hide Eligible, ConsumerWillWake, FillerWillWake;
  }
}
