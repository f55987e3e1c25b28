/** What the submission scheduler guarantees over whole runs: per-group order, and how often a
    waiting group can be passed over (go-core/internal/kernel/orchestrator.go:326-427). */
module SubmissionFairness {
  import opened SubmissionScheduler

  /** A call that goes through: an enqueue with room, a pop, the end of an item's processing. */
  datatype Op = Put(task: Task) | Take(score: Score) | Release(group: string)

  ghost predicate Enabled(s: State, op: Op) {
    match op
    case Put(_) => s.totalPending < s.maxBuffered
    case Take(score) => Pop(s, score).Popped?
    case Release(_) => true
  }

  function Apply(s: State, op: Op): State {
    match op
    case Put(t) => Enqueue(s, t)
    case Take(score) => (match Pop(s, score) case Nothing => s case Popped(_, next) => next)
    case Release(g) => Finished(s, g)
  }

  ghost predicate IsRun(s: State, ops: seq<Op>)
    decreases |ops|
  {
    ops == [] || (Enabled(s, ops[0]) && IsRun(Apply(s, ops[0]), ops[1..]))
  }

  function After(s: State, ops: seq<Op>): State
    decreases |ops|
  {
    if ops == [] then s else After(Apply(s, ops[0]), ops[1..])
  }

  lemma {:induction false} ApplyValid(s: State, op: Op)
    requires Valid(s) && Enabled(s, op)
    ensures Valid(Apply(s, op))
  {
    hide Valid, Pop, Finished;
    match op
    case Put(t) => EnqueueValid(s, t);
    case Take(score) => PopValid(s, score);
    case Release(g) => FinishedValid(s, g);
  }

  // ---------------------------------------------------------------- per-group order

  /** The tasks of group `g` accepted during a run, in order. */
  function Accepted(ops: seq<Op>, g: string): seq<Task> {
    if ops == [] then []
    else (if ops[0].Put? && ops[0].task.group == g then [ops[0].task] else []) + Accepted(ops[1..], g)
  }

  /** The tasks of group `g` handed out during a run, in order. */
  function HandedOut(s: State, ops: seq<Op>, g: string): seq<Task>
    decreases |ops|
  {
    if ops == [] then []
    else
      var rest := HandedOut(Apply(s, ops[0]), ops[1..], g);
      match ops[0]
      case Take(score) =>
        (match Pop(s, score)
         case Nothing => rest
         case Popped(t, _) => if t.group == g then [t] + rest else rest)
      case Put(_) => rest
      case Release(_) => rest
  }

  lemma {:induction false} OpKeepsOrder(s: State, op: Op, g: string)
    requires Valid(s) && Enabled(s, op)
    ensures HandedOut(s, [op], g) + Queue(Apply(s, op), g) == Queue(s, g) + Accepted([op], g)
  {
    hide Valid, Pop;
    assert [op][1..] == [];
    match op
    case Put(t) =>
    case Take(score) => PopValid(s, score);
    case Release(h) =>
  }

  lemma {:induction false} Unroll(s: State, ops: seq<Op>, g: string)
    requires ops != []
    ensures HandedOut(s, ops, g) == HandedOut(s, [ops[0]], g) + HandedOut(Apply(s, ops[0]), ops[1..], g)
    ensures Accepted(ops, g) == Accepted([ops[0]], g) + Accepted(ops[1..], g)
  {
    hide Pop, Apply;
    assert [ops[0]][1..] == [];
  }

  lemma {:induction false} Splice(out1: seq<Task>, out2: seq<Task>, q: seq<Task>, q1: seq<Task>, q2: seq<Task>,
                                  in1: seq<Task>, in2: seq<Task>)
    requires out1 + q1 == q + in1 && out2 + q2 == q1 + in2
    ensures (out1 + out2) + q2 == q + (in1 + in2)
  {
    assert (out1 + out2) + q2 == out1 + (out2 + q2);
    assert out1 + (q1 + in2) == (out1 + q1) + in2;
    assert (q + in1) + in2 == q + (in1 + in2);
  }

  /** Each group is a FIFO queue: what it hands out, followed by what it still holds, is what it
      held, followed by what was accepted. Starting empty, output is a prefix of input. */
  lemma {:induction false} GroupIsFifo(s: State, ops: seq<Op>, g: string)
    requires Valid(s) && IsRun(s, ops)
    ensures HandedOut(s, ops, g) + Queue(After(s, ops), g) == Queue(s, g) + Accepted(ops, g)
    ensures Valid(After(s, ops))
    decreases |ops|
  {
    if ops == [] {
      assert HandedOut(s, ops, g) == [] && Accepted(ops, g) == [];
    } else {
      var s' := Apply(s, ops[0]);
      Unroll(s, ops, g);
      hide Valid, Enabled, Apply, Queue, HandedOut, Accepted;
      ApplyValid(s, ops[0]);
      OpKeepsOrder(s, ops[0], g);
      GroupIsFifo(s', ops[1..], g);
      Splice(HandedOut(s, [ops[0]], g), HandedOut(s', ops[1..], g), Queue(s, g), Queue(s', g),
          Queue(After(s', ops[1..]), g),
             Accepted([ops[0]], g), Accepted(ops[1..], g));
    }
  }

  // ---------------------------------------------------------------- bounded bypass

  function IndexOf(order: seq<string>, g: string): (i: nat)
    requires g in order
    ensures i < |order| && order[i] == g
  {
    if order[0] == g then 0 else 1 + IndexOf(order[1..], g)
  }

  lemma {:induction false} IndexUnique(order: seq<string>, g: string, i: nat)
    requires NoDuplicates(order) && i < |order| && order[i] == g
    ensures IndexOf(order, g) == i
  {
  }

  /** How many groups come before `g` in rotation. */
  function Distance(s: State, g: string): int
    requires g in s.order
  {
    Steps(s.cursor, IndexOf(s.order, g), |s.order|)
  }

  /** No head that could be taken outscores another. */
  ghost predicate EqualHeads(s: State, score: Score) {
    forall g, h :: Eligible(s, g) && Eligible(s, h) ==> HeadScore(s, score, g) == HeadScore(s, score, h)
  }

  lemma {:induction false} DistanceLocates(s: State, g: string)
    requires g in s.order && CursorValid(s.order, s.cursor)
    ensures 0 <= Distance(s, g) < |s.order| && GroupAt(s, Distance(s, g)) == g
  {
    PositionIs(s.cursor, Distance(s, g), |s.order|);
  }

  /** With equal scores a pop takes the first eligible group in rotation, so never one behind `g`. */
  lemma {:induction false} PopNotBehind(s: State, score: Score, g: string)
    requires Valid(s) && g in s.order && Eligible(s, g) && EqualHeads(s, score)
    ensures Pop(s, score).Popped? && BestOffset(s, score) <= Distance(s, g)
  {
    hide Scan, Pop, BestOffset, Distance, GroupAt;
    PopMeaning(s, score);
    DistanceLocates(s, g);
    hide Items, QueuesValid, Eligible, Valid;
    assert Eligible(s, GroupAt(s, Distance(s, g)));
    assert Eligible(s, GroupAt(s, BestOffset(s, score)));
  }

  /** How many steps lie from the cursor to position `j` of a rotation of `n`. */
  function Steps(cursor: nat, j: nat, n: nat): int {
    if j >= cursor then j - cursor else j + n - cursor
  }

  /** Taking position `i`, `o` steps from the cursor and short of `g`, brings `g` closer by `o + 1`. */
  lemma {:induction false} PopAtCloser(s: State, i: nat, o: nat, g: string)
    requires QueuesValid(s.order, s.queues) && CursorValid(s.order, s.cursor)
    requires i < |s.order| && s.order[i] in s.queues && g in s.order && s.order[i] != g
    requires o == Steps(s.cursor, i, |s.order|) <= Distance(s, g)
    ensures s.queues[s.order[i]] != [] && g in PopAt(s, i).order && Distance(PopAt(s, i), g) == Distance(s, g) - o - 1
  {
    PopAtOrder(s, i);
    if |s.queues[s.order[i]]| == 1 {
      DropIndex(s.order, i, g);
    }
    hide IndexOf, QueuesValid, PopAt;
  }

  lemma {:induction false} PopAtOrder(s: State, i: nat)
    requires QueuesValid(s.order, s.queues) && i < |s.order| && s.order[i] in s.queues
    ensures s.queues[s.order[i]] != []
    ensures var n, s' := |s.order|, PopAt(s, i);
            if |s.queues[s.order[i]]| == 1 then
              && s'.order == s.order[..i] + s.order[i + 1..]
              && s'.cursor == if i + 1 < n then i else 0
            else s'.order == s.order && s'.cursor == if i + 1 < n then i + 1 else 0
  {
    PositionIs(i, 1, |s.order|);
  }

  lemma {:induction false} DropIndex(order: seq<string>, i: nat, g: string)
    requires NoDuplicates(order) && i < |order| && g in order && order[i] != g
    ensures var rest := order[..i] + order[i + 1..];
            g in rest && IndexOf(rest, g) == if IndexOf(order, g) < i then IndexOf(order, g) else IndexOf(order, g) - 1
  {
    var j := IndexOf(order, g);
    var rest := order[..i] + order[i + 1..];
    RemoveAt(order, i);
    hide IndexOf;
    assert rest[if j < i then j else j - 1] == g;
    IndexUnique(rest, g, if j < i then j else j - 1);
  }

  /** A pop either serves the waiting group or brings it strictly closer to the cursor. */
  lemma {:induction false} PopServesOrCloser(s: State, score: Score, g: string)
    requires Valid(s) && g in s.order && Eligible(s, g) && EqualHeads(s, score)
    ensures Pop(s, score).Popped?
    ensures Pop(s, score).task.group != g ==>
              && g in Pop(s, score).next.order
              && Distance(Pop(s, score).next, g) < Distance(s, g)
  {
    PopNotBehind(s, score, g);
    var i := PopPosition(s, score);
    var o := BestOffset(s, score);
    PopIndex(s, score, i);
    TaskGroup(s, i);
    PositionIs(s.cursor, o, |s.order|);
    hide Pop, BestOffset, Distance, PopAt, Items, EqualHeads;
    if s.order[i] != g {
      PopAtCloser(s, i, o, g);
    }
  }

  lemma {:induction false} PopIndex(s: State, score: Score, i: nat)
    requires Valid(s) && i < |s.order| && s.order[i] in s.queues && s.queues[s.order[i]] != []
    requires Pop(s, score) == Popped(s.queues[s.order[i]][0], PopAt(s, i))
    ensures BestOffset(s, score) >= 0 && i == Position(s.cursor, BestOffset(s, score), |s.order|)
  {
    PopMeaning(s, score);
    hide PopAt, BestOffset, Items, Pop;
    var j := Position(s.cursor, BestOffset(s, score), |s.order|);
    PopMeaning(s, score);
    assert Pop(s, score).task == s.queues[s.order[j]][0];
    TaskGroup(s, i);
    TaskGroup(s, j);
  }

  lemma {:induction false} TaskGroup(s: State, i: nat)
    requires QueuesValid(s.order, s.queues) && i < |s.order| && s.order[i] in s.queues
    ensures s.queues[s.order[i]] != [] && s.queues[s.order[i]][0].group == s.order[i]
  {
  }

  // ---------------------------------------------------------------- windows

  /** Pops that go through during a run. */
  function Pops(ops: seq<Op>): nat {
    if ops == [] then 0 else (if ops[0].Take? then 1 else 0) + Pops(ops[1..])
  }

  /** Enqueues that add a group to the rotation. */
  function NewGroups(s: State, ops: seq<Op>): nat
    decreases |ops|
  {
    if ops == [] then 0
    else (if ops[0].Put? && ops[0].task.group !in s.queues then 1 else 0) + NewGroups(Apply(s, ops[0]), ops[1..])
  }

  /** All through the run `g` can be taken, heads score equally, and yet `g` is never taken. */
  ghost predicate PassedOver(s: State, ops: seq<Op>, g: string)
    decreases |ops|
  {
    ops == [] ||
    (&& Enabled(s, ops[0])
     && (ops[0].Take? ==> Eligible(s, g) && EqualHeads(s, ops[0].score) && Pop(s, ops[0].score).task.group != g)
     && PassedOver(Apply(s, ops[0]), ops[1..], g))
  }

  lemma {:induction false} PutDistance(s: State, t: Task, g: string)
    requires Valid(s) && g in s.order
    ensures g in Enqueue(s, t).order
    ensures Distance(Enqueue(s, t), g) <= Distance(s, g) + if t.group in s.queues then 0 else 1
  {
    hide Items, InflightValid;
    if t.group !in s.queues {
      var i := IndexOf(s.order, g);
      EnqueueQueuesValid(s, t);
      IndexUnique(s.order + [t.group], g, i);
    }
  }

  lemma {:induction false} OpDistance(s: State, op: Op, g: string)
    requires Valid(s) && g in s.order && Enabled(s, op)
    requires op.Take? ==> Eligible(s, g) && EqualHeads(s, op.score) && Pop(s, op.score).task.group != g
    ensures g in Apply(s, op).order
    ensures Distance(Apply(s, op), g) + (if op.Take? then 1 else 0)
         <= Distance(s, g) + (if op.Put? && op.task.group !in s.queues then 1 else 0)
  {
    match op
    case Put(t) => PutDistance(s, t, g);
    case Take(score) => PopServesOrCloser(s, score, g);
    case Release(h) =>
  }

  /** Bounded bypass: over any stretch in which `g` stays ready to be taken and heads score
      equally, the number of times another group is served before `g` is at most the number of
      groups ahead of `g` in rotation, plus one for each group that joins the rotation meanwhile. */
  lemma {:induction false} BypassIsBounded(s: State, ops: seq<Op>, g: string)
    requires Valid(s) && g in s.order && PassedOver(s, ops, g)
    ensures Pops(ops) <= Distance(s, g) + NewGroups(s, ops)
    decreases |ops|
  {
    if ops == [] {
      DistanceLocates(s, g);
    } else {
      hide Valid, Apply, Distance, EqualHeads, Eligible;
      ApplyValid(s, ops[0]);
      OpDistance(s, ops[0], g);
      BypassIsBounded(Apply(s, ops[0]), ops[1..], g);
    }
  }

  // ---------------------------------------------------------------- the bound is tight

  /** Two groups in rotation, the cursor on the second, which is about to run dry. */
  ghost predicate CursorOnSecond(s: State, g: string, h: string) {
    && Valid(s) && g != h && s.order == [g, h] && s.cursor == 1
    && h in s.queues && |s.queues[h]| == 1 && s.inflight == map[] && s.totalPending < s.maxBuffered
  }

  /** A third group joins behind the second, the second is served and drops out. */
  function Round(h: string, k: string): seq<Op> {
    [Put(Task("next", k)), Take(FLAT), Release(h)]
  }

  lemma {:induction false} HeadAtCursorIsTaken(s: State, h: string)
    requires Valid(s) && s.inflight == map[] && s.order != [] && s.order[s.cursor] == h
    ensures Pop(s, FLAT) == Popped(Queue(s, h)[0], PopAt(s, s.cursor)) && Queue(s, h) != []
              && Pop(s, FLAT).task.group == h
    ensures EqualHeads(s, FLAT) && forall g :: g in s.order ==> Eligible(s, g)
  {
    hide Items, Scan, PopAt, NoDuplicates;
    assert h in s.order;
    PopNotBehindCursor(s, h);
    PositionIs(s.cursor, 0, |s.order|);
  }

  lemma {:induction false} PopNotBehindCursor(s: State, h: string)
    requires Valid(s) && s.inflight == map[] && s.order != [] && s.order[s.cursor] == h && Eligible(s, h)
               && EqualHeads(s, FLAT)
    ensures BestOffset(s, FLAT) == 0
  {
    hide Items, Scan, Pop, BestOffset, Eligible, EqualHeads;
    IndexUnique(s.order, h, s.cursor);
    PopNotBehind(s, FLAT, h);
    PopMeaning(s, FLAT);
  }

  lemma {:induction false} ThirdJoins(s: State, g: string, h: string, k: string)
    requires CursorOnSecond(s, g, h) && k != g && k != h
    ensures var s1 := Enqueue(s, Task("next", k));
            && Valid(s1) && s1.order == [g, h, k] && s1.cursor == 1 && s1.inflight == map[]
            && h in s1.queues && |s1.queues[h]| == 1 && k in s1.queues && |s1.queues[k]| == 1
            && s1.totalPending == s.totalPending + 1 && s1.maxBuffered == s.maxBuffered
  {
    EnqueueValid(s, Task("next", k));
    assert k !in s.order;
    hide Items, InflightValid, NoDuplicates;
  }

  lemma {:induction false} SecondLeaves(s: State, g: string, h: string, k: string)
    requires Valid(s) && s.order == [g, h, k] && s.cursor == 1 && s.inflight == map[]
    requires h in s.queues && |s.queues[h]| == 1 && k in s.queues && |s.queues[k]| == 1 && h != k
    ensures var s1 := PopAt(s, 1);
            && s1.order == [g, k] && s1.cursor == 1 && s1.inflight == map[h := 1]
            && k in s1.queues && |s1.queues[k]| == 1
            && s1.totalPending == s.totalPending - 1 && s1.maxBuffered == s.maxBuffered
  {
    hide Items, InflightValid, QueuesValid;
  }

  lemma {:induction false} LastOfGroupFinishes(s: State, h: string)
    requires s.inflight == map[h := 1]
    ensures Finished(s, h) == s.(inflight := map[])
  {
    assert map[h := 1] - {h} == map[];
  }

  lemma {:induction false} RoundPassesOver(s: State, g: string, h: string, k: string)
    requires CursorOnSecond(s, g, h) && k != g && k != h
    ensures PassedOver(s, Round(h, k), g) && CursorOnSecond(After(s, Round(h, k)), g, k)
    ensures After(s, Round(h, k)).totalPending == s.totalPending
  {
    hide Valid, Enqueue, Pop, PopAt, Eligible, EqualHeads, PassedOver, After, Round, Queue;
    var s1 := Enqueue(s, Task("next", k));
    ThirdJoins(s, g, h, k);
    HeadAtCursorIsTaken(s1, h);
    assert g in s1.order;
    SecondLeaves(s1, g, h, k);
    PopValid(s1, FLAT);
    var s2 := PopAt(s1, 1);
    FinishedValid(s2, h);
    var s3 := Finished(s2, h);
    LastOfGroupFinishes(s2, h);
    RoundSteps(s, s1, s2, s3, g, h, k);
  }

  lemma {:induction false} RoundSteps(s: State, s1: State, s2: State, s3: State, g: string, h: string, k: string)
    requires s.totalPending < s.maxBuffered && s1 == Enqueue(s, Task("next", k))
    requires Pop(s1, FLAT).Popped? && Pop(s1, FLAT).next == s2 && Pop(s1, FLAT).task.group != g
    requires Eligible(s1, g) && EqualHeads(s1, FLAT)
    requires s3 == Finished(s2, h)
    ensures PassedOver(s, Round(h, k), g) && After(s, Round(h, k)) == s3
  {
    hide Enqueue, Pop, Finished, Eligible, EqualHeads;
    var ops := Round(h, k);
    assert ops[1..] == [Take(FLAT), Release(h)] && ops[1..][1..] == [Release(h)] && ops[1..][1..][1..] == [];
    assert PassedOver(s2, [Release(h)], g) && After(s2, [Release(h)]) == s3;
    assert PassedOver(s1, ops[1..], g) && After(s1, ops[1..]) == s3;
  }

  lemma {:induction false} PassedOverConcat(s: State, a: seq<Op>, b: seq<Op>, g: string)
    requires PassedOver(s, a, g) && PassedOver(After(s, a), b, g)
    ensures PassedOver(s, a + b, g) && Pops(a + b) == Pops(a) + Pops(b)
    decreases |a|
  {
    hide Enabled, Eligible, EqualHeads, Pop, Apply;
    if a == [] {
      assert a + b == b;
    } else {
      assert (a + b)[0] == a[0] && (a + b)[1..] == a[1..] + b;
      PassedOverConcat(Apply(s, a[0]), a[1..], b, g);
    }
  }

  /** The term for new groups cannot be dropped: as long as groups keep joining behind the cursor,
      a group that is ready all along and scores as high as any is passed over any number of times. */
  lemma {:induction false} NewGroupsCanStarve(s: State, g: string, h: string, k: string, n: nat) returns (ops: seq<Op>)
    requires CursorOnSecond(s, g, h) && k != g && k != h
    ensures PassedOver(s, ops, g) && Pops(ops) == n
    decreases n
  {
    if n == 0 {
      ops := [];
    } else {
      RoundPassesOver(s, g, h, k);
      assert Pops(Round(h, k)) == 1 by {
        RoundPops(h, k);
      }
      hide CursorOnSecond, PassedOver, After, Round, Pops;
      var rest := NewGroupsCanStarve(After(s, Round(h, k)), g, k, h, n - 1);
      PassedOverConcat(s, Round(h, k), rest, g);
      ops := Round(h, k) + rest;
    }
  }

  lemma {:induction false} RoundPops(h: string, k: string)
    ensures Pops(Round(h, k)) == 1
  {
    var ops := Round(h, k);
    assert ops[1..] == [Take(FLAT), Release(h)] && ops[1..][1..] == [Release(h)] && ops[1..][1..][1..] == [];
    assert Pops(ops[1..][1..]) == 0;
    assert Pops(ops[1..]) == 1;
  }

  // ---------------------------------------------------------------- when it takes a third place

  /** Some group, reached from an empty scheduler, is passed over `n` times while ready. */
  ghost predicate Overtaken(maxBuffered: int, cap: int, n: nat) {
    exists before, ops, g ::
      && IsRun(Fresh(maxBuffered, cap), before) && g in After(Fresh(maxBuffered, cap), before).order
      && PassedOver(After(Fresh(maxBuffered, cap), before), ops, g) && Pops(ops) >= n
  }

  lemma {:induction false} IsRunStep(s: State, ops: seq<Op>, op: Op)
    requires IsRun(s, ops) && Enabled(After(s, ops), op)
    ensures IsRun(s, ops + [op]) && After(s, ops + [op]) == Apply(After(s, ops), op)
    decreases |ops|
  {
    hide Enabled, Apply;
    if ops == [] {
      assert (ops + [op])[0] == op && (ops + [op])[1..] == [];
    } else {
      assert (ops + [op])[0] == ops[0] && (ops + [op])[1..] == ops[1..] + [op];
      IsRunStep(Apply(s, ops[0]), ops[1..], op);
    }
  }

  lemma {:induction false} PutStep(s: State, ops: seq<Op>, t: Task)
    requires IsRun(s, ops) && Valid(After(s, ops)) && After(s, ops).totalPending < After(s, ops).maxBuffered
    ensures IsRun(s, ops + [Put(t)]) && After(s, ops + [Put(t)]) == Enqueue(After(s, ops), t)
              && Valid(Enqueue(After(s, ops), t))
    ensures Enqueue(After(s, ops), t).totalPending == After(s, ops).totalPending + 1
    ensures Enqueue(After(s, ops), t).maxBuffered == After(s, ops).maxBuffered
  {
    IsRunStep(s, ops, Put(t));
    EnqueueValid(After(s, ops), t);
    hide Valid, IsRun, After;
  }

  lemma {:induction false} ThreeEnqueues(maxBuffered: int, cap: int, g: string, h: string)
    requires g != h
    ensures var s := Enqueue(Enqueue(Enqueue(Fresh(maxBuffered, cap), Task("1", g)), Task("2", g)), Task("3", h));
            && s.order == [g, h] && s.cursor == 0 && s.inflight == map[] && s.totalPending == 3
            && s.queues == map[g := [Task("1", g), Task("2", g)], h := [Task("3", h)]]
            && s.maxBuffered == Fresh(maxBuffered, cap).maxBuffered
  {
    var s0 := Fresh(maxBuffered, cap);
    var s1 := Enqueue(s0, Task("1", g));
    EnqueueIs(s0, Task("1", g));
    var s2 := Enqueue(s1, Task("2", g));
    EnqueueIs(s1, Task("2", g));
    EnqueueIs(s2, Task("3", h));
    hide Enqueue;
    assert [] + [g] == [g] && [g] + [h] == [g, h];
    assert [Task("1", g)] + [Task("2", g)] == [Task("1", g), Task("2", g)];
  }

  /** Three enqueues: two tasks of the first group, one of the second. */
  lemma {:induction false} ThreeQueued(maxBuffered: int, cap: int, g: string, h: string)
    returns (before: seq<Op>, s: State)
    requires Fresh(maxBuffered, cap).maxBuffered >= 3 && g != h
    ensures IsRun(Fresh(maxBuffered, cap), before) && s == After(Fresh(maxBuffered, cap), before) && Valid(s)
    ensures s.order == [g, h] && s.cursor == 0 && s.inflight == map[] && s.totalPending == 3
    ensures s.queues == map[g := [Task("1", g), Task("2", g)], h := [Task("3", h)]]
    ensures s.maxBuffered == Fresh(maxBuffered, cap).maxBuffered
  {
    var s0 := Fresh(maxBuffered, cap);
    FreshValid(maxBuffered, cap);
    ThreeEnqueues(maxBuffered, cap, g, h);
    assert IsRun(s0, []) && After(s0, []) == s0 && s0.totalPending == 0;
    hide Valid, IsRun, After, Enqueue, Fresh;
    before := [];
    PutStep(s0, before, Task("1", g));
    before := before + [Put(Task("1", g))];
    PutStep(s0, before, Task("2", g));
    before := before + [Put(Task("2", g))];
    PutStep(s0, before, Task("3", h));
    before := before + [Put(Task("3", h))];
    s := After(s0, before);
  }

  /** A scheduler with three places gets two groups into rotation with the cursor on the second. */
  lemma {:induction false} CursorReachesSecond(maxBuffered: int, cap: int, g: string, h: string)
    returns (before: seq<Op>)
    requires Fresh(maxBuffered, cap).maxBuffered >= 3 && g != h
    ensures IsRun(Fresh(maxBuffered, cap), before) && CursorOnSecond(After(Fresh(maxBuffered, cap), before), g, h)
  {
    hide Fresh, IsRun, After, Pop, PopAt, Enqueue;
    var s0 := Fresh(maxBuffered, cap);
    var s;
    before, s := ThreeQueued(maxBuffered, cap, g, h);
    HeadAtCursorIsTaken(s, g);
    PopValid(s, FLAT);
    IsRunStep(s0, before, Take(FLAT));
    before := before + [Take(FLAT)];
    var s1 := PopAt(s, 0);
    FirstIsServed(s, g, h);
    hide Valid, Eligible, EqualHeads, Queue;
    FinishedValid(s1, g);
    LastOfGroupFinishes(s1, g);
    IsRunStep(s0, before, Release(g));
    before := before + [Release(g)];
  }

  lemma {:induction false} FirstIsServed(s: State, g: string, h: string)
    requires g != h && s.order == [g, h] && s.cursor == 0 && s.inflight == map[] && s.totalPending == 3
    requires s.queues == map[g := [Task("1", g), Task("2", g)], h := [Task("3", h)]]
    ensures var s1 := PopAt(s, 0);
            && s1.order == [g, h] && s1.cursor == 1 && s1.inflight == map[g := 1] && s1.totalPending == 2
            && h in s1.queues && |s1.queues[h]| == 1 && s1.maxBuffered == s.maxBuffered
  {
    PositionIs(0, 1, 2);
  }

  /** With two places nobody joins behind a waiting group and ahead of the cursor. */
  lemma {:induction false} OpDistanceInTwo(s: State, op: Op, g: string)
    requires Valid(s) && s.maxBuffered <= 2 && g in s.order && Enabled(s, op)
    requires op.Take? ==> Eligible(s, g) && EqualHeads(s, op.score) && Pop(s, op.score).task.group != g
    ensures g in Apply(s, op).order
    ensures Distance(Apply(s, op), g) + (if op.Take? then 1 else 0) <= Distance(s, g)
  {
    OpDistance(s, op, g);
    if op.Put? && op.task.group !in s.queues {
      GroupsFitBuffer(s);
      assert s.order == [g] && s.cursor == 0;
      IndexUnique(s.order, g, 0);
      JoinsBehind(s, op.task, g);
    }
    hide Distance, Pop, Enqueue, Finished;
  }

  lemma {:induction false} JoinsBehind(s: State, t: Task, g: string)
    requires s.order == [g] && s.cursor == 0 && t.group != g && t.group !in s.queues
    ensures g in Enqueue(s, t).order && Distance(Enqueue(s, t), g) == 0
  {
    assert Enqueue(s, t).order == [g, t.group];
  }

  lemma {:induction false} ApplyKeepsBuffer(s: State, op: Op)
    requires Enabled(s, op)
    ensures Apply(s, op).maxBuffered == s.maxBuffered
  {
    hide BestOffset, Position;
  }

  lemma {:induction false} BypassInTwo(s: State, ops: seq<Op>, g: string)
    requires Valid(s) && s.maxBuffered <= 2 && g in s.order && PassedOver(s, ops, g)
    ensures Pops(ops) <= Distance(s, g)
    decreases |ops|
  {
    if ops == [] {
      DistanceLocates(s, g);
    } else {
      hide Valid, Apply, Distance, EqualHeads, Eligible;
      ApplyValid(s, ops[0]);
      ApplyKeepsBuffer(s, ops[0]);
      OpDistanceInTwo(s, ops[0], g);
      BypassInTwo(Apply(s, ops[0]), ops[1..], g);
    }
  }

  lemma {:induction false} RunValid(s: State, ops: seq<Op>)
    requires Valid(s) && IsRun(s, ops)
    ensures Valid(After(s, ops)) && After(s, ops).maxBuffered == s.maxBuffered
    decreases |ops|
  {
    if ops != [] {
      hide Valid, Apply, Enabled;
      ApplyValid(s, ops[0]);
      ApplyKeepsBuffer(s, ops[0]);
      RunValid(Apply(s, ops[0]), ops[1..]);
    }
  }

  /** Exactly the schedulers that buffer at least three tasks can pass a ready group of equal score
      over any number of times; the others pass it over once at most. */
  lemma {:induction false} StarvationNeedsThreePlaces(maxBuffered: int, cap: int)
    ensures (forall n :: Overtaken(maxBuffered, cap, n)) <==> Fresh(maxBuffered, cap).maxBuffered >= 3
    ensures Fresh(maxBuffered, cap).maxBuffered < 3 ==> !Overtaken(maxBuffered, cap, 2)
  {
    hide PassedOver, After, IsRun, Pops, CursorOnSecond, Fresh;
    var fresh0 := Fresh(maxBuffered, cap);
    if fresh0.maxBuffered >= 3 {
      forall n ensures Overtaken(maxBuffered, cap, n) {
        var before := CursorReachesSecond(maxBuffered, cap, "g", "h");
        var ops := NewGroupsCanStarve(After(fresh0, before), "g", "h", "k", n);
        SecondIsListed(After(fresh0, before), "g", "h");
      }
    } else if Overtaken(maxBuffered, cap, 2) {
      var before, ops, g :| && IsRun(fresh0, before) && g in After(fresh0, before).order
                            && PassedOver(After(fresh0, before), ops, g) && Pops(ops) >= 2;
      FreshValid(maxBuffered, cap);
      RunValid(fresh0, before);
      DistanceLocates(After(fresh0, before), g);
      GroupsFitBuffer(After(fresh0, before));
      hide Distance, Valid;
      BypassInTwo(After(fresh0, before), ops, g);
    }
  }

  lemma {:induction false} SecondIsListed(s: State, g: string, h: string)
    requires CursorOnSecond(s, g, h)
    ensures g in s.order
  {
    hide Valid;
    assert s.order[0] == g;
  }
}
