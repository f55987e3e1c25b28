/** The fair submission scheduler (go-core/internal/kernel/orchestrator.go:290-427): a FIFO queue per
    group, groups in rotation order, a cap on the items in flight per group. */
module SubmissionScheduler {

  /** A submitted task; `group` is the key that keeps related tasks in sequence. */
  datatype Task = Task(id: string, group: string)

  /** The highest score wins; scores are read once per pop. */
  type Score = Task -> real

  /** All tasks score the same. */
  const FLAT: Score := _ => 0.0

  datatype State = State(
    queues: map<string, seq<Task>>,
    order: seq<string>,
    inflight: map<string, nat>,
    totalPending: int,
    cursor: nat,
    maxBuffered: nat,
    cap: nat)

  function Queue(s: State, g: string): seq<Task> {
    if g in s.queues then s.queues[g] else []
  }

  function Inflight(s: State, g: string): nat {
    if g in s.inflight then s.inflight[g] else 0
  }

  /** `g` has an item to hand out and room under its cap. */
  predicate Eligible(s: State, g: string) {
    Queue(s, g) != [] && Inflight(s, g) < s.cap
  }

  // ---------------------------------------------------------------- representation

  function Backlog(order: seq<string>, queues: map<string, seq<Task>>): multiset<Task> {
    if order == [] then multiset{}
    else (if order[0] in queues then multiset(queues[order[0]]) else multiset{}) + Backlog(order[1..], queues)
  }

  /** Every item queued, in no particular order. */
  function Items(s: State): multiset<Task> {
    Backlog(s.order, s.queues)
  }

  ghost predicate NoDuplicates(order: seq<string>) {
    forall i, j :: 0 <= i < j < |order| ==> order[i] != order[j]
  }

  ghost predicate QueuesValid(order: seq<string>, queues: map<string, seq<Task>>) {
    && NoDuplicates(order)
    && (forall g :: g in order <==> g in queues)
    && (forall g :: g in queues ==> queues[g] != [])
    && (forall g, t :: g in queues && t in queues[g] ==> t.group == g)
  }

  ghost predicate InflightValid(inflight: map<string, nat>, cap: nat) {
    forall g :: g in inflight ==> 1 <= inflight[g] <= cap
  }

  ghost predicate CursorValid(order: seq<string>, cursor: nat) {
    if order == [] then cursor == 0 else cursor < |order|
  }

  ghost predicate Valid(s: State) {
    && QueuesValid(s.order, s.queues)
    && InflightValid(s.inflight, s.cap)
    && CursorValid(s.order, s.cursor)
    && s.totalPending == |Items(s)| <= s.maxBuffered
    && s.maxBuffered > 0 && s.cap > 0
  }

  function Fresh(maxBuffered: int, cap: int): State {
    State(map[], [], map[], 0, 0, if maxBuffered <= 0 then 16 else maxBuffered, if cap <= 0 then 1 else cap)
  }

  // ---------------------------------------------------------------- operations

  function Enqueue(s: State, t: Task): State {
    s.(order := if t.group in s.queues then s.order else s.order + [t.group],
       queues := s.queues[t.group := Queue(s, t.group) + [t]],
       totalPending := s.totalPending + 1)
  }

  function Finished(s: State, g: string): State {
    if Inflight(s, g) > 1 then s.(inflight := s.inflight[g := s.inflight[g] - 1])
    else if Inflight(s, g) == 1 then s.(inflight := s.inflight - {g})
    else s
  }

  /** The position `offset` places on from `cursor` in a rotation of `n`. */
  function Position(cursor: nat, offset: nat, n: nat): (i: nat)
    requires n > 0
    ensures i < n
  {
    (cursor + offset) % n
  }

  lemma {:induction false} PositionIs(cursor: nat, offset: nat, n: nat)
    requires cursor < n && offset <= n
    ensures Position(cursor, offset, n) == if cursor + offset < n then cursor + offset else cursor + offset - n
  {
    if cursor + offset < n {
      Wrap(cursor + offset, n);
    } else {
      Wrap(cursor + offset - n, n);
    }
  }

  lemma {:induction false} Wrap(i: nat, n: nat)
    requires i < n
    ensures i % n == i && (i + n) % n == i
  {
  }

  /** The group at rotation distance `offset` from the cursor. */
  function GroupAt(s: State, offset: nat): string
    requires s.order != []
  {
    s.order[Position(s.cursor, offset, |s.order|)]
  }

  /** The score of the item a group would hand out. */
  function HeadScore(s: State, score: Score, g: string): real
    requires Queue(s, g) != []
  {
    score(Queue(s, g)[0])
  }

  /** The first best group among the first `upTo` in rotation, as the scan finds it. */
  function Scan(s: State, score: Score, upTo: nat): (best: int)
    requires s.order != [] && upTo <= |s.order|
    ensures -1 <= best < upTo
    ensures best >= 0 ==> Eligible(s, GroupAt(s, best))
  {
    if upTo == 0 then -1
    else
      var best := Scan(s, score, upTo - 1);
      var g := GroupAt(s, upTo - 1);
      if !Eligible(s, g) then best
      else if best == -1 || HeadScore(s, score, g) > HeadScore(s, score, GroupAt(s, best)) then upTo - 1
      else best
  }

  lemma {:induction false} ScanStep(s: State, score: Score, upTo: nat)
    requires s.order != [] && upTo < |s.order|
    ensures var best, g := Scan(s, score, upTo), GroupAt(s, upTo);
            Scan(s, score, upTo + 1) ==
              if Eligible(s, g) && (best == -1
                   || HeadScore(s, score, g) > HeadScore(s, score, GroupAt(s, best))) then upTo
              else best
  {
    hide GroupAt, Queue, HeadScore;
  }

  lemma {:induction false} EligibleIs(s: State, g: string)
    ensures Eligible(s, g) <==>
              g in s.queues && |s.queues[g]| > 0 && !(g in s.inflight && s.inflight[g] >= s.cap) && s.cap > 0
    ensures g in s.queues ==> Queue(s, g) == s.queues[g]
  {
  }

  lemma {:induction false} GroupAtIs(s: State, offset: nat)
    requires s.order != []
    ensures GroupAt(s, offset) == s.order[Position(s.cursor, offset, |s.order|)]
  {
    hide Position;
  }

  function BestOffset(s: State, score: Score): int {
    if s.order == [] then -1 else Scan(s, score, |s.order|)
  }

  /** Take the head of the group at position `i` of the rotation order. */
  function PopAt(s: State, i: nat): State
    requires i < |s.order| && s.order[i] in s.queues && s.queues[s.order[i]] != []
  {
    var g := s.order[i];
    var inflight := s.inflight[g := Inflight(s, g) + 1];
    if |s.queues[g]| == 1 then
      var order := s.order[..i] + s.order[i + 1..];
      s.(queues := s.queues - {g}, order := order,
         cursor := if i >= |order| then 0 else i,
         totalPending := s.totalPending - 1, inflight := inflight)
    else
      s.(queues := s.queues[g := s.queues[g][1..]],
         cursor := Position(i, 1, |s.order|),
         totalPending := s.totalPending - 1, inflight := inflight)
  }

  datatype PopResult = Nothing | Popped(task: Task, next: State)

  function Pop(s: State, score: Score): PopResult {
    var best := BestOffset(s, score);
    if best == -1 then Nothing
    else
      var i := Position(s.cursor, best, |s.order|);
      Popped(s.queues[s.order[i]][0], PopAt(s, i))
  }

  // ---------------------------------------------------------------- what a pop means

  /** The group at this distance is eligible, nothing eligible scores higher, and what scores as
      high comes later in rotation. */
  ghost predicate FirstBest(s: State, score: Score, best: nat)
    requires s.order != []
  {
    && best < |s.order| && Eligible(s, GroupAt(s, best))
    && forall k :: 0 <= k < |s.order| && Eligible(s, GroupAt(s, k)) ==>
         var here, there := score(Queue(s, GroupAt(s, best))[0]), score(Queue(s, GroupAt(s, k))[0]);
         if k < best then there < here else there <= here
  }

  lemma {:induction false} ScanIsFirstBest(s: State, score: Score, upTo: nat)
    requires s.order != [] && upTo <= |s.order|
    ensures var best := Scan(s, score, upTo);
            && (best == -1 ==> forall k :: 0 <= k < upTo ==> !Eligible(s, GroupAt(s, k)))
            && (best >= 0 ==> forall k :: 0 <= k < upTo && Eligible(s, GroupAt(s, k)) ==>
                  var here, there := score(Queue(s, GroupAt(s, best))[0]), score(Queue(s, GroupAt(s, k))[0]);
                  if k < best then there < here else there <= here)
  {
    hide GroupAt;
    if upTo > 0 {
      ScanIsFirstBest(s, score, upTo - 1);
    }
  }

  lemma {:induction false} GroupHasOffset(s: State, g: string) returns (k: nat)
    requires g in s.order && CursorValid(s.order, s.cursor)
    ensures k < |s.order| && GroupAt(s, k) == g
  {
    var i :| 0 <= i < |s.order| && s.order[i] == g;
    k := if i >= s.cursor then i - s.cursor else i + |s.order| - s.cursor;
    PositionIs(s.cursor, k, |s.order|);
  }

  lemma {:induction false} QueuedGroupsAreListed(s: State, g: string)
    requires Valid(s) && Queue(s, g) != []
    ensures g in s.order && s.order != []
  {
    hide Backlog;
    assert g in s.queues;
  }

  /** A pop fails exactly when no group is eligible. Otherwise it returns the head of the first
      best group in rotation. */
  lemma {:induction false} PopMeaning(s: State, score: Score)
    requires Valid(s)
    ensures Pop(s, score).Nothing? <==> forall g :: !Eligible(s, g)
    ensures Pop(s, score).Popped? ==>
              && s.order != [] && BestOffset(s, score) >= 0 && FirstBest(s, score, BestOffset(s, score))
              && Pop(s, score).task == Queue(s, GroupAt(s, BestOffset(s, score)))[0]
  {
    hide Scan, Items, QueuesValid, InflightValid;
    if s.order != [] {
      ScanIsFirstBest(s, score, |s.order|);
      hide GroupAt;
      var best := BestOffset(s, score);
      if best >= 0 {
        QueuedGroupsAreListed(s, GroupAt(s, best));
      }
    }
    if g :| Eligible(s, g) {
      QueuedGroupsAreListed(s, g);
      var k := GroupHasOffset(s, g);
      assert Eligible(s, GroupAt(s, k));
    }
  }

  // ---------------------------------------------------------------- validity is kept

  lemma {:induction false} BacklogFrame(order: seq<string>, a: map<string, seq<Task>>, b: map<string, seq<Task>>)
    requires forall g :: g in order ==> (g in a <==> g in b) && (g in a ==> a[g] == b[g])
    ensures Backlog(order, a) == Backlog(order, b)
  {
    if order != [] {
      assert order[0] in order;
      BacklogFrame(order[1..], a, b);
    }
  }

  lemma {:induction false} BacklogConcat(x: seq<string>, y: seq<string>, queues: map<string, seq<Task>>)
    ensures Backlog(x + y, queues) == Backlog(x, queues) + Backlog(y, queues)
  {
    if x == [] {
      assert x + y == y;
    } else {
      assert (x + y)[1..] == x[1..] + y && (x + y)[0] == x[0];
      BacklogConcat(x[1..], y, queues);
    }
  }

  /** Changing one group's queue changes the backlog by the difference. */
  lemma {:induction false} BacklogUpdate(order: seq<string>, i: nat, queues: map<string, seq<Task>>,
                                         queues': map<string, seq<Task>>)
    requires i < |order| && NoDuplicates(order) && order[i] in queues
    requires forall g :: g in order && g != order[i] ==>
               (g in queues <==> g in queues') && (g in queues ==> queues[g] == queues'[g])
    ensures Backlog(order, queues) ==
              Backlog(order[..i], queues') + multiset(queues[order[i]]) + Backlog(order[i + 1..], queues')
    ensures order[i] in queues' ==>
              Backlog(order, queues') ==
                  Backlog(order[..i], queues') + multiset(queues'[order[i]]) + Backlog(order[i + 1..], queues')
  {
    var g, x, y := order[i], order[..i], order[i + 1..];
    assert order == x + ([g] + y);
    BacklogConcat(x, [g] + y, queues);
    BacklogConcat([g], y, queues);
    BacklogConcat(x, [g] + y, queues');
    BacklogConcat([g], y, queues');
    BacklogFrame(x, queues, queues');
    BacklogFrame(y, queues, queues');
    BacklogOne(g, queues);
    BacklogOne(g, queues');
  }

  lemma {:induction false} BacklogOne(g: string, queues: map<string, seq<Task>>)
    ensures Backlog([g], queues) == if g in queues then multiset(queues[g]) else multiset{}
  {
    assert Backlog([g][1..], queues) == multiset{};
  }

  lemma {:induction false} EnqueueItems(s: State, t: Task)
    requires Valid(s)
    ensures Items(Enqueue(s, t)) == Items(s) + multiset{t}
  {
    hide Backlog, InflightValid;
    var s' := Enqueue(s, t);
    if t.group in s.queues {
      assert t.group in s.order;
      var i :| 0 <= i < |s.order| && s.order[i] == t.group;
      BacklogUpdate(s.order, i, s.queues, s'.queues);
    } else {
      assert t.group !in s.order;
      BacklogConcat(s.order, [t.group], s'.queues);
      BacklogFrame(s.order, s.queues, s'.queues);
      BacklogOne(t.group, s'.queues);
    }
  }

  lemma {:induction false} EnqueueQueuesValid(s: State, t: Task)
    requires QueuesValid(s.order, s.queues)
    ensures QueuesValid(Enqueue(s, t).order, Enqueue(s, t).queues)
  {
    var s' := Enqueue(s, t);
    assert forall g :: g in s'.order <==> g in s.order || g == t.group by {
      assert t.group !in s.queues ==> s'.order[|s.order|] == t.group;
    }
  }

  lemma {:induction false} EnqueueValid(s: State, t: Task)
    requires Valid(s) && s.totalPending < s.maxBuffered
    ensures Valid(Enqueue(s, t))
  {
    EnqueueItems(s, t);
    EnqueueQueuesValid(s, t);
    hide Backlog, QueuesValid, Items;
  }

  lemma {:induction false} FinishedValid(s: State, g: string)
    requires Valid(s)
    ensures Valid(Finished(s, g)) && Items(Finished(s, g)) == Items(s)
    ensures forall h :: Inflight(Finished(s, g), h) == if h == g && Inflight(s, g) > 0 then Inflight(s, g) - 1
              else Inflight(s, h)
  {
    hide Backlog, QueuesValid;
  }

  lemma {:induction false} PopAtItems(s: State, i: nat)
    requires Valid(s) && i < |s.order| && s.order[i] in s.queues
    ensures s.queues[s.order[i]] != []
    ensures Items(s) == Items(PopAt(s, i)) + multiset{s.queues[s.order[i]][0]}
  {
    hide Backlog, InflightValid;
    var s' := PopAt(s, i);
    var g := s.order[i];
    var q := s.queues[g];
    assert q == [q[0]] + q[1..];
    BacklogUpdate(s.order, i, s.queues, s'.queues);
    if |q| == 1 {
      BacklogConcat(s.order[..i], s.order[i + 1..], s'.queues);
    }
  }

  lemma {:induction false} RemoveAt(order: seq<string>, i: nat)
    requires i < |order| && NoDuplicates(order)
    ensures NoDuplicates(order[..i] + order[i + 1..])
    ensures forall g :: g in order[..i] + order[i + 1..] <==> g in order && g != order[i]
  {
    var rest := order[..i] + order[i + 1..];
    forall g | g in order && g != order[i] ensures g in rest {
      var k :| 0 <= k < |order| && order[k] == g;
      assert k < i ==> rest[k] == g;
      assert k > i ==> rest[k - 1] == g;
    }
    forall k | 0 <= k < |rest| ensures rest[k] == order[if k < i then k else k + 1] {
    }
  }

  lemma {:induction false} PopAtQueuesValid(s: State, i: nat)
    requires QueuesValid(s.order, s.queues) && i < |s.order| && s.order[i] in s.queues
    ensures QueuesValid(PopAt(s, i).order, PopAt(s, i).queues)
  {
    RemoveAt(s.order, i);
    hide NoDuplicates;
    var g := s.order[i];
    forall t | t in s.queues[g][1..] ensures t in s.queues[g] {
    }
  }

  lemma {:induction false} PopAtCursor(s: State, i: nat)
    requires i < |s.order| && s.order[i] in s.queues && s.queues[s.order[i]] != []
    ensures CursorValid(PopAt(s, i).order, PopAt(s, i).cursor)
  {
  }

  lemma {:induction false} PopAtInflight(s: State, i: nat)
    requires InflightValid(s.inflight, s.cap) && i < |s.order| && s.order[i] in s.queues && s.queues[s.order[i]] != []
    requires Inflight(s, s.order[i]) < s.cap
    ensures InflightValid(PopAt(s, i).inflight, s.cap)
  {
  }

  lemma {:induction false} PopAtValid(s: State, i: nat)
    requires Valid(s) && i < |s.order| && s.order[i] in s.queues
    requires Inflight(s, s.order[i]) < s.cap
    ensures s.queues[s.order[i]] != [] && Valid(PopAt(s, i))
  {
    PopAtItems(s, i);
    PopAtQueuesValid(s, i);
    PopAtCursor(s, i);
    PopAtInflight(s, i);
    hide Backlog, QueuesValid, Items, CursorValid, InflightValid, Inflight;
  }

  lemma {:induction false} PopPosition(s: State, score: Score) returns (i: nat)
    requires Valid(s) && Pop(s, score).Popped?
    ensures i < |s.order| && s.order[i] in s.queues && s.queues[s.order[i]] != []
    ensures Eligible(s, s.order[i]) && Pop(s, score) == Popped(s.queues[s.order[i]][0], PopAt(s, i))
  {
    hide Items, QueuesValid, InflightValid, PopAt;
    PopMeaning(s, score);
    i := Position(s.cursor, BestOffset(s, score), |s.order|);
    hide BestOffset, FirstBest;
  }

  /** A pop moves one item out of the backlog and into flight, and keeps the scheduler valid. */
  lemma {:induction false} PopValid(s: State, score: Score)
    requires Valid(s) && Pop(s, score).Popped?
    ensures var Popped(t, s') := Pop(s, score);
            && Valid(s') && Items(s) == Items(s') + multiset{t}
            && Eligible(s, t.group) && Queue(s, t.group) == [t] + Queue(s', t.group)
            && (forall g :: g != t.group ==> Queue(s', g) == Queue(s, g))
            && (forall g :: Inflight(s', g) == Inflight(s, g) + if g == t.group then 1 else 0)
  {
    var i := PopPosition(s, score);
    hide Pop, Items, Inflight, Queue, PopAt;
    PopAtItems(s, i);
    PopAtValid(s, i) by {
      EligibleHasRoom(s, s.order[i]);
    }
    PopAtQueues(s, i);
  }

  lemma {:induction false} EligibleHasRoom(s: State, g: string)
    requires Eligible(s, g)
    ensures Inflight(s, g) < s.cap
  {
  }

  lemma {:induction false} PopAtQueues(s: State, i: nat)
    requires QueuesValid(s.order, s.queues) && i < |s.order| && s.order[i] in s.queues
    ensures var t, s' := s.queues[s.order[i]][0], PopAt(s, i);
            && t.group == s.order[i] && Queue(s, t.group) == [t] + Queue(s', t.group)
            && (forall g :: g != t.group ==> Queue(s', g) == Queue(s, g))
            && (forall g :: Inflight(s', g) == Inflight(s, g) + if g == t.group then 1 else 0)
  {
  }

  lemma {:induction false} OrderFitsPending(order: seq<string>, queues: map<string, seq<Task>>)
    requires forall g :: g in order ==> g in queues && queues[g] != []
    ensures |Backlog(order, queues)| >= |order|
  {
    if order != [] {
      assert order[0] in order;
      OrderFitsPending(order[1..], queues);
    }
  }

  /** Each group in rotation holds a task, and all tasks fit the buffer. */
  lemma {:induction false} GroupsFitBuffer(s: State)
    requires Valid(s)
    ensures |s.order| <= s.totalPending <= s.maxBuffered
  {
    hide Backlog, InflightValid;
    OrderFitsPending(s.order, s.queues);
  }

  lemma {:induction false} FreshValid(maxBuffered: int, cap: int)
    ensures Valid(Fresh(maxBuffered, cap)) && Items(Fresh(maxBuffered, cap)) == multiset{}
  {
  }

  // ---------------------------------------------------------------- the scheduler object

  lemma {:induction false} NothingQueued(s: State)
    requires Valid(s) && s.order == []
    ensures s.totalPending == 0 < s.maxBuffered
  {
    hide QueuesValid, InflightValid;
  }

  /** A task that is alone in the queues, with its group below its cap, is what a pop takes. */
  lemma {:induction false} PopsTheOnly(s: State, t: Task, score: Score)
    requires Valid(s) && s.order == [] && Inflight(s, t.group) < s.cap
    ensures var q := Enqueue(s, t);
            && Valid(q) && Pop(q, score).Popped? && Pop(q, score).task == t
            && Valid(Pop(q, score).next) && Pop(q, score).next.order == [] && Pop(q, score).next.cap == s.cap
            && Inflight(Pop(q, score).next, t.group) == Inflight(s, t.group) + 1
  {
    NothingQueued(s);
    assert s.queues.Keys == {};
    EnqueueValid(s, t);
    PopValid(Enqueue(s, t), score);
    hide Valid;
    var q := Enqueue(s, t);
    assert q.order == [t.group] && q.queues[t.group] == [t];
    assert Eligible(q, GroupAt(q, 0));
    assert Scan(q, score, 1) == 0;
    assert q.order[..0] + q.order[1..] == [];
  }

  lemma {:induction false} ValidFields(s: State)
    requires Valid(s)
    ensures s.maxBuffered > 0 && s.cap > 0 && CursorValid(s.order, s.cursor)
  {
    hide CursorValid, QueuesValid, InflightValid, Items;
  }

  lemma {:induction false} EnqueueIs(s: State, t: Task)
    ensures t.group in s.queues ==>
              Enqueue(s, t) ==
                  s.(queues := s.queues[t.group := s.queues[t.group] + [t]], totalPending := s.totalPending + 1)
    ensures t.group !in s.queues ==>
              Enqueue(s, t) ==
                  s.(order := s.order + [t.group], queues := s.queues[t.group := [t]],
                      totalPending := s.totalPending + 1)
  {
    assert [] + [t] == [t];
  }

  lemma {:induction false} InflightIs(s: State, g: string)
    ensures Inflight(s, g) == if g in s.inflight then s.inflight[g] else 0
  {
  }

  lemma {:induction false} PopTakes(s: State, score: Score)
    requires Valid(s)
    ensures var best := BestOffset(s, score);
            && (best == -1 ==> Pop(s, score).Nothing?)
            && (best != -1 ==>
                  var i := Position(s.cursor, best, |s.order|);
                  && s.order != [] && s.order[i] in s.queues && s.queues[s.order[i]] != []
                  && Pop(s, score) == Popped(s.queues[s.order[i]][0], PopAt(s, i)))
  {
    hide Scan, PopAt, Items;
  }

  class Scheduler {
    const maxBuffered: nat
    const cap: nat
    var queues: map<string, seq<Task>>
    var order: seq<string>
    var inflight: map<string, nat>
    var totalPending: int
    var cursor: nat
    /** The two signal channels, each holding at most one token. */
    var wake: bool
    var space: bool

    ghost function View(): State
      reads this
    {
      State(queues, order, inflight, totalPending, cursor, maxBuffered, cap)
    }

    constructor (maxBuffered: int, cap: int)
      ensures View() == Fresh(maxBuffered, cap) && Valid(View())
      ensures !wake && !space
    {
      this.maxBuffered := if maxBuffered <= 0 then 16 else maxBuffered;
      this.cap := if cap <= 0 then 1 else cap;
      queues, order, inflight := map[], [], map[];
      totalPending, cursor := 0, 0;
      wake, space := false, false;
      new;
      FreshValid(maxBuffered, cap);
    }

    /** One attempt of the blocking enqueue: it goes through exactly when the buffer has room. */
    method TryEnqueue(item: Task) returns (accepted: bool)
      requires Valid(View())
      modifies this
      ensures Valid(View())
      ensures accepted == (old(totalPending) < maxBuffered)
      ensures View() == if accepted then Enqueue(old(View()), item) else old(View())
      ensures wake == (old(wake) || accepted) && space == old(space)
    {
      hide Valid, Enqueue;
      accepted := totalPending < maxBuffered;
      if accepted {
        EnqueueValid(View(), item);
        EnqueueIs(View(), item);
        if item.group !in queues {
          order, queues := order + [item.group], queues[item.group := [item]];
        } else {
          queues := queues[item.group := queues[item.group] + [item]];
        }
        totalPending, wake := totalPending + 1, true;
      }
    }

    /** Scan the groups in rotation for the best head; -1 when there is none to take. */
    method FindBest(score: Score) returns (best: int)
      requires CursorValid(order, cursor) && cap > 0
      ensures best == if BestOffset(View(), score) == -1 then -1
                else Position(cursor, BestOffset(View(), score), |order|)
    {
      if |order| == 0 {
        return -1;
      }
      ghost var s := View();
      ghost var bestOffset := -1;
      best := -1;
      var bestScore := -1.0;
      var start := Position(0, cursor, |order|);
      PositionIs(0, cursor, |order|);
      assert Scan(s, score, 0) == -1;
      hide Position, Scan, GroupAt, Eligible, Queue;
      for offset := 0 to |order|
        invariant start == cursor < |order|
        invariant bestOffset == Scan(s, score, offset)
        invariant best == if bestOffset == -1 then -1 else Position(cursor, bestOffset, |order|)
        invariant bestOffset >= 0 ==> bestScore == HeadScore(s, score, GroupAt(s, bestOffset))
      {
        ScanStep(s, score, offset);
        var orderIndex := Position(start, offset, |order|);
        var group := order[orderIndex];
        GroupAtIs(s, offset);
        EligibleIs(s, group);
        if group !in queues || |queues[group]| == 0 {
          continue;
        }
        if group in inflight && inflight[group] >= cap {
          continue;
        }
        var headScore := score(queues[group][0]);
        if best == -1 || headScore > bestScore {
          best, bestScore := orderIndex, headScore;
          bestOffset := offset;
        }
      }
    }

    /** Take the head of the best group, if there is one. */
    method PopNext(score: Score) returns (ok: bool, item: Task)
      requires Valid(View())
      modifies this
      ensures Valid(View()) && wake == old(wake) && space == old(space)
      ensures ok == Pop(old(View()), score).Popped?
      ensures ok ==> Pop(old(View()), score) == Popped(item, View())
      ensures !ok ==> View() == old(View())
    {
      hide Valid, BestOffset, Position, Pop, Queue, Inflight, Eligible, CursorValid, Items;
      ValidFields(View());
      PopTakes(View(), score);
      var best := FindBest(score);
      if best == -1 {
        return false, Task("", "");
      }
      PopValid(View(), score);
      InflightIs(View(), order[best]);
      var group := order[best];
      var queue := queues[group];
      item := queue[0];
      var taken := (if group in inflight then inflight[group] else 0) + 1;
      if |queue| == 1 {
        var rest := order[..best] + order[best + 1..];
        queues, order, cursor, totalPending, inflight :=
          queues - {group}, rest, if best >= |rest| then 0 else best, totalPending - 1, inflight[group := taken];
      } else {
        queues, cursor, totalPending, inflight :=
          queues[group := queue[1..]], Position(best, 1, |order|), totalPending - 1, inflight[group := taken];
      }
      return true, item;
    }

    /** Give back one unit of a group's cap. */
    method Done(group: string)
      requires Valid(View())
      modifies this
      ensures Valid(View()) && View() == Finished(old(View()), group)
      ensures wake && space == old(space)
    {
      hide Valid, Items;
      FinishedValid(View(), group);
      if group in inflight && inflight[group] > 0 {
        var left := inflight[group] - 1;
        inflight := if left == 0 then inflight - {group} else inflight[group := left];
      }
      wake := true;
    }
  }
}
