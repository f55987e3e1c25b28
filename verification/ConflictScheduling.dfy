/** Which ready plan tasks may start together (go-core/internal/kernel/advanced_planner.go:625-721):
    a greedy pass in weight order that skips a task sharing a conflict key with anything active
    or already chosen. */
module ConflictScheduling {
  import opened Text
  import opened Sorting

  datatype PlanTask = PlanTask(
    id: string,
    dependencies: seq<string>,
    conflictKeys: seq<string>,
    files: seq<string>,
    weight: real)

  /** The conflict keys of a task that count. */
  function Keys(task: PlanTask): set<string> {
    TrimmedSet(task.conflictKeys)
  }

  method HasConflictKeys(task: PlanTask, used: set<string>) returns (conflict: bool)
    ensures conflict <==> !(Keys(task) !! used)
  {
    var raw := task.conflictKeys;
    assert TrimmedSet(raw[..0]) == {};
    hide Trim, TrimmedSet;
    for i := 0 to |raw|
      invariant TrimmedSet(raw[..i]) !! used
    {
      TrimmedSetStep(raw, i);
      var trimmed := Trim(raw[i]);
      if trimmed == "" {
        continue;
      }
      if trimmed in used {
        assert trimmed in TrimmedSet(raw[..i + 1]);
        TrimmedSetPrefix(raw, i + 1);
        return true;
      }
    }
    assert raw[..|raw|] == raw;
    return false;
  }

  method RegisterConflictKeys(task: PlanTask, used: set<string>) returns (registered: set<string>)
    ensures registered == used + Keys(task)
  {
    var raw := task.conflictKeys;
    assert TrimmedSet(raw[..0]) == {};
    hide Trim, TrimmedSet;
    registered := used;
    for i := 0 to |raw|
      invariant registered == used + TrimmedSet(raw[..i])
    {
      TrimmedSetStep(raw, i);
      var trimmed := Trim(raw[i]);
      if trimmed == "" {
        continue;
      }
      registered := registered + {trimmed};
    }
    assert raw[..|raw|] == raw;
  }

  /** The order of the greedy pass: weight, then number of files, then id. */
  predicate RunsBefore(a: PlanTask, b: PlanTask) {
    if a.weight == b.weight then
      if |a.files| == |b.files| then LexLess(a.id, b.id) else |a.files| < |b.files|
    else
      a.weight < b.weight
  }

  predicate IdBefore(a: PlanTask, b: PlanTask) {
    LexLess(a.id, b.id)
  }

  lemma {:induction false} LexNegativelyTransitive(a: string, b: string, c: string)
    requires !LexLess(b, a) && !LexLess(c, b)
    ensures !LexLess(c, a)
  {
    LexTotal(a, b);
    LexTotal(b, c);
    LexAsymmetric(a, c);
    if LexLess(a, b) && LexLess(b, c) {
      LexTransitive(a, b, c);
    }
  }

  lemma {:induction false} OrdersAreWeak()
    ensures IsWeakOrder(RunsBefore) && IsWeakOrder(IdBefore)
  {
    forall a, b | RunsBefore(a, b) ensures !RunsBefore(b, a) {
      LexAsymmetric(a.id, b.id);
    }
    forall a, b, c | !RunsBefore(b, a) && !RunsBefore(c, b) ensures !RunsBefore(c, a) {
      if !LexLess(b.id, a.id) && !LexLess(c.id, b.id) {
        LexNegativelyTransitive(a.id, b.id, c.id);
      }
    }
    forall a, b | IdBefore(a, b) ensures !IdBefore(b, a) {
      LexAsymmetric(a.id, b.id);
    }
    forall a, b, c | !IdBefore(b, a) && !IdBefore(c, b) ensures !IdBefore(c, a) {
      LexNegativelyTransitive(a.id, b.id, c.id);
    }
  }

  function Greedy(sorted: seq<PlanTask>, used: set<string>): seq<PlanTask> {
    if sorted == [] then []
    else if !(Keys(sorted[0]) !! used) then Greedy(sorted[1..], used)
    else [sorted[0]] + Greedy(sorted[1..], used + Keys(sorted[0]))
  }

  /** The set of tasks to start, given the keys of the tasks already running. A list of at most
      one task takes a shortcut around the greedy pass. */
  function Schedule(ready: seq<PlanTask>, active: set<string>): seq<PlanTask> {
    if |ready| <= 1 then
      if |ready| == 1 && !(Keys(ready[0]) !! active) then [] else ready
    else
      Greedy(Sort(RunsBefore, ready), active)
  }

  method ScheduleReadyArtifacts(ready: seq<PlanTask>, active: set<string>) returns (scheduled: seq<PlanTask>)
    ensures scheduled == Schedule(ready, active)
  {
    if |ready| <= 1 {
      if |ready| == 1 {
        var conflict := HasConflictKeys(ready[0], active);
        if conflict {
          return [];
        }
      }
      return ready;
    }
    var sorted := Sort(RunsBefore, ready);
    scheduled := [];
    var used := active;
    for i := 0 to |sorted|
      invariant Greedy(sorted, active) == scheduled + Greedy(sorted[i..], used)
    {
      assert sorted[i..][1..] == sorted[i + 1..];
      var conflict := HasConflictKeys(sorted[i], used);
      if conflict {
        continue;
      }
      scheduled := scheduled + [sorted[i]];
      used := RegisterConflictKeys(sorted[i], used);
    }
  }

  ghost predicate PairwiseDisjoint(tasks: seq<PlanTask>) {
    forall i, j :: 0 <= i < j < |tasks| ==> Keys(tasks[i]) !! Keys(tasks[j])
  }

  /** `t` shares a key with the active tasks, or with a chosen task that sorts no later than it. */
  ghost predicate Displaced(t: PlanTask, active: set<string>, chosen: seq<PlanTask>) {
    || !(Keys(t) !! active)
    || exists c :: c in chosen && !(Keys(t) !! Keys(c)) && !RunsBefore(t, c)
  }

  /** The result is an independent set drawn from the input, and a maximal one: whatever was left
      out collides with something active or with something chosen ahead of it. */
  ghost predicate MaximalIndependentChoice(ready: seq<PlanTask>, active: set<string>, chosen: seq<PlanTask>) {
    && multiset(chosen) <= multiset(ready)
    && PairwiseDisjoint(chosen)
    && (forall t :: t in chosen ==> Keys(t) !! active)
    && (forall t :: t in ready && t !in chosen ==> Displaced(t, active, chosen))
  }

  /** Choosing `head` ahead of a maximal choice for the rest keeps the choice independent. */
  lemma {:induction false} PrependIndependent(head: PlanTask, used: set<string>, tail: seq<PlanTask>)
    requires Keys(head) !! used
    requires PairwiseDisjoint(tail) && forall t :: t in tail ==> Keys(t) !! used + Keys(head)
    ensures PairwiseDisjoint([head] + tail) && forall t :: t in [head] + tail ==> Keys(t) !! used
  {
    hide Keys;
    var out := [head] + tail;
    forall i, j | 0 <= i < j < |out| ensures Keys(out[i]) !! Keys(out[j]) {
      assert out[j] == tail[j - 1] && out[j] in tail;
      if i > 0 {
        assert out[i] == tail[i - 1];
      }
    }
  }

  /** A task displaced with `head`'s keys in use is displaced by `head` or as before. */
  lemma {:induction false} PrependDisplaces(t: PlanTask, head: PlanTask, used: set<string>, tail: seq<PlanTask>)
    requires !RunsBefore(t, head)
    requires Displaced(t, used + Keys(head), tail)
    ensures Displaced(t, used, [head] + tail)
  {
    hide Keys, RunsBefore;
    var out := [head] + tail;
    if Keys(t) !! used {
      if !(Keys(t) !! Keys(head)) {
        assert out[0] == head && head in out;
      } else {
        var c :| c in tail && !(Keys(t) !! Keys(c)) && !RunsBefore(t, c);
        assert c in out;
      }
    }
  }

  lemma {:induction false} SkipHead(head: PlanTask, rest: seq<PlanTask>, used: set<string>, chosen: seq<PlanTask>)
    requires !(Keys(head) !! used)
    requires MaximalIndependentChoice(rest, used, chosen)
    ensures MaximalIndependentChoice([head] + rest, used, chosen)
  {
    hide Keys, RunsBefore;
    assert multiset([head] + rest) == multiset{head} + multiset(rest);
    forall t | t in [head] + rest && t !in chosen ensures Displaced(t, used, chosen) {
      if t != head {
        assert t in rest;
      }
    }
  }

  lemma {:induction false} TakeHead(head: PlanTask, rest: seq<PlanTask>, used: set<string>, tail: seq<PlanTask>)
    requires Keys(head) !! used
    requires forall t :: t in rest ==> !RunsBefore(t, head)
    requires MaximalIndependentChoice(rest, used + Keys(head), tail)
    ensures MaximalIndependentChoice([head] + rest, used, [head] + tail)
  {
    hide Keys, RunsBefore, Displaced;
    PrependIndependent(head, used, tail);
    assert multiset([head] + rest) == multiset{head} + multiset(rest);
    assert multiset([head] + tail) == multiset{head} + multiset(tail);
    forall t | t in [head] + rest && t !in [head] + tail ensures Displaced(t, used, [head] + tail) {
      assert ([head] + tail)[0] == head && forall x :: x in tail ==> x in [head] + tail;
      assert t in rest && t !in tail;
      PrependDisplaces(t, head, used, tail);
    }
  }

  lemma {:induction false} GreedyIsMaximal(sorted: seq<PlanTask>, used: set<string>)
    requires Sorted(RunsBefore, sorted)
    ensures MaximalIndependentChoice(sorted, used, Greedy(sorted, used))
  {
    if sorted != [] {
      hide Keys, RunsBefore, MaximalIndependentChoice;
      var head, rest := sorted[0], sorted[1..];
      assert sorted == [head] + rest;
      if !(Keys(head) !! used) {
        GreedyIsMaximal(rest, used);
        SkipHead(head, rest, used, Greedy(rest, used));
      } else {
        GreedyIsMaximal(rest, used + Keys(head));
        forall t | t in rest ensures !RunsBefore(t, head) {
          var k :| 1 <= k < |sorted| && sorted[k] == t;
        }
        TakeHead(head, rest, used, Greedy(rest, used + Keys(head)));
      }
    }
  }

  lemma {:induction false} ScheduleIsMaximal(ready: seq<PlanTask>, active: set<string>)
    ensures MaximalIndependentChoice(ready, active, Schedule(ready, active))
  {
    hide Keys, RunsBefore, Greedy;
    if |ready| > 1 {
      OrdersAreWeak();
      SortSorted(RunsBefore, ready);
      var sorted := Sort(RunsBefore, ready);
      GreedyIsMaximal(sorted, active);
      forall t | t in ready ensures t in sorted {
        assert t in multiset(ready);
      }
    }
  }

  /** The shortcut for short lists computes what the greedy pass would. */
  lemma {:induction false} ShortcutAgrees(ready: seq<PlanTask>, active: set<string>)
    ensures Schedule(ready, active) == Greedy(Sort(RunsBefore, ready), active)
  {
    if |ready| == 1 {
      assert Sort(RunsBefore, ready[1..]) == [];
      assert Sort(RunsBefore, ready) == ready;
      var rest := ready[1..];
      assert rest == [] && Greedy(rest, active) == [] && Greedy(rest, active + Keys(ready[0])) == [];
    }
  }

  /** `a` is lighter than `b`, or as light with fewer files. */
  predicate Lighter(a: PlanTask, b: PlanTask) {
    a.weight < b.weight || (a.weight == b.weight && |a.files| < |b.files|)
  }

  /** Whatever is left out clashes with something running, or with something chosen that is no heavier
      and, at the same weight, has no more files. */
  lemma {:induction false} LeftOutForALighterOne(ready: seq<PlanTask>, active: set<string>, t: PlanTask)
    requires t in ready && t !in Schedule(ready, active)
    ensures || !(Keys(t) !! active)
            || exists c :: c in Schedule(ready, active) && !(Keys(t) !! Keys(c)) && !Lighter(t, c)
  {
    ScheduleIsMaximal(ready, active);
    hide Keys, Schedule;
  }

  /** Of ready tasks that clash, the lightest starts: a task clear of everything running, and ahead of
      every other ready task it clashes with by weight, then files, then id, is among those chosen. */
  lemma {:induction false} LightestStarts(ready: seq<PlanTask>, active: set<string>, t: PlanTask)
    requires t in ready && Keys(t) !! active
    requires forall u :: u in ready && u != t && !(Keys(t) !! Keys(u)) ==>
               Lighter(t, u) || (!Lighter(u, t) && LexLess(t.id, u.id))
    ensures t in Schedule(ready, active)
  {
    ScheduleIsMaximal(ready, active);
    hide Schedule, Keys;
    var chosen := Schedule(ready, active);
    forall c | c in chosen ensures c in ready {
      assert c in multiset(chosen);
    }
  }

  ghost predicate UniqueIds(tasks: seq<PlanTask>) {
    forall i, j :: 0 <= i < j < |tasks| ==> tasks[i].id != tasks[j].id
  }

  lemma {:induction false} UniqueIdsSeparate(tasks: seq<PlanTask>)
    requires UniqueIds(tasks)
    ensures Separates(RunsBefore, tasks)
  {
    forall a, b | a in tasks && b in tasks && a != b ensures RunsBefore(a, b) || RunsBefore(b, a) {
      var i :| 0 <= i < |tasks| && tasks[i] == a;
      var j :| 0 <= j < |tasks| && tasks[j] == b;
      LexTotal(a.id, b.id);
    }
  }

  /** With distinct ids, the tasks started do not depend on the order the ready list came in. */
  lemma {:induction false} ScheduleIgnoresInputOrder(ready: seq<PlanTask>, other: seq<PlanTask>, active: set<string>)
    requires UniqueIds(ready) && multiset(ready) == multiset(other)
    ensures Schedule(ready, active) == Schedule(other, active)
  {
    hide Keys, RunsBefore;
    OrdersAreWeak();
    UniqueIdsSeparate(ready);
    SortIgnoresInputOrder(RunsBefore, ready, other);
    ShortcutAgrees(ready, active);
    ShortcutAgrees(other, active);
  }

  lemma {:induction false} ChosenDisjoint(chosen: seq<PlanTask>, a: PlanTask, b: PlanTask)
    requires PairwiseDisjoint(chosen) && a in chosen && b in chosen && a != b
    ensures Keys(a) !! Keys(b)
  {
    hide Keys;
    var i :| 0 <= i < |chosen| && chosen[i] == a;
    var j :| 0 <= j < |chosen| && chosen[j] == b;
    assert i < j || j < i;
  }

  /** With nothing running, all ready tasks start together exactly when no two of them share a key. */
  lemma {:induction false} AllStartIffDisjoint(ready: seq<PlanTask>)
    requires UniqueIds(ready)
    ensures (forall t :: t in ready ==> t in Schedule(ready, {})) <==> PairwiseDisjoint(ready)
  {
    hide Keys, Schedule, RunsBefore;
    var chosen := Schedule(ready, {});
    ScheduleIsMaximal(ready, {});
    if PairwiseDisjoint(ready) {
      forall t | t in ready ensures t in chosen {
        if t !in chosen {
          var c :| c in chosen && !(Keys(t) !! Keys(c)) && !RunsBefore(t, c);
          assert c in multiset(chosen);
          ChosenDisjoint(ready, t, c);
        }
      }
    } else if forall t :: t in ready ==> t in chosen {
      var i, j :| 0 <= i < j < |ready| && !(Keys(ready[i]) !! Keys(ready[j]));
      ChosenDisjoint(chosen, ready[i], ready[j]);
    }
  }

  /** With nothing running, some ready task always starts. */
  lemma {:induction false} IdleScheduleStarts(ready: seq<PlanTask>)
    requires ready != []
    ensures Schedule(ready, {}) != []
  {
    ShortcutAgrees(ready, {});
    assert Keys(Sort(RunsBefore, ready)[0]) !! {};
  }
}
