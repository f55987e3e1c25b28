/** The lane scheduler of the managed coding runtime
    (go-core/internal/kernel/managed_coding_runtime.go:111-127, 567-702): every lane whose
    dependencies are complete starts at once, in priority order, and results arrive in any order. */
module PlanLanes {
  import opened Basics
  import opened Text
  import opened Sorting
  import opened PlanGraph

  /** A lane: a plan step with its worker class, already trimmed and lower-cased. */
  datatype Lane = Lane(id: string, dependencies: seq<string>, worker: string)

  datatype Event = Started(id: string) | Done(id: string)

  datatype Outcome = AllCompleted | BlockedByDependencies | LaneFailed(id: string) | Cancelled

  /** The launch priority of a worker class. */
  function LanePriority(worker: string): nat {
    if worker in ["planner", "planning"] then 0
    else if worker in ["retrieval", "rag", "context"] then 1
    else if worker in ["coder", "coding", "implementer"] then 2
    else if worker in ["reviewer", "review"] then 3
    else if worker in ["tester", "test", "qa"] then 4
    else 5
  }

  ghost predicate DistinctLanes(lanes: seq<Lane>) {
    forall i, j :: 0 <= i < j < |lanes| ==> lanes[i].id != lanes[j].id
  }

  lemma {:induction false} LaneById(lanes: seq<Lane>, a: Lane, b: Lane)
    requires DistinctLanes(lanes) && a in lanes && b in lanes && a.id == b.id
    ensures a == b
  {
    var i :| 0 <= i < |lanes| && lanes[i] == a;
    var j :| 0 <= j < |lanes| && lanes[j] == b;
  }

  lemma {:induction false} LanesById(lanes: seq<Lane>)
    requires DistinctLanes(lanes)
    ensures forall a, b :: a in lanes && b in lanes && a.id == b.id ==> a == b
  {
    forall a, b | a in lanes && b in lanes && a.id == b.id ensures a == b {
      LaneById(lanes, a, b);
    }
  }

  ghost function LaneGraph(lanes: seq<Lane>): Graph
    requires DistinctLanes(lanes)
  {
    LanesById(lanes);
    map l | l in lanes :: l.id := Elements(l.dependencies)
  }

  lemma {:induction false} LaneInGraph(lanes: seq<Lane>, l: Lane)
    requires DistinctLanes(lanes) && l in lanes
    ensures l.id in LaneGraph(lanes) && LaneGraph(lanes)[l.id] == Elements(l.dependencies)
  {
    LanesById(lanes);
  }

  lemma {:induction false} GraphSize(lanes: seq<Lane>)
    requires DistinctLanes(lanes)
    ensures |LaneGraph(lanes).Keys| == |lanes|
  {
    var ids := seq(|lanes|, i requires 0 <= i < |lanes| => lanes[i].id);
    DistinctSize(ids);
    forall x | x in LaneGraph(lanes).Keys ensures x in Elements(ids) {
      var l :| l in lanes && l.id == x;
      var k :| 0 <= k < |lanes| && lanes[k] == l;
      assert ids[k] == x;
    }
    forall x | x in Elements(ids) ensures x in LaneGraph(lanes).Keys {
      var k :| 0 <= k < |ids| && ids[k] == x;
      assert lanes[k] in lanes;
    }
    assert Elements(ids) == LaneGraph(lanes).Keys;
  }

  // ---------------------------------------------------------------- ready lanes

  predicate LaneReady(l: Lane, started: set<string>, completed: set<string>) {
    l.id !in started && forall d :: d in l.dependencies ==> d in completed
  }

  function ReadyInPlanOrder(lanes: seq<Lane>, started: set<string>, completed: set<string>): seq<Lane> {
    Select(lanes, l => LaneReady(l, started, completed))
  }

  lemma {:induction false} ReadyInPlanOrderHas(lanes: seq<Lane>, started: set<string>, completed: set<string>, l: Lane)
    ensures l in ReadyInPlanOrder(lanes, started, completed) <==> l in lanes && LaneReady(l, started, completed)
  {
    hide LaneReady;
    SelectHas(lanes, x => LaneReady(x, started, completed), l);
  }

  lemma {:induction false} ReadyInPlanOrderDistinct(lanes: seq<Lane>, started: set<string>, completed: set<string>)
    requires DistinctLanes(lanes)
    ensures DistinctLanes(ReadyInPlanOrder(lanes, started, completed))
  {
    hide LaneReady;
    if lanes != [] {
      var n := |lanes| - 1;
      ReadyInPlanOrderDistinct(lanes[..n], started, completed);
      forall l | l in ReadyInPlanOrder(lanes[..n], started, completed) ensures l.id != lanes[n].id {
        ReadyInPlanOrderHas(lanes[..n], started, completed, l);
      }
    }
  }

  predicate LaunchesBefore(a: Lane, b: Lane) {
    if LanePriority(a.worker) != LanePriority(b.worker) then LanePriority(a.worker) < LanePriority(b.worker)
         else LexLess(a.id, b.id)
  }

  /** The lanes to launch this round, in launch order. */
  function LaunchList(lanes: seq<Lane>, started: set<string>, completed: set<string>): seq<Lane> {
    Sort(LaunchesBefore, ReadyInPlanOrder(lanes, started, completed))
  }

  lemma {:induction false} LaunchListHas(lanes: seq<Lane>, started: set<string>, completed: set<string>, l: Lane)
    ensures l in LaunchList(lanes, started, completed) <==> l in lanes && LaneReady(l, started, completed)
  {
    hide LaneReady, LaunchesBefore, Sort;
    var unsorted := ReadyInPlanOrder(lanes, started, completed);
    ReadyInPlanOrderHas(lanes, started, completed, l);
    assert l in Sort(LaunchesBefore, unsorted) <==> l in multiset(Sort(LaunchesBefore, unsorted));
    assert l in unsorted <==> l in multiset(unsorted);
  }

  lemma {:induction false} LaunchesBeforeIsWeak()
    ensures IsWeakOrder(LaunchesBefore)
  {
    forall a, b | LaunchesBefore(a, b) ensures !LaunchesBefore(b, a) {
      LexAsymmetric(a.id, b.id);
    }
    forall a, b, c | !LaunchesBefore(b, a) && !LaunchesBefore(c, b) ensures !LaunchesBefore(c, a) {
      LexTotal(a.id, b.id);
      LexTotal(b.id, c.id);
      LexAsymmetric(a.id, c.id);
      if LexLess(a.id, b.id) && LexLess(b.id, c.id) {
        LexTransitive(a.id, b.id, c.id);
      }
    }
  }

  /** The worker classes in the order their lanes launch; any other class comes last. */
  const LANE_CLASSES: seq<set<string>> :=
    [{"planner", "planning"}, {"retrieval", "rag", "context"}, {"coder", "coding", "implementer"},
     {"reviewer", "review"}, {"tester", "test", "qa"}]

  lemma {:induction false} PriorityIsClass(worker: string)
    ensures forall k :: 0 <= k < |LANE_CLASSES| && worker in LANE_CLASSES[k] ==> LanePriority(worker) == k
    ensures LanePriority(worker) < |LANE_CLASSES| ==> worker in LANE_CLASSES[LanePriority(worker)]
    ensures LanePriority(worker) <= |LANE_CLASSES|
  {
  }

  /** Within a round, a lane whose worker is of one of the classes launches behind no lane of a later
      class or of none. */
  lemma {:induction false} LaunchOrderFollowsPriority(lanes: seq<Lane>, started: set<string>, completed: set<string>,
                                                      i: nat, j: nat, k: nat)
    requires i < j < |LaunchList(lanes, started, completed)| && k < |LANE_CLASSES|
    requires LaunchList(lanes, started, completed)[j].worker in LANE_CLASSES[k]
    ensures exists h :: 0 <= h <= k && LaunchList(lanes, started, completed)[i].worker in LANE_CLASSES[h]
  {
    LaunchesBeforeIsWeak();
    SortSorted(LaunchesBefore, ReadyInPlanOrder(lanes, started, completed));
    hide LexLess, ReadyInPlanOrder, Sort;
    PriorityIsClass(LaunchList(lanes, started, completed)[i].worker);
    PriorityIsClass(LaunchList(lanes, started, completed)[j].worker);
    hide LanePriority;
  }

  method ReadyLanes(lanes: seq<Lane>, started: set<string>, completed: set<string>) returns (ready: seq<Lane>)
    ensures ready == LaunchList(lanes, started, completed)
  {
    hide Sort;
    ready := [];
    for i := 0 to |lanes|
      invariant ready == ReadyInPlanOrder(lanes[..i], started, completed)
    {
      SelectStep(lanes, i, l => LaneReady(l, started, completed));
      if lanes[i].id in started {
        continue;
      }
      var depsReady := DependenciesDone(lanes[i].dependencies, completed);
      if depsReady {
        ready := ready + [lanes[i]];
      }
    }
    assert lanes[..|lanes|] == lanes;
    ready := Sort(LaunchesBefore, ready);
  }

  // ---------------------------------------------------------------- the event log

  ghost function StartedIn(log: seq<Event>): set<string> {
    if log == [] then {}
    else
      var last := log[|log| - 1];
      StartedIn(log[..|log| - 1]) + if last.Started? then {last.id} else {}
  }

  ghost function DoneIn(log: seq<Event>): set<string> {
    if log == [] then {}
    else
      var last := log[|log| - 1];
      DoneIn(log[..|log| - 1]) + if last.Done? then {last.id} else {}
  }

  /** What may come next: a lane starts once, after all its dependencies are done; a result comes
      once, from a lane that has started. */
  ghost predicate MayFollow(g: Graph, log: seq<Event>, e: Event) {
    match e
    case Started(id) => id in g && id !in StartedIn(log) && g[id] <= DoneIn(log)
    case Done(id) => id in StartedIn(log) && id !in DoneIn(log)
  }

  ghost predicate ProperLog(g: Graph, log: seq<Event>) {
    forall i :: 0 <= i < |log| ==> MayFollow(g, log[..i], log[i])
  }

  lemma {:induction false} ExtendLog(g: Graph, log: seq<Event>, e: Event)
    requires ProperLog(g, log) && MayFollow(g, log, e)
    ensures ProperLog(g, log + [e])
    ensures StartedIn(log + [e]) == StartedIn(log) + if e.Started? then {e.id} else {}
    ensures DoneIn(log + [e]) == DoneIn(log) + if e.Done? then {e.id} else {}
  {
    var longer := log + [e];
    assert longer[|log|] == e && longer[..|log|] == log;
    hide MayFollow, StartedIn, DoneIn;
    forall i | 0 <= i < |longer| ensures MayFollow(g, longer[..i], longer[i]) {
      if i < |log| {
        assert longer[..i] == log[..i] && longer[i] == log[i];
      }
    }
  }

  ghost function Starts(log: seq<Event>): nat {
    if log == [] then 0 else Starts(log[..|log| - 1]) + if log[|log| - 1].Started? then 1 else 0
  }

  lemma {:induction false} StartsAreDistinct(g: Graph, log: seq<Event>)
    requires ProperLog(g, log)
    ensures Starts(log) == |StartedIn(log)|
  {
    if log != [] {
      var n := |log| - 1;
      LogPrefix(g, log);
      StartsAreDistinct(g, log[..n]);
      hide ProperLog;
    }
  }

  lemma {:induction false} LogPrefix(g: Graph, log: seq<Event>)
    requires ProperLog(g, log) && log != []
    ensures ProperLog(g, log[..|log| - 1]) && MayFollow(g, log[..|log| - 1], log[|log| - 1])
  {
    hide MayFollow;
    var shorter := log[..|log| - 1];
    forall i | 0 <= i < |shorter| ensures MayFollow(g, shorter[..i], shorter[i]) {
      assert shorter[..i] == log[..i] && shorter[i] == log[i];
    }
  }

  /** Every lane ever launched has a place in the result buffer, which holds one result a lane, so
      a lane can always deliver its result, even after the scheduler has returned. */
  lemma {:induction false} ResultsFitBuffer(lanes: seq<Lane>, log: seq<Event>)
    requires DistinctLanes(lanes) && ProperLog(LaneGraph(lanes), log) && StartedIn(log) <= LaneGraph(lanes).Keys
    ensures Starts(log) <= |lanes|
  {
    hide LaneGraph, StartedIn, ProperLog;
    StartsAreDistinct(LaneGraph(lanes), log);
    GraphSize(lanes);
    SubsetSize(StartedIn(log), LaneGraph(lanes).Keys);
  }

  // ---------------------------------------------------------------- the scheduler

  /** Launch the round's lanes in order. */
  method Launch(ghost g: Graph, ready: seq<Lane>, ghost done: set<string>, started: set<string>, running: set<string>,
                log: seq<Event>)
    returns (started': set<string>, running': set<string>, log': seq<Event>)
    requires ProperLog(g, log) && started == StartedIn(log) && done == DoneIn(log)
    requires DistinctLanes(ready)
    requires forall l :: l in ready ==> l.id in g && g[l.id] <= done && l.id !in started
    ensures ProperLog(g, log') && started' == StartedIn(log') && DoneIn(log') == done
    ensures started' == started + LaneIds(ready)
    ensures running' == running + LaneIds(ready)
  {
    hide ProperLog, StartedIn, DoneIn;
    started', running', log' := started, running, log;
    for i := 0 to |ready|
      invariant ProperLog(g, log') && started' == StartedIn(log') && DoneIn(log') == done
      invariant started' == started + set k | 0 <= k < i :: ready[k].id
      invariant running' == running + set k | 0 <= k < i :: ready[k].id
    {
      var id := ready[i].id;
      assert ready[i] in ready;
      assert id !in started';
      ExtendLog(g, log', Started(id));
      started', running', log' := started' + {id}, running' + {id}, log' + [Started(id)];
    }
    assert (set k | 0 <= k < |ready| :: ready[k].id) == LaneIds(ready);
  }

  ghost predicate LaneInv(g: Graph, started: set<string>, running: set<string>, completed: seq<string>,
                          log: seq<Event>) {
    && ProperLog(g, log)
    && started == StartedIn(log) && Elements(completed) == DoneIn(log)
    && started <= g.Keys && Elements(completed) <= started
    && running == started - Elements(completed)
    && Distinct(completed) && RespectsDependencies(g, completed)
    && (forall id :: id in started ==> g[id] <= Elements(completed))
  }

  lemma {:induction false} StartLanes(g: Graph)
    ensures LaneInv(g, {}, {}, [], [])
  {
    assert Elements<string>([]) == {};
  }

  lemma {:induction false} TakeResult(g: Graph, started: set<string>, running: set<string>, completed: seq<string>,
                                      log: seq<Event>, id: string)
    requires LaneInv(g, started, running, completed, log) && id in running
    ensures LaneInv(g, started, running - {id}, completed + [id], log + [Done(id)])
  {
    hide ProperLog, StartedIn, DoneIn, Distinct, RespectsDependencies, Elements;
    NotElement(completed, id);
    ExtendLog(g, log, Done(id));
    Extend(g, completed, id);
    RunningAfter(started, Elements(completed), id);
  }

  lemma {:induction false} NotElement(s: seq<string>, id: string)
    ensures id in Elements(s) <==> id in s
  {
  }

  lemma {:induction false} RunningAfter(started: set<string>, done: set<string>, id: string)
    ensures (started - done) - {id} == started - (done + {id})
  {
  }

  lemma {:induction false} NothingLeft(a: set<string>, b: set<string>)
    requires b <= a && a - b == {}
    ensures a == b
  {
    forall x | x in a ensures x in b {
      assert x !in a - b;
    }
  }

  /** If nothing is running and nothing is ready while lanes remain, the graph is not runnable. */
  lemma {:induction false} BlockedMeansNotRunnable(lanes: seq<Lane>, started: set<string>, completed: seq<string>,
                                                   log: seq<Event>)
    requires DistinctLanes(lanes) && LaneInv(LaneGraph(lanes), started, {}, completed, log)
    requires |completed| < |lanes| && LaunchList(lanes, started, Elements(completed)) == []
    ensures !Runnable(LaneGraph(lanes))
  {
    hide LaneGraph, ProperLog, Runnable, RespectsDependencies, LaunchList, DistinctLanes;
    var g := LaneGraph(lanes);
    NothingLeft(started, Elements(completed));
    if Runnable(g) {
      GraphSize(lanes);
      DistinctSize(completed);
      if g.Keys <= Elements(completed) {
        SubsetSize(g.Keys, Elements(completed));
      }
      var id := SomeStepIsReady(g, Elements(completed));
      var l := LaneOf(lanes, id);
      LaunchListHas(lanes, started, Elements(completed), l);
    }
  }

  lemma {:induction false} LaneOf(lanes: seq<Lane>, id: string) returns (l: Lane)
    requires DistinctLanes(lanes) && id in LaneGraph(lanes)
    ensures l in lanes && l.id == id && LaneGraph(lanes)[id] == Elements(l.dependencies)
  {
    l :| l in lanes && l.id == id;
    LaneInGraph(lanes, l);
  }

  lemma {:induction false} AllDoneIsSchedule(lanes: seq<Lane>, started: set<string>, running: set<string>,
                                             completed: seq<string>, log: seq<Event>)
    requires DistinctLanes(lanes) && LaneInv(LaneGraph(lanes), started, running, completed, log)
    requires |completed| >= |lanes|
    ensures IsSchedule(LaneGraph(lanes), completed) && Runnable(LaneGraph(lanes)) && running == {}
  {
    hide LaneGraph, ProperLog, Runnable, RespectsDependencies, DistinctLanes;
    var g := LaneGraph(lanes);
    GraphSize(lanes);
    DistinctSize(completed);
    SameSize(Elements(completed), g.Keys);
    ScheduleMeansRunnable(g, completed);
  }

  lemma {:induction false} SameSize(a: set<string>, b: set<string>)
    requires a <= b && |a| >= |b|
    ensures a == b
  {
    assert b == a + (b - a) && |b| == |a| + |b - a|;
  }

  lemma {:induction false} LaunchKeepsInv(lanes: seq<Lane>, ready: seq<Lane>, started: set<string>,
                                          running: set<string>, completed: seq<string>, log: seq<Event>,
                                           started': set<string>, running': set<string>, log': seq<Event>)
    requires DistinctLanes(lanes) && LaneInv(LaneGraph(lanes), started, running, completed, log)
    requires forall l :: l in ready ==>
               l.id in LaneGraph(lanes) && LaneGraph(lanes)[l.id] <= Elements(completed) && l.id !in started
    requires ProperLog(LaneGraph(lanes), log') && started' == StartedIn(log') && DoneIn(log') == Elements(completed)
    requires started' == started + LaneIds(ready)
    requires running' == running + LaneIds(ready)
    ensures LaneInv(LaneGraph(lanes), started', running', completed, log')
  {
    hide LaneGraph, ProperLog, Distinct, RespectsDependencies, StartedIn, DoneIn, Elements;
  }

  lemma {:induction false} ReadyMayStart(lanes: seq<Lane>, started: set<string>, completed: seq<string>)
    requires DistinctLanes(lanes)
    ensures DistinctLanes(LaunchList(lanes, started, Elements(completed)))
    ensures forall l :: l in LaunchList(lanes, started, Elements(completed)) ==>
              l.id in LaneGraph(lanes) && LaneGraph(lanes)[l.id] <= Elements(completed) && l.id !in started
  {
    hide LaneGraph, ReadyInPlanOrder, Sort;
    var ready := LaunchList(lanes, started, Elements(completed));
    forall l | l in ready ensures l.id in LaneGraph(lanes) && LaneGraph(lanes)[l.id] <= Elements(completed)
        && l.id !in started {
      LaunchListHas(lanes, started, Elements(completed), l);
      LaneInGraph(lanes, l);
    }
    ReadyInPlanOrderDistinct(lanes, started, Elements(completed));
    SortKeepsDistinct(ReadyInPlanOrder(lanes, started, Elements(completed)), ready);
  }

  lemma {:induction false} SortKeepsDistinct(a: seq<Lane>, b: seq<Lane>)
    requires DistinctLanes(a) && multiset(a) == multiset(b)
    ensures DistinctLanes(b)
  {
    forall i, j | 0 <= i < j < |b| ensures b[i].id != b[j].id {
      if b[i].id == b[j].id {
        assert b[i] in multiset(a) && b[j] in multiset(a);
        LaneById(a, b[i], b[j]);
        AppearsTwice(b, i, j);
        OncePerDistinct(a, b[i]);
      }
    }
  }

  lemma {:induction false} AppearsTwice(s: seq<Lane>, i: nat, j: nat)
    requires i < j < |s| && s[i] == s[j]
    ensures multiset(s)[s[i]] >= 2
  {
    assert s == s[..j] + [s[j]] + s[j + 1..];
    assert s[..j][i] in multiset(s[..j]);
  }

  lemma {:induction false} OncePerDistinct(s: seq<Lane>, l: Lane)
    requires DistinctLanes(s)
    ensures multiset(s)[l] <= 1
  {
    if s != [] {
      var n := |s| - 1;
      assert s == s[..n] + [s[n]];
      OncePerDistinct(s[..n], l);
      if s[n] == l {
        assert l !in s[..n];
      }
    }
  }

  /** Run every lane, whatever order results arrive in, until all are complete, one fails, the
      caller cancels or nothing can run. The log is proper throughout: each lane starts at most
      once and only after everything it depends on has completed, so each sends at most one
      result. A run that is neither failed nor cancelled completes exactly the closed acyclic
      plans, in dependency order, and reports the others as blocked. */
  method ExecutePlanLanes(lanes: seq<Lane>, succeeds: string -> bool, mayCancel: bool)
    returns (outcome: Outcome, completed: seq<string>, log: seq<Event>)
    requires DistinctLanes(lanes)
    ensures ProperLog(LaneGraph(lanes), log) && StartedIn(log) <= LaneGraph(lanes).Keys
    ensures Distinct(completed) && Elements(completed) == DoneIn(log)
    ensures outcome.AllCompleted? ==> Runnable(LaneGraph(lanes)) && IsSchedule(LaneGraph(lanes), completed)
    ensures outcome.BlockedByDependencies? ==> !Runnable(LaneGraph(lanes)) && StartedIn(log) == DoneIn(log)
    ensures forall k :: 0 <= k < |completed| ==> succeeds(completed[k]) || (outcome.LaneFailed? && k == |completed| - 1)
    ensures outcome.LaneFailed? ==> !succeeds(outcome.id) && completed != [] && completed[|completed| - 1] == outcome.id
    ensures outcome.Cancelled? ==> mayCancel
    ensures !mayCancel ==>
              (outcome.AllCompleted? <==> Runnable(LaneGraph(lanes)) && forall l :: l in lanes ==> succeeds(l.id))
  {
    hide LaneGraph, ProperLog, StartedIn, DoneIn, Elements, Runnable, IsSchedule, RespectsDependencies, LaunchList,
         DistinctLanes, LaneInv, Distinct, LaneIds;
    ghost var g := LaneGraph(lanes);
    var started: set<string>, running: set<string> := {}, {};
    completed, log := [], [];
    var done: set<string> := {};
    var completedCount := 0;
    StartLanes(g);
    assert Elements(completed) == done by {
      EmptyElements();
    }
    while completedCount < |lanes|
      invariant LaneInv(g, started, running, completed, log)
      invariant completedCount == |completed| && done == Elements(completed)
      invariant forall k :: 0 <= k < |completed| ==> succeeds(completed[k])
      decreases |lanes| - completedCount
    {
      ReadyMayStart(lanes, started, completed);
      LaneInvFields(g, started, running, completed, log);
      var ready := ReadyLanes(lanes, started, done);
      ghost var earlier, before := started, running;
      var s, r, l := Launch(g, ready, done, started, running, log);
      LaunchKeepsInv(lanes, ready, started, running, completed, log, s, r, l);
      started, running, log := s, r, l;
      if running == {} {
        NothingLaunched(ready, earlier, before);
        BlockedMeansNotRunnable(lanes, started, completed, log);
        LaneInvFields(g, started, running, completed, log);
        return BlockedByDependencies, completed, log;
      }
      var cancelled: bool := *;
      if cancelled && mayCancel {
        LaneInvFields(g, started, running, completed, log);
        return Cancelled, completed, log;
      }
      var id :| id in running;
      TakeResult(g, started, running, completed, log, id);
      ElementsOfAppend(completed, id);
      running, completed, done, log := running - {id}, completed + [id], done + {id}, log + [Done(id)];
      completedCount := completedCount + 1;
      if !succeeds(id) {
        LaneInvFields(g, started, running, completed, log);
        StartedIsLane(lanes, started, id);
        return LaneFailed(id), completed, log;
      }
    }
    AllDoneIsSchedule(lanes, started, running, completed, log);
    LaneInvFields(g, started, running, completed, log);
    AllLanesIn(lanes, completed);
    return AllCompleted, completed, log;
  }

  lemma {:induction false} StartedIsLane(lanes: seq<Lane>, started: set<string>, id: string)
    requires DistinctLanes(lanes) && started <= LaneGraph(lanes).Keys && id in started
    ensures exists l :: l in lanes && l.id == id
  {
    hide LaneGraph, DistinctLanes;
    var l := LaneOf(lanes, id);
  }

  lemma {:induction false} AllLanesIn(lanes: seq<Lane>, completed: seq<string>)
    requires DistinctLanes(lanes) && IsSchedule(LaneGraph(lanes), completed)
    ensures forall l :: l in lanes ==> exists k :: 0 <= k < |completed| && completed[k] == l.id
  {
    hide DistinctLanes, LaneGraph, RespectsDependencies, Distinct;
    forall l | l in lanes ensures exists k :: 0 <= k < |completed| && completed[k] == l.id {
      LaneInGraph(lanes, l);
      assert l.id in Elements(completed);
    }
  }

  lemma {:induction false} EmptyElements()
    ensures Elements<string>([]) == {}
  {
  }

  ghost function LaneIds(ready: seq<Lane>): set<string> {
    set l | l in ready :: l.id
  }

  lemma {:induction false} FirstLaneId(ready: seq<Lane>)
    requires ready != []
    ensures ready[0].id in LaneIds(ready)
  {
  }

  lemma {:induction false} NothingLaunched(ready: seq<Lane>, started: set<string>, before: set<string>)
    requires before + LaneIds(ready) == {}
    ensures ready == [] && before == {} && started + LaneIds(ready) == started
  {
    if ready != [] {
      FirstLaneId(ready);
    }
  }

  lemma {:induction false} LaneInvFields(g: Graph, started: set<string>, running: set<string>, completed: seq<string>,
                                         log: seq<Event>)
    requires LaneInv(g, started, running, completed, log)
    ensures ProperLog(g, log) && started == StartedIn(log) && Elements(completed) == DoneIn(log)
    ensures started <= g.Keys && Distinct(completed) && running == started - Elements(completed)
    ensures running == {} ==> StartedIn(log) == DoneIn(log)
  {
    hide ProperLog, Distinct, RespectsDependencies, StartedIn, DoneIn, Elements;
    if running == {} {
      NothingLeft(started, Elements(completed));
    }
  }
}
