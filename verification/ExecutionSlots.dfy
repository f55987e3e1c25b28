/** Execution slots: every execution takes a global slot, then its agent's, then its model's, and
    gives them back in reverse (go-core/internal/kernel/orchestrator.go:2910-2948, 2963-2990).
    Sending to or receiving from a slot channel is one step; executions interleave freely. */
module ExecutionSlots {
  import opened Basics
  import opened Text

  /** A channel of slots. */
  datatype Slot = Global | OfAgent(id: string) | OfModel(name: string)

  /** How many slots each kind of channel has; no channel at all when not positive. */
  datatype Limits = Limits(tasks: int, perAgent: int, perModel: int)

  function Cap(l: Limits, slot: Slot): int {
    match slot
    case Global => l.tasks
    case OfAgent(_) => l.perAgent
    case OfModel(_) => l.perModel
  }

  /** The channels an execution sends to, in order; absent channels are passed over. */
  function Wanted(l: Limits, agent: string, model: string): seq<Slot> {
    (if l.tasks > 0 then [Global] else [])
    + (if l.perAgent <= 0 || Trim(agent) == "" then [] else [OfAgent(agent)])
    + (if l.perModel <= 0 || Trim(model) == "" then [] else [OfModel(Trim(model))])
  }

  /** One execution: on whose behalf it came, the slots it wants, of which it holds the first `held`;
      it is either still taking (running once it has them all) or giving back (gone once it has none). */
  datatype Execution = Execution(agent: string, model: string, want: seq<Slot>, held: nat, giving: bool)

  datatype System = System(limits: Limits, executions: seq<Execution>, used: map<Slot, nat>)

  datatype Action =
    | Arrive(agent: string, model: string)
    | Take(i: nat)
    | Cancel(i: nat)
    | Finish(i: nat)
    | Give(i: nat)

  function Used(s: System, slot: Slot): nat {
    if slot in s.used then s.used[slot] else 0
  }

  predicate Waiting(e: Execution) {
    !e.giving && e.held < |e.want|
  }

  predicate Running(e: Execution) {
    !e.giving && e.held == |e.want|
  }

  predicate Gone(e: Execution) {
    e.giving && e.held == 0
  }

  /** A send goes through when the channel has room, a receive when it is not empty. */
  predicate Enabled(s: System, a: Action) {
    match a
    case Arrive(_, _) => true
    case Take(i) =>
      i < |s.executions| && Waiting(s.executions[i])
      && var slot := s.executions[i].want[s.executions[i].held]; Used(s, slot) < Cap(s.limits, slot)
    case Cancel(i) => i < |s.executions| && Waiting(s.executions[i])
    case Finish(i) => i < |s.executions| && Running(s.executions[i])
    case Give(i) =>
      i < |s.executions| && s.executions[i].giving && 0 < s.executions[i].held <= |s.executions[i].want|
      && Used(s, s.executions[i].want[s.executions[i].held - 1]) > 0
  }

  function Apply(s: System, a: Action): System
    requires Enabled(s, a)
  {
    match a
    case Arrive(agent, model) => s.(executions := s.executions + [Arrived(s.limits, agent, model)])
    case Take(i) =>
      var e := s.executions[i];
      s.(executions := s.executions[i := e.(held := e.held + 1)],
          used := s.used[e.want[e.held] := Used(s, e.want[e.held]) + 1])
    case Cancel(i) => s.(executions := s.executions[i := s.executions[i].(giving := true)])
    case Finish(i) => s.(executions := s.executions[i := s.executions[i].(giving := true)])
    case Give(i) =>
      var e := s.executions[i];
      var slot := e.want[e.held - 1];
      s.(executions := s.executions[i := e.(held := e.held - 1)], used := s.used[slot := Used(s, slot) - 1])
  }

  function Arrived(l: Limits, agent: string, model: string): Execution {
    Execution(agent, model, Wanted(l, agent, model), 0, false)
  }

  ghost predicate IsRun(s: System, run: seq<Action>)
    decreases |run|
  {
    run == [] || (Enabled(s, run[0]) && IsRun(Apply(s, run[0]), run[1..]))
  }

  function After(s: System, run: seq<Action>): System
    requires IsRun(s, run)
    decreases |run|
  {
    if run == [] then s else After(Apply(s, run[0]), run[1..])
  }

  // ---------------------------------------------------------------- occupancy is ownership

  /** Acquisition order: the global channel, then agents, then models. */
  function Rank(slot: Slot): nat {
    match slot case Global => 0 case OfAgent(_) => 1 case OfModel(_) => 2
  }

  /** Wanted slots come in strictly increasing rank, and each has room for somebody. */
  ghost predicate InOrder(l: Limits, e: Execution) {
    && e.held <= |e.want|
    && (forall j, k :: 0 <= j < k < |e.want| ==> Rank(e.want[j]) < Rank(e.want[k]))
    && (forall k :: 0 <= k < |e.want| ==> Cap(l, e.want[k]) > 0)
  }

  predicate Holds(e: Execution, slot: Slot) {
    e.held <= |e.want| && slot in e.want[..e.held]
  }

  function Holders(executions: seq<Execution>, slot: Slot): nat {
    Count(executions, e => Holds(e, slot))
  }

  ghost predicate AllInOrder(s: System) {
    forall i :: 0 <= i < |s.executions| ==> InOrder(s.limits, s.executions[i])
  }

  /** Each channel holds exactly one token for each execution that holds the slot, and never more
      than its capacity. */
  ghost predicate Inv(s: System) {
    AllInOrder(s) && forall slot :: Agrees(s, slot)
  }

  lemma {:induction false} HoldersUpdate(executions: seq<Execution>, i: nat, e: Execution, slot: Slot)
    requires i < |executions|
    ensures Holders(executions[i := e], slot) ==
              Holders(executions, slot) - (if Holds(executions[i], slot) then 1 else 0) + if Holds(e, slot) then 1
                  else 0
  {
    CountUpdate(executions, i, e, x => Holds(x, slot));
  }

  lemma {:induction false} WantedInOrder(l: Limits, agent: string, model: string)
    ensures InOrder(l, Arrived(l, agent, model))
  {
    hide Trim;
  }

  /** Taking one more wanted slot, or giving the last one back, changes exactly that slot. */
  lemma {:induction false} HoldsOneMore(l: Limits, e: Execution, slot: Slot)
    requires InOrder(l, e) && e.held < |e.want|
    ensures Holds(e.(held := e.held + 1), slot) <==> Holds(e, slot) || slot == e.want[e.held]
    ensures !Holds(e, e.want[e.held])
  {
    assert e.want[..e.held + 1] == e.want[..e.held] + [e.want[e.held]];
  }

  lemma {:induction false} StepKeepsOrder(s: System, a: Action)
    requires AllInOrder(s) && Enabled(s, a)
    ensures AllInOrder(Apply(s, a)) && Apply(s, a).limits == s.limits
  {
    hide Wanted;
    if a.Arrive? {
      WantedInOrder(s.limits, a.agent, a.model);
    }
  }

  /** The occupancy of one channel matches its holders and its capacity. */
  ghost predicate Agrees(s: System, slot: Slot) {
    Used(s, slot) == Holders(s.executions, slot) && (Used(s, slot) > 0 ==> Used(s, slot) <= Cap(s.limits, slot))
  }

  lemma {:induction false} ArriveAgrees(s: System, agent: string, model: string, slot: Slot)
    requires Agrees(s, slot)
    ensures Agrees(Apply(s, Arrive(agent, model)), slot)
  {
    hide Wanted;
    var e := Arrived(s.limits, agent, model);
    assert (s.executions + [e])[..|s.executions|] == s.executions;
  }

  lemma {:induction false} TakeAgrees(s: System, i: nat, slot: Slot)
    requires Enabled(s, Take(i)) && InOrder(s.limits, s.executions[i]) && Agrees(s, slot)
    ensures Agrees(Apply(s, Take(i)), slot)
  {
    hide Holders, Holds;
    var e := s.executions[i];
    HoldersUpdate(s.executions, i, e.(held := e.held + 1), slot);
    HoldsOneMore(s.limits, e, slot);
  }

  lemma {:induction false} GiveAgrees(s: System, i: nat, slot: Slot)
    requires Enabled(s, Give(i)) && InOrder(s.limits, s.executions[i]) && Agrees(s, slot)
    ensures Agrees(Apply(s, Give(i)), slot)
  {
    hide Holders, Holds;
    var e := s.executions[i];
    HoldersUpdate(s.executions, i, e.(held := e.held - 1), slot);
    HoldsOneMore(s.limits, e.(held := e.held - 1), slot);
  }

  lemma {:induction false} TurnAgrees(s: System, i: nat, a: Action, slot: Slot)
    requires (a == Cancel(i) || a == Finish(i)) && Enabled(s, a) && Agrees(s, slot)
    ensures Agrees(Apply(s, a), slot)
  {
    hide Holders;
    HoldersUpdate(s.executions, i, s.executions[i].(giving := true), slot);
  }

  lemma {:induction false} StepKeepsInv(s: System, a: Action)
    requires Inv(s) && Enabled(s, a)
    ensures Inv(Apply(s, a))
  {
    StepKeepsOrder(s, a);
    var s' := Apply(s, a);
    hide Apply, InOrder, Agrees;
    forall slot ensures Agrees(s', slot) {
      match a
      case Arrive(agent, model) => ArriveAgrees(s, agent, model, slot);
      case Take(i) => TakeAgrees(s, i, slot);
      case Cancel(i) => TurnAgrees(s, i, a, slot);
      case Finish(i) => TurnAgrees(s, i, a, slot);
      case Give(i) => GiveAgrees(s, i, slot);
    }
  }

  lemma {:induction false} RunKeepsInv(s: System, run: seq<Action>)
    requires Inv(s) && IsRun(s, run)
    ensures Inv(After(s, run)) && After(s, run).limits == s.limits
    decreases |run|
  {
    hide Inv, Enabled, Apply, AllInOrder;
    if run != [] {
      StepKeepsInv(s, run[0]);
      InvOrder(s);
      StepKeepsOrder(s, run[0]);
      RunKeepsInv(Apply(s, run[0]), run[1..]);
    }
  }

  /** The system starts with nobody in it. */
  lemma {:induction false} EmptyInv(limits: Limits)
    ensures Inv(System(limits, [], map[]))
  {
  }

  /** In every state reached from an empty system, by any interleaving of arrivals, acquisitions,
      cancellations and releases, a channel is occupied once for each execution that holds the slot
      and never beyond its capacity. */
  lemma {:induction false} OccupancyIsOwnership(limits: Limits, run: seq<Action>, slot: Slot)
    requires IsRun(System(limits, [], map[]), run)
    ensures var s := After(System(limits, [], map[]), run);
            && Used(s, slot) == Holders(s.executions, slot)
            && (Used(s, slot) > 0 ==> Used(s, slot) <= Cap(limits, slot))
  {
    EmptyInv(limits);
    RunKeepsInv(System(limits, [], map[]), run);
    hide IsRun, After, Holders, Used, Cap;
    assert Agrees(After(System(limits, [], map[]), run), slot);
  }

  // ---------------------------------------------------------------- what the limits mean

  /** Somebody running, or still holding slots, for an agent or on a model. */
  predicate RunsFor(e: Execution, agent: string) {
    Running(e) && e.agent == agent
  }

  predicate RunsOn(e: Execution, model: string) {
    Running(e) && Trim(e.model) == model
  }

  function RunningAll(executions: seq<Execution>): nat {
    Count(executions, e => Running(e))
  }

  function RunningFor(executions: seq<Execution>, agent: string): nat {
    Count(executions, e => RunsFor(e, agent))
  }

  function RunningOn(executions: seq<Execution>, model: string): nat {
    Count(executions, e => RunsOn(e, model))
  }

  /** Every execution wants what it was given on arrival. */
  ghost predicate Entitled(s: System) {
    forall i :: 0 <= i < |s.executions| ==>
      s.executions[i].want == Wanted(s.limits, s.executions[i].agent, s.executions[i].model)
  }

  lemma {:induction false} StepKeepsEntitled(s: System, a: Action)
    requires Entitled(s) && Enabled(s, a)
    ensures Entitled(Apply(s, a)) && Apply(s, a).limits == s.limits
  {
    hide Wanted;
  }

  lemma {:induction false} RunKeepsEntitled(s: System, run: seq<Action>)
    requires Entitled(s) && IsRun(s, run)
    ensures Entitled(After(s, run)) && After(s, run).limits == s.limits
    decreases |run|
  {
    hide Entitled, Enabled, Apply;
    if run != [] {
      StepKeepsEntitled(s, run[0]);
      RunKeepsEntitled(Apply(s, run[0]), run[1..]);
    }
  }

  /** Running means holding the slot of every limit that applies. */
  lemma {:induction false} RunnersHold(l: Limits, e: Execution)
    requires e.want == Wanted(l, e.agent, e.model) && Running(e)
    ensures l.tasks > 0 ==> Holds(e, Global)
    ensures l.perAgent > 0 && Trim(e.agent) != "" ==> Holds(e, OfAgent(e.agent))
    ensures l.perModel > 0 && Trim(e.model) != "" ==> Holds(e, OfModel(Trim(e.model)))
  {
    hide Trim;
    assert e.want[..e.held] == e.want;
  }

  /** In every state any interleaving reaches: as many executions run at once as the limits say, all
      told, for one agent and on one model, and no more. A limit that is not positive is no limit,
      and a blank agent or model has none. */
  lemma {:induction false} LimitsHold(limits: Limits, run: seq<Action>, agent: string, model: string)
    requires IsRun(System(limits, [], map[]), run)
    ensures var executions := After(System(limits, [], map[]), run).executions;
            && (limits.tasks > 0 ==> RunningAll(executions) <= limits.tasks)
            && (limits.perAgent > 0 && Trim(agent) != "" ==> RunningFor(executions, agent) <= limits.perAgent)
            && (limits.perModel > 0 && model != "" ==> RunningOn(executions, model) <= limits.perModel)
  {
    var start := System(limits, [], map[]);
    RunKeepsEntitled(start, run);
    OccupancyIsOwnership(limits, run, Global);
    OccupancyIsOwnership(limits, run, OfAgent(agent));
    OccupancyIsOwnership(limits, run, OfModel(model));
    hide IsRun, After, Wanted, Holds, Running, Used, Trim;
    var s := After(start, run);
    forall i | 0 <= i < |s.executions| && Running(s.executions[i])
      ensures limits.tasks > 0 ==> Holds(s.executions[i], Global)
      ensures limits.perAgent > 0 && Trim(s.executions[i].agent) != "" ==>
                Holds(s.executions[i], OfAgent(s.executions[i].agent))
      ensures limits.perModel > 0 && Trim(s.executions[i].model) != "" ==>
                Holds(s.executions[i], OfModel(Trim(s.executions[i].model))) {
      RunnersHold(limits, s.executions[i]);
    }
    if limits.tasks > 0 {
      CountImplies(s.executions, e => Running(e), e => Holds(e, Global));
    }
    if limits.perAgent > 0 && Trim(agent) != "" {
      CountImplies(s.executions, e => RunsFor(e, agent), e => Holds(e, OfAgent(agent)));
    }
    if limits.perModel > 0 && model != "" {
      CountImplies(s.executions, e => RunsOn(e, model), e => Holds(e, OfModel(model)));
    }
  }

  /** How many executions other than `i` hold slots and are of this kind. */
  function OthersHolding(executions: seq<Execution>, i: nat, kind: Execution -> bool): nat
    requires i < |executions|
  {
    Count(executions[i := executions[i].(held := 0)], (e: Execution) => e.held > 0 && kind(e))
  }

  /** An execution only waits where a limit is used up: when `Take` is not possible, as many others as
      the limit allows hold slots, of any kind, for its agent, or for its model. */
  lemma {:induction false} WaitsOnlyAtALimit(limits: Limits, run: seq<Action>, i: nat)
    requires IsRun(System(limits, [], map[]), run)
    requires var s := After(System(limits, [], map[]), run);
             i < |s.executions| && Waiting(s.executions[i]) && !Enabled(s, Take(i))
    ensures var s := After(System(limits, [], map[]), run);
            var e := s.executions[i];
            || (limits.tasks > 0 && OthersHolding(s.executions, i, x => true) >= limits.tasks)
            || (limits.perAgent > 0 && Trim(e.agent) != ""
                && OthersHolding(s.executions, i, (x: Execution) => x.agent == e.agent) >= limits.perAgent)
            || (limits.perModel > 0 && Trim(e.model) != ""
                && OthersHolding(s.executions, i, (x: Execution) => Trim(x.model) == Trim(e.model)) >= limits.perModel)
  {
    var start := System(limits, [], map[]);
    RunKeepsEntitled(start, run);
    EmptyInv(limits);
    RunKeepsInv(start, run);
    hide IsRun, After;
    BlockedAt(After(start, run), i);
  }

  lemma {:induction false} BlockedAt(s: System, i: nat)
    requires Inv(s) && Entitled(s) && i < |s.executions| && Waiting(s.executions[i]) && !Enabled(s, Take(i))
    ensures var e, l := s.executions[i], s.limits;
            || (l.tasks > 0 && OthersHolding(s.executions, i, x => true) >= l.tasks)
            || (l.perAgent > 0 && Trim(e.agent) != ""
                && OthersHolding(s.executions, i, (x: Execution) => x.agent == e.agent) >= l.perAgent)
            || (l.perModel > 0 && Trim(e.model) != ""
                && OthersHolding(s.executions, i, (x: Execution) => Trim(x.model) == Trim(e.model)) >= l.perModel)
  {
    var e := s.executions[i];
    var slot := e.want[e.held];
    assert Agrees(s, slot);
    WantedAre(s.limits, e.agent, e.model);
    hide Trim, Wanted, Inv, Holders, Used;
    match slot
    case Global => HoldersAreOthers(s, i, slot, x => true);
    case OfAgent(_) => HoldersAreOthers(s, i, slot, (x: Execution) => x.agent == e.agent);
    case OfModel(_) => HoldersAreOthers(s, i, slot, (x: Execution) => Trim(x.model) == Trim(e.model));
  }

  lemma {:induction false} WantedAre(l: Limits, agent: string, model: string)
    ensures forall slot :: slot in Wanted(l, agent, model) <==>
              match slot
              case Global => l.tasks > 0
              case OfAgent(id) => l.perAgent > 0 && Trim(agent) != "" && id == agent
              case OfModel(name) => l.perModel > 0 && Trim(model) != "" && name == Trim(model)
  {
    hide Trim;
  }

  /** Those who hold the slot an execution waits for are others, of the slot's kind. */
  lemma {:induction false} HoldersAreOthers(s: System, i: nat, slot: Slot, kind: Execution -> bool)
    requires Inv(s) && Entitled(s) && i < |s.executions| && Waiting(s.executions[i])
    requires slot == s.executions[i].want[s.executions[i].held]
    requires forall e: Execution :: slot in Wanted(s.limits, e.agent, e.model) ==> kind(e)
    ensures Holders(s.executions, slot) <= OthersHolding(s.executions, i, kind)
  {
    hide Wanted, Trim, Agrees;
    var e := s.executions[i];
    var others := s.executions[i := e.(held := 0)];
    HoldsOneMore(s.limits, e, slot);
    HoldersUpdate(s.executions, i, e.(held := 0), slot);
    NoneHeld(e.(held := 0), slot);
    forall k | 0 <= k < |others| && Holds(others[k], slot) ensures others[k].held > 0 && kind(others[k]) {
      NoneHeld(others[k], slot);
    }
    CountImplies(others, x => Holds(x, slot), (x: Execution) => x.held > 0 && kind(x));
  }

  /** Fewer than the limits allow, apart from execution `i`, hold slots at all, for the agent and on the
      model. */
  predicate RoomBeside(l: Limits, executions: seq<Execution>, i: nat, agent: string, model: string)
    requires i < |executions|
  {
    && (l.tasks > 0 ==> OthersHolding(executions, i, x => true) < l.tasks)
    && (l.perAgent > 0 && Trim(agent) != "" ==>
          OthersHolding(executions, i, (x: Execution) => x.agent == agent) < l.perAgent)
    && (l.perModel > 0 && Trim(model) != "" ==>
          OthersHolding(executions, i, (x: Execution) => Trim(x.model) == Trim(model)) < l.perModel)
  }

  function TakeAll(i: nat, n: nat): seq<Action> {
    seq(n, _ => Take(i))
  }

  lemma {:induction false} TakeAllUnroll(i: nat, n: nat)
    requires n > 0
    ensures TakeAll(i, n) != [] && TakeAll(i, n)[0] == Take(i) && TakeAll(i, n)[1..] == TakeAll(i, n - 1)
  {
  }

  /** An execution with room beside the others gets its slots one after the other. */
  lemma {:induction false} RoomLetsRun(s: System, i: nat)
    requires Inv(s) && Entitled(s) && i < |s.executions| && !s.executions[i].giving
    requires RoomBeside(s.limits, s.executions, i, s.executions[i].agent, s.executions[i].model)
    ensures s.executions[i].held <= |s.executions[i].want|
    ensures var takes := TakeAll(i, |s.executions[i].want| - s.executions[i].held);
            IsRun(s, takes) && i < |After(s, takes).executions| && Running(After(s, takes).executions[i])
    decreases |s.executions[i].want| - s.executions[i].held
  {
    assert InOrder(s.limits, s.executions[i]);
    var e := s.executions[i];
    if e.held < |e.want| {
      if !Enabled(s, Take(i)) {
        BlockedAt(s, i);
        assert false;
      }
      StepKeepsInv(s, Take(i));
      StepKeepsEntitled(s, Take(i));
      TakeAllUnroll(i, |e.want| - e.held);
      var s1 := Apply(s, Take(i));
      assert s1.executions[i := s1.executions[i].(held := 0)] == s.executions[i := e.(held := 0)];
      assert s1.executions[i] == e.(held := e.held + 1);
      hide Inv, Entitled, Enabled, Apply, TakeAll, Trim;
      RoomLetsRun(s1, i);
    }
  }

  /** Whoever comes while fewer than the limits allow hold slots, all told, for its agent and on its
      model, runs after at most three steps of its own. */
  lemma {:induction false} NewcomersRun(limits: Limits, run: seq<Action>, agent: string, model: string)
    returns (takes: nat)
    requires IsRun(System(limits, [], map[]), run)
    requires var s := After(System(limits, [], map[]), run);
             RoomBeside(limits, Apply(s, Arrive(agent, model)).executions, |s.executions|, agent, model)
    ensures var s := After(System(limits, [], map[]), run);
            var came, i := Apply(s, Arrive(agent, model)), |s.executions|;
            && takes <= 3 && IsRun(came, TakeAll(i, takes)) && i < |After(came, TakeAll(i, takes)).executions|
            && Running(After(came, TakeAll(i, takes)).executions[i])
  {
    var start := System(limits, [], map[]);
    var s := After(start, run);
    RunKeepsEntitled(start, run);
    EmptyInv(limits);
    RunKeepsInv(start, run);
    StepKeepsInv(s, Arrive(agent, model));
    StepKeepsEntitled(s, Arrive(agent, model));
    var came := Apply(s, Arrive(agent, model));
    takes := |came.executions[|s.executions|].want|;
    hide IsRun, After, Inv, Entitled, TakeAll, RoomBeside, Trim;
    RoomLetsRun(came, |s.executions|);
  }

  // ---------------------------------------------------------------- giving back

  lemma {:induction false} SomeoneHolds(executions: seq<Execution>, i: nat, slot: Slot)
    requires i < |executions| && Holds(executions[i], slot)
    ensures Holders(executions, slot) > 0
  {
    CountSome(executions, i, e => Holds(e, slot));
  }

  /** Giving a slot back never blocks. */
  lemma {:induction false} GiveIsNeverBlocked(s: System, i: nat)
    requires Inv(s) && i < |s.executions| && s.executions[i].giving && s.executions[i].held > 0
    ensures Enabled(s, Give(i))
  {
    hide Holders, Rank, Cap;
    var e := s.executions[i];
    assert InOrder(s.limits, e);
    var slot := e.want[e.held - 1];
    assert e.want[..e.held][e.held - 1] == slot;
    SomeoneHolds(s.executions, i, slot);
    assert Agrees(s, slot);
  }

  function GiveAll(i: nat, n: nat): seq<Action> {
    seq(n, _ => Give(i))
  }

  lemma {:induction false} GiveAllUnroll(i: nat, n: nat)
    requires n > 0
    ensures GiveAll(i, n) != [] && GiveAll(i, n)[0] == Give(i) && GiveAll(i, n)[1..] == GiveAll(i, n - 1)
  {
  }

  /** An execution that has stopped, whether finished or cancelled half way, gives back exactly the
      slots it took: one token of each, and nobody else's. */
  lemma {:induction false} GivesBackWhatItTook(s: System, i: nat)
    requires Inv(s) && i < |s.executions| && s.executions[i].giving
    ensures IsRun(s, GiveAll(i, s.executions[i].held))
    ensures var s' := After(s, GiveAll(i, s.executions[i].held));
            && Inv(s') && s'.executions == s.executions[i := s.executions[i].(held := 0)]
            && (forall slot :: Used(s', slot) == Used(s, slot) - if Holds(s.executions[i], slot) then 1 else 0)
    decreases s.executions[i].held
  {
    var e := s.executions[i];
    if e.held == 0 {
      assert s.executions[i := e.(held := 0)] == s.executions;
    } else {
      GiveIsNeverBlocked(s, i);
      StepKeepsInv(s, Give(i));
      GiveAllUnroll(i, e.held);
      GiveStep(s, i);
      var s1 := Apply(s, Give(i));
      hide Inv, GiveAll, Apply, Enabled, Used, Holds;
      GivesBackWhatItTook(s1, i);
      assert s1.executions[i := s1.executions[i].(held := 0)] == s.executions[i := e.(held := 0)];
    }
  }

  lemma {:induction false} GiveStep(s: System, i: nat)
    requires AllInOrder(s) && Enabled(s, Give(i))
    ensures var e, s' := s.executions[i], Apply(s, Give(i));
            && s'.executions == s.executions[i := e.(held := e.held - 1)]
            && (forall slot ::
                  Used(s', slot) == Used(s, slot) - if Holds(e, slot) && !Holds(s'.executions[i], slot) then 1 else 0)
            && (forall slot :: Holds(s'.executions[i], slot) ==> Holds(e, slot))
  {
    hide Holds;
    var e, s' := s.executions[i], Apply(s, Give(i));
    assert InOrder(s.limits, e);
    forall slot ensures Holds(e, slot) <==> Holds(s'.executions[i], slot) || slot == e.want[e.held - 1] {
      HoldsOneMore(s.limits, s'.executions[i], slot);
    }
    HoldsOneMore(s.limits, s'.executions[i], e.want[e.held - 1]);
  }

  /** The step takes, or gives back, a token of `slot` for execution `i`. */
  predicate TakesSlot(s: System, a: Action, i: nat, slot: Slot)
    requires Enabled(s, a)
  {
    a == Take(i) && s.executions[i].want[s.executions[i].held] == slot
  }

  predicate GivesSlot(s: System, a: Action, i: nat, slot: Slot)
    requires Enabled(s, a)
  {
    a == Give(i) && s.executions[i].want[s.executions[i].held - 1] == slot
  }

  function Taken(s: System, run: seq<Action>, i: nat, slot: Slot): nat
    requires IsRun(s, run)
    decreases |run|
  {
    if run == [] then 0 else One(TakesSlot(s, run[0], i, slot)) + Taken(Apply(s, run[0]), run[1..], i, slot)
  }

  function Given(s: System, run: seq<Action>, i: nat, slot: Slot): nat
    requires IsRun(s, run)
    decreases |run|
  {
    if run == [] then 0 else One(GivesSlot(s, run[0], i, slot)) + Given(Apply(s, run[0]), run[1..], i, slot)
  }

  lemma {:induction false} StepBalances(s: System, a: Action, i: nat, slot: Slot)
    requires AllInOrder(s) && Enabled(s, a) && i < |s.executions|
    ensures i < |Apply(s, a).executions|
    ensures One(Holds(s.executions[i], slot)) + One(TakesSlot(s, a, i, slot))
         == One(Holds(Apply(s, a).executions[i], slot)) + One(GivesSlot(s, a, i, slot))
  {
    hide Holds, Wanted, Used, Cap;
    var e, e' := s.executions[i], Apply(s, a).executions[i];
    assert InOrder(s.limits, e);
    if a == Take(i) {
      HoldsOneMore(s.limits, e, slot);
      HoldsOneMore(s.limits, e, e.want[e.held]);
    } else if a == Give(i) {
      HoldsOneMore(s.limits, e', slot);
      HoldsOneMore(s.limits, e', e'.want[e'.held]);
    } else {
      GivingHolds(e, slot);
    }
  }

  /** Over any run, with everyone else's steps in between, what an execution takes of a channel is
      what it gives back plus what it still holds: one that starts with nothing and is gone at the
      end, finished or cancelled half way, has given back exactly what it took. */
  lemma {:induction false} TakesAreGivenBack(s: System, run: seq<Action>, i: nat, slot: Slot)
    requires AllInOrder(s) && IsRun(s, run) && i < |s.executions|
    ensures i < |After(s, run).executions|
    ensures Taken(s, run, i, slot) + One(Holds(s.executions[i], slot))
         == Given(s, run, i, slot) + One(Holds(After(s, run).executions[i], slot))
    ensures Gone(After(s, run).executions[i]) && s.executions[i].held == 0 ==>
              Taken(s, run, i, slot) == Given(s, run, i, slot)
    decreases |run|
  {
    hide AllInOrder, Enabled, Apply, TakesSlot, GivesSlot;
    NoneHeld(s.executions[i], slot);
    if run != [] {
      StepKeepsOrder(s, run[0]);
      StepBalances(s, run[0], i, slot);
      TakesAreGivenBack(Apply(s, run[0]), run[1..], i, slot);
    }
    NoneHeld(After(s, run).executions[i], slot);
    hide Holds;
  }

  lemma {:induction false} GivingHolds(e: Execution, slot: Slot)
    ensures Holds(e.(giving := true), slot) == Holds(e, slot)
  {
  }

  lemma {:induction false} NoneHeld(e: Execution, slot: Slot)
    ensures e.held == 0 ==> !Holds(e, slot)
  {
  }

  // ---------------------------------------------------------------- no deadlock

  /** The rank of the channel a waiting execution is at. */
  function NextRank(e: Execution): nat
    requires Waiting(e)
  {
    Rank(e.want[e.held])
  }

  /** The execution furthest along the acquisition order. */
  lemma {:induction false} Furthest(executions: seq<Execution>) returns (i: nat)
    requires exists k :: 0 <= k < |executions| && Waiting(executions[k])
    ensures i < |executions| && Waiting(executions[i])
    ensures forall k :: 0 <= k < |executions| && Waiting(executions[k]) ==>
              NextRank(executions[k]) <= NextRank(executions[i])
  {
    hide Rank, Waiting;
    var n := |executions| - 1;
    if exists k :: 0 <= k < n && Waiting(executions[..n][k]) {
      var j := Furthest(executions[..n]);
      assert forall k :: 0 <= k < n ==> executions[k] == executions[..n][k];
      i := if Waiting(executions[n]) && NextRank(executions[n]) > NextRank(executions[j]) then n else j;
    } else {
      assert forall k :: 0 <= k < n ==> executions[k] == executions[..n][k];
      i := n;
    }
  }

  lemma {:induction false} SomeHolder(executions: seq<Execution>, slot: Slot) returns (i: nat)
    requires Holders(executions, slot) > 0
    ensures i < |executions| && Holds(executions[i], slot)
  {
    i := Counted(executions, e => Holds(e, slot));
  }

  /** Nobody holds a slot of the rank the furthest execution waits at, unless it is done taking. */
  lemma {:induction false} HolderIsFurther(l: Limits, e: Execution, slot: Slot)
    requires InOrder(l, e) && Holds(e, slot) && Waiting(e)
    ensures Rank(slot) < NextRank(e)
  {
    hide Rank, Cap;
    var k :| 0 <= k < e.held && e.want[..e.held][k] == slot;
    assert e.want[k] == slot;
  }

  /** Deadlock is impossible: while some execution is not gone, one can move on without anyone
      being cancelled and without anyone new arriving. */
  lemma {:induction false} SomeoneCanMove(s: System) returns (a: Action)
    requires Inv(s) && exists i :: 0 <= i < |s.executions| && !Gone(s.executions[i])
    ensures Enabled(s, a) && (a.Take? || a.Finish? || a.Give?)
  {
    hide Holders, Rank, Cap, Used;
    if i :| 0 <= i < |s.executions| && Running(s.executions[i]) {
      a := Finish(i);
    } else if i :| 0 <= i < |s.executions| && s.executions[i].giving && s.executions[i].held > 0 {
      GiveIsNeverBlocked(s, i);
      a := Give(i);
    } else {
      var w :| 0 <= w < |s.executions| && !Gone(s.executions[w]);
      assert InOrder(s.limits, s.executions[w]);
      assert Waiting(s.executions[w]);
      var i := Furthest(s.executions);
      FurthestCanTake(s, i);
      a := Take(i);
    }
  }

  lemma {:induction false} FurthestCanTake(s: System, i: nat)
    requires Inv(s) && i < |s.executions| && Waiting(s.executions[i])
    requires forall k :: 0 <= k < |s.executions| ==> Waiting(s.executions[k]) || Gone(s.executions[k])
    requires forall k :: 0 <= k < |s.executions| && Waiting(s.executions[k]) ==>
               NextRank(s.executions[k]) <= NextRank(s.executions[i])
    ensures Enabled(s, Take(i))
  {
    hide Holders, Rank, Used;
    var slot := s.executions[i].want[s.executions[i].held];
    assert InOrder(s.limits, s.executions[i]);
    assert Agrees(s, slot);
    if Used(s, slot) >= Cap(s.limits, slot) {
      var h := SomeHolder(s.executions, slot);
      GoneHoldsNothing(s.executions[h], slot);
      HolderIsFurther(s.limits, s.executions[h], slot);
    }
  }

  lemma {:induction false} GoneHoldsNothing(e: Execution, slot: Slot)
    ensures Gone(e) ==> !Holds(e, slot)
  {
  }

  // ---------------------------------------------------------------- everybody gets through

  /** Steps an execution may still take. */
  function Steps(e: Execution): int {
    if e.giving then e.held else 2 * |e.want| - e.held + 1
  }

  function AllSteps(executions: seq<Execution>): int {
    if executions == [] then 0 else AllSteps(executions[..|executions| - 1]) + Steps(executions[|executions| - 1])
  }

  lemma {:induction false} AllStepsUpdate(executions: seq<Execution>, i: nat, e: Execution)
    requires i < |executions|
    ensures AllSteps(executions[i := e]) == AllSteps(executions) - Steps(executions[i]) + Steps(e)
  {
    hide Steps;
    var n := |executions| - 1;
    if i == n {
      assert executions[i := e][..n] == executions[..n];
    } else {
      assert executions[i := e][..n] == executions[..n][i := e];
      AllStepsUpdate(executions[..n], i, e);
    }
  }

  lemma {:induction false} StepSpends(s: System, a: Action)
    requires AllInOrder(s) && Enabled(s, a) && !a.Arrive?
    ensures AllSteps(Apply(s, a).executions) < AllSteps(s.executions)
  {
    var s' := Apply(s, a);
    assert InOrder(s.limits, s.executions[a.i]);
    AllStepsUpdate(s.executions, a.i, s'.executions[a.i]);
    hide AllSteps, Rank, Used;
  }

  lemma {:induction false} AllStepsIsNat(l: Limits, executions: seq<Execution>)
    requires forall i :: 0 <= i < |executions| ==> InOrder(l, executions[i])
    ensures AllSteps(executions) >= 0
  {
    hide Rank, Cap;
    if executions != [] {
      assert forall i :: 0 <= i < |executions| - 1 ==> executions[..|executions| - 1][i] == executions[i];
      AllStepsIsNat(l, executions[..|executions| - 1]);
    }
  }

  ghost predicate NobodyArrives(run: seq<Action>) {
    forall k :: 0 <= k < |run| ==> !run[k].Arrive?
  }

  /** Once arrivals stop, every schedule, with any cancellations, ends within a fixed number of
      steps; and when it can go no further everyone is gone and every channel is empty. */
  lemma {:induction false} EverybodyLeaves(s: System, run: seq<Action>)
    requires Inv(s) && IsRun(s, run) && NobodyArrives(run)
    ensures |run| <= AllSteps(s.executions)
    ensures (forall a :: Enabled(After(s, run), a) ==> a.Arrive?) ==>
              && (forall i :: 0 <= i < |After(s, run).executions| ==> Gone(After(s, run).executions[i]))
              && (forall slot :: Used(After(s, run), slot) == 0)
    decreases |run|
  {
    if run == [] {
      AllStepsIsNat(s.limits, s.executions);
      if forall a :: Enabled(s, a) ==> a.Arrive? {
        StuckIsEmpty(s);
      }
    } else {
      hide Inv, Enabled, Apply, AllInOrder, AllSteps, Gone, Used;
      StepKeepsInv(s, run[0]);
      InvOrder(s);
      StepSpends(s, run[0]);
      EverybodyLeaves(Apply(s, run[0]), run[1..]);
    }
  }

  lemma {:induction false} InvOrder(s: System)
    requires Inv(s)
    ensures AllInOrder(s)
  {
  }

  lemma {:induction false} StuckIsEmpty(s: System)
    requires Inv(s) && forall a :: Enabled(s, a) ==> a.Arrive?
    ensures forall i :: 0 <= i < |s.executions| ==> Gone(s.executions[i])
    ensures forall slot :: Used(s, slot) == 0
  {
    hide Enabled, Holders, Used, Cap, Rank;
    if exists i :: 0 <= i < |s.executions| && !Gone(s.executions[i]) {
      var a := SomeoneCanMove(s);
    }
    forall slot ensures Used(s, slot) == 0 {
      assert Agrees(s, slot);
      if Holders(s.executions, slot) > 0 {
        var h := SomeHolder(s.executions, slot);
        GoneHoldsNothing(s.executions[h], slot);
      }
    }
  }
}
