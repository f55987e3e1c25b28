/** The provider health prober (go-core/internal/kernel/provider_probe_manager.go:14-212): observers
    ask for probes, a bounded queue holds the requests, workers run them. Each mutex section and each
    channel operation is one step; the clock only moves forward, and a step may act on a time read
    earlier. */
module ProviderProbe {
  import opened Basics
  import opened Text

  /** The end of a probe: when it was, and what it found. */
  datatype Finding = Finding(at: Time, status: string, available: bool)

  /** What is kept for a provider. The last three fields record its finished probes. */
  datatype Probe = Probe(
    reporter: bool, refreshAfter: Option<Time>, cooldownUntil: Option<Time>, inflight: bool, queued: bool,
    finishes: nat, firstFinish: Time, last: Finding)

  /** `Taken`: off the queue, not yet under the lock. `Probing`: asking the provider, since then. */
  datatype Worker = Waiting | Taken(provider: string) | Probing(provider: string, since: Time)

  datatype Delays = Delays(ttl: int, failureCooldown: int, rateLimitCooldown: int)

  type States = map<string, Probe>

  datatype Prober = Prober(clock: Time, states: States, queue: seq<string>, workers: seq<Worker>, capacity: nat,
      delays: Delays)

  datatype Action =
    | Tick(elapsed: nat)
    | Observe(provider: string, reporter: bool, probe: bool, now: Time)
    | Dequeue(w: nat)
    | Begin(w: nat)
    | Finish(w: nat, now: Time, status: string, available: bool)

  const UNSEEN := Probe(false, None, None, false, false, 0, 0, Finding(0, "", false))

  function StateOf(states: States, provider: string): Probe {
    if provider in states then states[provider] else UNSEEN
  }

  // ---------------------------------------------------------------- the manager's decisions

  predicate ShouldQueue(p: Probe, now: Time) {
    && p.reporter && !p.queued && !p.inflight
    && (p.cooldownUntil.Some? ==> p.cooldownUntil.value <= now)
    && (p.refreshAfter.Some? ==> p.refreshAfter.value <= now)
  }

  /** The refresh delay and the cooldown after a probe; `status` is trimmed and in lower case. */
  function ScheduleFor(d: Delays, status: string, available: bool): (int, int) {
    if status == "ready" then (d.ttl, 0)
    else if status == "rate_limited" then (d.rateLimitCooldown, d.rateLimitCooldown)
    else if status in ["not_configured", "degraded", "unavailable"] then (d.failureCooldown, d.failureCooldown)
    else if available then (d.ttl, 0)
    else (d.failureCooldown, d.failureCooldown)
  }

  function After(now: Time, delay: int): Option<Time> {
    if delay > 0 then Some(now + delay) else None
  }

  function Observed(p: Probe, reporter: bool): Probe {
    p.(reporter := reporter)
  }

  predicate Enqueues(m: Prober, provider: string, reporter: bool, probe: bool, now: Time) {
    probe && reporter && ShouldQueue(Observed(StateOf(m.states, provider), reporter), now) && |m.queue| < m.capacity
  }

  function Finished(p: Probe, d: Delays, now: Time, status: string, available: bool): Probe {
    var (refresh, cooldown) := ScheduleFor(d, status, available);
    p.(inflight := false, queued := false, refreshAfter := After(now, refresh), cooldownUntil := After(now, cooldown),
       finishes := p.finishes + 1, firstFinish := if p.finishes == 0 then now else p.firstFinish,
       last := Finding(now, status, available))
  }

  predicate Enabled(m: Prober, a: Action) {
    match a
    case Tick(_) => true
    case Observe(_, _, _, now) => now <= m.clock
    case Dequeue(w) => w < |m.workers| && m.workers[w].Waiting? && m.queue != []
    case Begin(w) => w < |m.workers| && m.workers[w].Taken?
    case Finish(w, now, _, _) => w < |m.workers| && m.workers[w].Probing? && m.workers[w].since <= now <= m.clock
  }

  function Apply(m: Prober, a: Action): Prober
    requires Enabled(m, a)
  {
    match a
    case Tick(elapsed) => m.(clock := m.clock + elapsed)
    case Observe(name, reporter, probe, now) => ObserveStep(m, Trim(name), reporter, probe, now)
    case Dequeue(w) => m.(queue := m.queue[1..], workers := m.workers[w := Taken(m.queue[0])])
    case Begin(w) => BeginStep(m, w)
    case Finish(w, now, status, available) =>
      var provider := m.workers[w].provider;
      m.(states := m.states[provider := Finished(StateOf(m.states, provider), m.delays, now, status, available)],
         workers := m.workers[w := Waiting])
  }

  function ObserveStep(m: Prober, provider: string, reporter: bool, probe: bool, now: Time): Prober {
    if provider == "" then m
    else
      var state := Observed(StateOf(m.states, provider), reporter);
      if Enqueues(m, provider, reporter, probe, now) then
        m.(states := m.states[provider := state.(queued := true)], queue := m.queue + [provider])
      else m.(states := m.states[provider := state])
  }

  /** A worker under the lock: without a reporter there is nothing to ask. */
  function BeginStep(m: Prober, w: nat): Prober
    requires w < |m.workers| && m.workers[w].Taken?
  {
    var provider := m.workers[w].provider;
    var state := StateOf(m.states, provider).(queued := false);
    if state.reporter then
      m.(states := m.states[provider := state.(inflight := true)],
          workers := m.workers[w := Probing(provider, m.clock)])
    else m.(states := m.states[provider := state], workers := m.workers[w := Waiting])
  }

  ghost predicate IsRun(m: Prober, run: seq<Action>)
    decreases |run|
  {
    run == [] || (Enabled(m, run[0]) && IsRun(Apply(m, run[0]), run[1..]))
  }

  function Reach(m: Prober, run: seq<Action>): Prober
    requires IsRun(m, run)
    decreases |run|
  {
    if run == [] then m else Reach(Apply(m, run[0]), run[1..])
  }

  function Start(clock: Time, workers: nat, capacity: nat, delays: Delays): Prober {
    Prober(clock, map[], [], seq(workers, _ => Waiting), capacity, delays)
  }

  // ---------------------------------------------------------------- single flight

  function InQueue(queue: seq<string>, provider: string): nat {
    Count(queue, q => q == provider)
  }

  predicate IsTaking(worker: Worker, provider: string) {
    worker.Taken? && worker.provider == provider
  }

  predicate IsProbing(worker: Worker, provider: string) {
    worker.Probing? && worker.provider == provider
  }

  function Taking(workers: seq<Worker>, provider: string): nat {
    Count(workers, w => IsTaking(w, provider))
  }

  function ProbesOf(workers: seq<Worker>, provider: string): nat {
    Count(workers, w => IsProbing(w, provider))
  }

  /** A provider is queued, or being taken off the queue, once when its flag says so and never
      otherwise; it has one probe in flight when that flag says so; and it is never both. */
  predicate SingleFlight(m: Prober, provider: string) {
    var p := StateOf(m.states, provider);
    && InQueue(m.queue, provider) + Taking(m.workers, provider) == One(p.queued)
    && ProbesOf(m.workers, provider) == One(p.inflight)
    && !(p.queued && p.inflight)
  }

  lemma {:induction false} InQueueAppend(queue: seq<string>, x: string, provider: string)
    ensures InQueue(queue + [x], provider) == InQueue(queue, provider) + One(x == provider)
  {
    CountAppend(queue, x, q => q == provider);
  }

  lemma {:induction false} InQueueTail(queue: seq<string>, provider: string)
    requires queue != []
    ensures InQueue(queue, provider) == One(queue[0] == provider) + InQueue(queue[1..], provider)
  {
    CountConcat([queue[0]], queue[1..], q => q == provider);
    assert [queue[0]] + queue[1..] == queue;
  }

  lemma {:induction false} WorkersUpdate(workers: seq<Worker>, w: nat, x: Worker, provider: string)
    requires w < |workers|
    ensures Taking(workers[w := x], provider) ==
              Taking(workers, provider) - One(IsTaking(workers[w], provider)) + One(IsTaking(x, provider))
    ensures ProbesOf(workers[w := x], provider) ==
              ProbesOf(workers, provider) - One(IsProbing(workers[w], provider)) + One(IsProbing(x, provider))
  {
    CountUpdate(workers, w, x, v => IsTaking(v, provider));
    CountUpdate(workers, w, x, v => IsProbing(v, provider));
  }

  lemma {:induction false} ObserveSingleFlight(m: Prober, name: string, reporter: bool, probe: bool, now: Time,
                                               provider: string)
    requires SingleFlight(m, provider)
    ensures SingleFlight(ObserveStep(m, name, reporter, probe, now), provider)
  {
    hide InQueue, Taking, ProbesOf;
    InQueueAppend(m.queue, name, provider);
  }

  lemma {:induction false} DequeueSingleFlight(m: Prober, w: nat, provider: string)
    requires SingleFlight(m, provider) && Enabled(m, Dequeue(w))
    ensures SingleFlight(Apply(m, Dequeue(w)), provider)
  {
    WorkersUpdate(m.workers, w, Taken(m.queue[0]), provider);
    InQueueTail(m.queue, provider);
    hide Taking, ProbesOf, InQueue;
  }

  lemma {:induction false} TakerIsCounted(workers: seq<Worker>, w: nat, provider: string)
    requires w < |workers|
    ensures IsTaking(workers[w], provider) ==> Taking(workers, provider) > 0
    ensures IsProbing(workers[w], provider) ==> ProbesOf(workers, provider) > 0
  {
    if IsTaking(workers[w], provider) {
      CountSome(workers, w, v => IsTaking(v, provider));
    }
    if IsProbing(workers[w], provider) {
      CountSome(workers, w, v => IsProbing(v, provider));
    }
  }

  lemma {:induction false} BeginSingleFlight(m: Prober, w: nat, provider: string)
    requires SingleFlight(m, provider) && Enabled(m, Begin(w))
    ensures SingleFlight(BeginStep(m, w), provider)
  {
    TakerIsCounted(m.workers, w, provider);
    WorkersUpdate(m.workers, w, BeginStep(m, w).workers[w], provider);
    hide Taking, ProbesOf, InQueue;
  }

  lemma {:induction false} FinishSingleFlight(m: Prober, a: Action, provider: string)
    requires a.Finish? && SingleFlight(m, provider) && Enabled(m, a)
    ensures SingleFlight(Apply(m, a), provider)
  {
    TakerIsCounted(m.workers, a.w, provider);
    WorkersUpdate(m.workers, a.w, Waiting, provider);
    hide Taking, ProbesOf, InQueue, ScheduleFor;
  }

  lemma {:induction false} StepSingleFlight(m: Prober, a: Action, provider: string)
    requires SingleFlight(m, provider) && Enabled(m, a)
    ensures SingleFlight(Apply(m, a), provider)
  {
    hide InQueue, Taking, ProbesOf, ObserveStep, BeginStep, Finished, Trim;
    match a
    case Tick(_) =>
    case Observe(name, reporter, probe, now) => ObserveSingleFlight(m, Trim(name), reporter, probe, now, provider);
    case Dequeue(w) => DequeueSingleFlight(m, w, provider);
    case Begin(w) => BeginSingleFlight(m, w, provider);
    case Finish(w, now, status, available) => FinishSingleFlight(m, a, provider);
  }

  // ---------------------------------------------------------------- spacing

  /** No schedule is shorter than `d`. */
  predicate DelaysAtLeast(delays: Delays, d: int) {
    d <= delays.ttl && d <= delays.failureCooldown && d <= delays.rateLimitCooldown
  }

  /** `clock` has passed the wait after the last finished probe. */
  predicate Rested(p: Probe, d: int, now: Time) {
    p.finishes > 0 ==> p.last.at + d <= now
  }

  /** The finished probes of a provider lie at least `d` apart, and so does the next one. */
  ghost predicate Spaced(m: Prober, d: int, provider: string) {
    var p := StateOf(m.states, provider);
    && (p.finishes > 0 ==> p.firstFinish + (p.finishes - 1) * d <= p.last.at <= m.clock)
    && (p.finishes > 0 ==> p.refreshAfter.Some? && p.last.at + d <= p.refreshAfter.value)
    && (p.queued ==> Rested(p, d, m.clock))
    && (forall w :: 0 <= w < |m.workers| && IsProbing(m.workers[w], provider) ==>
          m.workers[w].since <= m.clock && Rested(p, d, m.workers[w].since))
  }

  lemma {:induction false} ObserveSpaced(m: Prober, name: string, reporter: bool, probe: bool, now: Time, d: int,
                                         provider: string)
    requires Spaced(m, d, provider) && now <= m.clock
    ensures Spaced(ObserveStep(m, name, reporter, probe, now), d, provider)
  {
  }

  lemma {:induction false} BeginSpaced(m: Prober, w: nat, d: int, provider: string)
    requires Spaced(m, d, provider) && SingleFlight(m, provider) && Enabled(m, Begin(w))
    ensures Spaced(BeginStep(m, w), d, provider)
  {
    TakerIsCounted(m.workers, w, provider);
    hide Taking, ProbesOf, InQueue;
    var m' := BeginStep(m, w);
    forall v | 0 <= v < |m'.workers| && IsProbing(m'.workers[v], provider)
      ensures m'.workers[v].since <= m'.clock && Rested(StateOf(m'.states, provider), d, m'.workers[v].since) {
      if v != w {
        assert IsProbing(m.workers[v], provider);
      }
    }
  }

  lemma {:induction false} ScheduleIsLong(delays: Delays, d: int, status: string, available: bool)
    requires DelaysAtLeast(delays, d)
    ensures d <= ScheduleFor(delays, status, available).0
  {
  }

  lemma {:induction false} OneMore(n: nat, d: int)
    requires n > 0
    ensures n * d == (n - 1) * d + d
  {
  }

  lemma {:induction false} FinishSpaced(m: Prober, a: Action, d: int, provider: string)
    requires a.Finish? && d > 0 && DelaysAtLeast(m.delays, d) && Spaced(m, d, provider) && SingleFlight(m, provider)
               && Enabled(m, a)
    ensures Spaced(Apply(m, a), d, provider)
  {
    var w, m' := a.w, Apply(m, a);
    ScheduleIsLong(m.delays, d, a.status, a.available);
    TakerIsCounted(m.workers, w, provider);
    WorkersUpdate(m.workers, w, Waiting, provider);
    hide ScheduleFor;
    var p := StateOf(m.states, provider);
    if m.workers[w].provider == provider && p.finishes > 0 {
      assert IsProbing(m.workers[w], provider);
      OneMore(p.finishes, d);
    }
    forall v | 0 <= v < |m'.workers| && IsProbing(m'.workers[v], provider)
      ensures m'.workers[v].since <= m'.clock && Rested(StateOf(m'.states, provider), d, m'.workers[v].since) {
      assert IsProbing(m.workers[v], provider);
      TakerIsCounted(m'.workers, v, provider);
    }
    hide Taking, ProbesOf, InQueue;
  }

  lemma {:induction false} StepSpaced(m: Prober, a: Action, d: int, provider: string)
    requires d > 0 && DelaysAtLeast(m.delays, d) && Spaced(m, d, provider) && SingleFlight(m, provider) && Enabled(m, a)
    ensures Spaced(Apply(m, a), d, provider) && Apply(m, a).delays == m.delays
  {
    hide InQueue, Taking, ProbesOf, Trim, DelaysAtLeast, SingleFlight, ScheduleFor;
    match a
    case Tick(_) =>
    case Observe(name, reporter, probe, now) => ObserveSpaced(m, Trim(name), reporter, probe, now, d, provider);
    case Dequeue(w) => DequeueSpaced(m, w, d, provider);
    case Begin(w) => BeginSpaced(m, w, d, provider);
    case Finish(w, now, status, available) => FinishSpaced(m, a, d, provider);
  }

  lemma {:induction false} DequeueSpaced(m: Prober, w: nat, d: int, provider: string)
    requires Spaced(m, d, provider) && Enabled(m, Dequeue(w))
    ensures Spaced(Apply(m, Dequeue(w)), d, provider)
  {
    var m' := Apply(m, Dequeue(w));
    forall v | 0 <= v < |m'.workers| && IsProbing(m'.workers[v], provider)
      ensures m'.workers[v].since <= m'.clock && Rested(StateOf(m'.states, provider), d, m'.workers[v].since) {
      assert IsProbing(m.workers[v], provider);
    }
  }

  // ---------------------------------------------------------------- whole runs

  lemma {:induction false} NobodyActs(workers: seq<Worker>, provider: string)
    requires forall w :: 0 <= w < |workers| ==> workers[w].Waiting?
    ensures Taking(workers, provider) == 0 && ProbesOf(workers, provider) == 0
  {
    CountNone(workers, v => IsTaking(v, provider));
    CountNone(workers, v => IsProbing(v, provider));
  }

  lemma {:induction false} RunKeeps(m: Prober, run: seq<Action>, d: int, provider: string)
    requires d > 0 && DelaysAtLeast(m.delays, d) && SingleFlight(m, provider) && Spaced(m, d, provider) && IsRun(m, run)
    ensures SingleFlight(Reach(m, run), provider) && Spaced(Reach(m, run), d, provider)
    decreases |run|
  {
    hide SingleFlight, Spaced, Enabled, Apply, DelaysAtLeast;
    if run != [] {
      StepSingleFlight(m, run[0], provider);
      StepSpaced(m, run[0], d, provider);
      RunKeeps(Apply(m, run[0]), run[1..], d, provider);
    }
  }

  lemma {:induction false} RunKeepsSingleFlight(m: Prober, run: seq<Action>, provider: string)
    requires SingleFlight(m, provider) && IsRun(m, run)
    ensures SingleFlight(Reach(m, run), provider)
    decreases |run|
  {
    hide SingleFlight, Enabled, Apply;
    if run != [] {
      StepSingleFlight(m, run[0], provider);
      RunKeepsSingleFlight(Apply(m, run[0]), run[1..], provider);
    }
  }

  /** Under every interleaving of observers and workers a provider is queued at most once and probed
      by at most one worker at a time, never both. */
  lemma {:induction false} ProbesAreSingleFlight(clock: Time, workers: nat, capacity: nat, delays: Delays,
                                                 run: seq<Action>, provider: string)
    requires IsRun(Start(clock, workers, capacity, delays), run)
    ensures var m := Reach(Start(clock, workers, capacity, delays), run);
            && SingleFlight(m, provider)
            && InQueue(m.queue, provider) + Taking(m.workers, provider) + ProbesOf(m.workers, provider) <= 1
  {
    var start := Start(clock, workers, capacity, delays);
    NobodyActs(start.workers, provider);
    RunKeepsSingleFlight(start, run, provider);
    hide IsRun, Reach, Start, InQueue, Taking, ProbesOf;
  }

  // ---------------------------------------------------------------- when a probe is due

  /** The finished probes of a provider, in the order they finished. */
  function Findings(m: Prober, run: seq<Action>, provider: string): seq<Finding>
    requires IsRun(m, run)
    decreases |run|
  {
    if run == [] then [] else FindingOf(m, run[0], provider) + Findings(Apply(m, run[0]), run[1..], provider)
  }

  function FindingOf(m: Prober, a: Action, provider: string): seq<Finding>
    requires Enabled(m, a)
  {
    if a.Finish? && m.workers[a.w].provider == provider then [Finding(a.now, a.status, a.available)] else []
  }

  /** Whether the last observation of a provider came with a reporter. */
  function LastReporter(run: seq<Action>, provider: string): bool {
    if run == [] then false
    else
      var last := run[|run| - 1];
      if last.Observe? && provider != "" && Trim(last.provider) == provider then last.reporter
      else LastReporter(run[..|run| - 1], provider)
  }

  /** How long a provider is left alone after a probe: the usual delay when it answered, one cooldown
      when it limited the rate, another when it failed in any other way. */
  function WaitAfter(d: Delays, found: Finding): int {
    if found.status == "ready" then d.ttl
    else if found.status == "rate_limited" then d.rateLimitCooldown
    else if found.available && found.status !in ["not_configured", "degraded", "unavailable"] then d.ttl
    else d.failureCooldown
  }

  /** The wait after a finding is over, or there is none. */
  predicate Over(d: Delays, found: Finding, now: Time) {
    WaitAfter(d, found) > 0 ==> found.at + WaitAfter(d, found) <= now
  }

  /** The waits kept for a provider are those after its last finding. */
  predicate Scheduled(m: Prober, provider: string) {
    var p := StateOf(m.states, provider);
    if p.finishes == 0 then p.refreshAfter.None? && p.cooldownUntil.None?
    else
      var wait := WaitAfter(m.delays, p.last);
      && p.last.at <= m.clock
      && p.refreshAfter == (if wait > 0 then Some(p.last.at + wait) else None)
      && (p.cooldownUntil.Some? ==> wait > 0 && p.cooldownUntil.value == p.last.at + wait)
  }

  lemma {:induction false} StepScheduled(m: Prober, a: Action, provider: string)
    requires Scheduled(m, provider) && Enabled(m, a)
    ensures Scheduled(Apply(m, a), provider) && Apply(m, a).delays == m.delays
  {
    hide Trim;
  }

  lemma {:induction false} RunScheduled(m: Prober, run: seq<Action>, provider: string)
    requires Scheduled(m, provider) && IsRun(m, run)
    ensures Scheduled(Reach(m, run), provider) && Reach(m, run).delays == m.delays
    decreases |run|
  {
    hide Scheduled, Enabled, Apply;
    if run != [] {
      StepScheduled(m, run[0], provider);
      RunScheduled(Apply(m, run[0]), run[1..], provider);
    }
  }

  lemma {:induction false} StepRecords(m: Prober, a: Action, provider: string)
    requires Enabled(m, a)
    ensures var p, p' := StateOf(m.states, provider), StateOf(Apply(m, a).states, provider);
            var found := FindingOf(m, a, provider);
            && p'.finishes == p.finishes + |found|
            && (if found == [] then p'.last == p.last && p'.firstFinish == p.firstFinish
                else p'.last == found[0] && p'.firstFinish == if p.finishes == 0 then found[0].at else p.firstFinish)
  {
    hide Trim, ScheduleFor;
  }

  lemma {:induction false} FindingOne(m: Prober, a: Action, provider: string)
    requires Enabled(m, a)
    ensures |FindingOf(m, a, provider)| <= 1
  {
  }

  /** What is recorded of a provider's probes is what happened. */
  lemma {:induction false} RunRecords(m: Prober, run: seq<Action>, provider: string)
    requires IsRun(m, run)
    ensures var p, p' := StateOf(m.states, provider), StateOf(Reach(m, run).states, provider);
            var found := Findings(m, run, provider);
            && p'.finishes == p.finishes + |found|
            && (if found == [] then p'.last == p.last && p'.firstFinish == p.firstFinish
                else p'.last == found[|found| - 1]
                     && p'.firstFinish == if p.finishes == 0 then found[0].at else p.firstFinish)
    decreases |run|
  {
    hide Enabled, Apply, FindingOf;
    if run != [] {
      StepRecords(m, run[0], provider);
      RunRecords(Apply(m, run[0]), run[1..], provider);
      var head, tail := FindingOf(m, run[0], provider), Findings(Apply(m, run[0]), run[1..], provider);
      assert tail != [] ==> (head + tail)[|head + tail| - 1] == tail[|tail| - 1];
      assert tail == [] ==> head + tail == head;
      FindingOne(m, run[0], provider);
    }
  }

  lemma {:induction false} PrefixRun(m: Prober, run: seq<Action>)
    requires IsRun(m, run) && run != []
    ensures var front := run[..|run| - 1];
            && IsRun(m, front) && Enabled(Reach(m, front), run[|run| - 1])
            && Reach(m, run) == Apply(Reach(m, front), run[|run| - 1])
    decreases |run|
  {
    hide Enabled, Apply;
    if |run| > 1 {
      PrefixRun(Apply(m, run[0]), run[1..]);
      assert run[1..][..|run| - 2] == run[..|run| - 1][1..];
    } else {
      assert run[1..] == [] && run[..0] == [];
    }
  }

  lemma {:induction false} StepReporter(m: Prober, a: Action, provider: string)
    requires Enabled(m, a) && provider != ""
    ensures StateOf(Apply(m, a).states, provider).reporter ==
              if a.Observe? && Trim(a.provider) == provider then a.reporter
              else StateOf(m.states, provider).reporter
  {
    hide Trim, ScheduleFor;
  }

  lemma {:induction false} RunReporter(m: Prober, run: seq<Action>, provider: string)
    requires IsRun(m, run) && m.states == map[] && provider != ""
    ensures StateOf(Reach(m, run).states, provider).reporter == LastReporter(run, provider)
    decreases |run|
  {
    hide Enabled, Apply, Trim;
    if run != [] {
      PrefixRun(m, run);
      StepReporter(Reach(m, run[..|run| - 1]), run[|run| - 1], provider);
      RunReporter(m, run[..|run| - 1], provider);
    }
  }

  /** In any reachable state an observation gets a request into the queue exactly when it asks for a
      probe and has a reporter and a name, the queue has room, nobody has the provider queued, taken
      or in flight, and its last probe, if any, is long enough ago by the time the observer read. */
  lemma {:induction false} RequestsExactlyWhenDue(clock: Time, workers: nat, capacity: nat, delays: Delays,
                                                  run: seq<Action>, a: Action)
    requires IsRun(Start(clock, workers, capacity, delays), run)
    requires a.Observe? && Enabled(Reach(Start(clock, workers, capacity, delays), run), a)
    ensures var start := Start(clock, workers, capacity, delays);
            var m, name := Reach(start, run), Trim(a.provider);
            var found := Findings(start, run, name);
            var idle := InQueue(m.queue, name) + Taking(m.workers, name) + ProbesOf(m.workers, name) == 0;
            var due := found == [] || Over(delays, found[|found| - 1], a.now);
            Apply(m, a).queue ==
              if a.probe && a.reporter && name != "" && |m.queue| < capacity && idle && due then m.queue + [name]
              else m.queue
  {
    var start, name := Start(clock, workers, capacity, delays), Trim(a.provider);
    ProbesAreSingleFlight(clock, workers, capacity, delays, run, name);
    RunScheduled(start, run, name);
    RunRecords(start, run, name);
    KeepsCapacity(start, run);
    hide IsRun, Reach, Findings, InQueue, Taking, ProbesOf, Trim, WaitAfter;
  }

  lemma {:induction false} KeepsCapacity(m: Prober, run: seq<Action>)
    requires IsRun(m, run)
    ensures Reach(m, run).capacity == m.capacity
    decreases |run|
  {
    hide Trim, ScheduleFor;
    if run != [] {
      KeepsCapacity(Apply(m, run[0]), run[1..]);
    }
  }

  /** A request taken off the queue leads to a probe exactly when the last observation of its provider
      came with a reporter; otherwise the worker is free again. */
  lemma {:induction false} RequestsAreServed(clock: Time, workers: nat, capacity: nat, delays: Delays,
                                             run: seq<Action>, w: nat)
    requires IsRun(Start(clock, workers, capacity, delays), run)
    requires Enabled(Reach(Start(clock, workers, capacity, delays), run), Begin(w))
    ensures var m := Reach(Start(clock, workers, capacity, delays), run);
            var name := m.workers[w].provider;
            && name != ""
            && Apply(m, Begin(w)).workers[w] == if LastReporter(run, name) then Probing(name, m.clock) else Waiting
  {
    var start := Start(clock, workers, capacity, delays);
    RunNamed(start, run);
    var m := Reach(start, run);
    RunReporter(start, run, m.workers[w].provider);
    hide IsRun, Reach, LastReporter;
  }

  /** Only names that are not blank are queued. */
  ghost predicate Named(m: Prober) {
    && (forall k :: 0 <= k < |m.queue| ==> m.queue[k] != "")
    && (forall w :: 0 <= w < |m.workers| ==> !m.workers[w].Waiting? ==> m.workers[w].provider != "")
  }

  lemma {:induction false} RunNamed(m: Prober, run: seq<Action>)
    requires Named(m) && IsRun(m, run)
    ensures Named(Reach(m, run))
    decreases |run|
  {
    if run != [] {
      StepNamed(m, run[0]);
      hide Named, Enabled, Apply;
      RunNamed(Apply(m, run[0]), run[1..]);
    }
  }

  lemma {:induction false} StepNamed(m: Prober, a: Action)
    requires Named(m) && Enabled(m, a)
    ensures Named(Apply(m, a))
  {
    hide Trim, ScheduleFor;
  }

  /** Steps the workers can still take. */
  function WorkLeft(m: Prober): nat {
    3 * |m.queue| + 2 * Count(m.workers, (w: Worker) => w.Taken?) + Count(m.workers, (w: Worker) => w.Probing?)
  }

  predicate IsWork(a: Action) {
    a.Dequeue? || a.Begin? || a.Finish?
  }

  lemma {:induction false} StepWorks(m: Prober, a: Action)
    requires Enabled(m, a) && IsWork(a)
    ensures WorkLeft(Apply(m, a)) < WorkLeft(m) && |Apply(m, a).workers| == |m.workers|
  {
    var x := Apply(m, a).workers[a.w];
    assert Apply(m, a).workers == m.workers[a.w := x];
    CountUpdate(m.workers, a.w, x, (w: Worker) => w.Taken?);
    CountUpdate(m.workers, a.w, x, (w: Worker) => w.Probing?);
    hide Finished;
  }

  /** No probe began in the future. */
  ghost predicate Timely(m: Prober) {
    forall w :: 0 <= w < |m.workers| && m.workers[w].Probing? ==> m.workers[w].since <= m.clock
  }

  lemma {:induction false} StepTimely(m: Prober, a: Action)
    requires Timely(m) && Enabled(m, a)
    ensures Timely(Apply(m, a))
  {
    hide Trim, Finished;
  }

  lemma {:induction false} RunTimely(m: Prober, run: seq<Action>)
    requires Timely(m) && IsRun(m, run)
    ensures Timely(Reach(m, run)) && |Reach(m, run).workers| == |m.workers|
    decreases |run|
  {
    if run != [] {
      StepTimely(m, run[0]);
      assert |Apply(m, run[0]).workers| == |m.workers|;
      hide Timely, Enabled, Apply;
      RunTimely(Apply(m, run[0]), run[1..]);
    }
  }

  /** Without new observations the workers take a bounded number of steps. */
  lemma {:induction false} WorkEnds(m: Prober, run: seq<Action>)
    requires IsRun(m, run) && forall k :: 0 <= k < |run| ==> IsWork(run[k])
    ensures |run| <= WorkLeft(m)
    decreases |run|
  {
    hide Enabled, Apply, WorkLeft, IsWork;
    if run != [] {
      StepWorks(m, run[0]);
      WorkEnds(Apply(m, run[0]), run[1..]);
    }
  }

  /** Requests are worked off: from any reachable state the workers alone take a bounded number of
      steps, and where they can take no more, nothing is queued and nobody is at work. */
  lemma {:induction false} RequestsAreWorkedOff(clock: Time, workers: nat, capacity: nat, delays: Delays,
                                                before: seq<Action>, run: seq<Action>)
    requires workers > 0 && IsRun(Start(clock, workers, capacity, delays), before)
    requires IsRun(Reach(Start(clock, workers, capacity, delays), before), run)
    requires forall k :: 0 <= k < |run| ==> IsWork(run[k])
    ensures var m := Reach(Start(clock, workers, capacity, delays), before);
            var end := Reach(m, run);
            && |run| <= WorkLeft(m)
            && ((forall a :: Enabled(end, a) ==> !IsWork(a)) ==>
                  end.queue == [] && forall w :: 0 <= w < |end.workers| ==> end.workers[w].Waiting?)
  {
    var start := Start(clock, workers, capacity, delays);
    var m := Reach(start, before);
    RunTimely(start, before);
    RunTimely(m, run);
    WorkEnds(m, run);
    hide IsRun, Reach, Enabled, IsWork, WorkLeft;
    var end := Reach(m, run);
    if forall a :: Enabled(end, a) ==> !IsWork(a) {
      NobodyAtWork(end);
    }
  }

  lemma {:induction false} NobodyAtWork(m: Prober)
    requires m.workers != [] && forall a :: Enabled(m, a) ==> !IsWork(a)
    requires Timely(m)
    ensures m.queue == [] && forall w :: 0 <= w < |m.workers| ==> m.workers[w].Waiting?
  {
    forall w | 0 <= w < |m.workers| ensures m.workers[w].Waiting? {
      assert !Enabled(m, Begin(w)) && !Enabled(m, Finish(w, m.clock, "", false));
    }
    assert !Enabled(m, Dequeue(0));
  }

  /** Probes are rate limited: with every delay at least `d`, a run in which `n` probes of a provider
      finished lasted at least `n - 1` times `d` since the first of them. */
  lemma {:induction false} ProbesAreRateLimited(clock: Time, workers: nat, capacity: nat, delays: Delays,
                                                run: seq<Action>, d: int, provider: string)
    requires IsRun(Start(clock, workers, capacity, delays), run) && d > 0 && DelaysAtLeast(delays, d)
    ensures var start := Start(clock, workers, capacity, delays);
            var found := Findings(start, run, provider);
            found != [] ==> (|found| - 1) * d <= Reach(start, run).clock - found[0].at
  {
    var start := Start(clock, workers, capacity, delays);
    NobodyActs(start.workers, provider);
    assert Spaced(start, d, provider);
    RunKeeps(start, run, d, provider);
    RunRecords(start, run, provider);
    hide IsRun, Reach, Start, InQueue, Taking, ProbesOf, Findings;
  }

  // ---------------------------------------------------------------- the manager object

  /** The shared part of the prober, with its mutex sections. `m` is the whole system around it. */
  class ProbeManager {
    const capacity: nat
    const delays: Delays
    var states: States
    var queue: seq<string>

    ghost predicate IsPartOf(m: Prober)
      reads this
    {
      m.states == states && m.queue == queue && m.capacity == capacity && m.delays == delays
    }

    constructor (capacity: nat, delays: Delays)
      ensures forall clock, workers :: IsPartOf(Start(clock, workers, capacity, delays))
    {
      this.capacity, this.delays := capacity, delays;
      states, queue := map[], [];
    }

    /** Note the observer's reporter, and ask for a probe when one is due and the queue has room. */
    method Observe(ghost m: Prober, name: string, reporter: bool, probe: bool, now: Time) returns (asked: bool)
      requires IsPartOf(m)
      modifies this
      ensures IsPartOf(ObserveStep(m, Trim(name), reporter, probe, now))
      ensures asked <==> Trim(name) != "" && Enqueues(m, Trim(name), reporter, probe, now)
      ensures queue == if asked then old(queue) + [Trim(name)] else old(queue)
    {
      hide Trim;
      asked := false;
      var provider := Trim(name);
      if provider == "" {
        return;
      }
      var state := StateOf(states, provider).(reporter := reporter);
      if probe && reporter && ShouldQueue(state, now) && |queue| < capacity {
        queue, state, asked := queue + [provider], state.(queued := true), true;
      }
      states := states[provider := state];
    }

    /** A worker starts on the provider it took off the queue; false when there is nobody to ask. */
    method BeginProbe(ghost m: Prober, ghost w: nat, provider: string) returns (ask: bool)
      requires IsPartOf(m) && w < |m.workers| && m.workers[w] == Taken(provider)
      modifies this
      ensures IsPartOf(BeginStep(m, w))
      ensures ask <==> BeginStep(m, w).workers[w].Probing?
    {
      var state := StateOf(states, provider).(queued := false);
      ask := state.reporter;
      if ask {
        state := state.(inflight := true);
      }
      states := states[provider := state];
    }

    /** The probe is done: nothing is in flight, and the next one has to wait. */
    method FinishProbe(ghost m: Prober, a: Action, provider: string)
      requires IsPartOf(m) && a.Finish? && Enabled(m, a) && m.workers[a.w].provider == provider
      modifies this
      ensures IsPartOf(Apply(m, a))
    {
      hide ScheduleFor;
      var (refresh, cooldown) := ScheduleFor(delays, a.status, a.available);
      var state := StateOf(states, provider).(inflight := false, queued := false);
      state := state.(refreshAfter := if refresh > 0 then Some(a.now + refresh) else None);
      state := state.(cooldownUntil := if cooldown > 0 then Some(a.now + cooldown) else None);
      state := state.(firstFinish := if state.finishes == 0 then a.now else state.firstFinish);
      state := state.(last := Finding(a.now, a.status, a.available));
      states := states[provider := state.(finishes := state.finishes + 1)];
    }
  }
}
