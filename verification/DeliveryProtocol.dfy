/** The delivery protocol on the in-memory bus: dispatch, checksum handshake, retries by workers and
    by timeout sweeps, dead letters and the pool counters
    (go-core/internal/delivery/supervisor.go:73-115, 172-269, 291-353, 531-552;
    go-core/internal/delivery/worker_pool.go:166-343;
    go-core/internal/delivery/message_bus.go:366-378). Each mutex section is one step, with the
    bus call or counter update that follows it; steps of different goroutines interleave freely. */
module DeliveryProtocol {
  import opened DeliveryHistory

  type Payload = string

  /** The payload digest; nothing is asked of it. */
  type Digest = Payload -> string

  datatype Envelope = Envelope(
    id: string, target: string, payload: Payload,
    retryCount: int, maxRetries: int, hopCount: int, maxHops: int, isDeadLetter: bool)

  function MaxRetries(e: Envelope): int {
    if e.maxRetries <= 0 then 3 else e.maxRetries
  }

  /** A tracked delivery. `dispatched` is the envelope as it was handed to the supervisor. */
  datatype Record = Record(
    dispatched: Envelope, envelope: Envelope, retryCount: int,
    checksum: string, validated: bool, status: AckStatus)

  type Records = map<string, Record>

  /** The bus. `mailbox` holds every topic's queue, in arrival order; a topic's queue is the part
      addressed to its agent. The tallies count envelopes by task id. */
  datatype Post = Post(
    mailbox: seq<Envelope>,
    published: multiset<string>, stopped: multiset<string>,
    injected: multiset<string>, received: multiset<string>)

  /** The counters of every worker pool, by agent. */
  datatype Metrics = Metrics(
    active: multiset<string>, processed: multiset<string>, succeeded: multiset<string>, failed: multiset<string>,
    refused: multiset<string>, retried: multiset<string>, deadLettered: multiset<string>)

  /** What a worker is doing with an envelope. */
  datatype Stage =
    | Idle
    | Checking(e: Envelope)
    | Refusing(e: Envelope)
    | Burying(e: Envelope)
    | Establishing(e: Envelope)
    | Handling(e: Envelope)
    | Finishing(e: Envelope)
    | Erring(e: Envelope)
    | Deciding(e: Envelope)
    | Resending(retry: Envelope)
    | Resent
    | GivingUp(dead: Envelope)
    | Buried
    | Leaving

  datatype Worker = Worker(agent: string, stage: Stage)

  /** A supervisor call between its record update and the bus call that follows. */
  datatype Courier = ToSend(e: Envelope, dispatch: bool) | ToSettle(id: string, status: AckStatus) | Done

  datatype System = System(
    digest: Digest, records: Records, post: Post, metrics: Metrics,
    workers: seq<Worker>, couriers: seq<Courier>)

  datatype Action =
    | Dispatch(e: Envelope)
    | Inject(e: Envelope)
    | SweepRetries(id: string)
    | SweepBuries(id: string)
    | CourierMoves(k: nat)
    | WorkerReceives(w: nat, k: nat)
    | WorkerMoves(w: nat, ok: bool)

  // ---------------------------------------------------------------- the bus

  predicate OutOfHops(e: Envelope) {
    e.maxHops > 0 && e.hopCount >= e.maxHops
  }

  /** An envelope out of hops is dead-lettered instead of queued. */
  function Send(post: Post, e: Envelope): Post {
    if OutOfHops(e) then post.(stopped := post.stopped + multiset{e.id})
    else post.(mailbox := post.mailbox + [e.(hopCount := e.hopCount + 1)], published := post.published + multiset{e.id})
  }

  /** `k` is the oldest envelope addressed to `agent`. */
  predicate IsNextFor(mailbox: seq<Envelope>, agent: string, k: nat) {
    && k < |mailbox| && mailbox[k].target == agent
    && forall j :: 0 <= j < k ==> mailbox[j].target != agent
  }

  function Receive(post: Post, k: nat): Post
    requires k < |post.mailbox|
  {
    post.(mailbox := post.mailbox[..k] + post.mailbox[k + 1..],
        received := post.received + multiset{post.mailbox[k].id})
  }

  // ---------------------------------------------------------------- a worker's step

  /** The payload is the one the record was opened with, as far as the digest tells. */
  predicate Confirmed(digest: Digest, records: Records, e: Envelope) {
    e.id in records && digest(e.payload) == records[e.id].checksum
  }

  predicate MayRetry(r: Record) {
    r.retryCount < MaxRetries(r.envelope)
  }

  function Retried(r: Record): Record {
    r.(envelope := r.envelope.(retryCount := r.envelope.retryCount + 1), retryCount := r.envelope.retryCount + 1)
  }

  function Acked(records: Records, id: string, status: AckStatus): Records {
    if id in records then records[id := records[id].(status := status)] else records
  }

  function NextStage(digest: Digest, records: Records, stage: Stage, ok: bool): Stage {
    match stage
    case Idle => Idle
    case Checking(e) => if Confirmed(digest, records, e) then Establishing(e) else Refusing(e)
    case Refusing(e) => Burying(e)
    case Burying(_) => Leaving
    case Establishing(e) => if e.id in records && !records[e.id].validated then Erring(e) else Handling(e)
    case Handling(e) => if ok then Finishing(e) else Erring(e)
    case Finishing(_) => Leaving
    case Erring(e) => Deciding(e)
    case Deciding(e) =>
      if e.id !in records then Leaving
      else if MayRetry(records[e.id]) then Resending(Retried(records[e.id]).envelope)
      else GivingUp(records[e.id].envelope)
    case Resending(_) => Resent
    case Resent => Leaving
    case GivingUp(_) => Buried
    case Buried => Leaving
    case Leaving => Idle
  }

  /** What a worker's step does to the records. */
  function WorkerRecords(digest: Digest, records: Records, stage: Stage): Records {
    match stage
    case Checking(e) =>
      if e.id !in records then records
      else if Confirmed(digest, records, e) then records[e.id := records[e.id].(validated := true, status := Validated)]
      else records[e.id := records[e.id].(validated := false)]
    case Refusing(e) => Acked(records, e.id, Failed)
    case Burying(e) => Acked(records, e.id, DeadLettered)
    case Establishing(e) => if e.id in records && !records[e.id].validated then Acked(records, e.id, Failed)
                              else records
    case Finishing(e) => Acked(records, e.id, Accepted)
    case Deciding(e) => if e.id in records && MayRetry(records[e.id]) then records[e.id := Retried(records[e.id])]
                          else records
    case Resending(retry) => Acked(records, retry.id, Retrying)
    case _ => records
  }

  function WorkerPost(post: Post, stage: Stage): Post {
    if stage.Resending? then Send(post, stage.retry) else post
  }

  /** What a worker's step adds to its pool's counters. */
  function WorkerMetrics(m: Metrics, stage: Stage, agent: string): Metrics {
    match stage
    case Refusing(_) => m.(refused := m.refused + multiset{agent})
    case Burying(_) => m.(deadLettered := m.deadLettered + multiset{agent})
    case Finishing(_) => m.(succeeded := m.succeeded + multiset{agent})
    case Erring(_) => m.(failed := m.failed + multiset{agent})
    case Resent => m.(retried := m.retried + multiset{agent})
    case Buried => m.(deadLettered := m.deadLettered + multiset{agent})
    case Leaving => m.(active := m.active - multiset{agent})
    case _ => m
  }

  function WorkerStep(s: System, w: nat, ok: bool): System
    requires w < |s.workers|
  {
    var Worker(agent, stage) := s.workers[w];
    s.(records := WorkerRecords(s.digest, s.records, stage),
       post := WorkerPost(s.post, stage),
       metrics := WorkerMetrics(s.metrics, stage, agent),
       workers := s.workers[w := Worker(agent, NextStage(s.digest, s.records, stage, ok))])
  }

  // ---------------------------------------------------------------- steps

  function NewRecord(digest: Digest, e: Envelope): Record {
    Record(e, e, e.retryCount, digest(e.payload), false, Sent)
  }

  function CourierStep(s: System, k: nat): System
    requires k < |s.couriers|
  {
    match s.couriers[k]
    case ToSend(e, dispatch) =>
      var next := if dispatch then ToSettle(e.id, if OutOfHops(e) then DeadLettered else Queued) else Done;
      s.(post := Send(s.post, e), couriers := s.couriers[k := next])
    case ToSettle(id, status) => s.(records := Acked(s.records, id, status), couriers := s.couriers[k := Done])
    case Done => s
  }

  predicate Enabled(s: System, a: Action) {
    match a
    case Dispatch(e) => e.id !in s.records
    case Inject(_) => true
    case SweepRetries(id) => id in s.records && !IsTerminal(s.records[id].status) && MayRetry(s.records[id])
    case SweepBuries(id) => id in s.records && !IsTerminal(s.records[id].status) && !MayRetry(s.records[id])
    case CourierMoves(k) => k < |s.couriers| && !s.couriers[k].Done?
    case WorkerReceives(w, k) =>
      w < |s.workers| && s.workers[w].stage.Idle? && IsNextFor(s.post.mailbox, s.workers[w].agent, k)
    case WorkerMoves(w, _) => w < |s.workers| && !s.workers[w].stage.Idle?
  }

  function Apply(s: System, a: Action): System
    requires Enabled(s, a)
  {
    match a
    case Dispatch(e) => s.(records := s.records[e.id := NewRecord(s.digest, e)],
                          couriers := s.couriers + [ToSend(e, true)])
    case Inject(e) => s.(post := s.post.(mailbox := s.post.mailbox + [e], injected := s.post.injected + multiset{e.id}))
    case SweepRetries(id) =>
      var r := Retried(s.records[id]);
      s.(records := s.records[id := r.(status := Retrying)], couriers := s.couriers + [ToSend(r.envelope, false)])
    case SweepBuries(id) => s.(records := Acked(s.records, id, DeadLettered))
    case CourierMoves(k) => CourierStep(s, k)
    case WorkerReceives(w, k) =>
      var agent := s.workers[w].agent;
      s.(post := Receive(s.post, k),
         metrics := s.metrics.(active := s.metrics.active + multiset{agent},
             processed := s.metrics.processed + multiset{agent}),
         workers := s.workers[w := Worker(agent, Checking(s.post.mailbox[k]))])
    case WorkerMoves(w, ok) => WorkerStep(s, w, ok)
  }

  ghost predicate IsRun(s: System, run: seq<Action>)
    decreases |run|
  {
    run == [] || (Enabled(s, run[0]) && IsRun(Apply(s, run[0]), run[1..]))
  }

  function After(s: System, run: seq<Action>): System
    requires IsRun(s, run)
    decreases |run|
  {
    if run == [] then s else After(Apply(s, run[0]), run[1..])
  }

  /** No records, nothing in the mail, every worker idle. */
  function Start(digest: Digest, agents: seq<string>): System {
    System(digest, map[], Post([], multiset{}, multiset{}, multiset{}, multiset{}),
           Metrics(multiset{}, multiset{}, multiset{}, multiset{}, multiset{}, multiset{}, multiset{}),
           seq(|agents|, i requires 0 <= i < |agents| => Worker(agents[i], Idle)), [])
  }
}
