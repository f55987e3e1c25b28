/** What becomes of a delivery, by how its handler turns out
    (go-core/internal/delivery/worker_pool.go:172-260; go-core/internal/delivery/supervisor.go:291-353). */
module DeliveryOutcomes {
  import opened Basics
  import opened DeliveryHistory
  import opened DeliveryProtocol
  import opened DeliveryRetries
  import opened DeliveryCounters

  // ---------------------------------------------------------------- successes and failures

  /** The step ends a handler of the agent, well (`ok`) or not. */
  predicate Handles(s: System, a: Action, agent: string, ok: bool) {
    && a.WorkerMoves? && a.w < |s.workers| && s.workers[a.w].agent == agent && s.workers[a.w].stage.Handling?
    && a.ok == ok
  }

  /** The step finds that the payload of the agent's delivery was not validated after all. */
  predicate MissesHandshake(s: System, a: Action, agent: string) {
    && a.WorkerMoves? && a.w < |s.workers| && s.workers[a.w].agent == agent && s.workers[a.w].stage.Establishing?
    && s.workers[a.w].stage.e.id in s.records && !s.records[s.workers[a.w].stage.e.id].validated
  }

  /** How many handlers of the agent a run ends well, or not. */
  function Handled(s: System, run: seq<Action>, agent: string, ok: bool): nat
    requires IsRun(s, run)
    decreases |run|
  {
    if run == [] then 0 else One(Handles(s, run[0], agent, ok)) + Handled(Apply(s, run[0]), run[1..], agent, ok)
  }

  function MissedHandshakes(s: System, run: seq<Action>, agent: string): nat
    requires IsRun(s, run)
    decreases |run|
  {
    if run == [] then 0
    else One(MissesHandshake(s, run[0], agent)) + MissedHandshakes(Apply(s, run[0]), run[1..], agent)
  }

  predicate IsFinishing(w: Worker, agent: string) {
    w.agent == agent && w.stage.Finishing?
  }

  predicate IsErring(w: Worker, agent: string) {
    w.agent == agent && w.stage.Erring?
  }

  function Finishers(workers: seq<Worker>, agent: string): nat {
    Count(workers, w => IsFinishing(w, agent))
  }

  function Errers(workers: seq<Worker>, agent: string): nat {
    Count(workers, w => IsErring(w, agent))
  }

  lemma {:induction false} WorkersUpdate(workers: seq<Worker>, w: nat, x: Worker, agent: string)
    requires w < |workers|
    ensures Finishers(workers[w := x], agent) ==
              Finishers(workers, agent) - One(IsFinishing(workers[w], agent)) + One(IsFinishing(x, agent))
    ensures Errers(workers[w := x], agent) ==
              Errers(workers, agent) - One(IsErring(workers[w], agent)) + One(IsErring(x, agent))
  {
    CountUpdate(workers, w, x, v => IsFinishing(v, agent));
    CountUpdate(workers, w, x, v => IsErring(v, agent));
  }

  /** Which stages lead to a success or a failure. */
  lemma {:induction false} StageEnds(digest: Digest, records: Records, stage: Stage, ok: bool)
    ensures var next := NextStage(digest, records, stage, ok);
            && (next.Finishing? <==> stage.Handling? && ok)
            && (next.Erring? <==>
                  || (stage.Handling? && !ok)
                  || (stage.Establishing? && stage.e.id in records && !records[stage.e.id].validated))
  {
    hide MayRetry, Retried, Confirmed;
  }

  lemma {:induction false} WorkerCounts(s: System, w: nat, ok: bool, agent: string)
    requires Enabled(s, WorkerMoves(w, ok)) && HandsOk(s) && Balanced(s.metrics, s.workers, agent)
    ensures var s', a := WorkerStep(s, w, ok), WorkerMoves(w, ok);
            && s'.metrics.succeeded[agent] + Finishers(s'.workers, agent) ==
                 s.metrics.succeeded[agent] + Finishers(s.workers, agent) + One(Handles(s, a, agent, true))
            && s'.metrics.failed[agent] + Errers(s'.workers, agent) ==
                 s.metrics.failed[agent] + Errers(s.workers, agent)
                 + One(Handles(s, a, agent, false)) + One(MissesHandshake(s, a, agent))
  {
    var Worker(owner, stage) := s.workers[w];
    WorkerIs(s, w, ok);
    StageEnds(s.digest, s.records, stage, ok);
    WorkersUpdate(s.workers, w, WorkerStep(s, w, ok).workers[w], agent);
    if stage.Leaving? && owner == agent {
      LeaverIsActive(s.metrics, s.workers, w);
    }
    CountedBy(s.metrics, stage, owner, agent);
    hide Finishers, Errers, NextStage, WorkerMetrics, WorkerStep, Balanced, HandsOk;
  }

  lemma {:induction false} ReceiverCounts(s: System, w: nat, k: nat, agent: string)
    requires Enabled(s, WorkerReceives(w, k))
    ensures var s' := Apply(s, WorkerReceives(w, k));
            && s'.metrics.succeeded == s.metrics.succeeded && s'.metrics.failed == s.metrics.failed
            && Finishers(s'.workers, agent) == Finishers(s.workers, agent)
            && Errers(s'.workers, agent) == Errers(s.workers, agent)
  {
    WorkersUpdate(s.workers, w, Worker(s.workers[w].agent, Checking(s.post.mailbox[k])), agent);
    hide Finishers, Errers, Receive, IsNextFor;
  }

  /** What a step adds to an agent's successes and failures, counting those about to be recorded. */
  lemma {:induction false} StepCounts(s: System, a: Action, agent: string)
    requires Enabled(s, a) && HandsOk(s) && Balanced(s.metrics, s.workers, agent)
    ensures var s' := Apply(s, a);
            && s'.metrics.succeeded[agent] + Finishers(s'.workers, agent) ==
                 s.metrics.succeeded[agent] + Finishers(s.workers, agent) + One(Handles(s, a, agent, true))
            && s'.metrics.failed[agent] + Errers(s'.workers, agent) ==
                 s.metrics.failed[agent] + Errers(s.workers, agent)
                 + One(Handles(s, a, agent, false)) + One(MissesHandshake(s, a, agent))
  {
    hide Finishers, Errers, Balanced, HandsOk, WorkerStep, Receive, IsNextFor, MayRetry, Retried, Acked, Send;
    match a
    case WorkerMoves(w, ok) => WorkerCounts(s, w, ok, agent);
    case WorkerReceives(w, k) => ReceiverCounts(s, w, k, agent);
    case _ =>
  }

  lemma {:induction false} RunCounts(s: System, run: seq<Action>, agent: string)
    requires Inv(s) && Balanced(s.metrics, s.workers, agent) && IsRun(s, run)
    ensures var s' := After(s, run);
            && s'.metrics.succeeded[agent] + Finishers(s'.workers, agent) ==
                 s.metrics.succeeded[agent] + Finishers(s.workers, agent) + Handled(s, run, agent, true)
            && s'.metrics.failed[agent] + Errers(s'.workers, agent) ==
                 s.metrics.failed[agent] + Errers(s.workers, agent)
                 + Handled(s, run, agent, false) + MissedHandshakes(s, run, agent)
    decreases |run|
  {
    if run != [] {
      StepCounts(s, run[0], agent);
      StepKeepsInv(s, run[0]);
      StepKeepsBalance(s, run[0], agent);
      hide Enabled, Apply, Handles, MissesHandshake, Finishers, Errers, Inv, Balanced;
      RunCounts(Apply(s, run[0]), run[1..], agent);
    }
  }

  lemma {:induction false} NobodyEnding(workers: seq<Worker>, agent: string)
    requires forall w :: 0 <= w < |workers| ==> workers[w].stage.Idle?
    ensures Finishers(workers, agent) == 0 && Errers(workers, agent) == 0
  {
    CountNone(workers, w => IsFinishing(w, agent));
    CountNone(workers, w => IsErring(w, agent));
  }

  /** Over any run, an agent's successes, counted or about to be, are the handlers that returned
      without an error; its failures are those that returned one and the handshakes missed. */
  lemma {:induction false} CountersTellOutcomes(digest: Digest, agents: seq<string>, run: seq<Action>, agent: string)
    requires IsRun(Start(digest, agents), run)
    ensures var start, s := Start(digest, agents), After(Start(digest, agents), run);
            && s.metrics.succeeded[agent] + Finishers(s.workers, agent) == Handled(start, run, agent, true)
            && s.metrics.failed[agent] + Errers(s.workers, agent) ==
                 Handled(start, run, agent, false) + MissedHandshakes(start, run, agent)
  {
    StartInv(digest, agents);
    StartBalanced(digest, agents, agent);
    RunCounts(Start(digest, agents), run, agent);
    NobodyEnding(Start(digest, agents).workers, agent);
    hide IsRun, After, Handled, MissedHandshakes, Finishers, Errers;
  }

  // ---------------------------------------------------------------- what a handled delivery says

  ghost predicate LeavesAlone(run: seq<Action>, w: nat) {
    forall k :: 0 <= k < |run| ==> !(run[k].WorkerMoves? && run[k].w == w)
  }

  lemma {:induction false} OthersStep(s: System, a: Action, w: nat)
    requires RecordsOk(s.digest, s.records) && Enabled(s, a) && w < |s.workers| && !s.workers[w].stage.Idle?
    requires !(a.WorkerMoves? && a.w == w)
    ensures w < |Apply(s, a).workers| && Apply(s, a).workers[w] == s.workers[w]
    ensures RecordsOk(s.digest, Apply(s, a).records) && Grows(s.records, Apply(s, a).records)
    ensures Apply(s, a).digest == s.digest
  {
    StepKeepsRecords(s, a);
    hide RecordsOk, Grows, WorkerRecords, NextStage, WorkerMetrics, Send, Receive, Acked, IsNextFor, MayRetry, Retried;
  }

  /** While others move, a worker stays where it is, and no record is lost. */
  lemma {:induction false} OthersRun(s: System, run: seq<Action>, w: nat, id: string)
    requires RecordsOk(s.digest, s.records) && IsRun(s, run) && w < |s.workers| && !s.workers[w].stage.Idle?
    requires LeavesAlone(run, w) && id in s.records
    ensures w < |After(s, run).workers| && After(s, run).workers[w] == s.workers[w] && id in After(s, run).records
    decreases |run|
  {
    hide RecordsOk, Enabled, Apply;
    if run != [] {
      assert !(run[0].WorkerMoves? && run[0].w == w);
      OthersStep(s, run[0], w);
      OthersRun(Apply(s, run[0]), run[1..], w, id);
    }
  }

  /** Whatever others do in between, the step a worker takes after a handler returned without an
      error marks the delivery accepted and counts a success; after one that returned an error it
      counts a failure, and goes on to decide between a retry and giving up. */
  lemma {:induction false} HandlerDecides(s: System, w: nat, score: bool, others: seq<Action>, ok: bool)
    requires Inv(s) && w < |s.workers| && s.workers[w].stage.Handling?
    requires var handled := Apply(s, WorkerMoves(w, ok)); IsRun(handled, others) && LeavesAlone(others, w)
    ensures var before := After(Apply(s, WorkerMoves(w, ok)), others);
            var e := s.workers[w].stage.e;
            var agent := s.workers[w].agent;
            && w < |before.workers| && !before.workers[w].stage.Idle?
            && var after := Apply(before, WorkerMoves(w, score));
               && e.id in after.records
               && (ok ==> after.records[e.id].status == Accepted && after.workers[w] == Worker(agent, Leaving)
                          && after.metrics.succeeded[agent] == before.metrics.succeeded[agent] + 1)
               && (!ok ==> after.workers[w] == Worker(agent, Deciding(e))
                           && after.metrics.failed[agent] == before.metrics.failed[agent] + 1)
  {
    var handled := Apply(s, WorkerMoves(w, ok));
    var e := s.workers[w].stage.e;
    assert StageOk(s.digest, s.records, s.workers[w].stage);
    assert RecordsOk(handled.digest, handled.records);
    OthersRun(handled, others, w, e.id);
    hide IsRun, After, RecordsOk, HandsOk, LedgerOk, MailOk, MayRetry, Retried, Send;
  }

  /** A payload that does not match the record's digest is refused: whatever others do in between, the
      worker's next steps count the refusal with the delivery failed, then mark it dead-lettered and
      count that, and no handler sees it. */
  lemma {:induction false} RefusedIsDeadLettered(s: System, w: nat, ok: bool, others: seq<Action>)
    requires Inv(s) && w < |s.workers|
    requires s.workers[w].stage.Refusing? && s.workers[w].stage.e.id in s.records
    requires var refused := Apply(s, WorkerMoves(w, ok)); IsRun(refused, others) && LeavesAlone(others, w)
    ensures var refused, e := Apply(s, WorkerMoves(w, ok)), s.workers[w].stage.e;
            var agent, before := s.workers[w].agent, After(Apply(s, WorkerMoves(w, ok)), others);
            && refused.records[e.id].status == Failed
            && refused.metrics.refused[agent] == s.metrics.refused[agent] + 1
            && w < |before.workers| && before.workers[w] == Worker(agent, Burying(e))
            && var after := Apply(before, WorkerMoves(w, ok));
               && e.id in after.records && after.records[e.id].status == DeadLettered
               && after.metrics.deadLettered[agent] == before.metrics.deadLettered[agent] + 1
               && after.workers[w] == Worker(agent, Leaving)
  {
    var refused := Apply(s, WorkerMoves(w, ok));
    StepKeepsRecords(s, WorkerMoves(w, ok));
    OthersRun(refused, others, w, s.workers[w].stage.e.id);
    hide IsRun, After, RecordsOk, HandsOk, LedgerOk, MailOk, MayRetry, Retried, Send, Grows;
  }

  /** A payload is checked against the digest taken at dispatch: a match marks the delivery validated,
      anything else, an unknown task included, is refused. */
  lemma {:induction false} CheckDecides(digest: Digest, agents: seq<string>, run: seq<Action>, w: nat, ok: bool)
    requires IsRun(Start(digest, agents), run)
    requires var s := After(Start(digest, agents), run); w < |s.workers| && s.workers[w].stage.Checking?
    ensures var s := After(Start(digest, agents), run);
            var e, after := s.workers[w].stage.e, Apply(s, WorkerMoves(w, ok));
            if e.id in s.records && s.digest(e.payload) == s.digest(s.records[e.id].dispatched.payload) then
              && after.workers[w].stage == Establishing(e)
              && after.records[e.id].validated && after.records[e.id].status == Validated
            else
              && after.workers[w].stage == Refusing(e)
              && (e.id in s.records ==>
                    !after.records[e.id].validated && after.records[e.id].status == s.records[e.id].status)
  {
    StartInv(digest, agents);
    RunKeepsInv(Start(digest, agents), run);
    hide IsRun, After, Start, HandsOk, LedgerOk, MailOk;
    var s := After(Start(digest, agents), run);
    var e := s.workers[w].stage.e;
    assert e.id in s.records ==> RecordOk(s.digest, e.id, s.records[e.id]);
  }

  /** What a worker does with a retry: mark the delivery retrying, send the envelope, and count it. */
  lemma {:induction false} RetriesAreSent(s: System, w: nat, ok: bool)
    requires Inv(s) && w < |s.workers| && s.workers[w].stage.Resending?
    ensures var retry, agent := s.workers[w].stage.retry, s.workers[w].agent;
            var sent := Apply(s, WorkerMoves(w, ok));
            var counted := Apply(sent, WorkerMoves(w, ok));
            && retry.id in sent.records && sent.records[retry.id].status == Retrying
            && sent.post.published[retry.id] + sent.post.stopped[retry.id] ==
                 s.post.published[retry.id] + s.post.stopped[retry.id] + 1
            && (retry.maxHops > 0 && retry.hopCount >= retry.maxHops <==> sent.post.mailbox == s.post.mailbox)
            && (sent.post.mailbox != s.post.mailbox ==>
                  sent.post.mailbox == s.post.mailbox + [retry.(hopCount := retry.hopCount + 1)])
            && counted.metrics.retried[agent] == s.metrics.retried[agent] + 1
            && counted.workers[w] == Worker(agent, Leaving)
  {
    assert StageOk(s.digest, s.records, s.workers[w].stage);
    hide Inv, StageOk, FromDispatch, MayRetry, Retried, Confirmed;
    var sent := Apply(s, WorkerMoves(w, ok));
    assert sent.workers[w] == Worker(s.workers[w].agent, Resent);
  }

  /** Worker `w` is about to give the delivery up. */
  predicate WouldGiveUp(s: System, w: nat, id: string) {
    && w < |s.workers| && s.workers[w].stage.Deciding? && s.workers[w].stage.e.id == id
    && NextStage(s.digest, s.records, s.workers[w].stage, true).GivingUp?
  }

  /** A delivery is given up, by a worker or by a sweep, only when its retries are used up: all the
      sends it is allowed have been made or are on their way. */
  lemma {:induction false} GivesUpAtTheLimit(digest: Digest, agents: seq<string>, run: seq<Action>, id: string, w: nat)
    requires IsRun(Start(digest, agents), run)
    requires var s := After(Start(digest, agents), run);
             id in s.records && (Enabled(s, SweepBuries(id)) || WouldGiveUp(s, w, id))
    ensures var s := After(Start(digest, agents), run);
            var e := s.records[id].dispatched;
            Sends(s, id) == 1 + Max(0, (if e.maxRetries > 0 then e.maxRetries else 3) - e.retryCount)
  {
    StartInv(digest, agents);
    RunKeepsInv(Start(digest, agents), run);
    MayNotRetry(After(Start(digest, agents), run), id, w);
    hide *;
    GivenUpIsUsedUp(After(Start(digest, agents), run), id);
  }

  lemma {:induction false} MayNotRetry(s: System, id: string, w: nat)
    requires id in s.records && (Enabled(s, SweepBuries(id)) || WouldGiveUp(s, w, id))
    ensures !MayRetry(s.records[id])
  {
    hide MayRetry, Retried, Confirmed;
  }

  /** Until then, a sweep sends an unfinished delivery again, and after that it gives it up. */
  lemma {:induction false} SweepsFollowTheLimit(digest: Digest, agents: seq<string>, run: seq<Action>, id: string)
    requires IsRun(Start(digest, agents), run) && id in After(Start(digest, agents), run).records
    ensures var s := After(Start(digest, agents), run);
            var e, r := s.records[id].dispatched, s.records[id];
            var limit := if e.maxRetries > 0 then e.maxRetries else 3;
            && (Enabled(s, SweepRetries(id)) <==>
                  r.status !in {Accepted, Failed, DeadLettered} && r.retryCount < limit)
            && (Enabled(s, SweepBuries(id)) <==>
                  r.status !in {Accepted, Failed, DeadLettered} && r.retryCount >= limit)
  {
    StartInv(digest, agents);
    RunKeepsInv(Start(digest, agents), run);
    hide IsRun, After, Start, HandsOk, LedgerOk, MailOk;
    var s := After(Start(digest, agents), run);
    assert RecordOk(s.digest, id, s.records[id]);
  }

  lemma {:induction false} GivenUpIsUsedUp(s: System, id: string)
    requires Inv(s) && id in s.records && !MayRetry(s.records[id])
    ensures var e := s.records[id].dispatched;
            Sends(s, id) == 1 + Max(0, (if e.maxRetries > 0 then e.maxRetries else 3) - e.retryCount)
  {
    assert RecordOk(s.digest, id, s.records[id]);
    assert Sends(s, id) == DeliveryRetries.Due(s.records, id);
    hide HandsOk, MailOk, Sends;
  }

  /** And until then a failed delivery is tried again. */
  lemma {:induction false} RetriesUntilTheLimit(digest: Digest, agents: seq<string>, run: seq<Action>, w: nat, ok: bool)
    requires IsRun(Start(digest, agents), run)
    requires var s := After(Start(digest, agents), run); w < |s.workers| && s.workers[w].stage.Deciding?
    ensures var s := After(Start(digest, agents), run);
            var id := s.workers[w].stage.e.id;
            && id in s.records
            && var e := s.records[id].dispatched;
               s.records[id].retryCount < (if e.maxRetries > 0 then e.maxRetries else 3) ==>
                 && Apply(s, WorkerMoves(w, ok)).workers[w].stage ==
                      Resending(e.(retryCount := s.records[id].retryCount + 1))
                 && Apply(s, WorkerMoves(w, ok)).records[id].retryCount == s.records[id].retryCount + 1
  {
    StartInv(digest, agents);
    RunKeepsInv(Start(digest, agents), run);
    hide IsRun, After, Start, LedgerOk, MailOk;
    var s := After(Start(digest, agents), run);
    assert StageOk(s.digest, s.records, s.workers[w].stage);
    assert RecordOk(s.digest, s.workers[w].stage.e.id, s.records[s.workers[w].stage.e.id]);
  }

  // ---------------------------------------------------------------- when a delivery counts as validated

  /** A record is validated, and a worker holds its envelope, only after its envelope was received. */
  ghost predicate CheckedIsReceived(s: System) {
    && (forall id :: id in s.records && s.records[id].validated ==> s.post.received[id] > 0)
    && (forall w :: 0 <= w < |s.workers| && s.workers[w].stage.Checking? ==>
          s.post.received[s.workers[w].stage.e.id] > 0)
  }

  lemma {:induction false} SendKeepsReceived(post: Post, e: Envelope, k: nat)
    ensures Send(post, e).received == post.received
    ensures k < |post.mailbox| ==> Receive(post, k).received == post.received + multiset{post.mailbox[k].id}
  {
  }

  lemma {:induction false} ChecksOnly(digest: Digest, records: Records, stage: Stage, id: string)
    requires id in WorkerRecords(digest, records, stage) && WorkerRecords(digest, records, stage)[id].validated
    ensures id in records && (records[id].validated || (stage.Checking? && stage.e.id == id))
  {
  }

  lemma {:induction false} NextIsNotChecking(digest: Digest, records: Records, stage: Stage, ok: bool)
    ensures !NextStage(digest, records, stage, ok).Checking?
  {
  }

  lemma {:induction false} StepKeepsChecked(s: System, a: Action)
    requires CheckedIsReceived(s) && Enabled(s, a)
    ensures CheckedIsReceived(Apply(s, a))
  {
    hide Send, Receive, WorkerRecords, NextStage, WorkerMetrics, MayRetry;
    match a
    case CourierMoves(k) =>
      if s.couriers[k].ToSend? {
        SendKeepsReceived(s.post, s.couriers[k].e, 0);
      }
    case WorkerReceives(w, k) => SendKeepsReceived(s.post, s.post.mailbox[k], k);
    case WorkerMoves(w, ok) =>
      var stage := s.workers[w].stage;
      if stage.Resending? {
        SendKeepsReceived(s.post, stage.retry, 0);
      }
      NextIsNotChecking(s.digest, s.records, stage, ok);
      forall id | id in Apply(s, a).records && Apply(s, a).records[id].validated ensures s.post.received[id] > 0 {
        ChecksOnly(s.digest, s.records, stage, id);
      }
    case _ =>
  }

  lemma {:induction false} RunKeepsChecked(s: System, run: seq<Action>)
    requires CheckedIsReceived(s) && IsRun(s, run)
    ensures CheckedIsReceived(After(s, run))
    decreases |run|
  {
    if run != [] {
      StepKeepsChecked(s, run[0]);
      hide CheckedIsReceived, Enabled, Apply;
      RunKeepsChecked(Apply(s, run[0]), run[1..]);
    }
  }

  /** No delivery counts as validated before a worker has received an envelope of its task. */
  lemma {:induction false} ValidatedMeansReceived(digest: Digest, agents: seq<string>, run: seq<Action>, id: string)
    requires IsRun(Start(digest, agents), run) && id in After(Start(digest, agents), run).records
    ensures After(Start(digest, agents), run).records[id].validated ==>
              After(Start(digest, agents), run).post.received[id] > 0
  {
    assert CheckedIsReceived(Start(digest, agents));
    RunKeepsChecked(Start(digest, agents), run);
    hide IsRun, After, Start;
  }

  // ---------------------------------------------------------------- when nothing goes wrong

  /** No foreign mail, no sweep and no handler that returns an error. */
  ghost predicate Smooth(s: System, run: seq<Action>)
    requires IsRun(s, run)
    decreases |run|
  {
    run == [] || (SmoothStep(s, run[0]) && Smooth(Apply(s, run[0]), run[1..]))
  }

  predicate SmoothStep(s: System, a: Action) {
    && !a.Inject? && !a.SweepRetries? && !a.SweepBuries?
    && (a.WorkerMoves? && a.w < |s.workers| && s.workers[a.w].stage.Handling? ==> a.ok)
  }

  /** No worker is on the way to a failure, and payloads past the check stay validated. */
  predicate OnTrack(records: Records, stage: Stage) {
    match stage
    case Idle => true
    case Checking(e) => true
    case Establishing(e) => e.id in records && records[e.id].validated
    case Handling(_) => true
    case Finishing(_) => true
    case Leaving => true
    case _ => false
  }

  predicate Untried(r: Record) {
    r.retryCount == r.dispatched.retryCount
  }

  ghost predicate AllOnTrack(s: System) {
    && AllOwn(s)
    && (forall w :: 0 <= w < |s.workers| ==> OnTrack(s.records, s.workers[w].stage))
    && (forall id :: id in s.records ==> Untried(s.records[id]))
  }

  /** What a smooth step does to a record: it neither counts a retry nor takes a validation back. */
  ghost predicate Steady(before: Records, after: Records) {
    forall id :: id in after ==>
      if id in before then
        && after[id].retryCount == before[id].retryCount && after[id].dispatched == before[id].dispatched
        && (before[id].validated ==> after[id].validated)
      else Untried(after[id])
  }

  lemma {:induction false} AckedSteady(records: Records, id: string, status: AckStatus)
    ensures Steady(records, Acked(records, id, status))
    ensures forall k :: k in records ==> k in Acked(records, id, status)
  {
  }

  lemma {:induction false} WorkerSteady(digest: Digest, records: Records, stage: Stage)
    requires OnTrack(records, stage) && RecordsOk(digest, records) && (stage.Checking? ==> OwnPayload(records, stage.e))
    ensures Steady(records, WorkerRecords(digest, records, stage))
    ensures forall k :: k in records ==> k in WorkerRecords(digest, records, stage)
  {
    hide RecordsOk, Acked;
    if stage.Checking? {
      OwnIsConfirmed(digest, records, stage.e);
    } else if stage.Finishing? {
      AckedSteady(records, stage.e.id, Accepted);
    }
  }

  lemma {:induction false} SmoothRecords(s: System, a: Action)
    requires Inv(s) && AllOnTrack(s) && Enabled(s, a) && SmoothStep(s, a)
    ensures Steady(s.records, Apply(s, a).records)
    ensures forall k :: k in s.records ==> k in Apply(s, a).records
  {
    hide RecordsOk, HandsOk, LedgerOk, MailOk, Acked, WorkerRecords, NextStage, WorkerMetrics, Send, Receive, IsNextFor,
         OnTrack, OwnPayload, MayRetry;
    match a
    case CourierMoves(k) =>
      if s.couriers[k].ToSettle? {
        AckedSteady(s.records, s.couriers[k].id, s.couriers[k].status);
      }
    case WorkerMoves(w, ok) => WorkerSteady(s.digest, s.records, s.workers[w].stage);
    case _ =>
  }

  lemma {:induction false} SteadyOnTrack(before: Records, after: Records, stage: Stage)
    requires Steady(before, after) && OnTrack(before, stage) && forall k :: k in before ==> k in after
    ensures OnTrack(after, stage)
  {
  }

  lemma {:induction false} NextOnTrack(digest: Digest, records: Records, stage: Stage, ok: bool)
    requires OnTrack(records, stage) && RecordsOk(digest, records) && (stage.Checking? ==> OwnPayload(records, stage.e))
    requires stage.Handling? ==> ok
    ensures OnTrack(WorkerRecords(digest, records, stage), NextStage(digest, records, stage, ok))
  {
    hide RecordsOk, Acked;
    if stage.Checking? {
      OwnIsConfirmed(digest, records, stage.e);
    }
  }

  lemma {:induction false} SmoothWorkers(s: System, a: Action)
    requires Inv(s) && AllOnTrack(s) && Enabled(s, a) && SmoothStep(s, a)
    ensures forall w :: 0 <= w < |Apply(s, a).workers| ==> OnTrack(Apply(s, a).records, Apply(s, a).workers[w].stage)
  {
    SmoothRecords(s, a);
    hide RecordsOk, HandsOk, LedgerOk, MailOk, Acked, WorkerRecords, NextStage, WorkerMetrics, Send, Receive, IsNextFor,
         OnTrack, OwnPayload, MayRetry, Steady;
    var s' := Apply(s, a);
    forall w | 0 <= w < |s'.workers| ensures OnTrack(s'.records, s'.workers[w].stage) {
      SteadyOnTrack(s.records, s'.records, s.workers[w].stage);
      if a.WorkerMoves? && a.w == w {
        NextOnTrack(s.digest, s.records, s.workers[w].stage, a.ok);
      } else if a.WorkerReceives? && a.w == w {
        CheckingOnTrack(s'.records, s.post.mailbox[a.k]);
      }
    }
  }

  lemma {:induction false} CheckingOnTrack(records: Records, e: Envelope)
    ensures OnTrack(records, Checking(e))
  {
  }

  lemma {:induction false} SmoothStepKeeps(s: System, a: Action)
    requires Inv(s) && AllOnTrack(s) && Enabled(s, a) && SmoothStep(s, a)
    ensures AllOnTrack(Apply(s, a))
  {
    SmoothRecords(s, a);
    SmoothWorkers(s, a);
    OwnMailStep(s, a);
    OwnWorkersStep(s, a);
    hide Inv, Apply, Enabled, OnTrack, OwnPayload;
  }

  lemma {:induction false} RunOnTrack(s: System, run: seq<Action>)
    requires Inv(s) && AllOnTrack(s) && IsRun(s, run) && Smooth(s, run)
    ensures Inv(After(s, run)) && AllOnTrack(After(s, run))
    decreases |run|
  {
    if run != [] {
      StepKeepsInv(s, run[0]);
      hide Inv, Enabled, Apply, AllOnTrack, SmoothStep;
      SmoothStepKeeps(s, run[0]);
      RunOnTrack(Apply(s, run[0]), run[1..]);
    }
  }

  /** When all mail is the supervisor's, nothing times out and no handler errs, every task is sent
      once at most, reaches a worker once at most, and nothing fails, is retried or given up. */
  lemma {:induction false} SmoothRunsSendOnce(digest: Digest, agents: seq<string>, run: seq<Action>, id: string,
                                              agent: string)
    requires IsRun(Start(digest, agents), run) && Smooth(Start(digest, agents), run)
    ensures var s := After(Start(digest, agents), run);
            && s.post.received[id] <= s.post.published[id] <= 1
            && s.metrics.failed[agent] == 0
            && forall w :: 0 <= w < |s.workers| ==> OnTrack(s.records, s.workers[w].stage)
  {
    var start := Start(digest, agents);
    StartInv(digest, agents);
    assert AllOnTrack(start);
    RunOnTrack(start, run);
    SmoothFailures(start, run, agent);
    StartBalanced(digest, agents, agent);
    RunCounts(start, run, agent);
    NobodyEnding(start.workers, agent);
    hide IsRun, After, Start, HandsOk, RecordsOk, OnTrack, Smooth;
    var s := After(Start(digest, agents), run);
    assert Sends(s, id) == DeliveryRetries.Due(s.records, id);
    assert InMail(s.post.mailbox, id) + s.post.received[id] == s.post.published[id] + s.post.injected[id];
    hide InMail, CouriersSending, WorkersSending, Errers, Finishers;
  }

  lemma {:induction false} SmoothFailures(s: System, run: seq<Action>, agent: string)
    requires Inv(s) && AllOnTrack(s) && IsRun(s, run) && Smooth(s, run)
    ensures Handled(s, run, agent, false) == 0 && MissedHandshakes(s, run, agent) == 0
    decreases |run|
  {
    if run != [] {
      assert !MissesHandshake(s, run[0], agent) && !Handles(s, run[0], agent, false);
      StepKeepsInv(s, run[0]);
      hide Inv, Enabled, Apply, AllOnTrack, SmoothStep, Handles, MissesHandshake;
      SmoothStepKeeps(s, run[0]);
      SmoothFailures(Apply(s, run[0]), run[1..], agent);
    }
  }

  // ---------------------------------------------------------------- an acceptance that does not last

  ghost predicate Leads(start: System, run: seq<Action>, q: System) {
    IsRun(start, run) && After(start, run) == q
  }

  lemma {:induction false} AppendStep(s: System, run: seq<Action>, a: Action)
    requires IsRun(s, run) && Enabled(After(s, run), a)
    ensures IsRun(s, run + [a]) && After(s, run + [a]) == Apply(After(s, run), a)
    decreases |run|
  {
    hide Enabled, Apply;
    if run == [] {
      assert (run + [a])[1..] == [] && (run + [a])[0] == a;
    } else {
      assert (run + [a])[0] == run[0] && (run + [a])[1..] == run[1..] + [a];
      AppendStep(Apply(s, run[0]), run[1..], a);
    }
  }

  lemma {:induction false} LeadsOn(start: System, run: seq<Action>, q: System, a: Action)
    returns (run': seq<Action>, q': System)
    requires Leads(start, run, q) && Enabled(q, a)
    ensures run' == run + [a] && q' == Apply(q, a) && Leads(start, run', q')
  {
    hide Enabled, Apply, IsRun, After;
    AppendStep(start, run, a);
    run', q' := run + [a], Apply(q, a);
  }

  /** One worker, one delivery, its dispatch still to note that it was queued. */
  ghost predicate Delivering(q: System, e: Envelope, stage: Stage, status: AckStatus) {
    && q.workers == [Worker(e.target, stage)] && q.couriers == [ToSettle(e.id, Queued)] && q.post.mailbox == []
    && e.id in q.records && q.records[e.id].status == status
    && q.records[e.id].checksum == q.digest(e.payload)
  }

  lemma {:induction false} DispatchedAndTaken(digest: Digest, e: Envelope) returns (run: seq<Action>, q: System)
    requires !OutOfHops(e)
    ensures Leads(Start(digest, [e.target]), run, q)
    ensures Delivering(q, e, Checking(e.(hopCount := e.hopCount + 1)), Sent)
  {
    var start := Start(digest, [e.target]);
    assert start.workers == [Worker(e.target, Idle)];
    assert Leads(start, [], start);
    hide Leads;
    run, q := LeadsOn(start, [], start, Dispatch(e));
    assert q.couriers == [ToSend(e, true)];
    run, q := LeadsOn(start, run, q, CourierMoves(0));
    assert q.post.mailbox == [e.(hopCount := e.hopCount + 1)] && IsNextFor(q.post.mailbox, e.target, 0);
    run, q := LeadsOn(start, run, q, WorkerReceives(0, 0));
  }

  lemma {:induction false} DeliveredStep(start: System, run: seq<Action>, q: System, e: Envelope, stage: Stage,
                                         status: AckStatus)
    returns (run': seq<Action>, q': System)
    requires Leads(start, run, q) && Delivering(q, e, stage, status)
    requires stage in {Checking(Sent1(e)), Establishing(Sent1(e)), Handling(Sent1(e)), Finishing(Sent1(e)), Leaving}
    requires stage.Establishing? ==> q.records[e.id].validated
    ensures run' == run + [WorkerMoves(0, true)] && q' == Apply(q, WorkerMoves(0, true)) && Leads(start, run', q')
    ensures Delivering(q', e, NextOf(e, stage),
                       if stage.Checking? then Validated else if stage.Finishing? then Accepted else status)
    ensures stage.Checking? ==> q'.records[e.id].validated
  {
    run', q' := LeadsOn(start, run, q, WorkerMoves(0, true));
    hide Leads;
  }

  function Sent1(e: Envelope): Envelope { e.(hopCount := e.hopCount + 1) }

  function NextOf(e: Envelope, stage: Stage): Stage {
    match stage
    case Checking(_) => Establishing(Sent1(e))
    case Establishing(_) => Handling(Sent1(e))
    case Handling(_) => Finishing(Sent1(e))
    case Finishing(_) => Leaving
    case _ => Idle
  }

  /** A dispatch notes that its envelope was queued only after sending it, and by then the delivery may
      have been handled: a run with no failure at all in which a delivery that was accepted ends up as
      queued with nobody at work on it, and only a sweep left, to send it again or to give it up. */
  lemma {:induction false} AcceptedCanBeUndone(digest: Digest, e: Envelope) returns (run: seq<Action>)
    requires !OutOfHops(e)
    ensures var start := Start(digest, [e.target]);
            && IsRun(start, run) && run != [] && IsRun(start, run[..|run| - 1])
            && e.id in After(start, run[..|run| - 1]).records && e.id in After(start, run).records
            && After(start, run[..|run| - 1]).records[e.id].status == Accepted
            && After(start, run).records[e.id].status == Queued
            && After(start, run).workers == [Worker(e.target, Idle)] && After(start, run).post.mailbox == []
            && (Enabled(After(start, run), SweepRetries(e.id)) || Enabled(After(start, run), SweepBuries(e.id)))
  {
    var start := Start(digest, [e.target]);
    var q;
    run, q := DispatchedAndTaken(digest, e);
    hide Start, Delivering, OutOfHops;
    run, q := DeliveredStep(start, run, q, e, Checking(Sent1(e)), Sent);
    run, q := DeliveredStep(start, run, q, e, Establishing(Sent1(e)), Validated);
    run, q := DeliveredStep(start, run, q, e, Handling(Sent1(e)), Validated);
    run, q := DeliveredStep(start, run, q, e, Finishing(Sent1(e)), Validated);
    run, q := DeliveredStep(start, run, q, e, Leaving, Accepted);
    var all, end := LateNote(start, run, q, e);
    assert all[..|all| - 1] == run;
    run := all;
  }

  lemma {:induction false} LateNote(start: System, run: seq<Action>, q: System, e: Envelope)
    returns (run': seq<Action>, q': System)
    requires Leads(start, run, q) && Delivering(q, e, Idle, Accepted)
    ensures run' == run + [CourierMoves(0)] && Leads(start, run', q')
    ensures e.id in q'.records && q'.records[e.id].status == Queued
    ensures q'.workers == [Worker(e.target, Idle)] && q'.post.mailbox == []
    ensures Enabled(q', SweepRetries(e.id)) || Enabled(q', SweepBuries(e.id))
    ensures e.id in q.records && q.records[e.id].status == Accepted
  {
    run', q' := LeadsOn(start, run, q, CourierMoves(0));
    hide Leads;
  }

  /** Mail that no dispatch put there does come and is refused, whatever it carries: that no payload is
      refused holds for the supervisor's own mail alone. */
  lemma {:induction false} StrangersAreRefused(digest: Digest, e: Envelope) returns (run: seq<Action>)
    ensures var start := Start(digest, [e.target]);
            && IsRun(start, run) && After(start, run).workers == [Worker(e.target, Burying(e))]
            && After(start, run).metrics.refused[e.target] == 1
  {
    var start := Start(digest, [e.target]);
    assert start.workers == [Worker(e.target, Idle)];
    assert Leads(start, [], start);
    hide Leads;
    var q;
    run, q := LeadsOn(start, [], start, Inject(e));
    assert q.post.mailbox == [e] && IsNextFor(q.post.mailbox, e.target, 0);
    run, q := LeadsOn(start, run, q, WorkerReceives(0, 0));
    run, q := LeadsOn(start, run, q, WorkerMoves(0, true));
    run, q := LeadsOn(start, run, q, WorkerMoves(0, true));
    LeadsTo(start, run, q);
  }

  lemma {:induction false} LeadsTo(start: System, run: seq<Action>, q: System)
    requires Leads(start, run, q)
    ensures IsRun(start, run) && After(start, run) == q
  {
  }
}
