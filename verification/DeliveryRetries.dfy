/** How often a dispatched envelope is sent, and what the handler gets to see, under every
    interleaving of workers, sweeps and dispatches (go-core/internal/delivery/supervisor.go:73-115,
    172-196, 291-353; go-core/internal/delivery/worker_pool.go:172-277). */
module DeliveryRetries {
  import opened Basics
  import opened DeliveryHistory
  import opened DeliveryProtocol

  // ---------------------------------------------------------------- records

  /** The record keeps what was dispatched, apart from the retry count, which stays in bounds. */
  predicate RecordOk(digest: Digest, id: string, r: Record) {
    && r.dispatched.id == id && r.checksum == digest(r.dispatched.payload)
    && r.envelope == r.dispatched.(retryCount := r.retryCount)
    && r.dispatched.retryCount <= r.retryCount <= Max(r.dispatched.retryCount, MaxRetries(r.dispatched))
  }

  ghost predicate RecordsOk(digest: Digest, records: Records) {
    forall id :: id in records ==> RecordOk(digest, id, records[id])
  }

  /** Records are never dropped, and never change what was dispatched. */
  ghost predicate Grows(before: Records, after: Records) {
    forall id :: id in before ==>
      id in after && after[id].dispatched == before[id].dispatched && after[id].checksum == before[id].checksum
  }

  lemma {:induction false} RetriedOk(digest: Digest, id: string, r: Record)
    requires RecordOk(digest, id, r) && MayRetry(r)
    ensures RecordOk(digest, id, Retried(r)) && Retried(r).retryCount == r.retryCount + 1
              && Retried(r).dispatched == r.dispatched
  {
  }

  lemma {:induction false} SameOk(digest: Digest, records: Records)
    ensures Grows(records, records)
  {
  }

  lemma {:induction false} FlagOk(digest: Digest, records: Records, id: string, validated: bool, status: AckStatus)
    requires RecordsOk(digest, records) && id in records
    ensures var after := records[id := records[id].(validated := validated, status := status)];
            RecordsOk(digest, after) && Grows(records, after)
  {
  }

  lemma {:induction false} AckedOk(digest: Digest, records: Records, id: string, status: AckStatus)
    requires RecordsOk(digest, records)
    ensures RecordsOk(digest, Acked(records, id, status)) && Grows(records, Acked(records, id, status))
  {
    hide RecordsOk, Grows, RecordOk;
    SameOk(digest, records);
    if id in records {
      FlagOk(digest, records, id, records[id].validated, status);
    }
  }

  lemma {:induction false} AckedKeepsCounts(records: Records, id: string, status: AckStatus)
    ensures forall k :: k in Acked(records, id, status) <==> k in records
    ensures forall k :: k in records ==> Acked(records, id, status)[k].retryCount == records[k].retryCount
  {
  }

  lemma {:induction false} WorkerRecordsOk(digest: Digest, records: Records, stage: Stage)
    requires RecordsOk(digest, records)
    ensures RecordsOk(digest, WorkerRecords(digest, records, stage))
              && Grows(records, WorkerRecords(digest, records, stage))
  {
    hide RecordOk, MayRetry, Retried, Acked, Confirmed, RecordsOk, Grows;
    match stage
    case Checking(e) =>
      if e.id in records {
        FlagOk(digest, records, e.id, true, Validated);
        FlagOk(digest, records, e.id, false, records[e.id].status);
      } else {
        SameOk(digest, records);
      }
    case Refusing(e) => AckedOk(digest, records, e.id, Failed);
    case Burying(e) => AckedOk(digest, records, e.id, DeadLettered);
    case Establishing(e) => AckedOk(digest, records, e.id, Failed); SameOk(digest, records);
    case Finishing(e) => AckedOk(digest, records, e.id, Accepted);
    case Deciding(e) =>
      SameOk(digest, records);
      if e.id in records && MayRetry(records[e.id]) {
        RetryOk(digest, records, e.id);
      }
    case Resending(retry) => AckedOk(digest, records, retry.id, Retrying);
    case _ => SameOk(digest, records);
  }

  lemma {:induction false} RetryOk(digest: Digest, records: Records, id: string)
    requires RecordsOk(digest, records) && id in records && MayRetry(records[id])
    ensures var after := records[id := Retried(records[id])];
            RecordsOk(digest, after) && Grows(records, after)
  {
    RetriedOk(digest, id, records[id]);
    hide RecordOk, MayRetry, Retried;
    assert Retried(records[id]).checksum == records[id].checksum by {
      RetriedKeepsChecksum(records[id]);
    }
  }

  lemma {:induction false} RetriedKeepsChecksum(r: Record)
    ensures Retried(r).checksum == r.checksum
  {
  }

  lemma {:induction false} StepKeepsRecords(s: System, a: Action)
    requires RecordsOk(s.digest, s.records) && Enabled(s, a)
    ensures Apply(s, a).digest == s.digest
    ensures RecordsOk(s.digest, Apply(s, a).records) && Grows(s.records, Apply(s, a).records)
  {
    hide RecordOk, RecordsOk, Grows, MayRetry, Retried, WorkerRecords, Acked, NextStage, WorkerMetrics, Send, IsNextFor;
    SameOk(s.digest, s.records);
    match a
    case Dispatch(e) => DispatchOk(s.digest, s.records, e);
    case Inject(e) =>
    case SweepRetries(id) =>
      RetryOk(s.digest, s.records, id);
      var retried := s.records[id := Retried(s.records[id])];
      FlagOk(s.digest, retried, id, retried[id].validated, Retrying);
      assert Apply(s, a).records == retried[id := retried[id].(status := Retrying)];
      GrowsOn(s.records, retried, Apply(s, a).records);
    case SweepBuries(id) => AckedOk(s.digest, s.records, id, DeadLettered);
    case CourierMoves(k) =>
      if s.couriers[k].ToSettle? {
        AckedOk(s.digest, s.records, s.couriers[k].id, s.couriers[k].status);
      }
    case WorkerReceives(w, k) =>
    case WorkerMoves(w, ok) => WorkerRecordsOk(s.digest, s.records, s.workers[w].stage);
  }

  lemma {:induction false} GrowsOn(a: Records, b: Records, c: Records)
    requires Grows(a, b) && Grows(b, c)
    ensures Grows(a, c)
  {
  }

  lemma {:induction false} DispatchOk(digest: Digest, records: Records, e: Envelope)
    requires RecordsOk(digest, records) && e.id !in records
    ensures RecordsOk(digest, records[e.id := NewRecord(digest, e)])
              && Grows(records, records[e.id := NewRecord(digest, e)])
  {
  }

  // ---------------------------------------------------------------- what is on its way

  /** The envelope is the dispatched one, but for its retry count. */
  predicate FromDispatch(records: Records, e: Envelope) {
    e.id in records && e == records[e.id].dispatched.(retryCount := e.retryCount)
  }

  /** A retry carries what was dispatched; past the payload check the payload matches the record. */
  predicate StageOk(digest: Digest, records: Records, stage: Stage) {
    match stage
    case Resending(retry) => FromDispatch(records, retry)
    case Establishing(e) => Confirmed(digest, records, e)
    case Handling(e) => Confirmed(digest, records, e)
    case Finishing(e) => Confirmed(digest, records, e)
    case Erring(e) => Confirmed(digest, records, e)
    case Deciding(e) => Confirmed(digest, records, e)
    case _ => true
  }

  predicate CourierOk(records: Records, c: Courier) {
    c.ToSend? ==> FromDispatch(records, c.e)
  }

  ghost predicate HandsOk(s: System) {
    && (forall w :: 0 <= w < |s.workers| ==> StageOk(s.digest, s.records, s.workers[w].stage))
    && (forall k :: 0 <= k < |s.couriers| ==> CourierOk(s.records, s.couriers[k]))
  }

  lemma {:induction false} GrowsKeepsStage(digest: Digest, before: Records, after: Records, stage: Stage)
    requires Grows(before, after) && StageOk(digest, before, stage)
    ensures StageOk(digest, after, stage)
  {
  }

  lemma {:induction false} GrowsKeepsCourier(before: Records, after: Records, c: Courier)
    requires Grows(before, after) && CourierOk(before, c)
    ensures CourierOk(after, c)
  {
  }

  lemma {:induction false} NextStageOk(digest: Digest, records: Records, stage: Stage, ok: bool)
    requires RecordsOk(digest, records) && StageOk(digest, records, stage)
    ensures StageOk(digest, records, NextStage(digest, records, stage, ok))
  {
    hide MayRetry, Confirmed, RecordsOk;
    if stage.Deciding? && stage.e.id in records {
      RetriedFromDispatch(digest, records, stage.e.id);
    }
  }

  lemma {:induction false} RetriedFromDispatch(digest: Digest, records: Records, id: string)
    requires RecordsOk(digest, records) && id in records
    ensures FromDispatch(records, Retried(records[id]).envelope) && Retried(records[id]).envelope.id == id
  {
    assert RecordOk(digest, id, records[id]);
  }

  lemma {:induction false} StepKeepsHands(s: System, a: Action)
    requires RecordsOk(s.digest, s.records) && HandsOk(s) && Enabled(s, a)
    ensures HandsOk(Apply(s, a))
  {
    StepKeepsRecords(s, a);
    StepKeepsWorkerHands(s, a);
    StepKeepsCourierHands(s, a);
    hide *;
  }

  lemma {:induction false} StepKeepsWorkerHands(s: System, a: Action)
    requires RecordsOk(s.digest, s.records) && HandsOk(s) && Enabled(s, a) && Grows(s.records, Apply(s, a).records)
    ensures var s' := Apply(s, a);
            s'.digest == s.digest && forall w :: 0 <= w < |s'.workers| ==>
                StageOk(s'.digest, s'.records, s'.workers[w].stage)
  {
    hide RecordsOk, Grows, MayRetry, Retried, WorkerRecords, Acked, NextStage, WorkerMetrics, Send, StageOk, CourierOk;
    var s' := Apply(s, a);
    forall w | 0 <= w < |s'.workers| ensures StageOk(s.digest, s'.records, s'.workers[w].stage) {
      assert |s'.workers| == |s.workers|;
      GrowsKeepsStage(s.digest, s.records, s'.records, s.workers[w].stage);
      if a.WorkerMoves? && w == a.w {
        NextStageOk(s.digest, s.records, s.workers[w].stage, a.ok);
        GrowsKeepsStage(s.digest, s.records, s'.records, NextStage(s.digest, s.records, s.workers[w].stage, a.ok));
      } else if a.WorkerReceives? && w == a.w {
        CheckingOk(s.digest, s'.records, s.post.mailbox[a.k]);
      }
    }
  }

  lemma {:induction false} CheckingOk(digest: Digest, records: Records, e: Envelope)
    ensures StageOk(digest, records, Checking(e))
  {
  }

  lemma {:induction false} StepKeepsCourierHands(s: System, a: Action)
    requires RecordsOk(s.digest, s.records) && HandsOk(s) && Enabled(s, a) && Grows(s.records, Apply(s, a).records)
    ensures var s' := Apply(s, a);
            forall k :: 0 <= k < |s'.couriers| ==> CourierOk(s'.records, s'.couriers[k])
  {
    hide RecordsOk, Grows, MayRetry, Retried, WorkerRecords, Acked, NextStage, WorkerMetrics, Send, IsNextFor,
         StageOk, FromDispatch;
    var s' := Apply(s, a);
    forall k | 0 <= k < |s'.couriers| ensures CourierOk(s'.records, s'.couriers[k]) {
      if k < |s.couriers| {
        GrowsKeepsCourier(s.records, s'.records, s.couriers[k]);
      } else if a.SweepRetries? {
        RetriedFromDispatch(s.digest, s.records, a.id);
        GrowsKeepsCourier(s.records, s'.records, ToSend(Retried(s.records[a.id]).envelope, false));
      } else {
        NewFromDispatch(s.digest, s.records, a.e);
      }
    }
  }

  lemma {:induction false} NewFromDispatch(digest: Digest, records: Records, e: Envelope)
    ensures FromDispatch(records[e.id := NewRecord(digest, e)], e)
  {
  }

  // ---------------------------------------------------------------- the ledger of sends

  function WorkersSending(workers: seq<Worker>, id: string): nat {
    Count(workers, (w: Worker) => Resends(w.stage, id))
  }

  function CouriersSending(couriers: seq<Courier>, id: string): nat {
    Count(couriers, c => Carries(c, id))
  }

  predicate Resends(stage: Stage, id: string) {
    stage.Resending? && stage.retry.id == id
  }

  predicate Carries(c: Courier, id: string) {
    c.ToSend? && c.e.id == id
  }

  /** Sends made or on their way for a task. */
  function Sends(s: System, id: string): nat {
    s.post.published[id] + s.post.stopped[id] + CouriersSending(s.couriers, id) + WorkersSending(s.workers, id)
  }

  /** One send for the dispatch and one for each retry counted on the record. */
  function Due(records: Records, id: string): int {
    if id in records then 1 + records[id].retryCount - records[id].dispatched.retryCount else 0
  }

  lemma {:induction false} WorkersSendingUpdate(workers: seq<Worker>, w: nat, x: Worker, id: string)
    requires w < |workers|
    ensures WorkersSending(workers[w := x], id) ==
              WorkersSending(workers, id) - One(Resends(workers[w].stage, id)) + One(Resends(x.stage, id))
  {
    CountUpdate(workers, w, x, (v: Worker) => Resends(v.stage, id));
  }

  lemma {:induction false} CouriersSendingUpdate(couriers: seq<Courier>, k: nat, x: Courier, id: string)
    requires k < |couriers|
    ensures CouriersSending(couriers[k := x], id) ==
              CouriersSending(couriers, id) - One(Carries(couriers[k], id)) + One(Carries(x, id))
  {
    CountUpdate(couriers, k, x, c => Carries(c, id));
  }

  lemma {:induction false} CouriersSendingAppend(couriers: seq<Courier>, x: Courier, id: string)
    ensures CouriersSending(couriers + [x], id) == CouriersSending(couriers, id) + One(Carries(x, id))
  {
    CountAppend(couriers, x, c => Carries(c, id));
  }

  lemma {:induction false} SendCounts(post: Post, e: Envelope, id: string)
    ensures Send(post, e).published[id] + Send(post, e).stopped[id] ==
              post.published[id] + post.stopped[id] + One(e.id == id)
  {
    hide OutOfHops;
  }

  lemma {:induction false} WorkerDue(digest: Digest, records: Records, stage: Stage, id: string)
    requires RecordsOk(digest, records)
    ensures Due(WorkerRecords(digest, records, stage), id) ==
              Due(records, id) + One(stage.Deciding? && stage.e.id == id && id in records && MayRetry(records[id]))
  {
    hide RecordOk, MayRetry, Confirmed, RecordsOk;
    if stage.Deciding? && stage.e.id in records && MayRetry(records[stage.e.id]) {
      RetriedCountsOne(digest, records, stage.e.id);
    }
    hide Retried;
  }

  lemma {:induction false} RetriedCountsOne(digest: Digest, records: Records, id: string)
    requires RecordsOk(digest, records) && id in records && MayRetry(records[id])
    ensures Retried(records[id]).retryCount == records[id].retryCount + 1
              && Retried(records[id]).dispatched == records[id].dispatched
    ensures Retried(records[id]).envelope.id == id
  {
    RetriedOk(digest, id, records[id]);
    assert RecordOk(digest, id, Retried(records[id]));
  }

  lemma {:induction false} WorkerStageSends(digest: Digest, records: Records, stage: Stage, ok: bool, id: string)
    requires RecordsOk(digest, records)
    ensures One(Resends(NextStage(digest, records, stage, ok), id)) ==
              One(stage.Deciding? && stage.e.id == id && id in records && MayRetry(records[id]))
  {
    hide RecordOk, MayRetry, Confirmed, RecordsOk;
    if stage.Deciding? && stage.e.id in records && MayRetry(records[stage.e.id]) {
      RetriedCountsOne(digest, records, stage.e.id);
    }
    hide Retried;
  }

  lemma {:induction false} WorkerMovesLedger(s: System, w: nat, ok: bool, id: string)
    requires RecordsOk(s.digest, s.records) && w < |s.workers| && Sends(s, id) == Due(s.records, id)
    ensures Sends(WorkerStep(s, w, ok), id) == Due(WorkerStep(s, w, ok).records, id)
  {
    hide RecordsOk, Due, NextStage, WorkerRecords, WorkerMetrics, MayRetry, CouriersSending, WorkersSending, Send;
    var stage := s.workers[w].stage;
    WorkersSendingUpdate(s.workers, w, WorkerStep(s, w, ok).workers[w], id);
    WorkerDue(s.digest, s.records, stage, id);
    WorkerStageSends(s.digest, s.records, stage, ok, id);
    if stage.Resending? {
      SendCounts(s.post, stage.retry, id);
    }
  }

  lemma {:induction false} CourierMovesLedger(s: System, k: nat, id: string)
    requires k < |s.couriers| && Sends(s, id) == Due(s.records, id)
    ensures Sends(CourierStep(s, k), id) == Due(CourierStep(s, k).records, id)
  {
    hide CouriersSending, WorkersSending, Send, OutOfHops;
    CouriersSendingUpdate(s.couriers, k, CourierStep(s, k).couriers[k], id);
    if s.couriers[k].ToSend? {
      SendCounts(s.post, s.couriers[k].e, id);
    }
  }

  lemma {:induction false} SweepLedger(s: System, id: string, k: string)
    requires RecordsOk(s.digest, s.records) && Enabled(s, SweepRetries(k)) && Sends(s, id) == Due(s.records, id)
    ensures Sends(Apply(s, SweepRetries(k)), id) == Due(Apply(s, SweepRetries(k)).records, id)
  {
    hide RecordsOk, CouriersSending, WorkersSending, MayRetry;
    RetriedCountsOne(s.digest, s.records, k);
    hide Retried;
    CouriersSendingAppend(s.couriers, ToSend(Retried(s.records[k]).envelope, false), id);
  }

  lemma {:induction false} DispatchLedger(s: System, id: string, e: Envelope)
    requires Enabled(s, Dispatch(e)) && Sends(s, id) == Due(s.records, id)
    ensures Sends(Apply(s, Dispatch(e)), id) == Due(Apply(s, Dispatch(e)).records, id)
  {
    hide CouriersSending, WorkersSending;
    CouriersSendingAppend(s.couriers, ToSend(e, true), id);
  }

  lemma {:induction false} ReceivesLedger(s: System, id: string, w: nat, k: nat)
    requires Enabled(s, WorkerReceives(w, k)) && Sends(s, id) == Due(s.records, id)
    ensures Sends(Apply(s, WorkerReceives(w, k)), id) == Due(Apply(s, WorkerReceives(w, k)).records, id)
  {
    hide CouriersSending, WorkersSending, Due;
    WorkersSendingUpdate(s.workers, w, Worker(s.workers[w].agent, Checking(s.post.mailbox[k])), id);
  }

  lemma {:induction false} StepKeepsLedger(s: System, a: Action, id: string)
    requires RecordsOk(s.digest, s.records) && Enabled(s, a) && Sends(s, id) == Due(s.records, id)
    ensures Sends(Apply(s, a), id) == Due(Apply(s, a).records, id)
  {
    hide RecordsOk, CouriersSending, WorkersSending, WorkerStep, CourierStep, IsNextFor, MayRetry, Retried, NewRecord;
    match a
    case Dispatch(e) => DispatchLedger(s, id, e);
    case Inject(e) =>
    case SweepRetries(k) => SweepLedger(s, id, k);
    case SweepBuries(k) => AckedKeepsCounts(s.records, k, DeadLettered);
    case CourierMoves(k) => CourierMovesLedger(s, k, id);
    case WorkerReceives(w, k) => ReceivesLedger(s, id, w, k);
    case WorkerMoves(w, ok) => WorkerMovesLedger(s, w, ok, id);
  }

  // ---------------------------------------------------------------- mail is conserved

  function InMail(mailbox: seq<Envelope>, id: string): nat {
    Count(mailbox, (e: Envelope) => e.id == id)
  }

  lemma {:induction false} InMailConcat(a: seq<Envelope>, b: seq<Envelope>, id: string)
    ensures InMail(a + b, id) == InMail(a, id) + InMail(b, id)
  {
    CountConcat(a, b, (e: Envelope) => e.id == id);
  }

  lemma {:induction false} InMailOne(e: Envelope, id: string)
    ensures InMail([e], id) == One(e.id == id)
  {
    assert [] + [e] == [e];
    CountAppend([], e, (x: Envelope) => x.id == id);
  }

  /** Every envelope put in the mail is still there or was received, once. */
  ghost predicate MailOk(post: Post) {
    forall id :: InMail(post.mailbox, id) + post.received[id] == post.published[id] + post.injected[id]
  }

  lemma {:induction false} SendKeepsMail(post: Post, e: Envelope)
    requires MailOk(post)
    ensures MailOk(Send(post, e))
  {
    hide InMail, OutOfHops;
    forall id ensures
        var p := Send(post, e);
        InMail(p.mailbox, id) + p.received[id] == p.published[id] + p.injected[id] {
      assert InMail(post.mailbox, id) + post.received[id] == post.published[id] + post.injected[id];
      InMailConcat(post.mailbox, [e.(hopCount := e.hopCount + 1)], id);
      InMailOne(e.(hopCount := e.hopCount + 1), id);
    }
  }

  lemma {:induction false} ReceiveKeepsMail(post: Post, k: nat)
    requires MailOk(post) && k < |post.mailbox|
    ensures MailOk(Receive(post, k))
  {
    hide InMail;
    forall id ensures
        var p := Receive(post, k);
        InMail(p.mailbox, id) + p.received[id] == p.published[id] + p.injected[id] {
      var m := post.mailbox;
      assert InMail(m, id) + post.received[id] == post.published[id] + post.injected[id];
      assert m == m[..k] + ([m[k]] + m[k + 1..]);
      InMailConcat(m[..k], [m[k]] + m[k + 1..], id);
      InMailConcat([m[k]], m[k + 1..], id);
      InMailConcat(m[..k], m[k + 1..], id);
      InMailOne(m[k], id);
    }
  }

  lemma {:induction false} InjectKeepsMail(post: Post, e: Envelope)
    requires MailOk(post)
    ensures MailOk(post.(mailbox := post.mailbox + [e], injected := post.injected + multiset{e.id}))
  {
    hide InMail;
    forall id ensures InMail(post.mailbox + [e], id) + post.received[id] ==
        post.published[id] + (post.injected + multiset{e.id})[id] {
      assert InMail(post.mailbox, id) + post.received[id] == post.published[id] + post.injected[id];
      InMailConcat(post.mailbox, [e], id);
      InMailOne(e, id);
    }
  }

  lemma {:induction false} StepKeepsMail(s: System, a: Action)
    requires MailOk(s.post) && Enabled(s, a)
    ensures MailOk(Apply(s, a).post)
  {
    hide MailOk, Send, Receive, MayRetry, Retried, WorkerRecords, NextStage, WorkerMetrics, Acked;
    match a
    case Inject(e) => InjectKeepsMail(s.post, e);
    case CourierMoves(k) =>
      if s.couriers[k].ToSend? {
        SendKeepsMail(s.post, s.couriers[k].e);
      }
    case WorkerReceives(w, k) => ReceiveKeepsMail(s.post, k);
    case WorkerMoves(w, ok) =>
      if s.workers[w].stage.Resending? {
        SendKeepsMail(s.post, s.workers[w].stage.retry);
      }
    case _ =>
  }

  // ---------------------------------------------------------------- whole runs

  ghost predicate LedgerOk(s: System) {
    forall id :: Sends(s, id) == Due(s.records, id)
  }

  ghost predicate Inv(s: System) {
    RecordsOk(s.digest, s.records) && HandsOk(s) && LedgerOk(s) && MailOk(s.post)
  }

  lemma {:induction false} StepKeepsInv(s: System, a: Action)
    requires Inv(s) && Enabled(s, a)
    ensures Inv(Apply(s, a))
  {
    StepKeepsRecords(s, a);
    StepKeepsHands(s, a);
    StepKeepsMail(s, a);
    hide RecordsOk, HandsOk, MailOk, Enabled, Apply, Due, Sends;
    forall id ensures Sends(Apply(s, a), id) == Due(Apply(s, a).records, id) {
      StepKeepsLedger(s, a, id);
    }
  }

  lemma {:induction false} NobodySends(workers: seq<Worker>, id: string)
    requires forall w :: 0 <= w < |workers| ==> workers[w].stage.Idle?
    ensures WorkersSending(workers, id) == 0
  {
    CountNone(workers, (w: Worker) => Resends(w.stage, id));
  }

  lemma {:induction false} StartInv(digest: Digest, agents: seq<string>)
    ensures Inv(Start(digest, agents))
  {
    var s := Start(digest, agents);
    forall id ensures Sends(s, id) == Due(s.records, id) {
      NobodySends(s.workers, id);
    }
    assert LedgerOk(s);
    hide LedgerOk, Sends;
  }

  lemma {:induction false} RunKeepsInv(s: System, run: seq<Action>)
    requires Inv(s) && IsRun(s, run)
    ensures Inv(After(s, run))
    decreases |run|
  {
    hide Inv, Enabled, Apply;
    if run != [] {
      StepKeepsInv(s, run[0]);
      RunKeepsInv(Apply(s, run[0]), run[1..]);
    }
  }

  /** The retry bound, for every interleaving of workers, sweeps and dispatches: a dispatch puts at
      most one envelope in the mail, plus one for each retry it has left; and the sends made or on
      their way are exactly one plus the retries counted on the record. */
  lemma {:induction false} SendsAreBounded(digest: Digest, agents: seq<string>, run: seq<Action>, id: string)
    requires IsRun(Start(digest, agents), run) && id in After(Start(digest, agents), run).records
    ensures var s := After(Start(digest, agents), run);
            var r := s.records[id];
            && Sends(s, id) == 1 + r.retryCount - r.dispatched.retryCount
            && s.post.published[id] <= 1 + Max(0, MaxRetries(r.dispatched) - r.dispatched.retryCount)
  {
    StartInv(digest, agents);
    RunKeepsInv(Start(digest, agents), run);
    hide IsRun, After, Start, HandsOk, MailOk, Apply, Enabled;
    var s := After(Start(digest, agents), run);
    assert RecordOk(s.digest, id, s.records[id]);
    assert Sends(s, id) == Due(s.records, id);
    hide CouriersSending, WorkersSending;
  }

  /** A worker hands to its handler only what matches the digest taken at dispatch, and every retry
      on its way carries the dispatched envelope. */
  lemma {:induction false} HandlersSeeWhatWasDispatched(digest: Digest, agents: seq<string>, run: seq<Action>, w: nat)
    requires IsRun(Start(digest, agents), run) && w < |After(Start(digest, agents), run).workers|
    ensures var s := After(Start(digest, agents), run);
            var stage := s.workers[w].stage;
            && (stage.Handling? ==>
                  stage.e.id in s.records
                      && s.digest(stage.e.payload) == s.digest(s.records[stage.e.id].dispatched.payload))
            && (stage.Resending? ==>
                  stage.retry.id in s.records
                      && stage.retry == s.records[stage.retry.id].dispatched.(retryCount := stage.retry.retryCount))
  {
    StartInv(digest, agents);
    RunKeepsInv(Start(digest, agents), run);
    hide IsRun, After, Start, LedgerOk, MailOk;
    var s := After(Start(digest, agents), run);
    var stage := s.workers[w].stage;
    assert StageOk(s.digest, s.records, stage);
    if stage.Handling? {
      assert RecordOk(s.digest, stage.e.id, s.records[stage.e.id]);
    }
  }

  // ---------------------------------------------------------------- mail from the supervisor alone

  predicate OwnPayload(records: Records, e: Envelope) {
    e.id in records && e.payload == records[e.id].dispatched.payload
  }

  /** All mail comes from dispatches, and no payload has been refused. */
  ghost predicate AllOwn(s: System) {
    && (forall k :: 0 <= k < |s.post.mailbox| ==> OwnPayload(s.records, s.post.mailbox[k]))
    && (forall w :: 0 <= w < |s.workers| ==>
          !s.workers[w].stage.Refusing? && !s.workers[w].stage.Burying?
          && (s.workers[w].stage.Checking? ==> OwnPayload(s.records, s.workers[w].stage.e)))
    && s.metrics.refused == multiset{} && s.post.injected == multiset{}
  }

  lemma {:induction false} GrowsKeepsOwn(before: Records, after: Records, e: Envelope)
    requires Grows(before, after) && OwnPayload(before, e)
    ensures OwnPayload(after, e)
  {
  }

  lemma {:induction false} GrowsKeepsMail(before: Records, after: Records, mailbox: seq<Envelope>)
    requires Grows(before, after) && forall k :: 0 <= k < |mailbox| ==> OwnPayload(before, mailbox[k])
    ensures forall k :: 0 <= k < |mailbox| ==> OwnPayload(after, mailbox[k])
  {
    hide Grows, OwnPayload;
    forall k | 0 <= k < |mailbox| ensures OwnPayload(after, mailbox[k]) {
      GrowsKeepsOwn(before, after, mailbox[k]);
    }
  }

  lemma {:induction false} SendKeepsOwn(records: Records, post: Post, e: Envelope)
    requires FromDispatch(records, e) && forall k :: 0 <= k < |post.mailbox| ==> OwnPayload(records, post.mailbox[k])
    ensures forall k :: 0 <= k < |Send(post, e).mailbox| ==> OwnPayload(records, Send(post, e).mailbox[k])
  {
    hide OutOfHops;
  }

  lemma {:induction false} ReceiveKeepsOwn(records: Records, post: Post, k: nat)
    requires k < |post.mailbox| && forall j :: 0 <= j < |post.mailbox| ==> OwnPayload(records, post.mailbox[j])
    ensures forall j :: 0 <= j < |Receive(post, k).mailbox| ==> OwnPayload(records, Receive(post, k).mailbox[j])
  {
    hide OwnPayload;
  }

  lemma {:induction false} OwnIsConfirmed(digest: Digest, records: Records, e: Envelope)
    requires RecordsOk(digest, records) && OwnPayload(records, e)
    ensures Confirmed(digest, records, e)
  {
    assert RecordOk(digest, e.id, records[e.id]);
  }

  lemma {:induction false} OwnMailStep(s: System, a: Action)
    requires Inv(s) && AllOwn(s) && Enabled(s, a) && !a.Inject?
    ensures forall k :: 0 <= k < |Apply(s, a).post.mailbox| ==>
              OwnPayload(Apply(s, a).records, Apply(s, a).post.mailbox[k])
    ensures Apply(s, a).post.injected == multiset{}
  {
    StepKeepsRecords(s, a);
    hide OwnPayload, Grows, RecordsOk, MailOk, LedgerOk, Send, Receive, MayRetry, Retried, WorkerRecords, NextStage,
         WorkerMetrics, Acked, FromDispatch;
    SendsKeepInjected(s);
    match a
    case CourierMoves(k) =>
      if s.couriers[k].ToSend? {
        assert CourierOk(s.records, s.couriers[k]);
        SendKeepsOwn(s.records, s.post, s.couriers[k].e);
      }
      GrowsKeepsMail(s.records, Apply(s, a).records, Apply(s, a).post.mailbox);
    case WorkerReceives(w, k) =>
      ReceiveKeepsOwn(s.records, s.post, k);
    case WorkerMoves(w, ok) =>
      if s.workers[w].stage.Resending? {
        assert StageOk(s.digest, s.records, s.workers[w].stage);
        SendKeepsOwn(s.records, s.post, s.workers[w].stage.retry);
      }
      GrowsKeepsMail(s.records, Apply(s, a).records, Apply(s, a).post.mailbox);
    case Dispatch(_) => GrowsKeepsMail(s.records, Apply(s, a).records, s.post.mailbox);
    case SweepRetries(_) => GrowsKeepsMail(s.records, Apply(s, a).records, s.post.mailbox);
    case SweepBuries(_) => GrowsKeepsMail(s.records, Apply(s, a).records, s.post.mailbox);
    case Inject(_) =>
  }

  lemma {:induction false} SendsKeepInjected(s: System)
    ensures forall e :: Send(s.post, e).injected == s.post.injected
    ensures forall k :: 0 <= k < |s.post.mailbox| ==> Receive(s.post, k).injected == s.post.injected
  {
  }

  lemma {:induction false} OwnStageStep(digest: Digest, records: Records, stage: Stage, ok: bool)
    requires RecordsOk(digest, records) && (stage.Checking? ==> OwnPayload(records, stage.e))
    requires !stage.Refusing? && !stage.Burying?
    ensures var next := NextStage(digest, records, stage, ok); !next.Refusing? && !next.Burying? && !next.Checking?
    ensures forall m, agent :: WorkerMetrics(m, stage, agent).refused == m.refused
  {
    hide RecordsOk, OwnPayload, Confirmed, MayRetry, Retried;
    if stage.Checking? {
      OwnIsConfirmed(digest, records, stage.e);
    }
  }

  lemma {:induction false} OwnWorkersStep(s: System, a: Action)
    requires Inv(s) && AllOwn(s) && Enabled(s, a) && !a.Inject?
    ensures Apply(s, a).metrics.refused == multiset{}
    ensures forall w :: 0 <= w < |Apply(s, a).workers| ==>
              var stage := Apply(s, a).workers[w].stage;
              !stage.Refusing? && !stage.Burying? && (stage.Checking? ==> OwnPayload(Apply(s, a).records, stage.e))
  {
    StepKeepsRecords(s, a);
    hide OwnPayload, Grows, RecordsOk, HandsOk, MailOk, LedgerOk, Send, Receive, MayRetry, Retried, WorkerRecords,
         NextStage, WorkerMetrics, Acked;
    var s' := Apply(s, a);
    if a.WorkerMoves? {
      OwnStageStep(s.digest, s.records, s.workers[a.w].stage, a.ok);
    }
    forall w | 0 <= w < |s'.workers| ensures
        var stage := s'.workers[w].stage;
        !stage.Refusing? && !stage.Burying? && (stage.Checking? ==> OwnPayload(s'.records, stage.e)) {
      if s.workers[w].stage.Checking? {
        GrowsKeepsOwn(s.records, s'.records, s.workers[w].stage.e);
      }
      if a.WorkerReceives? && w == a.w {
        GrowsKeepsOwn(s.records, s'.records, s.post.mailbox[a.k]);
      }
    }
  }

  ghost predicate NobodyInjects(run: seq<Action>) {
    forall k :: 0 <= k < |run| ==> !run[k].Inject?
  }

  lemma {:induction false} RunKeepsOwn(s: System, run: seq<Action>)
    requires Inv(s) && AllOwn(s) && IsRun(s, run) && NobodyInjects(run)
    ensures Inv(After(s, run)) && AllOwn(After(s, run))
    decreases |run|
  {
    if run != [] {
      StepKeepsInv(s, run[0]);
      OwnMailStep(s, run[0]);
      OwnWorkersStep(s, run[0]);
      hide Inv, Enabled, Apply, OwnPayload;
      RunKeepsOwn(Apply(s, run[0]), run[1..]);
    }
  }

  /** When all mail comes from the supervisor, no payload check ever fails, and a task reaches
      workers at most once for its dispatch and once for each retry it has left. */
  lemma {:induction false} OwnMailIsNeverRefused(digest: Digest, agents: seq<string>, run: seq<Action>, id: string)
    requires IsRun(Start(digest, agents), run) && NobodyInjects(run) && id in After(Start(digest, agents), run).records
    ensures var s := After(Start(digest, agents), run);
            var r := s.records[id];
            && s.metrics.refused == multiset{}
            && s.post.received[id] <= s.post.published[id] <= 1
                 + Max(0, MaxRetries(r.dispatched) - r.dispatched.retryCount)
  {
    SendsAreBounded(digest, agents, run, id);
    StartInv(digest, agents);
    assert AllOwn(Start(digest, agents));
    RunKeepsOwn(Start(digest, agents), run);
    hide IsRun, After, Start, LedgerOk, HandsOk, RecordsOk, Sends;
    var s := After(Start(digest, agents), run);
    assert InMail(s.post.mailbox, id) + s.post.received[id] == s.post.published[id] + s.post.injected[id];
  }
}
