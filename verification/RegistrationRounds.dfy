/** Registration round after registration round (go-core/internal/kernel/model_registry.go:454-507,
    600-793): when a model that was probed, confirmed, queued or turned away asks for a place again. */
module RegistrationRounds {
  import opened Basics
  import opened Text
  import opened ModelRegistration

  /** One round, and the place of one model in it. */
  datatype Round = Round(models: seq<Model>, c: Config, order: seq<nat>, results: nat -> ProbeResult, j: nat)

  predicate Holds(r: Round) {
    InRange(r.order, |r.models|) && r.j < |r.order| && r.c.validationLimit >= 0
  }

  function Before(r: Round): Model
    requires Holds(r)
  {
    r.models[r.order[r.j]]
  }

  function AfterRound(r: Round): Model
    requires Holds(r)
  {
    Outcome(r.models, r.c, r.order, r.results, r.j)
  }

  function ResultOf(r: Round): ProbeResult
    requires Holds(r)
  {
    r.results(r.order[r.j])
  }

  predicate WasProbed(r: Round)
    requires Holds(r)
  {
    AfterRound(r).registrationAttempts > Before(r).registrationAttempts
  }

  /** The model asked for a place in the round: it was probed, queued or turned away. */
  predicate Asked(r: Round)
    requires Holds(r)
  {
    CanParticipate(Before(r)) && (WasProbed(r) || AfterRound(r).queueStatus in ["queued", "overflow"])
  }

  /** The transport applies to the model, as the round finds it. */
  predicate Applicable(r: Round)
    requires Holds(r)
  {
    r.c.inapplicable(Refreshed(Before(r), r.c)) == ""
  }

  lemma {:induction false} AskedIsCandidate(r: Round)
    requires Holds(r)
    ensures Asked(r) <==> IsCandidate(Before(r), r.c)
    ensures WasProbed(r) ==> IsCandidate(Before(r), r.c)
  {
    hide Screened, Probed, Queued, Overflowed, Candidates, IsCandidate, CanParticipate, IsProbed, QueueLimit, Rank,
         Outcome;
    var m := Before(r);
    OutcomeIs(r.models, r.c, r.order, r.results, r.j);
    ScreenedShows(m, r.c);
    MarksShow(Screened(m, r.c), r.c, Rank(r.models, r.c, r.order, r.j) + 1, ResultOf(r));
    if IsCandidate(m, r.c) {
      CandidatesParticipate(m, r.c);
    }
  }

  lemma {:induction false} ProbedIsProbed(r: Round)
    requires Holds(r) && WasProbed(r)
    ensures AfterRound(r) == Probed(Screened(Before(r), r.c), r.c, ResultOf(r))
  {
    hide Screened, Probed, Queued, Overflowed, Candidates, IsCandidate, CanParticipate, IsProbed, QueueLimit, Rank,
         Outcome;
    OutcomeIs(r.models, r.c, r.order, r.results, r.j);
    ScreenedShows(Before(r), r.c);
    MarksShow(Screened(Before(r), r.c), r.c, Rank(r.models, r.c, r.order, r.j) + 1, ResultOf(r));
  }

  /** A model asks for a place exactly when it takes part, its transport applies, its confirmation does
      not hold any more, and the time set for its next verification, if any, has come. */
  lemma {:induction false} WhoAsks(r: Round)
    requires Holds(r)
    ensures var m, now := Before(r), r.c.now;
            var confirmed := Trim(m.verificationStatus) == "confirmed" && m.available;
            var until := if m.expiresAt.Some? then m.expiresAt
                         else if m.lastSuccessAt.Some? then Some(m.lastSuccessAt.value + r.c.confirmationTTL)
                         else None;
            Asked(r) <==>
              && m.status !in ["disabled", "missing", "transport_inapplicable"] && Applicable(r)
              && !(confirmed && until.Some? && now <= until.value)
              && (m.nextVerificationAt.Some? ==> m.nextVerificationAt.value <= now)
  {
    AskedIsCandidate(r);
    PreparationKeepsDate(Before(r), r.c);
    hide Trim, Refreshed, Prepared, Outcome;
  }

  /** Nothing that happens to a model before the queue is looked at moves its next verification, unless
      its confirmation still holds. */
  lemma {:induction false} PreparationKeepsDate(m: Model, c: Config)
    ensures !StaysConfirmed(m, c) ==>
              && Prepared(Refreshed(m, c), c).nextVerificationAt == Refreshed(m, c).nextVerificationAt
              && Refreshed(m, c).nextVerificationAt == m.nextVerificationAt
  {
    PreparedKeepsDate(Refreshed(m, c), c);
    RefreshedKeepsDate(m, c);
    hide *;
  }

  lemma {:induction false} RefreshedKeepsDate(m: Model, c: Config)
    ensures !StaysConfirmed(m, c) ==> Refreshed(m, c).nextVerificationAt == m.nextVerificationAt
  {
    hide ExpiredReason;
    hide Trim;
  }

  lemma {:induction false} AgedKeepsDate(m: Model, c: Config)
    ensures Aged(Noted(m), c).nextVerificationAt == m.nextVerificationAt
  {
    hide OverdueReason;
    assert Noted(m).nextVerificationAt == m.nextVerificationAt;
    hide Noted;
  }

  lemma {:induction false} PreparedKeepsDate(m: Model, c: Config)
    ensures Prepared(m, c).nextVerificationAt == m.nextVerificationAt
  {
    hide DiscoveredReason;
    AgedKeepsDate(m, c);
    hide Trim, Aged, Noted;
  }

  // ---------------------------------------------------------------- waiting for the next verification

  /** Taking part, not available, and not to be verified before `date`. */
  predicate Waits(m: Model, date: Option<Time>) {
    CanParticipate(m) && !m.available && m.nextVerificationAt == date
  }

  predicate Reached(date: Option<Time>, now: Time) {
    date.Some? ==> date.value <= now
  }

  lemma {:induction false} CoolingWaits(m: Model, c: Config)
    requires !m.available
    ensures Waits(CoolingDown(Prepared(m, c), c), m.nextVerificationAt)
  {
    hide CoolingReason;
    PreparedKeepsDate(m, c);
    hide Trim, Prepared;
  }

  lemma {:induction false} UnavailableIsNotRefreshed(m: Model, c: Config)
    requires !m.available
    ensures Refreshed(m, c) == m && !StaysConfirmed(m, c)
  {
    hide Trim;
  }

  /** Such a model asks again exactly when the date has come, and otherwise goes on waiting for it. */
  lemma {:induction false} WaitingStep(r: Round, date: Option<Time>)
    requires Holds(r) && Waits(Before(r), date) && Applicable(r)
    ensures Asked(r) <==> Reached(date, r.c.now)
    ensures !Asked(r) ==> Waits(AfterRound(r), date)
  {
    var m := Before(r);
    AskedIsCandidate(r);
    UnavailableIsNotRefreshed(m, r.c);
    PreparationKeepsDate(m, r.c);
    CoolingWaits(m, r.c);
    OutcomeIs(r.models, r.c, r.order, r.results, r.j);
    hide Trim, Refreshed, Prepared, Outcome, StaysConfirmed, CoolingDown, Probed, Queued, Overflowed, Rank, IsProbed,
         QueueLimit;
  }

  /** The rounds a model goes through, one after the other, with its transport applying throughout. */
  ghost predicate Chain(m: Model, rounds: seq<Round>) {
    && (forall k :: 0 <= k < |rounds| ==> Holds(rounds[k]) && Applicable(rounds[k]))
    && (rounds != [] ==> Before(rounds[0]) == m)
    && (forall k :: 0 <= k < |rounds| - 1 ==> Before(rounds[k + 1]) == AfterRound(rounds[k]))
  }

  lemma {:induction false} ChainTail(m: Model, rounds: seq<Round>)
    requires Chain(m, rounds) && rounds != []
    ensures forall k :: 0 <= k < |rounds| ==> Holds(rounds[k])
    ensures Before(rounds[0]) == m && Applicable(rounds[0])
    ensures Chain(AfterRound(rounds[0]), rounds[1..])
    ensures forall k :: 0 < k < |rounds| ==> rounds[k] == rounds[1..][k - 1]
  {
    hide AfterRound, Before, Holds, Applicable;
  }

  /** A waiting model asks in none of the rounds held before its date, and in the first one after. */
  lemma {:induction false} WaitsForDate(m: Model, date: Option<Time>, rounds: seq<Round>)
    requires Waits(m, date) && Chain(m, rounds) && rounds != []
    requires forall k :: 0 <= k < |rounds| - 1 ==> !Reached(date, rounds[k].c.now)
    ensures forall k :: 0 <= k < |rounds| - 1 ==> !Asked(rounds[k])
    ensures Asked(rounds[|rounds| - 1]) <==> Reached(date, rounds[|rounds| - 1].c.now)
    decreases |rounds|
  {
    hide Waits, Asked, Chain, AfterRound, Before, Holds, Applicable, Reached;
    ChainTail(m, rounds);
    WaitingStep(rounds[0], date);
    if |rounds| > 1 {
      WaitsForDate(AfterRound(rounds[0]), date, rounds[1..]);
    }
  }

  // ---------------------------------------------------------------- after a failed probe

  /** When a model whose probe failed may be verified again: at once, or after the cooldown when the
      failure was a passing one and there is a cooldown. */
  function RetryAt(r: Round): Time
    requires Holds(r)
  {
    if ResultOf(r).retryable && r.c.retryCooldown > 0 then r.c.now + r.c.retryCooldown else r.c.now
  }

  lemma {:induction false} FailedWaits(m: Model, c: Config, result: ProbeResult)
    requires !result.validated
    ensures Waits(Probed(m, c, result),
              if !result.retryable then None
              else if c.retryCooldown > 0 then Some(c.now + c.retryCooldown)
              else m.nextVerificationAt)
  {
    hide ProbingReason;
  }

  /** After a failed probe, through any rounds that follow: the model asks in none held before the
      retry time, and it does ask in the first one held then or later. */
  lemma {:induction false} FailedModelsComeBack(first: Round, rounds: seq<Round>)
    requires Holds(first) && WasProbed(first) && !ResultOf(first).validated
    requires Chain(AfterRound(first), rounds) && rounds != []
    requires forall k :: 0 <= k < |rounds| ==> first.c.now <= rounds[k].c.now
    requires forall k :: 0 <= k < |rounds| - 1 ==> rounds[k].c.now < RetryAt(first)
    ensures forall k :: 0 <= k < |rounds| - 1 ==> !Asked(rounds[k])
    ensures Asked(rounds[|rounds| - 1]) <==> RetryAt(first) <= rounds[|rounds| - 1].c.now
  {
    var m, c := Before(first), first.c;
    ProbedIsProbed(first);
    AskedIsCandidate(first);
    PreparationKeepsDate(m, c);
    FailedWaits(Screened(m, c), c, ResultOf(first));
    hide Probed, Prepared, Refreshed, Trim, StaysConfirmed, Outcome;
    var date := AfterRound(first).nextVerificationAt;
    assert Waits(AfterRound(first), date);
    forall k | 0 <= k < |rounds| ensures Reached(date, rounds[k].c.now) <==> RetryAt(first) <= rounds[k].c.now {
    }
    WaitsForDate(AfterRound(first), date, rounds);
  }

  // ---------------------------------------------------------------- after a confirmation

  /** Confirmed at `since`, and kept until `until` when that is set. */
  predicate Kept(m: Model, since: Time, until: Option<Time>) {
    && CanParticipate(m) && m.available && Trim(m.verificationStatus) == "confirmed"
    && m.lastSuccessAt == Some(since) && m.expiresAt == until && m.nextVerificationAt == until
  }

  /** When the confirmation runs out; without a date of its own, by the round's own time to live. */
  function RunsOut(since: Time, until: Option<Time>, c: Config): Time {
    if until.Some? then until.value else since + c.confirmationTTL
  }

  lemma {:induction false} RefreshedKeeps(m: Model, since: Time, until: Option<Time>, c: Config)
    requires Kept(m, since, until)
    ensures StaysConfirmed(m, c) <==> c.now <= RunsOut(since, until, c)
    ensures StaysConfirmed(m, c) ==> Kept(Refreshed(m, c), since, Some(RunsOut(since, until, c)))
  {
    hide ExpiredReason;
    ConfirmedIsTrimmed();
    hide Trim;
  }

  lemma {:induction false} KeptStep(r: Round, since: Time, until: Option<Time>)
    requires Holds(r) && Kept(Before(r), since, until) && Applicable(r)
    ensures Asked(r) <==> r.c.now > RunsOut(since, until, r.c)
    ensures !Asked(r) ==> Kept(AfterRound(r), since, Some(RunsOut(since, until, r.c)))
  {
    var m := Before(r);
    AskedIsCandidate(r);
    RefreshedKeeps(m, since, until, r.c);
    PreparationKeepsDate(m, r.c);
    OutcomeIs(r.models, r.c, r.order, r.results, r.j);
    hide Trim, Refreshed, Prepared, Outcome, StaysConfirmed, CoolingDown, Probed, Queued, Overflowed, Rank, IsProbed,
         QueueLimit;
  }

  lemma {:induction false} KeptUntilItRunsOut(m: Model, since: Time, until: Option<Time>, rounds: seq<Round>)
    requires Kept(m, since, until) && Chain(m, rounds) && rounds != []
    requires var end := RunsOut(since, until, rounds[0].c); forall k :: 0 <= k < |rounds| - 1 ==> rounds[k].c.now <= end
    ensures forall k :: 0 <= k < |rounds| - 1 ==> !Asked(rounds[k]) && AfterRound(rounds[k]).available
    ensures Asked(rounds[|rounds| - 1]) <==> rounds[|rounds| - 1].c.now > RunsOut(since, until, rounds[0].c)
    decreases |rounds|
  {
    hide Kept, Asked, Chain, AfterRound, Before, Holds, Applicable;
    ChainTail(m, rounds);
    KeptStep(rounds[0], since, until);
    if |rounds| > 1 {
      KeptIsAvailable(AfterRound(rounds[0]), since, Some(RunsOut(since, until, rounds[0].c)));
      KeptUntilItRunsOut(AfterRound(rounds[0]), since, Some(RunsOut(since, until, rounds[0].c)), rounds[1..]);
    }
  }

  lemma {:induction false} KeptIsAvailable(m: Model, since: Time, until: Option<Time>)
    ensures Kept(m, since, until) ==> m.available
  {
  }

  lemma {:induction false} ConfirmedIsKept(m: Model, c: Config, result: ProbeResult)
    requires result.validated
    ensures var since := if result.succeededAt.Some? then result.succeededAt.value else c.now;
            Kept(Probed(m, c, result), since,
                 if c.confirmationTTL > 0 then Some(since + c.confirmationTTL) else None)
  {
    hide ProbingReason;
    ConfirmedIsTrimmed();
    hide Trim;
  }

  function SucceededAt(r: Round): Time
    requires Holds(r)
  {
    if ResultOf(r).succeededAt.Some? then ResultOf(r).succeededAt.value else r.c.now
  }

  function OwnDate(r: Round): Option<Time>
    requires Holds(r)
  {
    if r.c.confirmationTTL > 0 then Some(SucceededAt(r) + r.c.confirmationTTL) else None
  }

  /** The success time plus the time to live in force at the probe or, if there was none, at the next
      round. */
  function ConfirmedUntil(first: Round, next: Config): Time
    requires Holds(first)
  {
    SucceededAt(first) + if first.c.confirmationTTL > 0 then first.c.confirmationTTL else next.confirmationTTL
  }

  lemma {:induction false} ConfirmedRound(first: Round)
    requires Holds(first) && WasProbed(first) && ResultOf(first).validated
    ensures Kept(AfterRound(first), SucceededAt(first), OwnDate(first))
  {
    hide Probed, Screened, AfterRound, Trim, Kept, WasProbed, Before, Holds;
    ProbedIsProbed(first);
    ConfirmedIsKept(Screened(Before(first), first.c), first.c, ResultOf(first));
  }

  lemma {:induction false} RunsOutThen(first: Round, c: Config)
    requires Holds(first)
    ensures RunsOut(SucceededAt(first), OwnDate(first), c) == ConfirmedUntil(first, c)
  {
    hide ResultOf;
  }

  /** After a confirmation, through any rounds that follow: the model stays available and asks in none
      held within its time to live, and it asks in the first one held later. */
  lemma {:induction false} ConfirmationsRunOut(first: Round, rounds: seq<Round>)
    requires Holds(first) && WasProbed(first) && ResultOf(first).validated
    requires Chain(AfterRound(first), rounds) && rounds != []
    requires forall k :: 0 <= k < |rounds| - 1 ==> rounds[k].c.now <= ConfirmedUntil(first, rounds[0].c)
    ensures forall k :: 0 <= k < |rounds| - 1 ==> !Asked(rounds[k]) && AfterRound(rounds[k]).available
    ensures Asked(rounds[|rounds| - 1]) <==> rounds[|rounds| - 1].c.now > ConfirmedUntil(first, rounds[0].c)
  {
    hide *;
    ConfirmedRound(first);
    RunsOutThen(first, rounds[0].c);
    KeptUntilItRunsOut(AfterRound(first), SucceededAt(first), OwnDate(first), rounds);
  }

  // ---------------------------------------------------------------- after waiting in vain

  lemma {:induction false} MarkedWaits(m: Model, c: Config, position: int)
    ensures Waits(Queued(m, c, position), m.nextVerificationAt) && Waits(Overflowed(m, c), m.nextVerificationAt)
  {
    hide QueuedReason, OverflowReason;
    hide Trim, VerificationOr;
  }

  /** A model that was queued or turned away without a probe asks again in the next round. */
  lemma {:induction false} UnprobedAskAgain(first: Round, next: Round)
    requires Holds(first) && Asked(first) && !WasProbed(first)
    requires Holds(next) && Before(next) == AfterRound(first) && Applicable(next) && first.c.now <= next.c.now
    ensures Asked(next)
  {
    var m, c := Before(first), first.c;
    AskedIsCandidate(first);
    PreparationKeepsDate(m, c);
    OutcomeIs(first.models, c, first.order, first.results, first.j);
    ScreenedShows(m, c);
    MarksShow(Screened(m, c), c, Rank(first.models, c, first.order, first.j) + 1, ResultOf(first));
    MarkedWaits(Screened(m, c), c, Rank(first.models, c, first.order, first.j) + 1);
    hide Probed, Prepared, Refreshed, Trim, StaysConfirmed, Outcome, Queued, Overflowed, Rank, QueueLimit, IsProbed;
    WaitingStep(next, m.nextVerificationAt);
  }

  // ---------------------------------------------------------------- what a round says of a model

  /** The confirmation was there and has run out. */
  predicate Expired(m: Model, c: Config) {
    Trim(m.verificationStatus) == "confirmed" && m.available && !StaysConfirmed(m, c) && Expiry(m, c).Some?
  }

  /** The model has been waiting for its registration longer than it may. */
  predicate Overdue(m: Model, c: Config) {
    m.verificationStartedAt.Some? && c.pendingTTL > 0 && c.now - m.verificationStartedAt.value >= c.pendingTTL
  }

  /** How a model that is not confirmed stands when the queue is looked at: stale when its confirmation
      or its patience has run out, being verified when it is new, and otherwise as it stood. */
  function Standing(m: Model, c: Config): string {
    if Expired(m, c) || Overdue(m, c) then "stale"
    else if m.status == "" || m.status == "ready" then "verifying"
    else if Trim(m.verificationStatus) == "confirmed" then "stale"
    else m.verificationStatus
  }

  /** The transport of such a model: pending once it is overdue or was thought verified or unknown,
      stale when its confirmation has run out, and otherwise as it was. */
  function TransportOf(m: Model, c: Config): string {
    if Overdue(m, c) then "transport_pending"
    else if Expired(m, c) then "transport_stale"
    else if m.transportStatus == "" || m.transportStatus == "transport_verified" then "transport_pending"
    else m.transportStatus
  }

  /** Its last confirmation's end: kept when known, or worked out from the last success. */
  function EndOf(m: Model, c: Config): Option<Time> {
    if m.expiresAt.Some? then m.expiresAt
    else if m.lastSuccessAt.Some? && (c.confirmationTTL > 0 || Expired(m, c)) then
      Some(m.lastSuccessAt.value + c.confirmationTTL)
    else None
  }

  lemma {:induction false} RefreshedStands(m: Model, c: Config)
    requires !StaysConfirmed(m, c)
    ensures var f := Refreshed(m, c);
            && f.consecutiveFailures == m.consecutiveFailures && f.consecutiveSuccesses == m.consecutiveSuccesses
            && f.pendingCycles == m.pendingCycles && f.verificationStartedAt == m.verificationStartedAt
            && f.registrationAttempts == m.registrationAttempts && f.lastSuccessAt == m.lastSuccessAt
            && (if Expired(m, c) then f.verificationStatus == "stale" && f.status == "registration_stale"
                                      && f.transportStatus == "transport_stale" && f.expiresAt == Expiry(m, c)
                else f.verificationStatus == m.verificationStatus && f.status == m.status
                     && f.transportStatus == m.transportStatus && f.expiresAt == m.expiresAt)
  {
    hide ExpiredReason;
    hide Trim;
  }

  /** What preparing a model leaves alone. */
  predicate SameRuns(m: Model, f: Model) {
    && f.consecutiveFailures == m.consecutiveFailures && f.consecutiveSuccesses == m.consecutiveSuccesses
    && f.pendingCycles == m.pendingCycles
  }

  lemma {:induction false} NotedStands(m: Model)
    ensures SameRuns(m, Noted(m)) && Noted(m).inventoryStatus != ""
    ensures m.inventoryStatus != "" ==> Noted(m).inventoryStatus == m.inventoryStatus
    ensures Noted(m).verificationStartedAt == m.verificationStartedAt
    ensures Noted(m).verificationStatus == m.verificationStatus && Noted(m).status == m.status
    ensures Noted(m).lastSuccessAt == m.lastSuccessAt && Noted(m).expiresAt == m.expiresAt
    ensures Noted(m).transportStatus ==
              if m.transportStatus == "" || m.transportStatus == "transport_verified" then "transport_pending"
              else m.transportStatus
  {
  }

  lemma {:induction false} AgedStands(m: Model, c: Config)
    requires m.inventoryStatus != ""
    ensures SameRuns(m, Aged(m, c)) && Aged(m, c).inventoryStatus == m.inventoryStatus
    ensures if Overdue(m, c) then Aged(m, c).verificationStatus == "stale" && Aged(m, c).status == "registration_stale"
            else Aged(m, c).verificationStatus == m.verificationStatus && Aged(m, c).status == m.status
    ensures Aged(m, c).transportStatus == if Overdue(m, c) then "transport_pending" else m.transportStatus
    ensures Aged(m, c).lastSuccessAt == m.lastSuccessAt && Aged(m, c).expiresAt == m.expiresAt
  {
    hide OverdueReason;
    StateIs(m, "registration_stale", m.inventoryStatus, "transport_pending", "stale", c.now);
    hide SetState;
  }

  /** What setting the state leaves alone, whatever the reason given. */
  lemma {:induction false} StateIs(m: Model, status: string, inventory: string, transport: string,
                                   verification: string, now: Time)
    requires inventory != "" && verification != ""
    ensures forall reason ::
              var f := SetState(m, status, inventory, transport, verification, reason, now);
              && SameRuns(m, f) && f.inventoryStatus == inventory && f.status == status
              && f.verificationStatus == verification && (transport != "" ==> f.transportStatus == transport)
              && f.lastSuccessAt == m.lastSuccessAt && f.expiresAt == m.expiresAt
  {
  }

  lemma {:induction false} UnconfirmedStands(m: Model, c: Config)
    ensures SameRuns(m, Unconfirmed(m, c)) && Unconfirmed(m, c).inventoryStatus == m.inventoryStatus
    ensures Unconfirmed(m, c).status == m.status && Unconfirmed(m, c).transportStatus == m.transportStatus
    ensures Unconfirmed(m, c).expiresAt ==
              if m.expiresAt.Some? then m.expiresAt
              else if m.lastSuccessAt.Some? && c.confirmationTTL > 0 then
                Some(m.lastSuccessAt.value + c.confirmationTTL)
              else None
    ensures Unconfirmed(m, c).verificationStatus ==
              if Trim(m.verificationStatus) == "confirmed" then "stale" else m.verificationStatus
  {
    hide Trim;
  }

  lemma {:induction false} PreparedIs(m: Model, c: Config)
    ensures var n := Unconfirmed(Aged(Noted(m), c), c);
            var f := Prepared(m, c);
            && f.consecutiveFailures == n.consecutiveFailures && f.consecutiveSuccesses == n.consecutiveSuccesses
            && f.pendingCycles == n.pendingCycles + 1
            && f.inventoryStatus == n.inventoryStatus && f.expiresAt == n.expiresAt
            && (n.transportStatus != "" ==> f.transportStatus == n.transportStatus)
            && f.verificationStatus == if n.status in ["", "ready"] then "verifying" else n.verificationStatus
  {
    hide DiscoveredReason;
    hide Unconfirmed, Aged, Noted;
  }

  lemma {:induction false} StandingIs(m: Model, c: Config, f: Model, n: Model)
    requires !StaysConfirmed(m, c) && f.verificationStartedAt == m.verificationStartedAt
    requires if Expired(m, c) then f.verificationStatus == "stale" && f.status == "registration_stale"
             else f.verificationStatus == m.verificationStatus && f.status == m.status
    requires if Overdue(f, c) then n.verificationStatus == "stale" && n.status == "registration_stale"
             else n.verificationStatus == f.verificationStatus && n.status == f.status
    ensures Standing(m, c) ==
              if n.status in ["", "ready"] then "verifying"
              else if Trim(n.verificationStatus) == "confirmed" then "stale"
              else n.verificationStatus
  {
    ConfirmedIsTrimmed();
    hide Trim, StaysConfirmed, Expired;
  }

  lemma {:induction false} TransportIs(m: Model, c: Config, f: Model, d: Model, n: Model)
    requires f.verificationStartedAt == d.verificationStartedAt == m.verificationStartedAt
    requires f.transportStatus == if Expired(m, c) then "transport_stale" else m.transportStatus
    requires d.transportStatus ==
               if f.transportStatus == "" || f.transportStatus == "transport_verified" then "transport_pending"
               else f.transportStatus
    requires n.transportStatus == if Overdue(d, c) then "transport_pending" else d.transportStatus
    ensures n.transportStatus == TransportOf(m, c) && n.transportStatus != ""
  {
    hide Expired;
  }

  lemma {:induction false} PreparedStands(m: Model, c: Config)
    requires !StaysConfirmed(m, c)
    ensures var f := Prepared(Refreshed(m, c), c);
            && f.consecutiveFailures == m.consecutiveFailures && f.consecutiveSuccesses == m.consecutiveSuccesses
            && f.pendingCycles == m.pendingCycles + 1 && f.inventoryStatus != ""
            && f.verificationStatus == Standing(m, c)
            && f.transportStatus == TransportOf(m, c) && f.expiresAt == EndOf(m, c)
  {
    hide Trim, Aged, Noted, Unconfirmed, Prepared, Refreshed, StaysConfirmed, Expired, Standing, TransportOf, EndOf,
         Overdue, Expiry;
    var f := Refreshed(m, c);
    var n := Aged(Noted(f), c);
    RefreshedStands(m, c);
    NotedStands(f);
    AgedStands(Noted(f), c);
    SameStart(f, Noted(f), c);
    StandingIs(m, c, f, n);
    TransportIs(m, c, f, Noted(f), n);
    UnconfirmedStands(n, c);
    EndIs(m, c, f);
    PreparedIs(f, c);
  }

  lemma {:induction false} SameStart(m: Model, f: Model, c: Config)
    requires f.verificationStartedAt == m.verificationStartedAt
    ensures Overdue(f, c) == Overdue(m, c)
  {
  }

  lemma {:induction false} EndIs(m: Model, c: Config, f: Model)
    requires !StaysConfirmed(m, c) && f.lastSuccessAt == m.lastSuccessAt
    requires f.expiresAt == if Expired(m, c) then Expiry(m, c) else m.expiresAt
    ensures EndOf(m, c) ==
              if f.expiresAt.Some? then f.expiresAt
              else if f.lastSuccessAt.Some? && c.confirmationTTL > 0 then
                Some(f.lastSuccessAt.value + c.confirmationTTL)
              else None
  {
    hide Trim;
  }

  /** What a round says of a model it probed: the answer, the run of successes or failures it extends
      or ends, and that the model is not waiting any more once confirmed. */
  lemma {:induction false} ProbeTells(r: Round)
    requires Holds(r) && WasProbed(r)
    ensures var m, m', result := Before(r), AfterRound(r), ResultOf(r);
            if result.validated then
              && m'.status == "ready" && m'.queueStatus == "confirmed" && m'.reason == ""
              && m'.probeStatus == "validated"
              && m'.inventoryStatus == "inventory_verified" && m'.transportStatus == "transport_verified"
              && m'.consecutiveSuccesses == m.consecutiveSuccesses + 1 && m'.consecutiveFailures == 0
              && m'.pendingCycles == 0
            else
              && m'.status == (if result.retryable then "verification_cooldown" else "validation_failed")
              && m'.queueStatus == (if result.retryable then "cooldown" else "failed") && m'.reason == result.reason
              && m'.verificationStatus == (if result.retryable then "verifying" else "unconfirmed")
              && m'.probeStatus == (if result.retryable then "transient_failure" else "validation_failed")
              && m'.consecutiveFailures == m.consecutiveFailures + 1 && m'.consecutiveSuccesses == 0
              && m'.pendingCycles == m.pendingCycles + 1 && m'.inventoryStatus != ""
  {
    hide ProbingReason;
    hide Prepared, Refreshed, AfterRound, StaysConfirmed, WasProbed, Trim, Standing, TransportOf, EndOf;
    AskedIsCandidate(r);
    ProbedIsProbed(r);
    PreparedStands(Before(r), r.c);
  }

  lemma {:induction false} MarksSay(m: Model, c: Config, position: int)
    ensures var q, o := Queued(m, c, position), Overflowed(m, c);
            var standing := if Trim(m.verificationStatus) != "" then m.verificationStatus else "verifying";
            && q.status == "registration_queued" && q.verificationStatus == standing
            && q.pendingCycles == m.pendingCycles && q.consecutiveFailures == m.consecutiveFailures
            && q.consecutiveSuccesses == m.consecutiveSuccesses && q.transportStatus == "transport_pending"
            && q.expiresAt == m.expiresAt && o.expiresAt == m.expiresAt
            && q.probeStatus == "queued" && o.probeStatus == "overflow"
            && o.status == "registration_overflow" && o.verificationStatus == standing
            && o.pendingCycles == m.pendingCycles && o.consecutiveFailures == m.consecutiveFailures
            && o.consecutiveSuccesses == m.consecutiveSuccesses && o.transportStatus == "transport_pending"
  {
    hide QueuedReason, OverflowReason;
    hide Trim;
  }

  /** What a round says of a model that asked and was not probed: one more cycle waited, the runs of
      successes and failures as they were, and how it stands. */
  lemma {:induction false} WaitTells(r: Round)
    requires Holds(r) && Asked(r) && !WasProbed(r)
    ensures var m, m' := Before(r), AfterRound(r);
            && m'.status == (if m'.queueStatus == "queued" then "registration_queued" else "registration_overflow")
            && m'.probeStatus == m'.queueStatus && m'.transportStatus == "transport_pending"
            && m'.pendingCycles == m.pendingCycles + 1
            && m'.consecutiveFailures == m.consecutiveFailures && m'.consecutiveSuccesses == m.consecutiveSuccesses
            && m'.expiresAt == EndOf(m, r.c)
            && m'.verificationStatus == if Trim(Standing(m, r.c)) != "" then Standing(m, r.c) else "verifying"
  {
    var m, c := Before(r), r.c;
    var s, place := Screened(m, c), Rank(r.models, c, r.order, r.j) + 1;
    AskedIsCandidate(r);
    OutcomeIs(r.models, c, r.order, r.results, r.j);
    ScreenedShows(m, c);
    MarksShow(s, c, place, ResultOf(r));
    PreparedStands(m, c);
    MarksSay(s, c, place);
    hide Prepared, Refreshed, StaysConfirmed, Trim, Outcome, Queued, Overflowed, Probed, Rank, IsProbed, QueueLimit,
         Standing, EndOf, TransportOf;
  }

  lemma {:induction false} CoolingSays(m: Model, c: Config)
    ensures var f := CoolingDown(m, c);
            && f.status == "verification_cooldown" && f.queueStatus == "cooldown" && f.probeStatus == "cooldown"
            && f.pendingCycles == m.pendingCycles && f.consecutiveFailures == m.consecutiveFailures
            && f.verificationStatus == (if Trim(m.verificationStatus) != "" then m.verificationStatus else "cooldown")
            && f.inventoryStatus == m.inventoryStatus && f.transportStatus == m.transportStatus
  {
    hide CoolingReason;
    hide Trim;
  }

  lemma {:induction false} RefreshedSays(m: Model, c: Config)
    requires StaysConfirmed(m, c)
    ensures var f := Refreshed(m, c);
            && f.status == "ready" && f.queueStatus == "confirmed" && f.pendingCycles == m.pendingCycles
            && f.consecutiveSuccesses == m.consecutiveSuccesses && f.transportStatus == "transport_verified"
  {
    hide ExpiredReason;
    hide Trim;
  }

  lemma {:induction false} InapplicableSays(m: Model, c: Config)
    ensures var f := Inapplicable(m, c);
            && f.status == "transport_inapplicable" && f.queueStatus == "skipped" && f.nextVerificationAt.None?
            && f.probeStatus == "inapplicable"
            && f.reason == c.inapplicable(m) && f.pendingCycles == m.pendingCycles
  {
  }

  /** What a round says of a model that took part and did not ask: still confirmed, or not reachable by
      this transport, or cooling down until its date. */
  lemma {:induction false} RestTells(r: Round)
    requires Holds(r) && CanParticipate(Before(r)) && !Asked(r)
    ensures var m, m' := Before(r), AfterRound(r);
            if StaysConfirmed(m, r.c) then
              m'.status == "ready" && m'.pendingCycles == m.pendingCycles && m'.available
            else if !Applicable(r) then
              && m'.status == "transport_inapplicable" && m'.pendingCycles == m.pendingCycles
              && m'.nextVerificationAt.None? && m'.probeStatus == "inapplicable"
            else
              && m'.status == "verification_cooldown" && m'.pendingCycles == m.pendingCycles + 1
              && m'.probeStatus == "cooldown"
              && m'.nextVerificationAt == m.nextVerificationAt && m'.transportStatus == TransportOf(m, r.c)
              && m'.verificationStatus == if Trim(Standing(m, r.c)) != "" then Standing(m, r.c) else "cooldown"
  {
    hide Prepared, Refreshed, StaysConfirmed, Trim, Outcome, Queued, Overflowed, Probed, Rank, IsProbed, QueueLimit,
         Standing, CoolingDown, Inapplicable, TransportOf;
    var m, c := Before(r), r.c;
    AskedIsCandidate(r);
    OutcomeIs(r.models, c, r.order, r.results, r.j);
    if StaysConfirmed(m, c) {
      RefreshedSays(m, c);
      RefreshedMeans(m, c);
    } else {
      PreparedStands(m, c);
      PreparationKeepsDate(m, c);
      CoolingSays(Prepared(Refreshed(m, c), c), c);
      CoolingKeepsDate(Prepared(Refreshed(m, c), c), c);
      InapplicableSays(Refreshed(m, c), c);
      RefreshedStands(m, c);
    }
  }

  lemma {:induction false} CoolingKeepsDate(m: Model, c: Config)
    ensures CoolingDown(m, c).nextVerificationAt == m.nextVerificationAt
  {
    hide Trim;
  }

  lemma {:induction false} PreparedStarts(m: Model, c: Config)
    ensures Prepared(m, c).verificationStartedAt ==
              if m.verificationStartedAt.Some? then m.verificationStartedAt else Some(c.now)
  {
    hide OverdueReason, DiscoveredReason;
    hide Trim;
  }

  lemma {:induction false} MarksKeepStart(m: Model, c: Config, position: int, result: ProbeResult)
    ensures CoolingDown(m, c).verificationStartedAt == m.verificationStartedAt
    ensures Queued(m, c, position).verificationStartedAt == m.verificationStartedAt
    ensures Overflowed(m, c).verificationStartedAt == m.verificationStartedAt
    ensures m.verificationStartedAt.Some? ==> Probed(m, c, result).verificationStartedAt == m.verificationStartedAt
  {
    hide CoolingReason, QueuedReason, OverflowReason, ProbingReason;
    hide Trim;
  }

  lemma {:induction false} RefreshedKeepsStart(m: Model, c: Config)
    ensures Refreshed(m, c).verificationStartedAt == m.verificationStartedAt
    ensures Inapplicable(m, c).verificationStartedAt == m.verificationStartedAt
  {
    hide ExpiredReason;
    hide Trim;
  }

  /** The clock of the pending time to live starts in the first round that prepares a model for
      verification, and no later round moves it, whatever becomes of the model. */
  lemma {:induction false} ClockStartsOnce(r: Round)
    requires Holds(r)
    ensures var m, m' := Before(r), AfterRound(r);
            m'.verificationStartedAt ==
              if m.verificationStartedAt.Some? || !CanParticipate(m) || StaysConfirmed(m, r.c) || !Applicable(r)
              then m.verificationStartedAt else Some(r.c.now)
  {
    var m, c := Before(r), r.c;
    var s, place := Screened(m, c), Rank(r.models, c, r.order, r.j) + 1;
    hide Prepared, Refreshed, StaysConfirmed, Trim, Queued, Overflowed, Probed, Rank, IsProbed, QueueLimit,
         CoolingDown, Inapplicable, CanParticipate;
    AskedIsCandidate(r);
    OutcomeIs(r.models, c, r.order, r.results, r.j);
    RefreshedKeepsStart(m, c);
    RefreshedKeepsStart(Refreshed(m, c), c);
    PreparedStarts(Refreshed(m, c), c);
    MarksKeepStart(Prepared(Refreshed(m, c), c), c, place, ResultOf(r));
    hide Outcome;
  }
}
