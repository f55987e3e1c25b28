/** One registration round over the models of a provider
    (go-core/internal/kernel/model_registry.go:454-530, 600-793): which models are probed, queued or
    turned away, and what each model says afterwards. The array is changed in place. */
module ModelRegistration {
  import opened Basics
  import opened Text

  datatype Model = Model(
    name: string, status: string, inventoryStatus: string, transportStatus: string, verificationStatus: string,
    reason: string, probeStatus: string, available: bool, queueStatus: string, queuePosition: int,
    verificationStartedAt: Option<Time>, lastStateChangeAt: Option<Time>, lastSuccessAt: Option<Time>,
    nextVerificationAt: Option<Time>, expiresAt: Option<Time>,
    registrationAttempts: int, pendingCycles: int, consecutiveFailures: int, consecutiveSuccesses: int)

  /** What probing a model reports. `failureTransport` is the transport status of a final failure. */
  datatype ProbeResult = ProbeResult(validated: bool, retryable: bool, reason: string, succeededAt: Option<Time>,
      failureTransport: string)

  /** Limits and waiting times, the clock, and the tests that belong to other parts of the registry. */
  datatype Config = Config(
    now: Time, queueLimit: int, validationLimit: int,
    pendingTTL: int, confirmationTTL: int, retryCooldown: int,
    defaultModel: string, sameName: (string, string) -> bool, inapplicable: Model -> string)

  // ---------------------------------------------------------------- what is said of a model

  function ExpiredReason(m: Model): string { "confirmed model reached its verification TTL and must be re-registered" }

  function OverdueReason(m: Model): string {
    "model exceeded the pending registration TTL and is waiting for a retry slot"
  }

  function DiscoveredReason(m: Model): string {
    "model discovered in provider inventory and awaiting transport verification"
  }

  function QueuedReason(m: Model): string { "model is queued for registration" }

  function OverflowReason(m: Model): string {
    "model could not enter the registration queue because the queue limit was reached"
  }

  function ProbingReason(m: Model): string { "model registration is in progress" }

  function CoolingReason(m: Model): string {
    if m.verificationStatus == "stale" then "confirmed model expired and is cooling down before re-registration"
    else "model is cooling down before the next registration attempt"
  }

  // ---------------------------------------------------------------- marking one model

  function SetState(m: Model, status: string, inventory: string, transport: string, verification: string,
                    reason: string, now: Time): Model {
    m.(inventoryStatus := if inventory != "" then inventory else m.inventoryStatus,
       transportStatus := if transport != "" then transport else m.transportStatus,
       verificationStatus := if verification != "" then verification else m.verificationStatus,
       lastStateChangeAt := if m.status != status || m.reason != reason then Some(now) else m.lastStateChangeAt,
       status := status, reason := reason)
  }

  function VerificationOr(m: Model, fallback: string): string {
    if Trim(m.verificationStatus) != "" then m.verificationStatus else fallback
  }

  predicate CanParticipate(m: Model) {
    m.status !in ["disabled", "missing", "transport_inapplicable"]
  }

  /** Confirmed, available, and told when the confirmation runs out. */
  function Expiry(m: Model, c: Config): Option<Time> {
    if m.expiresAt.Some? then m.expiresAt
    else if m.lastSuccessAt.Some? then Some(m.lastSuccessAt.value + c.confirmationTTL)
    else None
  }

  predicate StaysConfirmed(m: Model, c: Config) {
    Trim(m.verificationStatus) == "confirmed" && m.available && Expiry(m, c).Some? && c.now <= Expiry(m, c).value
  }

  /** What checking the confirmation leaves of the model. */
  function Refreshed(m: Model, c: Config): Model {
    if Trim(m.verificationStatus) != "confirmed" || !m.available || Expiry(m, c).None? then m
    else
      var m := m.(expiresAt := Expiry(m, c));
      if c.now > m.expiresAt.value then
        SetState(m, "registration_stale", "inventory_verified", "transport_stale", "stale",
                 ExpiredReason(m), c.now).(available := false)
      else
        SetState(m, "ready", "inventory_verified", "transport_verified", "confirmed", "", c.now).(
          queueStatus := "confirmed", queuePosition := 0, nextVerificationAt := m.expiresAt)
  }

  function Inapplicable(m: Model, c: Config): Model {
    SetState(m.(available := false, nextVerificationAt := None, queueStatus := "skipped", queuePosition := 0),
             "transport_inapplicable", "inventory_verified", "transport_inapplicable", "skipped", c.inapplicable(m),
                 c.now).(
      probeStatus := "inapplicable")
  }

  /** Fill in what an inventory row leaves open. */
  function Noted(m: Model): Model {
    m.(inventoryStatus := if m.inventoryStatus == "" then "inventory_verified" else m.inventoryStatus,
       transportStatus := if m.transportStatus in ["", "transport_verified"] then "transport_pending"
           else m.transportStatus)
  }

  /** Start the pending clock, or notice that it has run out. */
  function Aged(m: Model, c: Config): Model {
    if m.verificationStartedAt.None? then m.(verificationStartedAt := Some(c.now))
    else if c.pendingTTL > 0 && c.now - m.verificationStartedAt.value >= c.pendingTTL then
      SetState(m, "registration_stale", m.inventoryStatus, "transport_pending", "stale",
               OverdueReason(m), c.now)
    else m
  }

  /** Not available, and not confirmed any more. */
  function Unconfirmed(m: Model, c: Config): Model {
    m.(expiresAt :=
         if m.lastSuccessAt.Some? && c.confirmationTTL > 0 && m.expiresAt.None? then
           Some(m.lastSuccessAt.value + c.confirmationTTL)
         else m.expiresAt,
       available := false,
       verificationStatus := if Trim(m.verificationStatus) == "confirmed" then "stale" else m.verificationStatus)
  }

  function Prepared(m: Model, c: Config): Model {
    var m := Unconfirmed(Aged(Noted(m), c), c);
    var m :=
      if m.status in ["", "ready"] then
        SetState(m, "verification_pending", m.inventoryStatus, m.transportStatus, "verifying",
                 DiscoveredReason(m), c.now)
      else m;
    m.(pendingCycles := m.pendingCycles + 1)
  }

  predicate Due(m: Model, c: Config) {
    m.nextVerificationAt.None? || m.nextVerificationAt.value <= c.now
  }

  function CoolingDown(m: Model, c: Config): Model {
    SetState(m, "verification_cooldown", m.inventoryStatus, m.transportStatus, VerificationOr(m, "cooldown"),
             CoolingReason(m), c.now).(
      queueStatus := "cooldown", queuePosition := 0, available := false, probeStatus := "cooldown")
  }

  function Queued(m: Model, c: Config, position: int): Model {
    SetState(m, "registration_queued", m.inventoryStatus, "transport_pending", VerificationOr(m, "verifying"),
             QueuedReason(m), c.now).(
      queueStatus := "queued", queuePosition := position, available := false, probeStatus := "queued")
  }

  function Overflowed(m: Model, c: Config): Model {
    SetState(m, "registration_overflow", m.inventoryStatus, "transport_pending", VerificationOr(m, "verifying"),
             OverflowReason(m), c.now).(
      queueStatus := "overflow", queuePosition := 0, available := false, probeStatus := "overflow")
  }

  function Probing(m: Model, c: Config): Model {
    SetState(m.(verificationStartedAt := if m.verificationStartedAt.None? then Some(c.now) else m.verificationStartedAt,
                registrationAttempts := m.registrationAttempts + 1),
             "verification_pending", m.inventoryStatus, "transport_pending", "verifying",
                 ProbingReason(m), c.now).(
      queueStatus := "probing", queuePosition := 0, probeStatus := "probing")
  }

  function Confirmed(m: Model, c: Config, r: ProbeResult): Model {
    var succeededAt := if r.succeededAt.Some? then r.succeededAt.value else c.now;
    var until := if c.confirmationTTL > 0 then Some(succeededAt + c.confirmationTTL) else None;
    SetState(m.(available := true, consecutiveFailures := 0, consecutiveSuccesses := m.consecutiveSuccesses + 1,
        pendingCycles := 0,
                queueStatus := "confirmed", queuePosition := 0, lastSuccessAt := Some(succeededAt),
                expiresAt := until, nextVerificationAt := until),
             "ready", "inventory_verified", "transport_verified", "confirmed", "", c.now).(probeStatus := "validated")
  }

  function FailedProbe(m: Model, c: Config, r: ProbeResult): Model {
    var m := m.(reason := r.reason, consecutiveFailures := m.consecutiveFailures + 1, consecutiveSuccesses := 0,
        available := false);
    if r.retryable then
      var m := if c.retryCooldown > 0 then m.(nextVerificationAt := Some(c.now + c.retryCooldown)) else m;
      SetState(m, "verification_cooldown", m.inventoryStatus, "retryable_failure", "verifying", r.reason, c.now).(
        queueStatus := "cooldown", queuePosition := 0, probeStatus := "transient_failure")
    else
      SetState(m.(nextVerificationAt := None), "validation_failed", m.inventoryStatus, r.failureTransport,
          "unconfirmed", r.reason, c.now).(
        queueStatus := "failed", queuePosition := 0, probeStatus := "validation_failed")
  }

  function Probed(m: Model, c: Config, r: ProbeResult): Model {
    if r.validated then Confirmed(Probing(m, c), c, r) else FailedProbe(Probing(m, c), c, r)
  }

  // ---------------------------------------------------------------- which models are candidates

  /** The model asks for a place in this round's queue. */
  predicate IsCandidate(m: Model, c: Config) {
    && CanParticipate(m) && !StaysConfirmed(m, c)
    && c.inapplicable(Refreshed(m, c)) == "" && Due(Prepared(Refreshed(m, c), c), c)
  }

  /** The model after everything that comes before the queue. */
  function Screened(m: Model, c: Config): Model {
    if !CanParticipate(m) then m
    else if StaysConfirmed(m, c) then Refreshed(m, c)
    else
      var m := Refreshed(m, c);
      if c.inapplicable(m) != "" then Inapplicable(m, c)
      else if !Due(Prepared(m, c), c) then CoolingDown(Prepared(m, c), c)
      else Prepared(m, c)
  }

  predicate InRange(order: seq<nat>, n: nat) {
    forall k :: 0 <= k < |order| ==> order[k] < n
  }

  /** The candidates, in the order they ask. */
  function Candidates(models: seq<Model>, c: Config, order: seq<nat>): seq<nat>
    requires InRange(order, |models|)
  {
    if order == [] then []
    else
      var last := order[|order| - 1];
      Candidates(models, c, order[..|order| - 1]) + if IsCandidate(models[last], c) then [last] else []
  }

  function QueueLimit(models: seq<Model>, c: Config): nat {
    if c.queueLimit <= 0 then |models| else c.queueLimit
  }

  /** How many of `admitted` models are probed now. */
  function ProbeCount(c: Config, admitted: nat): nat {
    if c.validationLimit <= 0 then admitted else Min(c.validationLimit, admitted)
  }

  /** The candidate of this rank, before and after the probes. */
  function Placed(models: seq<Model>, c: Config, i: nat, rank: nat): Model
    requires i < |models|
  {
    var m := Screened(models[i], c);
    if rank >= QueueLimit(models, c) then Overflowed(m, c)
    else if c.validationLimit <= 0 || rank < c.validationLimit then m
    else Queued(m, c, rank + 1)
  }

  predicate IsProbed(models: seq<Model>, c: Config, rank: nat) {
    rank < QueueLimit(models, c) && (c.validationLimit <= 0 || rank < c.validationLimit)
  }

  /** What the round makes of the model at place `j` of the order. */
  function Outcome(models: seq<Model>, c: Config, order: seq<nat>, results: nat -> ProbeResult, j: nat): Model
    requires j < |order| && InRange(order, |models|)
  {
    var i, rank := order[j], |Candidates(models, c, order[..j])|;
    if !IsCandidate(models[i], c) then Screened(models[i], c)
    else if IsProbed(models, c, rank) then Probed(Screened(models[i], c), c, results(i))
    else Placed(models, c, i, rank)
  }

  // ---------------------------------------------------------------- the order

  /** The first model with the default name, or -1. */
  function DefaultIndex(models: seq<Model>, c: Config, from: nat): (i: int)
    requires from <= |models|
    ensures -1 <= i < |models|
    ensures i >= 0 ==> from <= i && c.sameName(models[i].name, Trim(c.defaultModel))
    ensures forall k :: from <= k < (if i >= 0 then i else |models|) ==>
              !c.sameName(models[k].name, Trim(c.defaultModel))
    decreases |models| - from
  {
    if from == |models| then -1
    else if c.sameName(models[from].name, Trim(c.defaultModel)) then from
    else DefaultIndex(models, c, from + 1)
  }

  function FirstIndex(models: seq<Model>, c: Config): int {
    if Trim(c.defaultModel) == "" then -1 else DefaultIndex(models, c, 0)
  }

  /** `0..n` without `skip`. */
  function Others(n: nat, skip: int): seq<nat> {
    if n == 0 then [] else Others(n - 1, skip) + if n - 1 == skip then [] else [n - 1]
  }

  function Order(models: seq<Model>, c: Config): seq<nat> {
    var first := FirstIndex(models, c);
    (if first >= 0 then [first] else []) + Others(|models|, first)
  }

  ghost predicate IsPermutation(order: seq<nat>, n: nat) {
    && (forall j, k :: 0 <= j < k < |order| ==> order[j] != order[k])
    && (forall i: nat :: i in order <==> i < n)
  }

  lemma {:induction false} OthersAre(n: nat, skip: int)
    ensures forall i: nat :: i in Others(n, skip) <==> i < n && i != skip
    ensures forall j, k :: 0 <= j < k < |Others(n, skip)| ==> Others(n, skip)[j] != Others(n, skip)[k]
  {
    if n > 0 {
      OthersAre(n - 1, skip);
      var fewer, more := Others(n - 1, skip), Others(n, skip);
      assert n - 1 !in fewer;
      assert n - 1 == skip || more[|fewer|] == n - 1;
      forall i: nat ensures i in more <==> i < n && i != skip {
        assert i in fewer <==> i < n - 1 && i != skip;
        assert i in more <==> i in fewer || (i == n - 1 && i != skip);
      }
    }
  }

  /** Every model is visited once, and the default model, when there is one, comes first. */
  lemma {:induction false} OrderIsPermutation(models: seq<Model>, c: Config)
    ensures IsPermutation(Order(models, c), |models|)
    ensures FirstIndex(models, c) >= 0 ==> Order(models, c) != [] && Order(models, c)[0] == FirstIndex(models, c)
    ensures Trim(c.defaultModel) != "" ==>
              (FirstIndex(models, c) >= 0 <==>
                  exists i :: 0 <= i < |models| && c.sameName(models[i].name, Trim(c.defaultModel)))
  {
    hide Others, Trim;
    var first := FirstIndex(models, c);
    var rest := Others(|models|, first);
    OthersAre(|models|, first);
    var order := Order(models, c);
    if first >= 0 {
      assert order == [first] + rest;
      assert first !in rest;
    } else {
      assert order == rest;
    }
    forall i: nat ensures i in order <==> i < |models| {
      assert i in rest <==> i < |models| && i != first;
    }
  }

  lemma {:induction false} OrderInRange(models: seq<Model>, c: Config)
    ensures InRange(Order(models, c), |models|)
  {
    hide Order;
    OrderIsPermutation(models, c);
    var order := Order(models, c);
    forall k | 0 <= k < |order| ensures order[k] < |models| {
      assert order[k] in order;
    }
  }

  // ---------------------------------------------------------------- ranks

  function Rank(models: seq<Model>, c: Config, order: seq<nat>, j: nat): nat
    requires j <= |order| && InRange(order, |models|)
  {
    |Candidates(models, c, order[..j])|
  }

  lemma {:induction false} CandidatesStep(models: seq<Model>, c: Config, order: seq<nat>, j: nat)
    requires j < |order| && InRange(order, |models|)
    ensures Candidates(models, c, order[..j + 1]) ==
              Candidates(models, c, order[..j]) + if IsCandidate(models[order[j]], c) then [order[j]] else []
  {
    hide IsCandidate;
    assert order[..j + 1][..j] == order[..j];
  }

  /** Candidates keep their rank as more are found. */
  lemma {:induction false} RankIsPlace(models: seq<Model>, c: Config, order: seq<nat>, j: nat, k: nat)
    requires j <= k <= |order| && InRange(order, |models|)
    ensures Candidates(models, c, order[..j]) <= Candidates(models, c, order[..k])
    ensures j < k && IsCandidate(models[order[j]], c) ==>
              Rank(models, c, order, j) < |Candidates(models, c, order[..k])|
              && Candidates(models, c, order[..k])[Rank(models, c, order, j)] == order[j]
    decreases k - j
  {
    hide IsCandidate, Candidates;
    if j < k {
      CandidatesStep(models, c, order, k - 1);
      RankIsPlace(models, c, order, j, k - 1);
      PrefixGrows(Candidates(models, c, order[..j]), Candidates(models, c, order[..k - 1]),
                  if IsCandidate(models[order[k - 1]], c) then [order[k - 1]] else []);
    }
  }

  lemma {:induction false} PrefixGrows(a: seq<nat>, b: seq<nat>, tail: seq<nat>)
    requires a <= b
    ensures a <= b + tail && forall i :: 0 <= i < |b| ==> (b + tail)[i] == b[i]
  {
  }

  /** Every place in the queue belongs to one candidate of the order. */
  lemma {:induction false} PlaceHasRank(models: seq<Model>, c: Config, order: seq<nat>, r: nat) returns (j: nat)
    requires InRange(order, |models|) && r < |Candidates(models, c, order)|
    ensures j < |order| && IsCandidate(models[order[j]], c) && Rank(models, c, order, j) == r
              && order[j] == Candidates(models, c, order)[r]
  {
    hide IsCandidate;
    var n := |order| - 1;
    assert order[..n + 1] == order;
    CandidatesStep(models, c, order, n);
    if r == |Candidates(models, c, order[..n])| {
      j := n;
    } else {
      j := PlaceHasRank(models, c, order[..n], r);
      assert order[..n][..j] == order[..j];
    }
  }

  lemma {:induction false} RanksDiffer(models: seq<Model>, c: Config, order: seq<nat>, j: nat, k: nat)
    requires j < k < |order| && InRange(order, |models|) && IsCandidate(models[order[j]], c)
    ensures Rank(models, c, order, j) < Rank(models, c, order, k)
  {
    RankIsPlace(models, c, order, j, k);
  }

  // ---------------------------------------------------------------- what each model says afterwards

  lemma {:induction false} ConfirmedIsTrimmed()
    ensures Trim("confirmed") == "confirmed" && Trim("cooldown") == "cooldown" && Trim("verifying") == "verifying"
    ensures Trim("stale") == "stale" && Trim("") == ""
  {
    TrimFixpoint("confirmed");
    TrimFixpoint("cooldown");
    TrimFixpoint("verifying");
    TrimFixpoint("stale");
    TrimFixpoint("");
  }

  lemma {:induction false} PreparedIsUnavailable(m: Model, c: Config)
    ensures !Prepared(m, c).available && Trim(Prepared(m, c).verificationStatus) != "confirmed"
  {
    ConfirmedIsTrimmed();
    hide Trim;
  }

  lemma {:induction false} RefreshedMeans(m: Model, c: Config)
    requires StaysConfirmed(m, c)
    ensures Refreshed(m, c).available && Refreshed(m, c).verificationStatus == "confirmed"
              && Refreshed(m, c).queuePosition == 0
  {
    hide ExpiredReason;
    hide Trim;
  }

  lemma {:induction false} AsideMeans(m: Model, c: Config)
    ensures !Inapplicable(m, c).available && Inapplicable(m, c).verificationStatus != "confirmed"
              && Inapplicable(m, c).queuePosition == 0
    ensures !CoolingDown(m, c).available && CoolingDown(m, c).queuePosition == 0
    ensures Trim(m.verificationStatus) != "confirmed" ==> CoolingDown(m, c).verificationStatus != "confirmed"
  {
    hide CoolingReason;
    ConfirmedIsTrimmed();
    hide Trim;
  }

  /** A model that is not a candidate is untouched, or available exactly when confirmed, and holds no
      place in the queue; a candidate starts unavailable and unconfirmed. */
  lemma {:induction false} ScreenedMeans(m: Model, c: Config)
    ensures !CanParticipate(m) ==> Screened(m, c) == m
    ensures CanParticipate(m) && !IsCandidate(m, c) ==>
              && (Screened(m, c).available <==> Screened(m, c).verificationStatus == "confirmed")
              && Screened(m, c).queuePosition == 0
    ensures IsCandidate(m, c) ==> !Screened(m, c).available && Trim(Screened(m, c).verificationStatus) != "confirmed"
  {
    hide Trim, Prepared, Due, Refreshed, StaysConfirmed, CanParticipate, Inapplicable, CoolingDown;
    PreparedIsUnavailable(Refreshed(m, c), c);
    AsideMeans(Refreshed(m, c), c);
    AsideMeans(Prepared(Refreshed(m, c), c), c);
    if StaysConfirmed(m, c) {
      RefreshedMeans(m, c);
    }
  }

  lemma {:induction false} QueueMarksMean(m: Model, c: Config, position: int)
    requires Trim(m.verificationStatus) != "confirmed"
    ensures !Queued(m, c, position).available && Queued(m, c, position).verificationStatus != "confirmed"
              && Queued(m, c, position).queuePosition == position
    ensures !Overflowed(m, c).available && Overflowed(m, c).verificationStatus != "confirmed"
              && Overflowed(m, c).queuePosition == 0
  {
    hide QueuedReason, OverflowReason;
    ConfirmedIsTrimmed();
    hide Trim;
  }

  lemma {:induction false} ProbedMeans(m: Model, c: Config, r: ProbeResult)
    ensures Probed(m, c, r).available <==> Probed(m, c, r).verificationStatus == "confirmed"
    ensures Probed(m, c, r).available <==> r.validated
    ensures Probed(m, c, r).queuePosition == 0
  {
    hide ProbingReason;
  }

  /** Marking a queued model again, with the same place, changes nothing. */
  lemma {:induction false} QueuedAgainIsSame(m: Model, c: Config, position: int)
    ensures Queued(Queued(m, c, position), c, position) == Queued(m, c, position)
  {
    ConfirmedIsTrimmed();
    hide Trim;
  }

  // ---------------------------------------------------------------- budgets

  function Admitted(models: seq<Model>, c: Config, order: seq<nat>): nat
    requires InRange(order, |models|)
  {
    Min(QueueLimit(models, c), |Candidates(models, c, order)|)
  }

  lemma {:induction false} RankBelowCount(models: seq<Model>, c: Config, order: seq<nat>, j: nat)
    requires j < |order| && InRange(order, |models|) && IsCandidate(models[order[j]], c)
    ensures Rank(models, c, order, j) < |Candidates(models, c, order)|
  {
    hide IsCandidate, Candidates;
    assert order[..|order|] == order;
    RankIsPlace(models, c, order, j, |order|);
  }

  lemma {:induction false} IsProbedMeans(models: seq<Model>, c: Config, order: seq<nat>, rank: nat)
    requires InRange(order, |models|) && rank < |Candidates(models, c, order)| && c.validationLimit >= 0
    ensures IsProbed(models, c, rank) <==> rank < ProbeCount(c, Admitted(models, c, order))
    ensures rank < QueueLimit(models, c) <==> rank < Admitted(models, c, order)
  {
    hide Candidates;
  }

  lemma {:induction false} OutcomeIs(models: seq<Model>, c: Config, order: seq<nat>, results: nat -> ProbeResult,
                                     j: nat)
    requires j < |order| && InRange(order, |models|)
    ensures var m, rank := Screened(models[order[j]], c), Rank(models, c, order, j);
            Outcome(models, c, order, results, j) ==
              if !IsCandidate(models[order[j]], c) then m
              else if IsProbed(models, c, rank) then Probed(m, c, results(order[j]))
              else if rank < QueueLimit(models, c) then Queued(m, c, rank + 1)
              else Overflowed(m, c)
  {
    hide Screened, Probed, Queued, Overflowed, Candidates, IsCandidate, QueueLimit;
  }

  /** Of the candidates, in order, the first `QueueLimit` are admitted, and of those the first
      `validationLimit` are probed (all of them when it is 0): rank decides. */
  lemma {:induction false} RankDecides(models: seq<Model>, c: Config, order: seq<nat>, results: nat -> ProbeResult,
                                       j: nat)
    requires j < |order| && InRange(order, |models|) && IsCandidate(models[order[j]], c) && c.validationLimit >= 0
    ensures var m, rank := Screened(models[order[j]], c), Rank(models, c, order, j);
            Outcome(models, c, order, results, j) ==
              if rank < ProbeCount(c, Admitted(models, c, order)) then Probed(m, c, results(order[j]))
              else if rank < Admitted(models, c, order) then Queued(m, c, rank + 1)
              else Overflowed(m, c)
  {
    hide Screened, Probed, Queued, Overflowed, Candidates, IsCandidate, Outcome, QueueLimit, IsProbed, Admitted,
         ProbeCount, Rank;
    RankBelowCount(models, c, order, j);
    IsProbedMeans(models, c, order, Rank(models, c, order, j));
    OutcomeIs(models, c, order, results, j);
  }

  /** After the round, a model that took part is available exactly when it is confirmed; one that
      did not is as it was. */
  lemma {:induction false} AvailableMeansConfirmed(models: seq<Model>, c: Config, order: seq<nat>,
                                                   results: nat -> ProbeResult, j: nat)
    requires j < |order| && InRange(order, |models|)
    ensures var before, after := models[order[j]], Outcome(models, c, order, results, j);
            if CanParticipate(before) then after.available <==> after.verificationStatus == "confirmed"
            else after == before
  {
    hide Screened, Probed, Queued, Overflowed, Candidates, Trim, IsCandidate, CanParticipate, Outcome, IsProbed,
         QueueLimit, Rank;
    var m := models[order[j]];
    OutcomeIs(models, c, order, results, j);
    ScreenedMeans(m, c);
    ProbedMeans(Screened(m, c), c, results(order[j]));
    if IsCandidate(m, c) {
      CandidatesParticipate(m, c);
      QueueMarksMean(Screened(m, c), c, Rank(models, c, order, j) + 1);
    }
  }

  /** Of the models that took part, one holds each of the places from the first one not probed to the
      last one admitted, and no other place is held. */
  lemma {:induction false} QueuePlacesAreContiguous(models: seq<Model>, c: Config, order: seq<nat>,
                                                    results: nat -> ProbeResult)
    requires InRange(order, |models|) && c.validationLimit >= 0
    ensures var admitted := Admitted(models, c, order);
            var probed := ProbeCount(c, admitted);
            && (forall j :: 0 <= j < |order| && CanParticipate(models[order[j]]) ==>
                  var place := Outcome(models, c, order, results, j).queuePosition;
                  place == 0 || probed < place <= admitted)
            && (forall j, k ::
                  0 <= j < k < |order| && HoldsPlace(models, c, order, results, j)
                      && CanParticipate(models[order[k]]) ==>
                  Outcome(models, c, order, results, j).queuePosition !=
                    Outcome(models, c, order, results, k).queuePosition)
            && (forall place :: probed < place <= admitted ==> HasPlace(models, c, order, results, place))
  {
    hide Outcome, Candidates, IsCandidate, CanParticipate;
    var admitted := Admitted(models, c, order);
    var probed := ProbeCount(c, admitted);
    forall j | 0 <= j < |order| && CanParticipate(models[order[j]])
      ensures Outcome(models, c, order, results, j).queuePosition ==
                if IsCandidate(models[order[j]], c) && probed <= Rank(models, c, order, j) < admitted then
                  Rank(models, c, order, j) + 1
                else 0 {
      PlaceOf(models, c, order, results, j);
    }
    forall j, k | 0 <= j < k < |order| && HoldsPlace(models, c, order, results, j) && CanParticipate(models[order[k]])
      ensures Outcome(models, c, order, results, j).queuePosition !=
                Outcome(models, c, order, results, k).queuePosition {
      RanksDiffer(models, c, order, j, k);
    }
    forall place | probed < place <= admitted ensures HasPlace(models, c, order, results, place) {
      var j := PlaceHasRank(models, c, order, place - 1);
      CandidatesParticipate(models[order[j]], c);
    }
  }

  predicate HoldsPlace(models: seq<Model>, c: Config, order: seq<nat>, results: nat -> ProbeResult, j: nat)
    requires j < |order| && InRange(order, |models|)
  {
    CanParticipate(models[order[j]]) && Outcome(models, c, order, results, j).queuePosition != 0
  }

  ghost predicate HasPlace(models: seq<Model>, c: Config, order: seq<nat>, results: nat -> ProbeResult, place: int)
    requires InRange(order, |models|)
  {
    exists j :: 0 <= j < |order| && CanParticipate(models[order[j]])
        && Outcome(models, c, order, results, j).queuePosition == place
  }

  lemma {:induction false} CandidatesParticipate(m: Model, c: Config)
    requires IsCandidate(m, c)
    ensures CanParticipate(m)
  {
  }

  lemma {:induction false} PlaceOf(models: seq<Model>, c: Config, order: seq<nat>, results: nat -> ProbeResult, j: nat)
    requires j < |order| && InRange(order, |models|) && c.validationLimit >= 0 && CanParticipate(models[order[j]])
    ensures var rank := Rank(models, c, order, j);
            var admitted := Admitted(models, c, order);
            Outcome(models, c, order, results, j).queuePosition ==
              if IsCandidate(models[order[j]], c) && ProbeCount(c, admitted) <= rank < admitted then rank + 1 else 0
  {
    hide Screened, Probed, Queued, Overflowed, Candidates, Trim, IsCandidate, CanParticipate, Outcome, IsProbed,
         QueueLimit, Rank, Admitted, ProbeCount;
    var m := models[order[j]];
    ScreenedMeans(m, c);
    if IsCandidate(m, c) {
      ProbedMeans(Screened(m, c), c, results(order[j]));
      QueueMarksMean(Screened(m, c), c, Rank(models, c, order, j) + 1);
      RankDecides(models, c, order, results, j);
    } else {
      OutcomeIs(models, c, order, results, j);
    }
  }

  lemma {:induction false} AgedKeepsAttempts(m: Model, c: Config)
    ensures Aged(Noted(m), c).registrationAttempts == m.registrationAttempts
  {
    hide OverdueReason;
    assert Noted(m).registrationAttempts == m.registrationAttempts;
    hide Noted;
  }

  lemma {:induction false} PreparedKeepsAttempts(m: Model, c: Config)
    ensures Prepared(m, c).registrationAttempts == m.registrationAttempts
  {
    hide DiscoveredReason;
    AgedKeepsAttempts(m, c);
    hide Trim, Aged, Noted;
  }

  lemma {:induction false} RefreshedShows(m: Model, c: Config)
    ensures Refreshed(m, c).registrationAttempts == m.registrationAttempts
    ensures StaysConfirmed(m, c) ==> Refreshed(m, c).queueStatus == "confirmed"
  {
    hide ExpiredReason;
    hide Trim;
  }

  lemma {:induction false} AsideShows(m: Model, c: Config)
    ensures Inapplicable(m, c).registrationAttempts == m.registrationAttempts
              && Inapplicable(m, c).queueStatus == "skipped"
    ensures CoolingDown(m, c).registrationAttempts == m.registrationAttempts
              && CoolingDown(m, c).queueStatus == "cooldown"
  {
    hide CoolingReason;
    hide Trim;
  }

  lemma {:induction false} ScreenedShows(m: Model, c: Config)
    ensures Screened(m, c).registrationAttempts == m.registrationAttempts
    ensures CanParticipate(m) && !IsCandidate(m, c) ==>
              Screened(m, c).queueStatus in ["confirmed", "skipped", "cooldown"]
  {
    hide Prepared, Trim, Due, Refreshed, StaysConfirmed, CanParticipate, Inapplicable, CoolingDown;
    RefreshedShows(m, c);
    PreparedKeepsAttempts(Refreshed(m, c), c);
    AsideShows(Refreshed(m, c), c);
    AsideShows(Prepared(Refreshed(m, c), c), c);
  }

  lemma {:induction false} MarksShow(m: Model, c: Config, position: int, r: ProbeResult)
    ensures Queued(m, c, position).registrationAttempts == m.registrationAttempts
              && Queued(m, c, position).queueStatus == "queued"
    ensures Overflowed(m, c).registrationAttempts == m.registrationAttempts
              && Overflowed(m, c).queueStatus == "overflow"
    ensures Probed(m, c, r).registrationAttempts == m.registrationAttempts + 1
              && Probed(m, c, r).queueStatus in ["confirmed", "cooldown", "failed"]
  {
    hide QueuedReason, OverflowReason, ProbingReason;
    hide Trim;
  }

  /** A model's attempt count goes up by one exactly when it is probed, and of the models that took
      part exactly those that hold a place say they are queued. */
  lemma {:induction false} ProbesAreCounted(models: seq<Model>, c: Config, order: seq<nat>,
                                            results: nat -> ProbeResult, j: nat)
    requires j < |order| && InRange(order, |models|) && c.validationLimit >= 0
    ensures var before, after := models[order[j]], Outcome(models, c, order, results, j);
            && after.registrationAttempts == before.registrationAttempts +
                 One(IsCandidate(before, c) && Rank(models, c, order, j) < ProbeCount(c, Admitted(models, c, order)))
            && (CanParticipate(before) ==> (after.queueStatus == "queued" <==> after.queuePosition > 0))
  {
    hide Screened, Probed, Queued, Overflowed, Candidates, Trim, IsCandidate, CanParticipate, Outcome, IsProbed,
         QueueLimit, Rank, Admitted, ProbeCount;
    var m := models[order[j]];
    ScreenedShows(m, c);
    ScreenedMeans(m, c);
    OutcomeIs(models, c, order, results, j);
    if IsCandidate(m, c) {
      var place := Rank(models, c, order, j) + 1;
      RankDecides(models, c, order, results, j);
      MarksShow(Screened(m, c), c, place, results(order[j]));
      QueueMarksMean(Screened(m, c), c, place);
      ProbedMeans(Screened(m, c), c, results(order[j]));
    }
  }

  // ---------------------------------------------------------------- the round

  /** The validation order: the default model first. */
  method PrioritizeModelValidation(models: array<Model>, c: Config) returns (order: seq<nat>)
    ensures order == Order(models[..], c)
  {
    order := [];
    ghost var first := FirstIndex(models[..], c);
    var seen: set<nat> := {};
    var wanted := Trim(c.defaultModel);
    if wanted != "" {
      for i := 0 to models.Length
        invariant order == [] && seen == {} && first == DefaultIndex(models[..], c, i)
      {
        if c.sameName(models[i].name, wanted) {
          order, seen := order + [i], seen + {i};
          break;
        }
      }
    }
    ghost var head := order;
    assert head == (if first >= 0 then [first] else []) && seen == (if first >= 0 then {first} else {});
    for i := 0 to models.Length
      invariant order == head + Others(i, first)
    {
      if i in seen {
        continue;
      }
      order := order + [i];
    }
  }

  /** The round's queue so far: the first candidates, as many as the limit lets in. */
  function Take(s: seq<nat>, n: nat): seq<nat> {
    if |s| <= n then s else s[..n]
  }

  /** What the first pass leaves at place `j` of the order, before the probes. */
  function FirstPass(models: seq<Model>, c: Config, order: seq<nat>, j: nat): Model
    requires j < |order| && InRange(order, |models|)
  {
    if IsCandidate(models[order[j]], c) then Placed(models, c, order[j], Rank(models, c, order, j))
    else Screened(models[order[j]], c)
  }

  lemma {:induction false} FirstPassIs(models: seq<Model>, c: Config, order: seq<nat>, j: nat)
    requires j < |order| && InRange(order, |models|)
    ensures var m, s := models[order[j]], Screened(models[order[j]], c);
            var before := Candidates(models, c, order[..j]);
            && (!IsCandidate(m, c) ==> FirstPass(models, c, order, j) == s)
            && (IsCandidate(m, c) && |before| >= QueueLimit(models, c) ==>
                  FirstPass(models, c, order, j) == Overflowed(s, c))
            && (IsCandidate(m, c) && IsProbed(models, c, |before|) ==> FirstPass(models, c, order, j) == s)
            && (IsCandidate(m, c) && |before| < QueueLimit(models, c) && !IsProbed(models, c, |before|) ==>
                  FirstPass(models, c, order, j) == Queued(s, c, |before| + 1))
  {
    hide Screened, Queued, Overflowed, Candidates, IsCandidate, QueueLimit;
  }

  lemma {:induction false} TakeAppend(s: seq<nat>, x: nat, n: nat)
    ensures Take(s + [x], n) == if |s| < n then Take(s, n) + [x] else Take(s, n)
    ensures |Take(s, n)| == Min(|s|, n)
  {
  }

  /** Everything that happens to a model before the queue is looked at. */
  method ScreenModel(model: Model, c: Config) returns (m: Model, candidate: bool)
    ensures m == Screened(model, c) && candidate == IsCandidate(model, c)
  {
    hide Trim, SetState, Prepared, Due, Expiry;
    m := model;
    if !CanParticipate(m) {
      return m, false;
    }
    var confirmed := StaysConfirmed(m, c);
    m := Refreshed(m, c);
    if confirmed {
      return m, false;
    }
    if c.inapplicable(m) != "" {
      return Inapplicable(m, c), false;
    }
    m := Prepared(m, c);
    if !Due(m, c) {
      return CoolingDown(m, c), false;
    }
    return m, true;
  }

  /** The candidates that fit the queue, and those of them that will be probed. */
  function QueuedOf(models: seq<Model>, c: Config, order: seq<nat>): seq<nat>
    requires InRange(order, |models|)
  {
    Take(Candidates(models, c, order), QueueLimit(models, c))
  }

  function ProbesOf(models: seq<Model>, c: Config, order: seq<nat>): seq<nat>
    requires InRange(order, |models|)
  {
    if c.validationLimit <= 0 then QueuedOf(models, c, order) else Take(QueuedOf(models, c, order), c.validationLimit)
  }

  lemma {:induction false} NoCandidateStep(models: seq<Model>, c: Config, order: seq<nat>, k: nat)
    requires k < |order| && InRange(order, |models|)
    ensures !IsCandidate(models[order[k]], c) || |Candidates(models, c, order[..k])| >= QueueLimit(models, c) ==>
              QueuedOf(models, c, order[..k + 1]) == QueuedOf(models, c, order[..k])
              && ProbesOf(models, c, order[..k + 1]) == ProbesOf(models, c, order[..k])
  {
    hide IsCandidate, Candidates, QueueLimit;
    CandidatesStep(models, c, order, k);
    TakeAppend(Candidates(models, c, order[..k]), order[k], QueueLimit(models, c));
  }

  lemma {:induction false} CandidateStep(models: seq<Model>, c: Config, order: seq<nat>, k: nat)
    requires k < |order| && InRange(order, |models|) && IsCandidate(models[order[k]], c)
    requires |Candidates(models, c, order[..k])| < QueueLimit(models, c)
    ensures var rank := |Candidates(models, c, order[..k])|;
            && |QueuedOf(models, c, order[..k])| == rank
            && QueuedOf(models, c, order[..k + 1]) == QueuedOf(models, c, order[..k]) + [order[k]]
            && (c.validationLimit <= 0 || |ProbesOf(models, c, order[..k])| < c.validationLimit <==>
                  IsProbed(models, c, rank))
            && ProbesOf(models, c, order[..k + 1]) ==
                 ProbesOf(models, c, order[..k]) + if IsProbed(models, c, rank) then [order[k]] else []
  {
    hide IsCandidate, Candidates, QueueLimit;
    CandidatesStep(models, c, order, k);
    TakeAppend(Candidates(models, c, order[..k]), order[k], QueueLimit(models, c));
    if c.validationLimit > 0 {
      TakeAppend(QueuedOf(models, c, order[..k]), order[k], c.validationLimit);
    }
  }

  lemma {:induction false} QueuedFull(models: seq<Model>, c: Config, order: seq<nat>)
    requires InRange(order, |models|)
    ensures |QueuedOf(models, c, order)| >= QueueLimit(models, c) <==>
              |Candidates(models, c, order)| >= QueueLimit(models, c)
  {
    hide Candidates, QueueLimit;
  }

  /** The first pass: screen every model, admit candidates, mark those that wait or do not fit. */
  method AdmitModels(models: array<Model>, c: Config, ordered: seq<nat>)
    returns (probeIndexes: seq<nat>, queuedIndexes: seq<nat>)
    requires IsPermutation(ordered, models.Length) && InRange(ordered, models.Length)
    modifies models
    ensures queuedIndexes == QueuedOf(old(models[..]), c, ordered)
              && probeIndexes == ProbesOf(old(models[..]), c, ordered)
    ensures forall j :: 0 <= j < |ordered| ==> models[ordered[j]] == FirstPass(old(models[..]), c, ordered, j)
  {
    hide IsCandidate, Screened, Candidates, Queued, Overflowed, FirstPass, QueuedOf, ProbesOf, IsProbed, QueueLimit;
    ghost var ms := models[..];
    var queueLimit := if c.queueLimit <= 0 then models.Length else c.queueLimit;
    probeIndexes, queuedIndexes := [], [];
    NothingYet(ms, c);
    QueueLimitIs(ms, c);
    for k := 0 to |ordered|
      invariant queuedIndexes == QueuedOf(ms, c, ordered[..k]) && probeIndexes == ProbesOf(ms, c, ordered[..k])
      invariant forall j :: 0 <= j < k ==> models[ordered[j]] == FirstPass(ms, c, ordered, j)
      invariant forall j :: k <= j < |ordered| ==> models[ordered[j]] == ms[ordered[j]]
    {
      var idx := ordered[k];
      NoCandidateStep(ms, c, ordered, k);
      FirstPassIs(ms, c, ordered, k);
      QueuedFull(ms, c, ordered[..k]);
      var m, candidate := ScreenModel(models[idx], c);
      models[idx] := m;
      if !candidate {
        continue;
      }
      if |queuedIndexes| >= queueLimit {
        models[idx] := Overflowed(m, c);
        continue;
      }
      CandidateStep(ms, c, ordered, k);
      queuedIndexes := queuedIndexes + [idx];
      if c.validationLimit <= 0 || |probeIndexes| < c.validationLimit {
        probeIndexes := probeIndexes + [idx];
        continue;
      }
      models[idx] := Queued(m, c, |queuedIndexes|);
    }
    assert ordered[..|ordered|] == ordered;
  }

  lemma {:induction false} NothingYet(models: seq<Model>, c: Config)
    ensures QueuedOf(models, c, []) == [] && ProbesOf(models, c, []) == []
  {
  }

  lemma {:induction false} QueueLimitIs(models: seq<Model>, c: Config)
    ensures QueueLimit(models, c) == if c.queueLimit <= 0 then |models| else c.queueLimit
  {
  }

  /** The model at place `j` of the order once the first `t` probes are in. */
  function AfterProbes(models: seq<Model>, c: Config, order: seq<nat>, results: nat -> ProbeResult, j: nat,
                       t: nat): Model
    requires j < |order| && InRange(order, |models|)
  {
    if IsCandidate(models[order[j]], c) && Rank(models, c, order, j) < t then
      Probed(Screened(models[order[j]], c), c, results(order[j]))
    else FirstPass(models, c, order, j)
  }

  /** The probe of rank `t` is of the candidate of rank `t`. */
  lemma {:induction false} ProbeIsOf(models: seq<Model>, c: Config, order: seq<nat>, t: nat) returns (j: nat)
    requires InRange(order, |models|) && t < |ProbesOf(models, c, order)|
    ensures j < |order| && IsCandidate(models[order[j]], c) && Rank(models, c, order, j) == t
              && order[j] == ProbesOf(models, c, order)[t]
    ensures FirstPass(models, c, order, j) == Screened(models[order[j]], c)
  {
    hide IsCandidate, Candidates, Screened, Overflowed, Queued, FirstPass, QueueLimit;
    j := PlaceHasRank(models, c, order, t);
    FirstPassIs(models, c, order, j);
  }

  /** The next probe's result changes one model. */
  lemma {:induction false} OneProbe(models: seq<Model>, c: Config, order: seq<nat>, results: nat -> ProbeResult,
                                    t: nat, j: nat, k: nat)
    requires InRange(order, |models|) && IsPermutation(order, |models|) && j < |order| && k < |order|
    requires IsCandidate(models[order[j]], c) && Rank(models, c, order, j) == t
    ensures AfterProbes(models, c, order, results, k, t + 1) ==
              if k == j then Probed(Screened(models[order[j]], c), c, results(order[j]))
                   else AfterProbes(models, c, order, results, k, t)
  {
    hide IsCandidate, Candidates, Screened, Probed, FirstPass, Rank;
    if k < j && IsCandidate(models[order[k]], c) {
      RanksDiffer(models, c, order, k, j);
    } else if j < k {
      RanksDiffer(models, c, order, j, k);
    }
  }

  /** Probe the chosen models in turn. */
  method ProbeModels(models: array<Model>, c: Config, results: nat -> ProbeResult, ghost ms: seq<Model>,
                     ordered: seq<nat>, probeIndexes: seq<nat>)
    requires |ms| == models.Length && IsPermutation(ordered, models.Length) && InRange(ordered, models.Length)
    requires probeIndexes == ProbesOf(ms, c, ordered)
    requires forall j :: 0 <= j < |ordered| ==> models[ordered[j]] == FirstPass(ms, c, ordered, j)
    modifies models
    ensures forall j :: 0 <= j < |ordered| ==>
              models[ordered[j]] == AfterProbes(ms, c, ordered, results, j, |probeIndexes|)
  {
    hide IsCandidate, Candidates, Screened, FirstPass, ProbesOf, Rank, AfterProbes, Confirmed, FailedProbe, Probing;
    forall j | 0 <= j < |ordered| ensures models[ordered[j]] == AfterProbes(ms, c, ordered, results, j, 0) {
      NoProbesYet(ms, c, ordered, results, j);
    }
    for t := 0 to |probeIndexes|
      invariant forall j :: 0 <= j < |ordered| ==> models[ordered[j]] == AfterProbes(ms, c, ordered, results, j, t)
    {
      ghost var at := ProbeIsOf(ms, c, ordered, t);
      BeforeProbe(ms, c, ordered, results, at, t);
      forall j | 0 <= j < |ordered| ensures AfterProbes(ms, c, ordered, results, j, t + 1) ==
          if j == at then Probed(Screened(ms[ordered[at]], c), c, results(ordered[at]))
               else AfterProbes(ms, c, ordered, results, j, t) {
        OneProbe(ms, c, ordered, results, t, at, j);
      }
      var idx := probeIndexes[t];
      models[idx] := Probing(models[idx], c);
      var result := results(idx);
      models[idx] := if result.validated then Confirmed(models[idx], c, result)
          else FailedProbe(models[idx], c, result);
    }
  }

  lemma {:induction false} NoProbesYet(models: seq<Model>, c: Config, order: seq<nat>, results: nat -> ProbeResult,
                                       j: nat)
    requires j < |order| && InRange(order, |models|)
    ensures AfterProbes(models, c, order, results, j, 0) == FirstPass(models, c, order, j)
  {
    hide FirstPass;
  }

  lemma {:induction false} BeforeProbe(models: seq<Model>, c: Config, order: seq<nat>, results: nat -> ProbeResult,
                                       j: nat, t: nat)
    requires j < |order| && InRange(order, |models|) && Rank(models, c, order, j) == t
    ensures AfterProbes(models, c, order, results, j, t) == FirstPass(models, c, order, j)
  {
    hide FirstPass, Rank;
  }

  /** When every probe is in, each model is as the round leaves it. */
  lemma {:induction false} AllProbesIn(models: seq<Model>, c: Config, order: seq<nat>, results: nat -> ProbeResult,
                                       j: nat)
    requires j < |order| && InRange(order, |models|) && c.validationLimit >= 0
    ensures AfterProbes(models, c, order, results, j, |ProbesOf(models, c, order)|) ==
              Outcome(models, c, order, results, j)
  {
    hide Candidates, IsCandidate, Screened, Probed, Overflowed, Queued, FirstPass, Outcome, QueueLimit, Rank,
         ProbesOf, IsProbed;
    OutcomeIs(models, c, order, results, j);
    FirstPassIs(models, c, order, j);
    RankIs(models, c, order, j);
    if IsCandidate(models[order[j]], c) {
      RankBelowCount(models, c, order, j);
      ProbesCount(models, c, order, Rank(models, c, order, j));
      ProbedFit(models, c, Rank(models, c, order, j));
    }
  }

  lemma {:induction false} RankIs(models: seq<Model>, c: Config, order: seq<nat>, j: nat)
    requires j < |order| && InRange(order, |models|)
    ensures Rank(models, c, order, j) == |Candidates(models, c, order[..j])|
  {
  }

  lemma {:induction false} ProbedFit(models: seq<Model>, c: Config, rank: nat)
    ensures IsProbed(models, c, rank) ==> rank < QueueLimit(models, c)
  {
  }

  lemma {:induction false} ProbesCount(models: seq<Model>, c: Config, order: seq<nat>, rank: nat)
    requires InRange(order, |models|) && rank < |Candidates(models, c, order)| && c.validationLimit >= 0
    ensures rank < |ProbesOf(models, c, order)| <==> IsProbed(models, c, rank)
  {
    hide Candidates, QueueLimit;
  }

  /** The first place at which `target` is queued. */
  method IndexInQueue(queue: seq<nat>, target: nat) returns (i: int)
    ensures -1 <= i < |queue|
    ensures i >= 0 ==> queue[i] == target
    ensures forall k :: 0 <= k < (if i >= 0 then i else |queue|) ==> queue[k] != target
  {
    for k := 0 to |queue|
      invariant forall j :: 0 <= j < k ==> queue[j] != target
    {
      if queue[k] == target {
        return k;
      }
    }
    return -1;
  }

  /** A model still waiting says so already. */
  lemma {:induction false} WaitingIsMarked(models: seq<Model>, c: Config, order: seq<nat>, results: nat -> ProbeResult,
                                           u: nat)
    returns (j: nat)
    requires InRange(order, |models|) && c.validationLimit >= 0
    requires |ProbesOf(models, c, order)| <= u < |QueuedOf(models, c, order)|
    ensures j < |order| && order[j] == QueuedOf(models, c, order)[u]
    ensures Outcome(models, c, order, results, j) == Queued(Screened(models[order[j]], c), c, u + 1)
  {
    hide IsCandidate, Candidates, Screened, Overflowed, Queued, Probed, Outcome, QueueLimit, IsProbed;
    j := PlaceHasRank(models, c, order, u);
    ProbesCount(models, c, order, u);
    OutcomeIs(models, c, order, results, j);
  }

  lemma {:induction false} QueuedOnce(models: seq<Model>, c: Config, order: seq<nat>, u: nat, v: nat)
    requires InRange(order, |models|) && IsPermutation(order, |models|) && u < v < |QueuedOf(models, c, order)|
    ensures QueuedOf(models, c, order)[u] != QueuedOf(models, c, order)[v]
  {
    hide IsCandidate, Candidates, QueueLimit;
    var j := PlaceHasRank(models, c, order, u);
    var k := PlaceHasRank(models, c, order, v);
  }

  lemma {:induction false} ProbesFitQueue(models: seq<Model>, c: Config, order: seq<nat>)
    requires InRange(order, |models|)
    ensures |ProbesOf(models, c, order)| <= |QueuedOf(models, c, order)|
  {
    hide Candidates, QueueLimit;
  }

  /** The last loop marks the waiting models again, which changes nothing. */
  method RemarkWaiting(models: array<Model>, c: Config, ghost results: nat -> ProbeResult, ghost ms: seq<Model>,
                       ordered: seq<nat>,
                       probeIndexes: seq<nat>, queuedIndexes: seq<nat>)
    requires |ms| == models.Length && IsPermutation(ordered, models.Length) && InRange(ordered, models.Length)
               && c.validationLimit >= 0
    requires probeIndexes == ProbesOf(ms, c, ordered) && queuedIndexes == QueuedOf(ms, c, ordered)
    requires forall j :: 0 <= j < |ordered| ==> models[ordered[j]] == Outcome(ms, c, ordered, results, j)
    modifies models
    ensures models[..] == old(models[..])
  {
    hide IsCandidate, Candidates, Screened, Outcome, ProbesOf, QueuedOf, Queued;
    ProbesFitQueue(ms, c, ordered);
    for u := |probeIndexes| to |queuedIndexes|
      invariant models[..] == old(models[..])
    {
      ghost var j := WaitingIsMarked(ms, c, ordered, results, u);
      QueuedAgainIsSame(Screened(ms[ordered[j]], c), c, u + 1);
      var idx := queuedIndexes[u];
      assert models[idx] == old(models[..])[idx];
      var position := IndexInQueue(queuedIndexes, idx);
      if position < u {
        QueuedOnce(ms, c, ordered, position, u);
      }
      models[idx] := Queued(models[idx], c, position + 1);
    }
  }

  /** A whole registration round, on models already merged with what was known of them. */
  method ValidateDiscoveredModels(models: array<Model>, c: Config, results: nat -> ProbeResult)
    requires c.validationLimit >= 0
    modifies models
    ensures InRange(Order(old(models[..]), c), models.Length)
    ensures var order := Order(old(models[..]), c);
            forall j :: 0 <= j < |order| ==> models[order[j]] == Outcome(old(models[..]), c, order, results, j)
  {
    hide Order, Outcome, AfterProbes, FirstPass, ProbesOf, QueuedOf, IsPermutation;
    ghost var ms := models[..];
    var ordered := PrioritizeModelValidation(models, c);
    OrderIsPermutation(ms, c);
    OrderInRange(ms, c);
    var probeIndexes, queuedIndexes := AdmitModels(models, c, ordered);
    ProbeModels(models, c, results, ms, ordered, probeIndexes);
    forall j | 0 <= j < |ordered| ensures models[ordered[j]] == Outcome(ms, c, ordered, results, j) {
      AllProbesIn(ms, c, ordered, results, j);
    }
    ghost var before := models[..];
    RemarkWaiting(models, c, results, ms, ordered, probeIndexes, queuedIndexes);
    assert forall i :: 0 <= i < models.Length ==> models[i] == models[..][i] == before[i];
  }
}
