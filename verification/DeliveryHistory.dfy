/** Delivery records and the replay of their ack history
    (go-core/internal/delivery/supervisor.go:14-54, 117-129, 145-170, 198-235, 436-501). */
module DeliveryHistory {
  import opened Basics

  /** `Unrecognised` stands for any other status string. */
  datatype AckStatus =
    | Sent | Queued | Received | Validated | Retrying | Accepted | DeadLettered | Failed
    | Unrecognised(text: string)

  datatype MessageAck = MessageAck(status: AckStatus, receivedBy: string, reason: string)

  /** The part of a delivery record that acks change. */
  datatype Progress = Progress(
    status: AckStatus,
    lastProgressAt: Time,
    receivedAt: Option<Time>,
    completedAt: Option<Time>,
    receivedBy: string,
    lastReason: string,
    handshake: string,
    validated: bool)

  predicate IsTerminal(status: AckStatus) {
    status.Accepted? || status.Failed? || status.DeadLettered?
  }

  function Once(earlier: Option<Time>, now: Time): Option<Time> {
    if earlier.Some? then earlier else Some(now)
  }

  /** What replaying one ack of the history does to a record. */
  function Absorb(p: Progress, ack: MessageAck, now: Time): Progress {
    match ack.status
    case Sent => p.(status := Sent)
    case Queued => p.(status := Queued)
    case Received =>
      p.(status := Received, receivedBy := ack.receivedBy, lastProgressAt := now, receivedAt := Once(p.receivedAt, now),
         handshake := if p.handshake == "syn" then "syn_ack" else p.handshake)
    case Validated =>
      p.(status := Validated, receivedBy := ack.receivedBy, lastReason := ack.reason, lastProgressAt := now,
         validated := true, handshake := "ack_valid")
    case Retrying =>
      p.(status := Retrying, receivedBy := ack.receivedBy, lastReason := ack.reason, lastProgressAt := now,
          handshake := "retrying")
    case Accepted =>
      p.(status := Accepted, receivedBy := ack.receivedBy, lastReason := ack.reason, lastProgressAt := now,
         completedAt := Once(p.completedAt, now), handshake := if p.validated then "established" else p.handshake)
    case DeadLettered =>
      p.(status := DeadLettered, receivedBy := ack.receivedBy, lastReason := ack.reason, lastProgressAt := now,
         completedAt := Once(p.completedAt, now), handshake := "dead_letter")
    case Failed =>
      p.(status := Failed, receivedBy := ack.receivedBy, lastReason := ack.reason, lastProgressAt := now,
         completedAt := Once(p.completedAt, now))
    case Unrecognised(_) => p
  }

  /** Replaying a history, reading the clock once an ack. */
  function Replay(p: Progress, history: seq<MessageAck>, clock: seq<Time>): Progress
    requires |clock| == |history|
    decreases |history|
  {
    if history == [] then p
    else Replay(Absorb(p, history[0], clock[0]), history[1..], clock[1..])
  }

  lemma {:induction false} ReplaySplit(p: Progress, a: seq<MessageAck>, b: seq<MessageAck>, clockA: seq<Time>,
                                       clockB: seq<Time>)
    requires |clockA| == |a| && |clockB| == |b|
    ensures Replay(p, a + b, clockA + clockB) == Replay(Replay(p, a, clockA), b, clockB)
    decreases |a|
  {
    hide Absorb;
    if a == [] {
      assert a + b == b && clockA + clockB == clockB;
    } else {
      assert (a + b)[1..] == a[1..] + b && (clockA + clockB)[1..] == clockA[1..] + clockB;
      ReplaySplit(Absorb(p, a[0], clockA[0]), a[1..], b, clockA[1..], clockB);
    }
  }

  /** Equal but for the times on the record. */
  ghost predicate SameButTimes(p: Progress, q: Progress) {
    && p.status == q.status && p.receivedBy == q.receivedBy && p.lastReason == q.lastReason
    && p.handshake == q.handshake && p.validated == q.validated
    && (p.receivedAt.Some? <==> q.receivedAt.Some?) && (p.completedAt.Some? <==> q.completedAt.Some?)
  }

  lemma {:induction false} ReplayRespectsSame(p: Progress, q: Progress, history: seq<MessageAck>, c: seq<Time>,
                                              d: seq<Time>)
    requires SameButTimes(p, q) && |c| == |d| == |history|
    ensures SameButTimes(Replay(p, history, c), Replay(q, history, d))
    decreases |history|
  {
    if history != [] {
      AbsorbRespectsSame(p, q, history[0], c[0], d[0]);
      hide Absorb, SameButTimes;
      ReplayRespectsSame(Absorb(p, history[0], c[0]), Absorb(q, history[0], d[0]), history[1..], c[1..], d[1..]);
    }
  }

  lemma {:induction false} AbsorbRespectsSame(p: Progress, q: Progress, ack: MessageAck, c: Time, d: Time)
    requires SameButTimes(p, q)
    ensures SameButTimes(Absorb(p, ack, c), Absorb(q, ack, d))
  {
    match ack.status
    case Sent =>
    case Queued =>
    case Received =>
    case Validated =>
    case Retrying =>
    case Accepted =>
    case DeadLettered =>
    case Failed =>
    case Unrecognised(_) =>
  }

  ghost predicate Mentions(history: seq<MessageAck>, status: AckStatus) {
    exists i :: 0 <= i < |history| && history[i].status == status
  }

  /** Replay never brings back the opening handshake. */
  lemma {:induction false} NeverBackToSyn(p: Progress, history: seq<MessageAck>, clock: seq<Time>)
    requires |clock| == |history| && p.handshake != "syn"
    ensures Replay(p, history, clock).handshake != "syn"
    decreases |history|
  {
    if history != [] {
      NeverBackToSyn(Absorb(p, history[0], clock[0]), history[1..], clock[1..]);
    }
  }

  /** Whatever `q` says where it differs from `p` is either overwritten by the rest of the history
      or is already what the history leads `p` to. */
  ghost predicate WillConverge(p: Progress, q: Progress, history: seq<MessageAck>, clock: seq<Time>)
    requires |clock| == |history|
  {
    var end := Replay(p, history, clock);
    FieldsHead(p, q, end) && HandshakeHeads(p, q, end, history)
  }

  predicate FieldsHead(p: Progress, q: Progress, end: Progress) {
    && q.status in {p.status, end.status} && q.receivedBy in {p.receivedBy, end.receivedBy}
         && q.lastReason in {p.lastReason, end.lastReason}
    && (p.receivedAt.Some? ==> q.receivedAt.Some?) && (q.receivedAt.Some? ==> end.receivedAt.Some?)
    && (p.completedAt.Some? ==> q.completedAt.Some?) && (q.completedAt.Some? ==> end.completedAt.Some?)
  }

  ghost predicate HandshakeHeads(p: Progress, q: Progress, end: Progress, history: seq<MessageAck>) {
    if p.validated == q.validated then q.handshake in {p.handshake, end.handshake}
         else q.validated && Mentions(history, Validated)
  }

  lemma {:induction false} FieldsStep(p: Progress, q: Progress, end: Progress, ack: MessageAck, c: Time, d: Time)
    requires FieldsHead(p, q, end)
    requires Absorb(p, ack, c).receivedAt.Some? ==> end.receivedAt.Some?
    requires Absorb(p, ack, c).completedAt.Some? ==> end.completedAt.Some?
    ensures FieldsHead(Absorb(p, ack, c), Absorb(q, ack, d), end)
  {
    match ack.status
    case Sent =>
    case Queued =>
    case Received =>
    case Validated =>
    case Retrying =>
    case Accepted =>
    case DeadLettered =>
    case Failed =>
    case Unrecognised(_) =>
  }

  lemma {:induction false} HandshakeStep(p: Progress, q: Progress, end: Progress, history: seq<MessageAck>, c: Time,
                                         d: Time)
    requires history != [] && HandshakeHeads(p, q, end, history)
    requires Absorb(p, history[0], c).handshake != "syn" ==> end.handshake != "syn"
    ensures HandshakeHeads(Absorb(p, history[0], c), Absorb(q, history[0], d), end, history[1..])
  {
    if p.validated != q.validated {
      var i :| 0 <= i < |history| && history[i].status == Validated;
      assert i > 0 ==> history[1..][i - 1].status == Validated;
    }
  }

  lemma {:induction false} ConvergeStep(p: Progress, q: Progress, history: seq<MessageAck>, c: seq<Time>, now: Time)
    requires |c| == |history| && history != [] && WillConverge(p, q, history, c)
    ensures WillConverge(Absorb(p, history[0], c[0]), Absorb(q, history[0], now), history[1..], c[1..])
  {
    hide Replay, Absorb, FieldsHead, HandshakeHeads;
    ReplayFirst(p, history, c);
    var p', rest, end := Absorb(p, history[0], c[0]), history[1..], Replay(p, history, c);
    ReplayOnlyAdds(p', rest, c[1..]);
    if p'.handshake != "syn" {
      NeverBackToSyn(p', rest, c[1..]);
    }
    FieldsStep(p, q, end, history[0], c[0], now);
    HandshakeStep(p, q, end, history, c[0], now);
  }

  lemma {:induction false} ReplayFirst(p: Progress, history: seq<MessageAck>, clock: seq<Time>)
    requires |clock| == |history| && history != []
    ensures Replay(p, history, clock) == Replay(Absorb(p, history[0], clock[0]), history[1..], clock[1..])
  {
    hide Absorb;
  }

  lemma {:induction false} Converge(p: Progress, q: Progress, history: seq<MessageAck>, c: seq<Time>, d: seq<Time>)
    requires |c| == |d| == |history| && WillConverge(p, q, history, c)
    ensures SameButTimes(Replay(q, history, d), Replay(p, history, c))
    decreases |history|
  {
    hide Absorb;
    if history != [] {
      ConvergeStep(p, q, history, c, d[0]);
      hide WillConverge;
      Converge(Absorb(p, history[0], c[0]), Absorb(q, history[0], d[0]), history[1..], c[1..], d[1..]);
    }
  }

  lemma {:induction false} ReplayOnlyAdds(p: Progress, history: seq<MessageAck>, clock: seq<Time>)
    requires |clock| == |history|
    ensures var end := Replay(p, history, clock);
            && (p.receivedAt.Some? ==> end.receivedAt == p.receivedAt)
            && (p.completedAt.Some? ==> end.completedAt == p.completedAt)
            && (end.validated <==> p.validated || Mentions(history, Validated))
    decreases |history|
  {
    if history != [] {
      var p' := Absorb(p, history[0], clock[0]);
      ReplayOnlyAdds(p', history[1..], clock[1..]);
      if Mentions(history[1..], Validated) {
        var i :| 0 <= i < |history[1..]| && history[1..][i].status == Validated;
        assert history[i + 1].status == Validated;
      }
      if Mentions(history, Validated) {
        var i :| 0 <= i < |history| && history[i].status == Validated;
        assert i > 0 ==> history[1..][i - 1].status == Validated;
      }
    }
  }

  /** Replaying a history twice leaves the record as replaying it once. */
  lemma {:induction false} ReplayIsIdempotent(p: Progress, history: seq<MessageAck>, c: seq<Time>, d: seq<Time>)
    requires |c| == |d| == |history|
    ensures SameButTimes(Replay(Replay(p, history, c), history, d), Replay(p, history, c))
    ensures Replay(Replay(p, history, c), history, d).completedAt == Replay(p, history, c).completedAt
    ensures Replay(Replay(p, history, c), history, d).receivedAt == Replay(p, history, c).receivedAt
  {
    hide Replay;
    ReplayOnlyAdds(p, history, c);
    ReplayOnlyAdds(Replay(p, history, c), history, d);
    Converge(p, Replay(p, history, c), history, c, d);
  }

  /** A record that has already absorbed the start of a history may replay all of it: the result is
      the same as replaying it on the untouched record. */
  lemma {:induction false} ReplayAbsorbsPrefix(p: Progress, a: seq<MessageAck>, b: seq<MessageAck>, c: seq<Time>,
                                               d: seq<Time>, e: seq<Time>)
    requires |c| == |d| == |a| && |e| == |b|
    ensures SameButTimes(Replay(Replay(p, a, c), a + b, d + e), Replay(p, a + b, c + e))
  {
    hide Replay, SameButTimes;
    var once := Replay(p, a, c);
    ReplaySplit(once, a, b, d, e);
    ReplaySplit(p, a, b, c, e);
    ReplayIsIdempotent(p, a, c, d);
    ReplayRespectsSame(Replay(once, a, d), once, b, e, e);
  }

  /** The last ack of the history that `pick` accepts. */
  function LastOf(history: seq<MessageAck>, pick: AckStatus -> bool): Option<MessageAck> {
    if history == [] then None
    else
      var last := history[|history| - 1];
      if pick(last.status) then Some(last) else LastOf(history[..|history| - 1], pick)
  }

  lemma {:induction false} LastOfFirst(history: seq<MessageAck>, pick: AckStatus -> bool)
    requires history != []
    ensures LastOf(history, pick) ==
              if LastOf(history[1..], pick).Some? then LastOf(history[1..], pick)
              else if pick(history[0].status) then Some(history[0])
              else None
  {
    if |history| > 1 {
      assert history[1..][..|history| - 2] == history[..|history| - 1][1..];
      LastOfFirst(history[..|history| - 1], pick);
    } else {
      assert history[1..] == [] && history[..0] == [];
    }
  }

  predicate Recognised(status: AckStatus) { !status.Unrecognised? }

  predicate NamesReceiver(status: AckStatus) { Recognised(status) && !status.Sent? && !status.Queued? }

  predicate GivesReason(status: AckStatus) { NamesReceiver(status) && !status.Received? }

  /** After a replay the status is that of the last recognised ack, if any; the receiver is that of the
      last ack a receiver sent, and the reason that of the last one that settles or refuses something. */
  lemma {:induction false} StatusIsLastAck(p: Progress, history: seq<MessageAck>, clock: seq<Time>)
    requires |clock| == |history|
    ensures var end := Replay(p, history, clock);
            && end.status == (match LastOf(history, Recognised) case None => p.status case Some(ack) => ack.status)
            && end.receivedBy ==
                 (match LastOf(history, NamesReceiver) case None => p.receivedBy case Some(ack) => ack.receivedBy)
            && end.lastReason ==
                 (match LastOf(history, GivesReason) case None => p.lastReason case Some(ack) => ack.reason)
    decreases |history|
  {
    if history != [] {
      StatusIsLastAck(Absorb(p, history[0], clock[0]), history[1..], clock[1..]);
      LastOfFirst(history, Recognised);
      LastOfFirst(history, NamesReceiver);
      LastOfFirst(history, GivesReason);
      AbsorbTells(p, history[0], clock[0]);
      hide Absorb, LastOf;
    }
  }

  lemma {:induction false} AbsorbTells(p: Progress, ack: MessageAck, now: Time)
    ensures var q := Absorb(p, ack, now);
            && q.status == (if Recognised(ack.status) then ack.status else p.status)
            && q.receivedBy == (if NamesReceiver(ack.status) then ack.receivedBy else p.receivedBy)
            && q.lastReason == (if GivesReason(ack.status) then ack.reason else p.lastReason)
  {
  }

  /** A record is completed after a replay exactly when it was before or the history has a terminal
      ack, and a completion time, once set, never changes: it is the time of the first of them. */
  lemma {:induction false} CompletionIsFinal(p: Progress, history: seq<MessageAck>, clock: seq<Time>)
    requires |clock| == |history|
    ensures var end := Replay(p, history, clock);
            && (p.completedAt.Some? ==> end.completedAt == p.completedAt)
            && (end.completedAt.Some? <==>
                  p.completedAt.Some? || exists i :: 0 <= i < |history| && IsTerminal(history[i].status))
            && (forall i :: FirstTerminal(history, i) && p.completedAt.None? ==> end.completedAt == Some(clock[i]))
    decreases |history|
  {
    if history != [] {
      var p' := Absorb(p, history[0], clock[0]);
      CompletionIsFinal(p', history[1..], clock[1..]);
      if i :| 0 <= i < |history[1..]| && IsTerminal(history[1..][i].status) {
        assert IsTerminal(history[i + 1].status);
      }
      if i :| 0 <= i < |history| && IsTerminal(history[i].status) {
        assert i > 0 ==> IsTerminal(history[1..][i - 1].status);
      }
      forall i | FirstTerminal(history, i) && i > 0 ensures FirstTerminal(history[1..], i - 1) {
        assert !IsTerminal(history[0].status);
      }
    }
  }

  ghost predicate FirstTerminal(history: seq<MessageAck>, i: int) {
    && 0 <= i < |history| && IsTerminal(history[i].status)
    && forall k :: 0 <= k < i ==> !IsTerminal(history[k].status)
  }

  /** The ack closes the handshake: it accepts a payload that was validated by then. */
  ghost predicate Closes(validated: bool, history: seq<MessageAck>, i: int) {
    && 0 <= i < |history| && history[i].status.Accepted?
    && (validated || exists k :: 0 <= k < i && history[k].status.Validated?)
  }

  /** The ack opens the handshake again. */
  predicate IsReopening(status: AckStatus) {
    status.Validated? || status.Retrying? || status.DeadLettered?
  }

  ghost predicate Reopens(history: seq<MessageAck>, from: int) {
    exists k :: 0 <= k < |history| && from <= k && IsReopening(history[k].status)
  }

  /** A handshake ends established exactly when some ack accepts a payload validated by then, or it was
      established to begin with, and no later ack validates anew, retries or gives up. */
  lemma {:induction false} EstablishedMeansAccepted(p: Progress, history: seq<MessageAck>, clock: seq<Time>)
    requires |clock| == |history|
    ensures Replay(p, history, clock).handshake == "established" <==>
              || (p.handshake == "established" && !Reopens(history, 0))
              || exists i :: Closes(p.validated, history, i) && !Reopens(history, i)
    decreases |history|
  {
    if history != [] {
      var p', rest := Absorb(p, history[0], clock[0]), history[1..];
      EstablishedMeansAccepted(p', rest, clock[1..]);
      ReopensFirst(history);
      EstablishedFirst(p, history, clock[0]);
      ClosesFirst(p, history, clock[0]);
      hide Absorb, Closes, Reopens, Replay;
      if i :| Closes(p'.validated, rest, i) && !Reopens(rest, i) {
        assert Closes(p.validated, history, i + 1) && !Reopens(history, i + 1);
      }
      if i :| Closes(p.validated, history, i) && !Reopens(history, i) {
        assert i > 0 ==> Closes(p'.validated, rest, i - 1) && !Reopens(rest, i - 1);
      }
      ReplayFirst(p, history, clock);
    }
  }

  lemma {:induction false} ReopensFirst(history: seq<MessageAck>)
    requires history != []
    ensures forall i :: i >= 0 ==> (Reopens(history[1..], i) <==> Reopens(history, i + 1))
    ensures Reopens(history, 0) <==> IsReopening(history[0].status) || Reopens(history, 1)
  {
    var rest := history[1..];
    forall i | i >= 0 ensures Reopens(rest, i) <==> Reopens(history, i + 1) {
      if k :| 0 <= k < |rest| && i <= k && IsReopening(rest[k].status) {
        assert history[k + 1] == rest[k];
      }
      if k :| 0 <= k < |history| && i + 1 <= k && IsReopening(history[k].status) {
        assert rest[k - 1] == history[k];
      }
    }
  }

  lemma {:induction false} EstablishedFirst(p: Progress, history: seq<MessageAck>, now: Time)
    requires history != []
    ensures var p', s := Absorb(p, history[0], now), history[0].status;
            p'.handshake == "established" <==>
              || (s.Accepted? && p.validated)
              || (p.handshake == "established" && !IsReopening(s))
  {
  }

  lemma {:induction false} ClosesFirst(p: Progress, history: seq<MessageAck>, now: Time)
    requires history != []
    ensures forall i :: i >= 0 ==>
              (Closes(Absorb(p, history[0], now).validated, history[1..], i) <==> Closes(p.validated, history, i + 1))
    ensures Closes(p.validated, history, 0) <==> history[0].status.Accepted? && p.validated
    ensures forall i, validated :: Closes(validated, history, i) || Closes(validated, history[1..], i) ==> i >= 0
  {
    var rest := history[1..];
    forall i | i >= 0
      ensures Closes(Absorb(p, history[0], now).validated, rest, i) <==> Closes(p.validated, history, i + 1) {
      if k :| 0 <= k < i < |rest| && rest[k].status.Validated? {
        assert history[k + 1] == rest[k];
      }
      if k :| 0 <= k < i + 1 < |history| && history[k].status.Validated? {
        assert k > 0 ==> rest[k - 1] == history[k];
      }
    }
  }

  // ---------------------------------------------------------------- the record object

  class DeliveryRecord {
    var status: AckStatus
    var lastProgressAt: Time
    var receivedAt: Option<Time>
    var completedAt: Option<Time>
    var receivedBy: string
    var lastReason: string
    var handshake: string
    var validated: bool

    function View(): Progress
      reads this
    {
      Progress(status, lastProgressAt, receivedAt, completedAt, receivedBy, lastReason, handshake, validated)
    }

    constructor (p: Progress)
      ensures View() == p
    {
      status, lastProgressAt, receivedAt, completedAt := p.status, p.lastProgressAt, p.receivedAt, p.completedAt;
      receivedBy, lastReason, handshake, validated := p.receivedBy, p.lastReason, p.handshake, p.validated;
    }

    /** Replay the history on this record. */
    method ApplyHistory(history: seq<MessageAck>, clock: seq<Time>)
      requires |clock| == |history|
      modifies this
      ensures View() == Replay(old(View()), history, clock)
    {
      for i := 0 to |history|
        invariant Replay(View(), history[i..], clock[i..]) == Replay(old(View()), history, clock)
      {
        ReplayFirst(View(), history[i..], clock[i..]);
        assert history[i..][1..] == history[i + 1..] && clock[i..][1..] == clock[i + 1..];
        ApplyOne(history[i], clock[i]);
      }
    }

    method ApplyOne(ack: MessageAck, now: Time)
      modifies this
      ensures View() == Absorb(old(View()), ack, now)
    {
      match ack.status
      case Sent => status := Sent;
      case Queued => status := Queued;
      case Received =>
        status, receivedBy, lastProgressAt := Received, ack.receivedBy, now;
        if receivedAt.None? {
          receivedAt := Some(now);
        }
        if handshake == "syn" {
          handshake := "syn_ack";
        }
      case Validated =>
        status, receivedBy, lastReason, lastProgressAt := Validated, ack.receivedBy, ack.reason, now;
        validated, handshake := true, "ack_valid";
      case Retrying =>
        status, receivedBy, lastReason, lastProgressAt, handshake := Retrying, ack.receivedBy, ack.reason, now,
            "retrying";
      case Accepted =>
        status, receivedBy, lastReason, lastProgressAt := Accepted, ack.receivedBy, ack.reason, now;
        if completedAt.None? {
          completedAt := Some(now);
        }
        if validated {
          handshake := "established";
        }
      case DeadLettered =>
        status, receivedBy, lastReason, lastProgressAt, handshake := DeadLettered, ack.receivedBy, ack.reason, now,
            "dead_letter";
        if completedAt.None? {
          completedAt := Some(now);
        }
      case Failed =>
        status, receivedBy, lastReason, lastProgressAt := Failed, ack.receivedBy, ack.reason, now;
        if completedAt.None? {
          completedAt := Some(now);
        }
      case Unrecognised(_) =>
    }

    /** A snapshot replays the history on a copy, so looking at a record does not change it. */
    method Snapshot(history: seq<MessageAck>, clock: seq<Time>) returns (snapshot: DeliveryRecord)
      requires |clock| == |history|
      ensures fresh(snapshot) && snapshot.View() == Replay(View(), history, clock)
      ensures View() == old(View())
    {
      snapshot := new DeliveryRecord(View());
      snapshot.ApplyHistory(history, clock);
    }

    /** A worker takes the envelope: the record moves on by itself, then replays the history. */
    method TakenFromMailbox(agent: string, now: Time, history: seq<MessageAck>, clock: seq<Time>)
      requires |clock| == |history|
      modifies this
      ensures View() == Replay(old(View()).(receivedBy := agent, receivedAt := Some(now), lastProgressAt := now,
                handshake := "syn_ack"), history, clock)
    {
      receivedBy, receivedAt, lastProgressAt, handshake := agent, Some(now), now, "syn_ack";
      ApplyHistory(history, clock);
    }
  }
}
