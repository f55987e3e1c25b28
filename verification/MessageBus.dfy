/** The in-memory message bus object (go-core/internal/delivery/message_bus.go:100-134, 366-416): a
    FIFO queue per topic, the ack history of each task, what is still unacknowledged and the dead
    letters. The delivery protocol sees its queues as one mailbox; the two views agree. */
module MessageBus {
  import opened DeliveryHistory
  import opened DeliveryProtocol

  function AgentTopic(agent: string): string {
    if agent == "" then "orchestrator.inbox" else "agent." + agent + ".inbox"
  }

  lemma {:induction false} TopicsDiffer(a: string, b: string)
    ensures AgentTopic(a) == AgentTopic(b) ==> a == b
  {
    if a != "" && b != "" && AgentTopic(a) == AgentTopic(b) {
      var s, t := "agent." + a + ".inbox", "agent." + b + ".inbox";
      assert |s| == |t|;
      assert a == s[6..6 + |a|] && b == t[6..6 + |b|];
    } else if a != "" || b != "" {
      assert ("agent." + a + ".inbox")[0] == 'a' && ("agent." + b + ".inbox")[0] == 'a';
    }
  }

  /** The part of a mailbox addressed to an agent, oldest first. */
  function Addressed(mailbox: seq<Envelope>, agent: string): seq<Envelope> {
    if mailbox == [] then []
    else (if mailbox[0].target == agent then [mailbox[0]] else []) + Addressed(mailbox[1..], agent)
  }

  lemma {:induction false} AddressedConcat(a: seq<Envelope>, b: seq<Envelope>, agent: string)
    ensures Addressed(a + b, agent) == Addressed(a, agent) + Addressed(b, agent)
  {
    if a == [] {
      assert a + b == b;
    } else {
      assert (a + b)[0] == a[0] && (a + b)[1..] == a[1..] + b;
      AddressedConcat(a[1..], b, agent);
      AddressedFirst(a, agent);
      AddressedFirst(a + b, agent);
      hide Addressed;
      Associate(Addressed([a[0]], agent), Addressed(a[1..], agent), Addressed(b, agent));
    }
  }

  lemma {:induction false} AddressedFirst(a: seq<Envelope>, agent: string)
    requires a != []
    ensures Addressed(a, agent) == Addressed([a[0]], agent) + Addressed(a[1..], agent)
  {
    AddressedOne(a[0], agent);
  }

  lemma {:induction false} Associate(x: seq<Envelope>, y: seq<Envelope>, z: seq<Envelope>)
    ensures (x + y) + z == x + (y + z)
  {
  }

  lemma {:induction false} AddressedAppend(mailbox: seq<Envelope>, e: Envelope)
    ensures forall agent ::
              Addressed(mailbox + [e], agent) == Addressed(mailbox, agent) + if agent == e.target then [e] else []
  {
    hide Addressed;
    forall agent ensures
        Addressed(mailbox + [e], agent) == Addressed(mailbox, agent) + if agent == e.target then [e] else [] {
      AddressedConcat(mailbox, [e], agent);
      AddressedOne(e, agent);
    }
  }

  lemma {:induction false} AddressedOne(e: Envelope, agent: string)
    ensures Addressed([e], agent) == if e.target == agent then [e] else []
  {
    assert [e][1..] == [];
  }

  function Without(mailbox: seq<Envelope>, k: nat): seq<Envelope>
    requires k < |mailbox|
  {
    mailbox[..k] + mailbox[k + 1..]
  }

  lemma {:induction false} WithoutLater(mailbox: seq<Envelope>, k: nat)
    requires 0 < k < |mailbox|
    ensures Without(mailbox, k) != [] && Without(mailbox, k)[0] == mailbox[0]
    ensures Without(mailbox, k)[1..] == Without(mailbox[1..], k - 1)
  {
  }

  lemma {:induction false} NextLater(mailbox: seq<Envelope>, agent: string, k: nat)
    requires mailbox != [] && mailbox[0].target != agent && IsNextFor(mailbox[1..], agent, k)
    ensures IsNextFor(mailbox, agent, k + 1) && mailbox[k + 1] == mailbox[1..][k]
  {
    forall j | 0 <= j < k + 1 ensures mailbox[j].target != agent {
      assert j > 0 ==> mailbox[j] == mailbox[1..][j - 1];
    }
  }

  /** The head of an agent's queue is the oldest envelope addressed to it. */
  lemma {:induction false} HeadIsNext(mailbox: seq<Envelope>, agent: string) returns (k: nat)
    requires Addressed(mailbox, agent) != []
    ensures IsNextFor(mailbox, agent, k) && Addressed(mailbox, agent)[0] == mailbox[k]
    ensures Addressed(Without(mailbox, k), agent) == Addressed(mailbox, agent)[1..]
    ensures forall other :: other != agent ==> Addressed(Without(mailbox, k), other) == Addressed(mailbox, other)
  {
    if mailbox[0].target == agent {
      k := 0;
      assert Without(mailbox, 0) == mailbox[1..];
    } else {
      var j := HeadIsNext(mailbox[1..], agent);
      k := j + 1;
      NextLater(mailbox, agent, j);
      WithoutLater(mailbox, k);
      hide Without, IsNextFor;
    }
  }

  lemma {:induction false} NobodyNext(mailbox: seq<Envelope>, agent: string)
    requires Addressed(mailbox, agent) == []
    ensures forall k :: 0 <= k < |mailbox| ==> mailbox[k].target != agent
  {
    if mailbox != [] {
      NobodyNext(mailbox[1..], agent);
      forall k | 0 <= k < |mailbox| ensures mailbox[k].target != agent {
        assert k > 0 ==> mailbox[1..][k - 1] == mailbox[k];
      }
    }
  }

  /** Of the sends and terminal acks in a history, the last is a send. */
  function OpenAtEnd(history: seq<MessageAck>): bool {
    if history == [] then false
    else
      var last := history[|history| - 1].status;
      if last.Queued? then true else if IsTerminal(last) then false else OpenAtEnd(history[..|history| - 1])
  }

  lemma {:induction false} OpenAfter(history: seq<MessageAck>, ack: MessageAck)
    ensures OpenAtEnd(history + [ack]) == (ack.status.Queued? || (!IsTerminal(ack.status) && OpenAtEnd(history)))
  {
    assert (history + [ack])[..|history|] == history;
  }

  class MessageBus {
    var queues: map<string, seq<Envelope>>
    var acks: map<string, seq<MessageAck>>
    var unacked: map<string, Envelope>
    var deadLetters: seq<Envelope>

    constructor ()
      ensures queues == map[] && acks == map[] && unacked == map[] && deadLetters == []
      ensures UnackedIsOpen()
    {
      queues, acks, unacked, deadLetters := map[], map[], map[], [];
    }

    function Queue(topic: string): seq<Envelope>
      reads this
    {
      if topic in queues then queues[topic] else []
    }

    function History(id: string): seq<MessageAck>
      reads this
    {
      if id in acks then acks[id] else []
    }

    /** The queues hold what the mailbox holds, topic by topic. */
    ghost predicate Holds(post: Post)
      reads this
    {
      forall agent :: Queue(AgentTopic(agent)) == Addressed(post.mailbox, agent)
    }

    /** A task is unacknowledged exactly while its last send is newer than its last terminal ack. */
    ghost predicate UnackedIsOpen()
      reads this
    {
      forall id :: id in unacked <==> OpenAtEnd(History(id))
    }

    method Publish(agent: string, e: Envelope)
      modifies this`queues
      ensures Queue(AgentTopic(agent)) == old(Queue(AgentTopic(agent))) + [e]
      ensures forall other :: other != AgentTopic(agent) ==> Queue(other) == old(Queue(other))
    {
      var topic := AgentTopic(agent);
      queues := queues[topic := Queue(topic) + [e]];
    }

    /** Put an envelope back where it was taken from. */
    method RequeueFront(agent: string, e: Envelope)
      modifies this`queues
      ensures Queue(AgentTopic(agent)) == [e] + old(Queue(AgentTopic(agent)))
      ensures forall other :: other != AgentTopic(agent) ==> Queue(other) == old(Queue(other))
    {
      var topic := AgentTopic(agent);
      queues := queues[topic := [e] + Queue(topic)];
    }

    /** Take the head of an agent's queue: the oldest envelope of the mailbox addressed to it. */
    method Consume(ghost post: Post, agent: string) returns (ok: bool, e: Envelope, ghost k: nat)
      requires Holds(post)
      modifies this`queues
      ensures ok ==> IsNextFor(post.mailbox, agent, k) && e == post.mailbox[k] && Holds(Receive(post, k))
      ensures !ok ==> queues == old(queues) && forall j :: 0 <= j < |post.mailbox| ==> post.mailbox[j].target != agent
    {
      hide IsNextFor, AgentTopic;
      var topic := AgentTopic(agent);
      if |Queue(topic)| == 0 {
        NobodyNext(post.mailbox, agent);
        return false, Envelope("", "", "", 0, 0, 0, 0, false), 0;
      }
      k := HeadIsNext(post.mailbox, agent);
      ok, e := true, Queue(topic)[0];
      queues := queues[topic := Queue(topic)[1..]];
      NextInRange(post.mailbox, agent, k);
      hide Addressed;
      forall other ensures Queue(AgentTopic(other)) == Addressed(Receive(post, k).mailbox, other) {
        TopicsDiffer(agent, other);
      }
    }

    method Ack(id: string, status: AckStatus, receivedBy: string, reason: string)
      modifies this`acks, this`unacked
      ensures History(id) == old(History(id)) + [MessageAck(status, receivedBy, reason)]
      ensures forall other :: other != id ==> History(other) == old(History(other))
      ensures unacked == if IsTerminal(status) then old(unacked) - {id} else old(unacked)
      ensures old(UnackedIsOpen()) && !status.Queued? ==> UnackedIsOpen()
    {
      var ack := MessageAck(status, receivedBy, reason);
      OpenAfter(History(id), ack);
      hide OpenAtEnd;
      acks := acks[id := History(id) + [ack]];
      if status.Accepted? || status.Failed? || status.DeadLettered? {
        unacked := unacked - {id};
      }
    }

    method MarkDeadLetterEnvelope(e: Envelope, reason: string)
      modifies this`acks, this`unacked, this`deadLetters
      ensures deadLetters == old(deadLetters) + [e.(isDeadLetter := true)]
      ensures History(e.id) == old(History(e.id)) + [MessageAck(DeadLettered, "dead_letter_queue", reason)]
      ensures forall other :: other != e.id ==> History(other) == old(History(other))
      ensures unacked == old(unacked) - {e.id}
      ensures old(UnackedIsOpen()) ==> UnackedIsOpen()
    {
      OpenAfter(History(e.id), MessageAck(DeadLettered, "dead_letter_queue", reason));
      hide OpenAtEnd;
      deadLetters := deadLetters + [e.(isDeadLetter := true)];
      unacked := unacked - {e.id};
      Ack(e.id, DeadLettered, "dead_letter_queue", reason);
    }

    /** Note a send: the task is unacknowledged until its next terminal ack. */
    method NoteSent(sent: Envelope)
      modifies this`acks, this`unacked
      ensures History(sent.id) == old(History(sent.id)) + [MessageAck(Sent, "", ""), MessageAck(Queued, "", "")]
      ensures forall other :: other != sent.id ==> History(other) == old(History(other))
      ensures unacked == old(unacked)[sent.id := sent]
      ensures old(UnackedIsOpen()) ==> UnackedIsOpen()
    {
      var history := History(sent.id) + [MessageAck(Sent, "", "")];
      OpenAfter(history, MessageAck(Queued, "", ""));
      hide OpenAtEnd, IsTerminal;
      assert old(History(sent.id)) + [MessageAck(Sent, "", ""), MessageAck(Queued, "", "")]
          == history + [MessageAck(Queued, "", "")];
      unacked := unacked[sent.id := sent];
      acks := acks[sent.id := history + [MessageAck(Queued, "", "")]];
    }

    /** Put an envelope at the end of its target's queue: at the end of the mailbox. */
    method Deliver(ghost post: Post, e: Envelope)
      requires Holds(post)
      modifies this`queues
      ensures Holds(post.(mailbox := post.mailbox + [e]))
    {
      hide AgentTopic, Addressed;
      Publish(e.target, e);
      AddressedAppend(post.mailbox, e);
      forall other ensures Queue(AgentTopic(other)) == Addressed(post.mailbox + [e], other) {
        TopicsDiffer(e.target, other);
      }
    }

    /** Send an envelope, or dead-letter it when it is out of hops. */
    method SendEnvelope(ghost post: Post, e: Envelope) returns (status: AckStatus)
      requires Holds(post)
      modifies this
      ensures Holds(Send(post, e))
      ensures status == if OutOfHops(e) then DeadLettered else Queued
      ensures deadLetters == if OutOfHops(e) then old(deadLetters) + [e.(isDeadLetter := true)] else old(deadLetters)
      ensures History(e.id) == old(History(e.id)) +
                if OutOfHops(e) then [MessageAck(DeadLettered, "dead_letter_queue", "max_hops_exceeded")]
                else [MessageAck(Sent, "", ""), MessageAck(Queued, "", "")]
      ensures e.id in unacked <==> !OutOfHops(e)
      ensures old(UnackedIsOpen()) ==> UnackedIsOpen()
    {
      hide AgentTopic, IsTerminal, Addressed, OpenAtEnd;
      if e.maxHops > 0 && e.hopCount >= e.maxHops {
        MarkDeadLetterEnvelope(e, "max_hops_exceeded");
        return DeadLettered;
      }
      var sent := e.(hopCount := e.hopCount + 1);
      Deliver(post, sent);
      NoteSent(sent);
      return Queued;
    }
  }

  lemma {:induction false} NextInRange(mailbox: seq<Envelope>, agent: string, k: nat)
    requires IsNextFor(mailbox, agent, k)
    ensures k < |mailbox|
  {
  }
}
