/** The gated outbound buffer of the Lively2Lively client (MessageQueue) and the
    socket it writes to, reduced to the log of envelopes it has sent. */
module MessageQueues {
  import opened Messages

  /** The WebSocket connection, seen only through what was sent on it. */
  class SocketClient {
    var sent: seq<Envelope>

    constructor ()
      ensures sent == []
    {
      sent := [];
    }

    /** Writes one frame to the socket. */
    method Send(e: Envelope)
      modifies this
      ensures sent == old(sent) + [e]
    {
      sent := sent + [e];
    }

    /** send_message: an {action, data, target} frame, target null when absent. */
    method SendMessage(action: string, data: Payload, otherID: Option<string>)
      modifies this
      ensures sent == old(sent) + [Routed(action, data, otherID)]
    {
      Send(Routed(action, data, otherID));
    }
  }

  /** The envelopes that draining backlog `q` sends, in the order they go out:
      each step pops the most recently queued record, so the order is last in,
      first out. */
  function Drain(q: seq<Queued>): (r: seq<Envelope>)
    ensures |r| == |q|
  {
    if q == [] then [] else [q[|q| - 1].ToEnvelope()] + Drain(q[..|q| - 1])
  }

  /** The envelopes of backlog `q` in the order they were queued. */
  function Outgoing(q: seq<Queued>): seq<Envelope> {
    seq(|q|, i requires 0 <= i < |q| => q[i].ToEnvelope())
  }

  /** The k-th envelope drained is the k-th most recently queued record. */
  lemma {:induction false} DrainAt(q: seq<Queued>, k: nat)
    requires k < |q|
    ensures Drain(q)[k] == q[|q| - 1 - k].ToEnvelope()
  {
    if k > 0 {
      DrainAt(q[..|q| - 1], k - 1);
    }
  }

  /** Draining sends every queued record exactly once: no loss, no duplication. */
  lemma {:induction false} DrainSendsEachOnce(q: seq<Queued>)
    ensures multiset(Drain(q)) == multiset(Outgoing(q))
  {
    if q != [] {
      var front := q[..|q| - 1];
      DrainSendsEachOnce(front);
      assert Outgoing(q) == Outgoing(front) + [q[|q| - 1].ToEnvelope()];
    }
  }

  /** Two records queued in order a, b are sent as b, a. */
  lemma DrainReversesPair(a: Queued, b: Queued)
    ensures Drain([a, b]) == [b.ToEnvelope(), a.ToEnvelope()]
  {
  }

  /** The backlog after setTargetID(id): every record now addressed to `id`,
      in the same order and with the same action and data. */
  function Retarget(q: seq<Queued>, id: Option<string>): (r: seq<Queued>)
    ensures |r| == |q|
    ensures forall k :: 0 <= k < |q| ==>
      r[k].id == id && r[k].action == q[k].action && r[k].data == q[k].data
  {
    if q == [] then [] else [q[0].(id := id)] + Retarget(q[1..], id)
  }

  /** A backlog that was retargeted and then drained reaches `id` in full. */
  lemma DrainRetargeted(q: seq<Queued>, id: Option<string>)
    ensures forall k :: 0 <= k < |q| ==>
      Drain(Retarget(q, id))[k] == Routed(q[|q| - 1 - k].action, q[|q| - 1 - k].data, id)
  {
    var r := Retarget(q, id);
    forall k | 0 <= k < |q|
      ensures Drain(r)[k] == Routed(q[|q| - 1 - k].action, q[|q| - 1 - k].data, id)
    {
      var n := |q| - 1 - k;
      DrainAt(r, k);
      assert r[n].id == id && r[n].action == q[n].action && r[n].data == q[n].data;
    }
  }

  /** A gate in front of the socket: while closed, messages wait in
      queuedMessages; once open, they go straight out. */
  class MessageQueue {
    var readyToSend: bool
    var queuedMessages: seq<Queued>
    const socketClient: SocketClient

    constructor (socketClient: SocketClient)
      ensures !readyToSend && queuedMessages == []
      ensures this.socketClient == socketClient
    {
      readyToSend := false;
      queuedMessages := [];
      this.socketClient := socketClient;
    }

    /** Record `m` was handed to the queue: sent at once when the gate was open,
        otherwise appended to the backlog; never both. */
    twostate predicate Accepted(m: Queued)
      reads this, socketClient
    {
      if old(readyToSend) then
        socketClient.sent == old(socketClient.sent) + [m.ToEnvelope()] &&
        queuedMessages == old(queuedMessages)
      else
        socketClient.sent == old(socketClient.sent) &&
        queuedMessages == old(queuedMessages) + [m]
    }

    method QueueToSend(action: string, data: Payload, otherID: Option<string>)
      modifies this`queuedMessages, socketClient
      ensures Accepted(Queued(action, data, otherID))
    {
      if readyToSend {
        socketClient.SendMessage(action, data, otherID);
      } else {
        queuedMessages := queuedMessages + [Queued(action, data, otherID)];
      }
    }

    /** Opens the gate and empties the backlog onto the socket, popping from
        the tail. */
    method EnableSending()
      modifies this, socketClient
      ensures readyToSend && queuedMessages == []
      ensures socketClient.sent == old(socketClient.sent) + Drain(old(queuedMessages))
    {
      readyToSend := true;
      while |queuedMessages| > 0
        invariant readyToSend
        invariant socketClient.sent + Drain(queuedMessages)
               == old(socketClient.sent) + Drain(old(queuedMessages))
        decreases |queuedMessages|
      {
        ghost var before := socketClient.sent;
        var msg := queuedMessages[|queuedMessages| - 1];
        ghost var rest := Drain(queuedMessages[..|queuedMessages| - 1]);
        assert Drain(queuedMessages) == [msg.ToEnvelope()] + rest;
        queuedMessages := queuedMessages[..|queuedMessages| - 1];
        socketClient.SendMessage(msg.action, msg.data, msg.id);
        assert socketClient.sent + rest == before + ([msg.ToEnvelope()] + rest);
      }
    }

    /** Closes the gate; the backlog and the socket are untouched. */
    method DisableSending()
      modifies this`readyToSend
      ensures !readyToSend
    {
      readyToSend := false;
    }

    /** Readdresses every waiting record to `id`. */
    method SetTargetID(id: Option<string>)
      modifies this`queuedMessages
      ensures queuedMessages == Retarget(old(queuedMessages), id)
    {
      var i := 0;
      while i < |queuedMessages|
        invariant 0 <= i <= |queuedMessages| == |old(queuedMessages)|
        invariant forall k :: 0 <= k < i ==> queuedMessages[k] == old(queuedMessages)[k].(id := id)
        invariant forall k :: i <= k < |queuedMessages| ==> queuedMessages[k] == old(queuedMessages)[k]
      {
        queuedMessages := queuedMessages[i := queuedMessages[i].(id := id)];
        i := i + 1;
      }
      assert queuedMessages == Retarget(old(queuedMessages), id);
    }
  }

  /** One queue through its whole protocol: two records wait while the gate is
      closed, are readdressed, and go out newest first when it opens; the next
      record goes straight out; after the gate closes again, records wait. */
  method GateScenario() returns (sent: seq<Envelope>, waiting: seq<Queued>)
    ensures sent == [
      Routed("second", Opaque("2"), Some("peer")),
      Routed("first", Opaque("1"), Some("peer")),
      Routed("third", Opaque("3"), None)]
    ensures waiting == [Queued("fourth", Opaque("4"), None)]
  {
    var socket := new SocketClient();
    var queue := new MessageQueue(socket);
    queue.QueueToSend("first", Opaque("1"), None);
    queue.QueueToSend("second", Opaque("2"), None);
    assert socket.sent == [];
    queue.SetTargetID(Some("peer"));
    queue.EnableSending();
    DrainRetargeted([Queued("first", Opaque("1"), None), Queued("second", Opaque("2"), None)], Some("peer"));
    queue.QueueToSend("third", Opaque("3"), None);
    queue.DisableSending();
    queue.QueueToSend("fourth", Opaque("4"), None);
    sent, waiting := socket.sent, queue.queuedMessages;
  }
}
