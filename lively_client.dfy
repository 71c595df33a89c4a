/** The Lively2Lively client: two gated queues (tracker-bound and peer-bound)
    over one socket, a table of message handlers, and the discovery handler that
    binds the peer and opens the peer queue. */
module Client {
  import opened Messages
  import opened MessageQueues
  import opened Discovery

  /** Handlers are closures in the source; here each is named by a tag.
      FindPeer is the discovery closure the constructor installs; External(name)
      is any handler application code registers. */
  datatype Handler = FindPeer | External(name: string)

  /** The routing decision for an inbound action. */
  datatype Route = Call(handler: Handler) | Fallback

  /** What receiving a message did. */
  datatype Dispatch =
    | PeerSearch                            // the discovery handler ran
    | BadSessions                           // the discovery handler got data that is not a session table
    | Delegated(name: string, data: Payload) // an application handler was invoked with data
    | Unhandled(action: string, data: Payload) // messageNotUnderstood was selected

  /** Dispatch looks the action up in the handler table, falling back when absent. */
  function Lookup(handlers: map<string, Handler>, action: string): (r: Route)
    ensures r.Call? <==> action in handlers
    ensures r.Call? ==> r.handler == handlers[action]
  {
    if action in handlers then Call(handlers[action]) else Fallback
  }

  /** Registering a handler overwrites: the last registration for an action wins,
      and other actions keep their handlers. */
  lemma LastRegistrationWins(handlers: map<string, Handler>, action: string, first: Handler, second: Handler, other: string)
    requires other != action
    ensures Lookup(handlers[action := first][action := second], action) == Call(second)
    ensures Lookup(handlers[action := second], other) == Lookup(handlers, other)
  {
  }

  const SessionURLPrefix := "http://localhost/livelySession/"

  /** The made-up world URL a client advertises to the session tracker. */
  function SessionURL(user: string, sessionID: string): string {
    SessionURLPrefix + user + "/" + sessionID
  }

  /** Session ids of one length (uuid4 strings all have 36 characters): the
      advertised URL identifies both the user and the session. */
  lemma SessionURLIdentifiesClient(u1: string, s1: string, u2: string, s2: string)
    requires |s1| == |s2|
    ensures SessionURL(u1, s1) == SessionURL(u2, s2) <==> u1 == u2 && s1 == s2
  {
    var p := |SessionURLPrefix|;
    if SessionURL(u1, s1) == SessionURL(u2, s2) {
      var w := SessionURL(u1, s1);
      assert |u1| == |u2|;
      assert u1 == w[p..p + |u1|] == u2;
      assert s1 == w[p + |u1| + 1..] == s2;
    }
  }

  class LivelyClient {
    const user: string
    const sessionID: string
    const livelyPeerURL: string
    var handlers: map<string, Handler>
    var otherID: Option<string>
    const socket: SocketClient
    const sendOnConnectionQueue: MessageQueue
    const sendToPeerQueue: MessageQueue

    /** Both queues are distinct and write to this client's socket. */
    ghost predicate Valid() {
      sendOnConnectionQueue != sendToPeerQueue &&
      sendOnConnectionQueue.socketClient == socket &&
      sendToPeerQueue.socketClient == socket
    }

    /** A new client: nothing sent, both gates closed, no peer, the discovery
        handler installed and one getSessions request waiting for the tracker.
        The session id is a parameter (the source draws a fresh uuid4). */
    constructor (user: string, urlToFind: string, sessionID: string)
      ensures Valid() && fresh(socket) && fresh(sendOnConnectionQueue) && fresh(sendToPeerQueue)
      ensures this.user == user && this.sessionID == sessionID && livelyPeerURL == urlToFind
      ensures otherID == None && handlers == map["getSessions" := FindPeer]
      ensures socket.sent == []
      ensures !sendOnConnectionQueue.readyToSend
      ensures sendOnConnectionQueue.queuedMessages == [Queued("getSessions", SessionsRequest, None)]
      ensures !sendToPeerQueue.readyToSend && sendToPeerQueue.queuedMessages == []
    {
      this.user := user;
      this.sessionID := sessionID;
      handlers := map[];
      otherID := None;
      var s := new SocketClient();
      socket := s;
      sendOnConnectionQueue := new MessageQueue(s);
      sendToPeerQueue := new MessageQueue(s);
      livelyPeerURL := urlToFind;
      new;
      SetMessageHandler("getSessions", FindPeer);
      SendOnConnection("getSessions", SessionsRequest);
    }

    method SetMessageHandler(action: string, handler: Handler)
      modifies this`handlers
      ensures handlers == old(handlers)[action := handler]
    {
      handlers := handlers[action := handler];
    }

    function GetSessionID(): (r: string)
      ensures r == sessionID
    {
      sessionID
    }

    function GetUser(): (r: string)
      ensures r == user
    {
      user
    }

    /** The URL this client advertises: the fixed localhost prefix, then the
        user, a slash and the session id. */
    function WorldURL(): (r: string)
      ensures |r| == |SessionURLPrefix| + |user| + 1 + |sessionID|
      ensures r[..|SessionURLPrefix|] == SessionURLPrefix
      ensures r[|SessionURLPrefix|..|SessionURLPrefix| + |user|] == user
      ensures r[|SessionURLPrefix| + |user|] == '/'
      ensures r[|r| - |sessionID|..] == sessionID
    {
      SessionURL(user, sessionID)
    }

    /** Sends the registerClient message straight to the socket, past both gates. */
    method RegisterSelf()
      modifies socket
      ensures socket.sent == old(socket.sent) + [Bare("registerClient", Registration(user, sessionID, WorldURL()))]
    {
      socket.Send(Bare("registerClient", Registration(user, sessionID, WorldURL())));
    }

    /** Connection open: register first, then open the tracker gate and flush
        whatever waited for it. The peer queue is untouched. */
    method Opened()
      requires Valid()
      modifies socket, sendOnConnectionQueue
      ensures socket.sent == old(socket.sent)
        + [Bare("registerClient", Registration(user, sessionID, WorldURL()))]
        + Drain(old(sendOnConnectionQueue.queuedMessages))
      ensures sendOnConnectionQueue.readyToSend && sendOnConnectionQueue.queuedMessages == []
    {
      RegisterSelf();
      sendOnConnectionQueue.EnableSending();
    }

    /** A message for the tracker, with no target. */
    method SendOnConnection(action: string, data: Payload)
      requires Valid()
      modifies sendOnConnectionQueue`queuedMessages, socket
      ensures sendOnConnectionQueue.Accepted(Queued(action, data, None))
    {
      sendOnConnectionQueue.QueueToSend(action, data, None);
    }

    /** A message for the peer, addressed to whatever peer is bound now. */
    method SendToPeer(action: string, data: Payload)
      requires Valid()
      modifies sendToPeerQueue`queuedMessages, socket
      ensures sendToPeerQueue.Accepted(Queued(action, data, otherID))
    {
      sendToPeerQueue.QueueToSend(action, data, otherID);
    }

    /** The effect of the discovery handler on a getSessions reply. On a hit the
        first advertising session becomes the peer, the waiting peer messages
        are readdressed to it and sent, and the peer gate opens. On a miss the
        handler reinstalls itself and asks the tracker again. */
    twostate predicate Discovered(table: SessionTable)
      requires Valid()
      reads this, socket, sendOnConnectionQueue, sendToPeerQueue
    {
      match PeerIn(table, livelyPeerURL)
      case Some(sid) =>
        otherID == Some(sid) && handlers == old(handlers) &&
        sendToPeerQueue.readyToSend && sendToPeerQueue.queuedMessages == [] &&
        socket.sent == old(socket.sent) + Drain(Retarget(old(sendToPeerQueue.queuedMessages), Some(sid))) &&
        sendOnConnectionQueue.queuedMessages == old(sendOnConnectionQueue.queuedMessages)
      case None =>
        otherID == old(otherID) && handlers == old(handlers)["getSessions" := FindPeer] &&
        sendToPeerQueue.readyToSend == old(sendToPeerQueue.readyToSend) &&
        sendToPeerQueue.queuedMessages == old(sendToPeerQueue.queuedMessages) &&
        sendOnConnectionQueue.Accepted(Queued("getSessions", SessionsRequest, None))
    }

    /** find_correct_peer: scans the reply group by group, session by session,
        and acts on the first session whose worldURL is the URL to find. */
    method FindCorrectPeer(data: SessionTable)
      requires Valid()
      modifies this`otherID, this`handlers, socket, sendOnConnectionQueue`queuedMessages, sendToPeerQueue
      ensures Discovered(data)
    {
      var i := 0;
      while i < |data|
        invariant 0 <= i <= |data|
        invariant forall g, j :: 0 <= g < i ==> !MatchAt(data, livelyPeerURL, g, j)
        invariant otherID == old(otherID) && handlers == old(handlers)
        invariant unchanged(socket, sendOnConnectionQueue, sendToPeerQueue)
      {
        var group := data[i].1;
        if |group| == 0 {
          i := i + 1;
          continue;
        }
        var j := 0;
        while j < |group|
          invariant 0 <= j <= |group|
          invariant forall k :: 0 <= k < j ==> !MatchAt(data, livelyPeerURL, i, k)
          invariant otherID == old(otherID) && handlers == old(handlers)
          invariant unchanged(socket, sendOnConnectionQueue, sendToPeerQueue)
        {
          var entry := group[j].1;
          if "worldURL" !in entry {
            j := j + 1;
            continue;
          }
          if entry["worldURL"] == livelyPeerURL {
            assert MatchAt(data, livelyPeerURL, i, j);
            var p := Locate(data, livelyPeerURL).value;
            assert !Before(p.0, p.1, (i, j));
            assert p == (i, j);
            otherID := Some(group[j].0);
            sendToPeerQueue.SetTargetID(otherID);
            sendToPeerQueue.EnableSending();
            return;
          }
          j := j + 1;
        }
        i := i + 1;
      }
      SetMessageHandler("getSessions", FindPeer);
      SendOnConnection("getSessions", SessionsRequest);
    }

    /** received_message after parsing: run the handler registered for the
        action, or select messageNotUnderstood when there is none. */
    method ReceivedMessage(action: string, data: Payload) returns (outcome: Dispatch)
      requires Valid()
      modifies this`otherID, this`handlers, socket, sendOnConnectionQueue`queuedMessages, sendToPeerQueue
      ensures outcome == match Lookup(old(handlers), action)
        case Fallback => Unhandled(action, data)
        case Call(External(name)) => Delegated(name, data)
        case Call(FindPeer) => if data.Sessions? then PeerSearch else BadSessions
      ensures outcome == PeerSearch ==> Discovered(data.table)
      ensures outcome != PeerSearch ==>
        otherID == old(otherID) && handlers == old(handlers) &&
        unchanged(socket, sendOnConnectionQueue, sendToPeerQueue)
    {
      if action in handlers {
        match handlers[action]
        case FindPeer =>
          if data.Sessions? {
            FindCorrectPeer(data.table);
            outcome := PeerSearch;
          } else {
            outcome := BadSessions;
          }
        case External(name) =>
          outcome := Delegated(name, data);
      } else {
        outcome := Unhandled(action, data);
      }
    }
  }

  const PeerURL := "http://www.lively-web.org/users/rick/testl2l.html"

  /** The source's test program up to the moment the connection opens: a
      result handler registered, one message for the peer queued before any peer
      is known, then registration and the flush of the tracker queue. */
  method StartTestProgram(sessionID: string) returns (client: LivelyClient)
    ensures fresh(client) && fresh(client.socket) && client.Valid() && client.livelyPeerURL == PeerURL
    ensures fresh(client.sendOnConnectionQueue) && fresh(client.sendToPeerQueue)
    ensures client.otherID == None
    ensures client.handlers == map["getSessions" := FindPeer, "users.rick.myClientServiceResult" := External("test_result")]
    ensures client.socket.sent == [
      Bare("registerClient", Registration("rick", sessionID, SessionURL("rick", sessionID))),
      Routed("getSessions", SessionsRequest, None)]
    ensures client.sendOnConnectionQueue.readyToSend && client.sendOnConnectionQueue.queuedMessages == []
    ensures !client.sendToPeerQueue.readyToSend
    ensures client.sendToPeerQueue.queuedMessages == [Queued("users.rick.myClientService", Opaque("hello, world!"), None)]
  {
    client := new LivelyClient("rick", PeerURL, sessionID);
    client.SetMessageHandler("users.rick.myClientServiceResult", External("test_result"));
    client.SendToPeer("users.rick.myClientService", Opaque("hello, world!"));
    client.Opened();
  }

  /** The rest of the test program against two tracker replies: the first
      advertises no matching world (an empty group, an entry without worldURL,
      another world), so discovery asks again; the second holds the peer. The
      message queued for the peer before anything was known reaches it,
      addressed to the discovered session; an application handler and the
      fallback are then selected by action. */
  method HandshakeScenario(sessionID: string) returns (sent: seq<Envelope>, peer: Option<string>, outcomes: seq<Dispatch>)
    ensures peer == Some("sess-1")
    ensures sent == [
      Bare("registerClient", Registration("rick", sessionID, SessionURL("rick", sessionID))),
      Routed("getSessions", SessionsRequest, None),
      Routed("getSessions", SessionsRequest, None),
      Routed("users.rick.myClientService", Opaque("hello, world!"), Some("sess-1"))]
    ensures outcomes == [
      PeerSearch, PeerSearch,
      Delegated("test_result", Opaque("{\"answer\": 42}")),
      Unhandled("users.rick.unknown", Opaque(""))]
  {
    var client := StartTestProgram(sessionID);
    var miss: SessionTable := [
      ("trackerA", []),
      ("trackerB", [("sess-0", map["user" := "bob"]), ("sess-2", map["worldURL" := "http://elsewhere"])])];
    assert PeerIn(miss, PeerURL) == None;
    var o1 := client.ReceivedMessage("getSessions", Sessions(miss));
    var hit: SessionTable := [("trackerA", [("sess-1", map["worldURL" := PeerURL])])];
    assert MatchAt(hit, PeerURL, 0, 0);
    assert PeerIn(hit, PeerURL) == Some("sess-1");
    var o2 := client.ReceivedMessage("getSessions", Sessions(hit));
    DrainRetargeted([Queued("users.rick.myClientService", Opaque("hello, world!"), None)], Some("sess-1"));
    var o3 := client.ReceivedMessage("users.rick.myClientServiceResult", Opaque("{\"answer\": 42}"));
    var o4 := client.ReceivedMessage("users.rick.unknown", Opaque(""));
    sent, peer, outcomes := client.socket.sent, client.otherID, [o1, o2, o3, o4];
  }
}
