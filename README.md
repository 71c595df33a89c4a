# Lively2Lively client: gated queues and peer discovery

A model of the Python Lively2Lively client (`python/livelyClient.py`). The
client connects to a Lively session tracker. It registers itself and asks the
tracker for its table of live sessions. It then picks as its peer the session
whose advertised world URL is the one it was told to find. After that it
exchanges `(action, data)` messages with that peer through the tracker.

The model has four modules:

- `Messages` (messages.dfy) holds the values that travel. A `Payload` is the
  `data` of a message. An `Envelope` is what goes over the socket:
  - `Routed(action, data, target)` is what `send_message` writes; the target
    is `None` when the source writes `null`;
  - `Bare(action, data)` is the `registerClient` frame, which has no target key.

  A `Queued` record is the `{action, data, id}` dict a queue holds. A
  getSessions reply is a `SessionTable`: tracker id → (session id → entry),
  written as nested sequences in iteration order.
- `MessageQueues` (message_queue.dfy) holds two classes:
  - `SocketClient` is the socket, reduced to an append-only log `sent`.
  - `MessageQueue` has the fields `readyToSend` and `queuedMessages`, and a
    sink that is shared with the client.

  Two functions specify what the queue does with its backlog. `Drain(q)` is
  the envelopes that `enableSending` sends. Because each step does `pop()`,
  the last record queued goes out first. `Retarget(q, id)` is the backlog
  after `setTargetID`. `GateScenario` runs one queue through its protocol.
- `Discovery` (discovery.dfy) is the scan that `find_correct_peer` performs,
  as pure functions. `Locate` gives the position of the first entry, in scan
  order, whose `worldURL` equals the URL to find. `PeerIn` gives that entry's
  session id.
- `Client` (lively_client.dfy) holds the `LivelyClient` class. It owns both
  queues, the handler table, the peer binding `otherID` and the socket.

  Handlers are closures in the source; here they are tags. `FindPeer` is the
  discovery closure and `External(name)` is any application handler.
  `FindCorrectPeer` is the imperative scan with early exit, proved against
  `PeerIn`. `ReceivedMessage` routes through `Lookup`.

  `StartTestProgram` and `HandshakeScenario` replay the source's test program
  against two tracker replies. The first reply holds no match, so discovery
  retries. The second reply holds the peer. The message queued for the peer
  before discovery reaches it, addressed to the discovered session.

`enableSending` drains last-in-first-out, as `pop()` does
(python/livelyClient.py:40-42). Action names may be empty, because nothing in
the code checks them.

## Model

| member | source | states |
|---|---|---|
| `MessageQueues.SocketClient.SendMessage` | python/livelyClient.py:174-177 | the sent log grows by exactly one `{action, data, target}` envelope carrying the given target |
| `MessageQueues.MessageQueue.constructor` | python/livelyClient.py:27-30 | a new queue is closed (`readyToSend` false), has an empty backlog and writes to the given socket |
| `MessageQueues.MessageQueue.QueueToSend` | python/livelyClient.py:32-36 | through `Accepted`: if the gate is open, exactly one envelope is sent and the backlog is unchanged; if it is closed, nothing is sent and exactly one record is appended at the tail; `readyToSend` is untouched |
| `MessageQueues.MessageQueue.EnableSending` | python/livelyClient.py:38-42 | afterwards the gate is open and the backlog empty; the sent log grows by exactly `Drain` of the old backlog |
| `MessageQueues.MessageQueue.DisableSending` | python/livelyClient.py:44-45 | the gate is closed; its frame is `readyToSend` alone, so the backlog and the sent log are untouched |
| `MessageQueues.MessageQueue.SetTargetID` | python/livelyClient.py:47-48 | the backlog becomes `Retarget(old backlog, id)`; the gate and the socket are outside its frame, so nothing is sent |
| `MessageQueues.GateScenario` | python/livelyClient.py:26-48 | two records queued while closed and then retargeted go out newest first, both to the new target, when the gate opens. The next record goes out at once. After `disableSending` a record waits again. |
| `MessageQueues.Drain` | python/livelyClient.py:40-42 | draining sends one envelope per queued record |
| `MessageQueues.DrainAt` | python/livelyClient.py:40-42 | the k-th envelope drained is the k-th most recently queued record: reverse queueing order |
| `MessageQueues.DrainSendsEachOnce` | python/livelyClient.py:38-42 | the drained envelopes are, as a multiset, exactly the queued records: no loss, no duplication |
| `MessageQueues.DrainReversesPair` | python/livelyClient.py:40-42 | two records queued a then b are sent b then a |
| `MessageQueues.Retarget` | python/livelyClient.py:47-48 | same length and order; every record carries the new id and keeps its action and data |
| `MessageQueues.DrainRetargeted` | python/livelyClient.py:79-80 | a backlog retargeted to `id` and then drained sends every record to `id`, in reverse queueing order |
| `Discovery.LocateInGroup` | python/livelyClient.py:74-77 | the index of the first session in a group that has a `worldURL` equal to the URL, with no earlier match; or none when no session there matches |
| `Discovery.Locate` | python/livelyClient.py:71-82 | the first matching (group, session) position in nested scan order, with no match at any earlier position; or none when no entry anywhere matches (entries without `worldURL` never match; empty groups contribute nothing) |
| `Discovery.PeerIn` | python/livelyClient.py:70-86 | a peer is found if and only if some entry advertises the URL |
| `Discovery.PeerInSingleMatch` | python/livelyClient.py:73-82 | with exactly one advertising entry, its session id is the peer, whatever non-matching entries and empty groups surround it |
| `Discovery.PeerInIgnoresLaterGroups` | python/livelyClient.py:77-82 | once a match is found, groups later in the scan cannot change the result (the early `return`) |
| `Client.Lookup` | python/livelyClient.py:156-159 | a handler is called if and only if the action is in the table, and it is the handler registered for that action; otherwise the fallback is selected |
| `Client.LastRegistrationWins` | python/livelyClient.py:97-98 | after registering two handlers for one action, the second is dispatched; other actions keep their handlers |
| `Client.SessionURLIdentifiesClient` | python/livelyClient.py:118-119 | for session ids of equal length, two advertised world URLs are equal exactly when the users and the session ids are equal |
| `Client.LivelyClient.constructor` | python/livelyClient.py:61-88 | `otherID` is none and both gates are closed. The peer backlog is empty and the tracker backlog is exactly one `getSessions` request with no target. `handlers` maps `getSessions` to the discovery handler and nothing else. Nothing is sent. |
| `Client.LivelyClient.SetMessageHandler` | python/livelyClient.py:97-98 | `handlers[action]` becomes the handler and every other key is unchanged |
| `Client.LivelyClient.GetSessionID` | python/livelyClient.py:104-105 | the session id the client was created with |
| `Client.LivelyClient.GetUser` | python/livelyClient.py:111-112 | the user the client was created with |
| `Client.LivelyClient.WorldURL` | python/livelyClient.py:118-119 | the advertised URL is the fixed `http://localhost/livelySession/` prefix, then the user, a slash and the session id, so it identifies the client (see `SessionURLIdentifiesClient`) |
| `Client.LivelyClient.RegisterSelf` | python/livelyClient.py:126-128 | exactly one `registerClient` frame carrying user, session id and world URL is written straight to the socket, bypassing both gates |
| `Client.LivelyClient.Opened` | python/livelyClient.py:142-145 | the sent log grows by the registration and then by the drained tracker backlog; the tracker gate is open and its backlog empty; the peer queue and the handler table are outside its frame |
| `Client.LivelyClient.SendOnConnection` | python/livelyClient.py:187-188 | the tracker queue accepts `(action, data)` with no target (sent or queued per its gate); the peer queue is untouched |
| `Client.LivelyClient.SendToPeer` | python/livelyClient.py:193-194 | the peer queue accepts `(action, data)` addressed to the current `otherID` |
| `Client.LivelyClient.FindCorrectPeer` | python/livelyClient.py:70-86 | through `Discovered`: on a hit, binds the first advertising session, retargets and drains the peer backlog and opens the peer gate; on a miss, reinstalls itself and hands a new `getSessions` request to the tracker queue (details below) |
| `Client.LivelyClient.ReceivedMessage` | python/livelyClient.py:152-159 | the outcome is fixed by `Lookup` on the old table: fallback, application handler, or discovery; only discovery on a session table changes state, exactly as `Discovered` says (details below) |
| `Client.StartTestProgram` | python/livelyClient.py:226-232 | after the test program's setup and the connection opening, the sent log is the registration followed by the one `getSessions` request, and the peer message waits untargeted in the closed peer queue |
| `Client.HandshakeScenario` | python/livelyClient.py:226-235 | after a missed and then a matching tracker reply, the peer is `sess-1`. The sent log is the registration, two `getSessions` requests, and the early peer message addressed to `sess-1`. The application handler and the fallback are each selected by action. |

`FindCorrectPeer` is specified through the predicate `Discovered`:

- On a hit, where `PeerIn` gives `sid`:
  - `otherID` becomes `sid`;
  - the old peer backlog is retargeted to `sid` and drained onto the socket;
  - the peer gate ends open with an empty backlog;
  - the handler table and the tracker backlog are unchanged.
- On a miss:
  - `otherID` and the peer queue are unchanged;
  - `handlers["getSessions"]` is set to the discovery handler;
  - the tracker queue accepts a new `getSessions` request.

`ReceivedMessage` routes by `Lookup` on the handlers held before the call:

- An unknown action selects the fallback. Nothing changes.
- An application handler is invoked with the data. Nothing else changes in
  the model.
- The discovery handler on a session table has exactly the effect given by
  `Discovered`.

## Left out

- The ws4py transport is not modelled. This covers connecting, the run loop,
  `close`, the tracker URL and the `lively-json` protocol argument. The socket
  is only the log of frames written to it.
- JSON is not modelled. `received_message` is modelled after parsing, taking
  `(action, data)`. Text that does not parse, or that lacks an `action` or a
  `data` key, is not modelled.
- `uuid.uuid4()` is not modelled: the session id is a constructor parameter.
- `LivelyClientRunner` and the thread and sleeps of the test program are not
  modelled. Only the sequence of calls the test program makes is modelled.
- The `print` in `closed` and in the discovery handler has no model. Nor does
  `closed`, which only prints.
- `messageNotUnderstood` is modelled as its selection only. As written, it
  lacks `self` and names an undefined variable, so calling it would raise.
- The effects of application handlers are not modelled. They are arbitrary
  closures; dispatch records which one was invoked and with what data.
- `Client.LivelyClient.ReceivedMessage`: discovery handler given data that
  is not a session table. The model returns `BadSessions` and leaves every
  piece of state unchanged. Python raises for most such payloads. An empty
  string or an empty list instead iterates nothing and takes the retry path;
  the model does not reproduce that.
- Session entries are modelled as string-to-string maps. Non-string
  `worldURL` values and entries that are not dicts are not represented.
- Python dict iteration order is modelled as the order of the sequences in a
  `SessionTable`. Python does not define which of several matching sessions
  comes first.
- The model assumes one sequential caller. The source has no locking, and
  calls from other threads could interleave with the queue operations; that
  is not modelled.
- `MessageQueues.MessageQueue.SetTargetID` rewrites only the records queued
  at the call, as the code at python/livelyClient.py:47-48 does. The comment at
  python/livelyClient.py:23 says it also sets the target of future messages;
  the code does not, and neither does the model.
- Target ids are `Option<string>`. Python would accept any value as a target
  id.
