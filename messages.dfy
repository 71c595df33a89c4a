/** Values exchanged between a Lively2Lively client, the session tracker and a peer.
    JSON is not modelled: every message is an already-structured value. */
module Messages {

  datatype Option<+T> = None | Some(value: T)

  /** One session as the tracker publishes it: a JSON object such as
      {"user": ..., "worldURL": ...}; only string-valued fields are represented. */
  type Entry = map<string, string>

  /** The sessions of one tracker instance, session id -> entry, in iteration order. */
  type SessionGroup = seq<(string, Entry)>

  /** A getSessions reply: tracker id -> group, in iteration order. Python's dict
      order is not visible here, so "first" means first in these sequences. */
  type SessionTable = seq<(string, SessionGroup)>

  /** The `data` part of a message. The queues never look inside it. */
  datatype Payload =
    | SessionsRequest                                         // {'options': []}
    | Registration(user: string, id: string, worldURL: string) // data of registerClient
    | Sessions(table: SessionTable)                           // data of a getSessions reply
    | Opaque(text: string)                                    // any other JSON value, carried unexamined

  /** What goes over the socket. send_message always writes a 'target' key
      (null when there is no target); registerSelf writes none at all. */
  datatype Envelope =
    | Routed(action: string, data: Payload, target: Option<string>)
    | Bare(action: string, data: Payload)

  /** A record waiting in a MessageQueue: the dict {'action', 'data', 'id'}. */
  datatype Queued = Queued(action: string, data: Payload, id: Option<string>)
  {
    /** The envelope send_message produces for this record. */
    function ToEnvelope(): Envelope {
      Routed(action, data, id)
    }
  }
}
