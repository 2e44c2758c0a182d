# Room registry of a mediasoup signaling server

This project models the bookkeeping core of a small WebRTC signaling server
built on mediasoup and socket.io. The server keeps one global `rooms`
object. It maps a room name to a `Map` from socket id to a peer record, and
each record holds a user id and the peer's transports, producers and
consumers. The socket handlers change this registry in place:

- `joinRoom` creates a room on first use and stores a fresh record.
- `createTransport`, `produce` and `consume` check a fixed sequence of
  lookups, then push a new engine handle onto the caller's record.
- `connectTransport` looks the transport up in the caller's own list and
  connects it unless it is already connected.
- `produce` tells every other peer of the room about the new producer.
- `getExistingProducers` sends the caller a snapshot of the other peers'
  producers.
- `disconnect` closes the peer's engine objects, removes the peer,
  notifies the rest and deletes the room once it is empty.

The model has three layers:

- `Engine`, `Messages` and `PeerTable` hold the values. Engine objects are
  opaque ids, and a JavaScript `Map` is a sequence of entries in insertion
  order. `get`, `set`, `delete` and the loops over the Map are functions on
  that sequence, each with the law it obeys.
- `Rooms` is the specification. Each handler is one atomic step
  `State -> State`. Callbacks and emits are appended to an outbox, and the
  calls the server makes into the media engine are appended to an engine
  log. Lemmas give each handler's error order and success shape. They also
  prove that each handler keeps the invariant `Valid`: every room in the
  registry has a peer, keys are unique, and a connected socket is a peer of
  the room it joined last. Any run of handlers keeps it. A run stops at a
  disconnect that throws, and skips calls from a socket that has already
  disconnected, since socket.io runs no handler for a closed socket.
- `Server.Registry` is a class whose fields are the registry, the sockets'
  `roomName` properties, the set of disconnected sockets, the outbox and
  the engine log. Each handler is a method that computes in the handler's
  own order. `joinRoom` and the snapshot assign their fields one at a
  time. `createTransport` logs the engine call, and `disconnect` marks the
  socket gone, before their other fields are assigned together;
  `disconnect` then removes an emptied room. The other handlers assign
  their new fields together at the end. Each method is proved to take
  exactly the step `Rooms` describes. The handlers' loops (the producer
  snapshot, the fan-outs, the owner search, the close calls) are
  `while`/`for` loops proved against the `PeerTable` functions.

What a handler awaits from the media engine is a parameter of the step
(`EngineResult`: the object made, or the message of the error thrown). The
same holds for whether `transport.connect` resolved and what
`router.canConsume` answered.

Four quirks of the code are modelled as written:

- A second `joinRoom` from the same socket overwrites that socket's record
  in the named room and its `roomName`. It does not leave the earlier
  room, so the earlier room keeps the old record even after the socket
  disconnects.
- `disconnect` reads `peer.userId` before it tests `peer`. When the room
  exists but does not hold the socket, the handler throws after the socket
  is gone and before any cleanup. The listener has no `catch`, so the
  exception is uncaught and Node ends the process; `Rooms.Run` stops at
  such a call. `Rooms.DisconnectFaults` names that case.
  In a valid state it needs a socket that never joined and a room literally
  named "undefined", since JavaScript turns the missing property into that
  key. `Rooms.DisconnectFaultExample` reaches it in two steps.
- `createTransport` asks the engine for the transport before it looks up
  the peer. A transport made for an unknown socket is left registered
  nowhere.
- `produce` treats an empty room name as not joined, and the other handlers
  do not.

Three more behaviours of the code are modelled as written:

- `consume` searches for the producer's owner in the caller's room only and
  does not fail when there is none: it reports a null owner.
- An unknown or foreign transport id in `connectTransport` is only logged,
  and nothing is replied.
- `joinRoom` reports only `{ joined: true }`.

## Model

| member | source | states |
|---|---|---|
| PeerTable.Get | server.js:202 | `get` is undefined exactly for a key the Map does not hold, and a found record is stored under that key |
| PeerTable.GetIn | server.js:202 | with unique keys, `get(c)` yields p exactly when the Map holds the entry c => p |
| PeerTable.Set | server.js:56 | `set` keeps every existing key in its place, adds c (at the end when new), and keeps keys unique |
| PeerTable.SetGet | server.js:56 | after `set(c, p)`, `get(c)` is p and every other key reads what it read before |
| PeerTable.Delete | server.js:338 | `delete` removes exactly the entries under c, and nothing else, keeping keys unique |
| PeerTable.DeleteKeepsOrder | server.js:338 | the entries that survive `delete` keep their Map order: they sit at strictly increasing positions of the old Map |
| PeerTable.DeleteGet | server.js:338 | after `delete(c)`, `get(c)` is undefined and every other key reads what it read before |
| PeerTable.TransportIndex | server.js:173 | `find` by id gives the first transport with that id, or nothing when no transport has it |
| PeerTable.FirstOwner | server.js:277-284 | the owner is the user id of the first peer in Map order holding the producer; null exactly when no peer holds it |
| PeerTable.ProducersOfOthers | server.js:95-108 | the snapshot has one entry per producer of every peer other than the caller |
| PeerTable.ProducersOfOthersSound | server.js:98-106 | every snapshot entry is a producer of another peer, tagged with that peer's user id |
| PeerTable.ProducersOfOthersComplete | server.js:98-106 | every producer of every other peer appears in the snapshot |
| PeerTable.ProducersOfOthersMembers | server.js:98-106 | an entry is in the snapshot if and only if it describes a producer of a peer other than the caller |
| PeerTable.Broadcast | server.js:231-240 | a fan-out sends only the given event, only to sockets of the room outside the skip set, and no more messages than the Map has entries |
| PeerTable.BroadcastOnce | server.js:231-240 | with unique keys, a fan-out sends its event to each socket of the room outside the skip set exactly once and to no other socket |
| PeerTable.BroadcastThenReply | server.js:231-242 | a fan-out followed by the callback still sends the event exactly once per other socket, sends the reply exactly once, and adds nothing but those events and the reply |
| PeerTable.CloseAll | server.js:333-335 | disconnect closes every transport, then every producer, then every consumer of the peer, in list order, and nothing else |
| Rooms.WithPeerReplaced | server.js:151 | pushing onto the caller's record replaces that record and no other, in no other room, keeps every key of the room in its Map position, and keeps the invariant |
| Rooms.JoinRoomRegisters | server.js:51-64 | joinRoom makes the room exist, stores a fresh record with empty lists under the socket, leaves every other record and room alone, keeps the existing keys of the room in their Map positions, and replies `{ joined: true }` |
| Rooms.JoinRoomKeepsValid | server.js:51-85 | joinRoom keeps the registry invariant |
| Rooms.GetExistingProducersReports | server.js:88-112 | without a room nothing is sent; otherwise the only change is one event to the caller whose list is exactly the other peers' producers, with the right count |
| Rooms.CreateTransportOutcome | server.js:119-169 | an engine error is replied; an unknown peer gets 'Peer not found' after the transport was made; otherwise exactly one unconnected transport is pushed onto the caller's record, the room's Map order is kept, and its parameters are replied |
| Rooms.CreateTransportKeepsValid | server.js:149-155 | createTransport keeps the registry invariant |
| Rooms.ConnectTransportOutcome | server.js:171-192 | nothing is ever sent; a missing peer, an id absent from the caller's own transports, an already connected transport or a failed connect change nothing; a found, unconnected transport whose connect resolved becomes connected, the connect call is logged, nothing is sent, no other record changes and the room's Map order is kept |
| Rooms.ConnectTransportKeepsValid | server.js:171-192 | connectTransport keeps the registry invariant |
| Rooms.ProduceOutcome | server.js:196-220 | produce checks room, then peer, then transport, each failing with its own message and no other change, and an engine error is replied as is |
| Rooms.ProduceRegisters | server.js:216-242 | on success only the caller's record gains the producer, the room's Map order is kept, the engine made it on the named transport, and the last message is the reply with its id |
| Rooms.ProduceKeepsValid | server.js:194-248 | produce keeps the registry invariant |
| Rooms.ProduceNotifiesOthersOnce | server.js:231-242 | a successful produce sends each other peer of the room exactly one newProducer (id, kind, caller's user id), and sends the caller its reply exactly once and nothing else |
| Rooms.ConsumeOutcome | server.js:250-322 | the compatibility check comes before any lookup; then room, peer and transport in order; on success exactly one consumer is pushed onto the caller's record, the room's Map order is kept, and the reply names the first owner of the producer in the room |
| Rooms.ConsumeKeepsValid | server.js:250-322 | consume keeps the registry invariant |
| Rooms.DisconnectFaults | server.js:326-331 | the handler throws only when the socket never joined and a room named "undefined" exists, and then no record is found |
| Rooms.DisconnectOutcome | server.js:324-356 | the socket is gone; a peer that was in the room has its objects closed and no longer in the room, every other record and room is kept, and the room survives exactly when another socket is still in it |
| Rooms.DisconnectKeepsOrder | server.js:338 | the peers left in the room after a disconnect keep their Map order: they sit at strictly increasing positions of the old Map |
| Rooms.DisconnectKeepsValid | server.js:324-356 | disconnect keeps the registry invariant |
| Rooms.DisconnectNotifiesConnectedOnce | server.js:338-347 | disconnect sends one user-disconnected with the departing user id to each remaining peer whose socket is still connected, and nothing else |
| Rooms.DisconnectFaultExample | server.js:326-331 | joining a room named "undefined" and then disconnecting a socket that never joined hits the fault |
| Rooms.StepKeepsValid | server.js:51-356 | every handler keeps the registry invariant |
| Rooms.RunKeepsValid | server.js:51-356 | any sequence of handler runs, up to a disconnect that throws and skipping calls from disconnected sockets, keeps the registry invariant |
| Rooms.ReachableValid | server.js:5 | every state reachable from the empty registry satisfies `Valid`: each room has at least one peer, keys are unique, and a connected socket is a peer of the room it joined last |
| Server.Registry.constructor | server.js:5 | the server starts with no rooms, no joined socket and nothing sent |
| Server.Registry.JoinRoom | server.js:51-85 | the method takes exactly the joinRoom step, keeping the invariant |
| Server.Registry.GetExistingProducers | server.js:88-112 | the nested loops build exactly the snapshot list that the getExistingProducers step sends |
| Server.Registry.GetRouterRtpCapabilities | server.js:115-117 | the router's capabilities are replied whether or not the socket joined, and nothing else changes |
| Server.Registry.CreateTransport | server.js:119-169 | the method takes exactly the createTransport step, keeping the invariant |
| Server.Registry.ConnectTransport | server.js:171-192 | the method takes exactly the connectTransport step, keeping the invariant |
| Server.Registry.Produce | server.js:194-248 | the method, with its fan-out loop, takes exactly the produce step, keeping the invariant |
| Server.Registry.Consume | server.js:250-322 | the method, with its owner search, takes exactly the consume step, keeping the invariant |
| Server.Registry.Disconnect | server.js:324-356 | the method takes exactly the disconnect step; it reports a fault exactly when the handler throws and a clean-up exactly when the socket had a record |
| Server.FindOwner | server.js:277-284 | the search loop stops at the first peer holding the producer and returns its user id, or null |
| Server.FanOut | server.js:231-240 | the loop emits exactly the fan-out messages, in Map order |
| Server.CloseCalls | server.js:333-335 | the three forEach loops make exactly the close calls for the departing peer |

## Left out

- Worker and router creation and the codec list (server.js:18-46) are left out. They are foreign library calls, and the router enters only through its capabilities.
- `router.canConsume` is not a function of the model. The answer it gave is a parameter of each consume step, so the model also allows different answers to repeated identical questions.
- WebRTC transport options, STUN servers and listen IPs (server.js:121-135) are left out. This is configuration handed to the media engine.
- The ICE and DTLS state-change handlers and the consumer close hooks (server.js:138-147, 299-306) are left out. They only log. The model marks a transport connected when `transport.connect` resolves, which folds the DTLS handshake into that one step.
- The HTTP and socket.io server setup and `listen` (server.js:7-13, 359-361) are left out. This is network I/O, and socket ids are plain strings.
- All console logging is left out.
- The commented-out join-time fan-out (server.js:67-82) is left out because it is dead code.
- The interleaving of `await`s inside a handler is left out. Each handler is one atomic step, and concurrency between handlers is not modelled.
- Server.Registry.Disconnect: reports `Faulted` where the real server process would end, but the class does not refuse later handler calls; only `Rooms.Run` models the crash as the end of the run.
- Server.Registry: its methods also accept calls from a socket that has disconnected, which socket.io never makes; `Rooms.Run` skips such calls, and the invariant proofs hold either way.
- Emits are appended to the outbox even when their target socket has since disconnected. Delivery is not modelled.
- Payload shapes other than strings (a non-string room name or user id, or a missing field), prototype properties of `rooms` such as a room named `constructor`, and errors other than engine errors caught by the handlers' `catch` blocks are left out.
- server.js has no moderator authority, muting, kicking, recording or main-video selection, so the model has none of them either.
