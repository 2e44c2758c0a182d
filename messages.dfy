/**
  What the server sends to connections: replies passed to a request's
  callback and events emitted on a socket.
 */
module Messages {
  import opened Engine

  const RoomNotFound := "Room not found"
  const PeerNotFound := "Peer not found"
  const TransportNotFound := "Transport not found"
  const CannotConsume := "Cannot consume producer"

  /** One element of the 'existingProducers' list */
  datatype ProducerInfo = ProducerInfo(producerId: ProducerId, kind: Kind, userId: UserId)

  /** The object a handler passes to its callback */
  datatype ReplyBody =
    | Joined
    | Failed(error: string)
    | RouterCapabilities(rtpCapabilities: Blob)
    | TransportParams(transport: NewTransport)
    | ProducerCreated(producerId: ProducerId)
    | ConsumerParams(consumerId: ConsumerId, producerId: ProducerId, kind: Kind, rtpParameters: Blob,
                     producerUserId: Option<UserId>)

  /** A fire-and-forget event emitted to one socket */
  datatype EventBody =
    | NewProducer(producerId: ProducerId, kind: Kind, remoteUserId: UserId)
    | ExistingProducers(producers: seq<ProducerInfo>)
    | UserDisconnected(userId: UserId)

  datatype Message =
    | Reply(to: ConnId, body: ReplyBody)
    | Event(to: ConnId, event: EventBody)
}
