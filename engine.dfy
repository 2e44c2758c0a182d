/**
  The media engine as the signaling server sees it: opaque ids, the handles
  the server keeps for transports, producers and consumers, the router's
  static answers, and a log of the calls the server makes into the engine.
 */
module Engine {

  type ConnId = string
  type RoomName = string
  type UserId = string
  type TransportId = string
  type ProducerId = string
  type ConsumerId = string
  /** 'audio' or 'video' as the client sends it; the engine rejects other values by throwing */
  type Kind = string
  /** A JSON document the server passes through without looking inside it
      (ICE and DTLS parameters, RTP parameters and capabilities) */
  type Blob = string

  datatype Option<T> = None | Some(value: T)

  /** A WebRTC transport the server has registered on a peer */
  datatype Transport = Transport(id: TransportId, dtlsConnected: bool)

  /** A producer: a stream a peer sends into the room */
  datatype Producer = Producer(id: ProducerId, kind: Kind)

  /** A consumer: a stream a peer receives, taken from a producer */
  datatype Consumer = Consumer(id: ConsumerId, producerId: ProducerId, kind: Kind)

  /** What an awaited engine call settled to: the object it made, or the
      message of the error it threw */
  datatype EngineResult<T> = Created(value: T) | Threw(message: string)

  /** What router.createWebRtcTransport hands back */
  datatype NewTransport = NewTransport(id: TransportId, iceParameters: Blob, iceCandidates: Blob, dtlsParameters: Blob)

  /** What transport.consume hands back */
  datatype NewConsumer = NewConsumer(id: ConsumerId, kind: Kind, rtpParameters: Blob)

  /** The router, fixed once the worker has started: its RTP capabilities.
      Its compatibility check `router.canConsume` is not modelled as a
      function; the answer it gave for one consume request is a parameter
      of that request. */
  datatype Router = Router(rtpCapabilities: Blob)

  /** A call into the media engine that took effect */
  datatype EngineCall =
    | CreateWebRtcTransport(transportId: TransportId)
    | Connect(transportId: TransportId, dtlsParameters: Blob)
    | ProduceOn(transportId: TransportId, producerId: ProducerId, kind: Kind, rtpParameters: Blob)
    | ConsumeOn(transportId: TransportId, consumerId: ConsumerId, producerId: ProducerId, rtpCapabilities: Blob)
    | CloseTransport(transportId: TransportId)
    | CloseProducer(producerId: ProducerId)
    | CloseConsumer(consumerId: ConsumerId)
}
