/**
  The socket handlers of the signaling server as methods on one registry
  object. Each method computes in the order the handler does, assigns
  the registry's new fields, and is proved to take the step its
  counterpart in Rooms describes.
 */
module Server {
  import opened Engine
  import opened Messages
  import opened PeerTable
  import Rooms

  /** How a disconnect handler ended */
  datatype Departure =
    | NotInRoom  // `rooms[socket.roomName]` is missing: nothing to clean up
    | Faulted    // the room is there but does not hold the socket: reading `peer.userId` throws
    | Left       // the peer was cleaned up

  class Registry {
    const router: Router
    var rooms: map<RoomName, Rooms.Room>
    var roomOf: map<ConnId, RoomName>
    var departed: set<ConnId>
    var outbox: seq<Message>
    var engine: seq<EngineCall>

    function Model(): Rooms.State
      reads this
    {
      Rooms.State(rooms, roomOf, departed, outbox, engine)
    }

    ghost predicate Valid()
      reads this
    {
      Rooms.Valid(Model())
    }

    constructor (router: Router)
      ensures Valid() && Model() == Rooms.Initial() && this.router == router
    {
      this.router := router;
      rooms, roomOf, departed, outbox, engine := map[], map[], {}, [], [];
    }

    method JoinRoom(c: ConnId, roomName: RoomName, userId: UserId)
      requires Valid()
      modifies this
      ensures Valid() && Model() == Rooms.JoinRoom(old(Model()), c, roomName, userId)
    {
      Rooms.JoinRoomKeepsValid(Model(), c, roomName, userId);
      ghost var r := Rooms.JoinRoom(Model(), c, roomName, userId);
      if roomName !in rooms {
        rooms := rooms[roomName := Rooms.Room([])];
      }
      var peers := Set(rooms[roomName].peers, c, NewPeer(userId));
      assert r.rooms == rooms[roomName := Rooms.Room(peers)];
      rooms := rooms[roomName := Rooms.Room(peers)];
      roomOf := roomOf[c := roomName];
      outbox := outbox + [Reply(c, Joined)];
    }

    method GetExistingProducers(c: ConnId)
      requires Valid()
      modifies this
      ensures Valid() && Model() == Rooms.GetExistingProducers(old(Model()), c)
    {
      var name := Rooms.RoomKey(Model(), c);  // `rooms[socket.roomName]`
      if name !in rooms {
        return;
      }
      var peers := rooms[name].peers;
      var existing: seq<ProducerInfo> := [];
      for i := 0 to |peers|
        invariant existing == ProducersOfOthers(peers[..i], c)
      {
        var e := peers[i];
        if e.conn != c && |e.peer.producers| > 0 {
          for j := 0 to |e.peer.producers|
            invariant existing == ProducersOfOthers(peers[..i], c) + Tagged(e.peer)[..j]
          {
            var pr := e.peer.producers[j];
            existing := existing + [ProducerInfo(pr.id, pr.kind, e.peer.userId)];
          }
          assert Tagged(e.peer)[..|e.peer.producers|] == Tagged(e.peer);
        }
        assert peers[..i + 1][..i] == peers[..i];
      }
      assert peers[..|peers|] == peers;
      outbox := outbox + [Event(c, ExistingProducers(existing))];
    }

    method GetRouterRtpCapabilities(c: ConnId)
      requires Valid()
      modifies this
      ensures Valid() && Model() == Rooms.GetRouterRtpCapabilities(old(Model()), router, c)
    {
      outbox := outbox + [Reply(c, RouterCapabilities(router.rtpCapabilities))];
    }

    /** created is what `router.createWebRtcTransport` settled to */
    method CreateTransport(c: ConnId, created: EngineResult<NewTransport>)
      requires Valid()
      modifies this
      ensures Valid() && Model() == Rooms.CreateTransport(old(Model()), c, created)
    {
      Rooms.CreateTransportKeepsValid(Model(), c, created);
      ghost var r := Rooms.CreateTransport(Model(), c, created);
      if created.Threw? {
        outbox := outbox + [Reply(c, Failed(created.message))];
        assert Model() == r;
        return;
      }
      var transport := created.value;
      engine := engine + [CreateWebRtcTransport(transport.id)];
      var name := Rooms.RoomKey(Model(), c);  // `rooms[socket.roomName]`
      var found := if name in rooms then Get(rooms[name].peers, c) else None;
      if found.None? {
        outbox := outbox + [Reply(c, Failed(PeerNotFound))];
        assert Model() == r;
        return;
      }
      var peer := found.value;
      peer := peer.(transports := peer.transports + [Transport(transport.id, false)]);
      var peers := Set(rooms[name].peers, c, peer);
      assert r == Model().(rooms := rooms[name := Rooms.Room(peers)], outbox := outbox + [Reply(c, TransportParams(transport))]);
      rooms, outbox := rooms[name := Rooms.Room(peers)], outbox + [Reply(c, TransportParams(transport))];
      assert Model() == r;
    }

    /** connectSucceeded says whether `transport.connect` resolved */
    method ConnectTransport(c: ConnId, transportId: TransportId, dtlsParameters: Blob, connectSucceeded: bool)
      requires Valid()
      modifies this
      ensures Valid() && Model() == Rooms.ConnectTransport(old(Model()), c, transportId, dtlsParameters, connectSucceeded)
    {
      Rooms.ConnectTransportKeepsValid(Model(), c, transportId, dtlsParameters, connectSucceeded);
      ghost var r := Rooms.ConnectTransport(Model(), c, transportId, dtlsParameters, connectSucceeded);
      var name := Rooms.RoomKey(Model(), c);  // `rooms[socket.roomName]`
      var found := if name in rooms then Get(rooms[name].peers, c) else None;
      if found.None? {
        return;
      }
      var peer := found.value;
      var index := TransportIndex(peer.transports, transportId);
      if index.None? {
        return;  // 'Transport not found'
      }
      var transport := peer.transports[index.value];
      if transport.dtlsConnected {
        return;  // 'Transport already connected'
      }
      if !connectSucceeded {
        return;  // the connect error is only logged
      }
      peer := peer.(transports := peer.transports[index.value := transport.(dtlsConnected := true)]);
      var peers := Set(rooms[name].peers, c, peer);
      assert r == Model().(rooms := rooms[name := Rooms.Room(peers)], engine := engine + [Connect(transportId, dtlsParameters)]);
      engine, rooms := engine + [Connect(transportId, dtlsParameters)], rooms[name := Rooms.Room(peers)];
      assert Model() == r;
    }

    /** created is what `transport.produce` settled to */
    method Produce(c: ConnId, transportId: TransportId, kind: Kind, rtpParameters: Blob, created: EngineResult<ProducerId>)
      requires Valid()
      modifies this
      ensures Valid() && Model() == Rooms.Produce(old(Model()), c, transportId, kind, rtpParameters, created)
    {
      Rooms.ProduceKeepsValid(Model(), c, transportId, kind, rtpParameters, created);
      ghost var r := Rooms.Produce(Model(), c, transportId, kind, rtpParameters, created);
      if c !in roomOf || roomOf[c] == "" || roomOf[c] !in rooms {
        outbox := outbox + [Reply(c, Failed(RoomNotFound))];
        assert Model() == r;
        return;
      }
      var name := roomOf[c];
      var found := Get(rooms[name].peers, c);
      if found.None? {
        outbox := outbox + [Reply(c, Failed(PeerNotFound))];
        assert Model() == r;
        return;
      }
      var peer := found.value;
      if TransportIndex(peer.transports, transportId).None? {
        outbox := outbox + [Reply(c, Failed(TransportNotFound))];
        assert Model() == r;
        return;
      }
      if created.Threw? {
        outbox := outbox + [Reply(c, Failed(created.message))];
        assert Model() == r;
        return;
      }
      var producerId := created.value;
      Rooms.ProduceCommits(Model(), c, transportId, kind, rtpParameters, producerId);
      var peers := Set(rooms[name].peers, c, peer.(producers := peer.producers + [Producer(producerId, kind)]));
      var notices := FanOut(peers, {c}, NewProducer(producerId, kind, peer.userId));
      var after := Rooms.State(rooms[name := Rooms.Room(peers)], roomOf, departed,
                               outbox + notices + [Reply(c, ProducerCreated(producerId))],
                               engine + [ProduceOn(transportId, producerId, kind, rtpParameters)]);
      assert r == after;
      rooms, outbox, engine := after.rooms, after.outbox, after.engine;
      assert Model() == after;
    }

    /** created is what `transport.consume` settled to */
    method Consume(c: ConnId, compatible: bool, transportId: TransportId, producerId: ProducerId, rtpCapabilities: Blob,
                   created: EngineResult<NewConsumer>)
      requires Valid()
      modifies this
      ensures Valid() && Model() == Rooms.Consume(old(Model()), compatible, c, transportId, producerId, rtpCapabilities, created)
    {
      Rooms.ConsumeKeepsValid(Model(), compatible, c, transportId, producerId, rtpCapabilities, created);
      ghost var r := Rooms.Consume(Model(), compatible, c, transportId, producerId, rtpCapabilities, created);
      if !compatible {
        outbox := outbox + [Reply(c, Failed(CannotConsume))];
        assert Model() == r;
        return;
      }
      var name := Rooms.RoomKey(Model(), c);  // `rooms[socket.roomName]`
      if name !in rooms {
        outbox := outbox + [Reply(c, Failed(RoomNotFound))];
        assert Model() == r;
        return;
      }
      var peers := rooms[name].peers;
      var found := Get(peers, c);
      if found.None? {
        outbox := outbox + [Reply(c, Failed(PeerNotFound))];
        assert Model() == r;
        return;
      }
      var peer := found.value;
      if TransportIndex(peer.transports, transportId).None? {
        outbox := outbox + [Reply(c, Failed(TransportNotFound))];
        assert Model() == r;
        return;
      }
      var owner := FindOwner(peers, producerId);
      if created.Threw? {
        outbox := outbox + [Reply(c, Failed(created.message))];
        assert Model() == r;
        return;
      }
      var consumer := created.value;
      peer := peer.(consumers := peer.consumers + [Consumer(consumer.id, producerId, consumer.kind)]);
      var reply := Reply(c, ConsumerParams(consumer.id, producerId, consumer.kind, consumer.rtpParameters, owner));
      var after := Rooms.State(rooms[name := Rooms.Room(Set(peers, c, peer))], roomOf, departed, outbox + [reply],
                               engine + [ConsumeOn(transportId, consumer.id, producerId, rtpCapabilities)]);
      assert r == after;
      rooms, outbox, engine := after.rooms, after.outbox, after.engine;
      assert Model() == after;
    }

    method Disconnect(c: ConnId) returns (outcome: Departure)
      requires Valid()
      modifies this
      ensures Valid() && Model() == Rooms.Disconnect(old(Model()), c)
      ensures outcome == Faulted <==> Rooms.DisconnectFaults(old(Model()), c)
      ensures outcome == Left <==> old(Rooms.PeerOf(Model(), c)).Some?
    {
      Rooms.DisconnectKeepsValid(Model(), c);
      ghost var r := Rooms.Disconnect(Model(), c);
      departed := departed + {c};
      var name := Rooms.RoomKey(Model(), c);  // `rooms[socket.roomName]`
      if name !in rooms {
        assert Model() == r;
        return NotInRoom;
      }
      var room := rooms[name];
      var found := Get(room.peers, c);
      if found.None? {
        assert Model() == r;
        return Faulted;
      }
      var peer := found.value;
      var userId := peer.userId;
      var closes := CloseCalls(peer);
      var rest := Delete(room.peers, c);
      var notices := FanOut(rest, departed, UserDisconnected(userId));
      ghost var left := if |rest| == 0 then rooms - {name} else rooms[name := Rooms.Room(rest)];
      assert r == Model().(engine := engine + closes, rooms := left, outbox := outbox + notices);
      engine, rooms, outbox := engine + closes, rooms[name := Rooms.Room(rest)], outbox + notices;
      if |rest| == 0 {
        rooms := rooms - {name};
      }
      assert rooms == left;
      assert Model() == r;
      outcome := Left;
    }
  }

  /** The owner search of consume: the first peer of the room, in Map
      order, holding a producer with the requested id */
  method FindOwner(peers: seq<Entry>, producerId: ProducerId) returns (owner: Option<UserId>)
    ensures owner == FirstOwner(peers, producerId)
  {
    var i := 0;
    while i < |peers|
      invariant 0 <= i <= |peers|
      invariant FirstOwner(peers[i..], producerId) == FirstOwner(peers, producerId)
    {
      if HasProducer(peers[i].peer, producerId) {
        assert peers[i..][0] == peers[i];
        return Some(peers[i].peer.userId);
      }
      assert peers[i..][1..] == peers[i + 1..];
      i := i + 1;
    }
    return None;
  }

  /** A fan-out loop: the event ev for every peer, in Map order, whose
      socket is not in skip */
  method FanOut(peers: seq<Entry>, skip: set<ConnId>, ev: EventBody) returns (sent: seq<Message>)
    ensures sent == Broadcast(peers, skip, ev)
  {
    sent := [];
    for i := 0 to |peers|
      invariant sent == Broadcast(peers[..i], skip, ev)
    {
      BroadcastStep(peers, skip, ev, i);
      if peers[i].conn !in skip {
        sent := sent + [Event(peers[i].conn, ev)];
      }
    }
    assert peers[..|peers|] == peers;
  }

  /** The three forEach loops of disconnect: close calls for a departing
      peer's transports, producers and consumers */
  method CloseCalls(peer: Peer) returns (calls: seq<EngineCall>)
    ensures calls == CloseAll(peer)
  {
    var ts, ps, cs := peer.transports, peer.producers, peer.consumers;
    calls := [];
    for i := 0 to |ts|
      invariant calls == TransportCloses(ts[..i])
    {
      calls := calls + [CloseTransport(ts[i].id)];
      assert TransportCloses(ts[..i + 1]) == TransportCloses(ts[..i]) + [CloseTransport(ts[i].id)];
    }
    assert ts[..|ts|] == ts;
    for i := 0 to |ps|
      invariant calls == TransportCloses(ts) + ProducerCloses(ps[..i])
    {
      calls := calls + [CloseProducer(ps[i].id)];
      assert ProducerCloses(ps[..i + 1]) == ProducerCloses(ps[..i]) + [CloseProducer(ps[i].id)];
    }
    assert ps[..|ps|] == ps;
    for i := 0 to |cs|
      invariant calls == TransportCloses(ts) + ProducerCloses(ps) + ConsumerCloses(cs[..i])
    {
      calls := calls + [CloseConsumer(cs[i].id)];
      assert ConsumerCloses(cs[..i + 1]) == ConsumerCloses(cs[..i]) + [CloseConsumer(cs[i].id)];
    }
    assert cs[..|cs|] == cs;
  }
}
