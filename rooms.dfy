/**
  The signaling server as a state machine. Each socket handler is one
  atomic step from the old state to the new one; errors are replies, emits
  and callbacks are appended to the outbox, and engine calls are appended
  to the engine log.
 */
module Rooms {
  import opened Engine
  import opened Messages
  import opened PeerTable

  /** `{ peers: new Map() }` */
  datatype Room = Room(peers: seq<Entry>)

  /** The property name `rooms[socket.roomName]` reads for a socket that has
      never joined, since JavaScript turns an undefined key into this string */
  const Undefined: RoomName := "undefined"

  /** The rooms object, each socket's `roomName` property, the sockets that
      have disconnected, everything emitted or passed to a callback, and the
      calls made into the media engine */
  datatype State = State(rooms: map<RoomName, Room>, roomOf: map<ConnId, RoomName>, departed: set<ConnId>,
                         outbox: seq<Message>, engine: seq<EngineCall>)

  function Initial(): State {
    State(map[], map[], {}, [], [])
  }

  /** Every room in the registry has at least one peer and unique keys, and
      a connected socket that has joined is a peer of the room it joined last */
  predicate Valid(s: State) {
    && (forall n :: n in s.rooms ==> |s.rooms[n].peers| > 0 && Distinct(s.rooms[n].peers))
    && (forall c :: c in s.roomOf && c !in s.departed ==> s.roomOf[c] in s.rooms && c in Conns(s.rooms[s.roomOf[c]].peers))
  }

  /** The key `rooms[socket.roomName]` looks up */
  function RoomKey(s: State, c: ConnId): RoomName {
    if c in s.roomOf then s.roomOf[c] else Undefined
  }

  /** `rooms[socket.roomName]?.peers.get(socket.id)` */
  function PeerOf(s: State, c: ConnId): Option<Peer> {
    var n := RoomKey(s, c);
    if n in s.rooms then Get(s.rooms[n].peers, c) else None
  }

  /** The guard of produce, `socket.roomName && rooms[socket.roomName]`: an
      empty room name counts as not joined */
  predicate HasRoomName(s: State, c: ConnId) {
    c in s.roomOf && s.roomOf[c] != "" && s.roomOf[c] in s.rooms
  }

  /** `return callback({ error })`: nothing but the reply changes */
  function Reject(s: State, c: ConnId, error: string): State {
    s.(outbox := s.outbox + [Reply(c, Failed(error))])
  }

  /** State r is s with only the record of connection c in room n replaced by p */
  ghost predicate Replaced(s: State, r: State, n: RoomName, c: ConnId, p: Peer) {
    && n in s.rooms && r.rooms.Keys == s.rooms.Keys
    && (forall m :: m in s.rooms && m != n ==> r.rooms[m] == s.rooms[m])
    && Conns(r.rooms[n].peers) == Conns(s.rooms[n].peers)
    && |r.rooms[n].peers| == |s.rooms[n].peers|
    && (forall i :: 0 <= i < |s.rooms[n].peers| ==> r.rooms[n].peers[i].conn == s.rooms[n].peers[i].conn)
    && Get(r.rooms[n].peers, c) == Some(p)
    && (forall d :: d != c ==> Get(r.rooms[n].peers, d) == Get(s.rooms[n].peers, d))
    && r.roomOf == s.roomOf && r.departed == s.departed
  }

  /** Storing the caller's updated record (a `push` onto one of its lists) */
  function WithPeer(s: State, n: RoomName, c: ConnId, p: Peer): State
    requires n in s.rooms
  {
    s.(rooms := s.rooms[n := Room(Set(s.rooms[n].peers, c, p))])
  }

  /** Storing the record of a peer of the room replaces that record and nothing else */
  lemma WithPeerReplaced(s: State, n: RoomName, c: ConnId, p: Peer)
    requires Valid(s) && n in s.rooms && c in Conns(s.rooms[n].peers)
    ensures Replaced(s, WithPeer(s, n, c, p), n, c, p) && Valid(WithPeer(s, n, c, p))
  {
    var ps := s.rooms[n].peers;
    forall d ensures Get(Set(ps, c, p), d) == if d == c then Some(p) else Get(ps, d) {
      SetGet(ps, c, p, d);
    }
  }

  // ---------------------------------------------------------------- joinRoom

  function JoinRoom(s: State, c: ConnId, roomName: RoomName, userId: UserId): State {
    var room := if roomName in s.rooms then s.rooms[roomName] else Room([]);
    s.(rooms := s.rooms[roomName := Room(Set(room.peers, c, NewPeer(userId)))],
       roomOf := s.roomOf[c := roomName],
       outbox := s.outbox + [Reply(c, Joined)])
  }

  /** joinRoom creates the room when it is missing and stores a fresh record
      under the socket; every other record of that room, and every other
      room, is left as it was; a socket's earlier room keeps its record */
  lemma JoinRoomRegisters(s: State, c: ConnId, roomName: RoomName, userId: UserId)
    ensures var r := JoinRoom(s, c, roomName, userId);
            && r.rooms.Keys == s.rooms.Keys + {roomName}
            && (forall n :: n in s.rooms && n != roomName ==> r.rooms[n] == s.rooms[n])
            && Get(r.rooms[roomName].peers, c) == Some(NewPeer(userId))
            && (forall d :: d != c ==>
                  Get(r.rooms[roomName].peers, d) == if roomName in s.rooms then Get(s.rooms[roomName].peers, d) else None)
            && (roomName in s.rooms ==> forall i :: 0 <= i < |s.rooms[roomName].peers| ==>
                  r.rooms[roomName].peers[i].conn == s.rooms[roomName].peers[i].conn)
            && r.roomOf == s.roomOf[c := roomName] && r.departed == s.departed && r.engine == s.engine
            && r.outbox == s.outbox + [Reply(c, Joined)]
  {
    var ps := if roomName in s.rooms then s.rooms[roomName].peers else [];
    forall d ensures Get(Set(ps, c, NewPeer(userId)), d) == if d == c then Some(NewPeer(userId)) else Get(ps, d) {
      SetGet(ps, c, NewPeer(userId), d);
    }
  }

  /** The joining socket is a peer of the room it named, and nobody else's room changes membership */
  lemma JoinRoomKeepsValid(s: State, c: ConnId, roomName: RoomName, userId: UserId)
    requires Valid(s)
    ensures Valid(JoinRoom(s, c, roomName, userId))
  {
  }

  // ---------------------------------------------------- getExistingProducers

  /** list is what getExistingProducers reports to c about the peers ps */
  ghost predicate IsProducerSnapshot(list: seq<ProducerInfo>, ps: seq<Entry>, c: ConnId) {
    && |list| == ProducerCountOfOthers(ps, c)
    && forall x :: x in list <==>
         exists i, pr :: 0 <= i < |ps| && ps[i].conn != c && pr in ps[i].peer.producers && x == Info(ps[i].peer, pr)
  }

  function GetExistingProducers(s: State, c: ConnId): State {
    var n := RoomKey(s, c);
    if n !in s.rooms then s
    else s.(outbox := s.outbox + [Event(c, ExistingProducers(ProducersOfOthers(s.rooms[n].peers, c)))])
  }

  /** Without a room nothing is sent; otherwise one existingProducers event
      goes to the caller, listing every producer of every other peer of the
      room, each with its owner's user id */
  lemma GetExistingProducersReports(s: State, c: ConnId)
    ensures RoomKey(s, c) !in s.rooms ==> GetExistingProducers(s, c) == s
    ensures RoomKey(s, c) in s.rooms ==>
              var r := GetExistingProducers(s, c);
              && r == s.(outbox := r.outbox)
              && |r.outbox| == |s.outbox| + 1 && r.outbox[..|s.outbox|] == s.outbox
              && var m := r.outbox[|s.outbox|];
                 m.Event? && m.to == c && m.event.ExistingProducers?
                 && IsProducerSnapshot(m.event.producers, s.rooms[RoomKey(s, c)].peers, c)
  {
    var n := RoomKey(s, c);
    if n in s.rooms {
      var ps := s.rooms[n].peers;
      forall x { ProducersOfOthersMembers(ps, c, x); }
      var r := GetExistingProducers(s, c);
      assert r.outbox[..|s.outbox|] == s.outbox;
    }
  }

  // ------------------------------------------------ getRouterRtpCapabilities

  function GetRouterRtpCapabilities(s: State, router: Router, c: ConnId): State {
    s.(outbox := s.outbox + [Reply(c, RouterCapabilities(router.rtpCapabilities))])
  }

  // --------------------------------------------------------- createTransport

  function CreateTransport(s: State, c: ConnId, created: EngineResult<NewTransport>): State {
    match created
    case Threw(message) => Reject(s, c, message)
    case Created(t) =>
      var s1 := s.(engine := s.engine + [CreateWebRtcTransport(t.id)]);
      match PeerOf(s, c)
      case None => Reject(s1, c, PeerNotFound)
      case Some(p) =>
        var s2 := WithPeer(s1, RoomKey(s, c), c, p.(transports := p.transports + [Transport(t.id, false)]));
        s2.(outbox := s2.outbox + [Reply(c, TransportParams(t))])
  }

  /** The engine is asked for a transport first; only then is the caller's
      record looked up, so a transport made for an unknown peer is left
      registered nowhere. A registered transport starts unconnected */
  lemma CreateTransportOutcome(s: State, c: ConnId, created: EngineResult<NewTransport>)
    ensures var r := CreateTransport(s, c, created);
            && (created.Threw? ==> r == Reject(s, c, created.message))
            && (created.Created? && PeerOf(s, c).None? ==>
                  r == Reject(s, c, PeerNotFound).(engine := s.engine + [CreateWebRtcTransport(created.value.id)]))
    ensures Valid(s) && created.Created? && PeerOf(s, c).Some? ==>
              var r, t, p := CreateTransport(s, c, created), created.value, PeerOf(s, c).value;
              && Replaced(s, r, RoomKey(s, c), c, p.(transports := p.transports + [Transport(t.id, false)]))
              && r.engine == s.engine + [CreateWebRtcTransport(t.id)]
              && r.outbox == s.outbox + [Reply(c, TransportParams(t))]
  {
    if Valid(s) && created.Created? && PeerOf(s, c).Some? {
      var t, p := created.value, PeerOf(s, c).value;
      var s1 := s.(engine := s.engine + [CreateWebRtcTransport(t.id)]);
      WithPeerReplaced(s1, RoomKey(s, c), c, p.(transports := p.transports + [Transport(t.id, false)]));
    }
  }

  lemma CreateTransportKeepsValid(s: State, c: ConnId, created: EngineResult<NewTransport>)
    requires Valid(s)
    ensures Valid(CreateTransport(s, c, created))
  {
    if created.Created? && PeerOf(s, c).Some? {
      var t, p := created.value, PeerOf(s, c).value;
      var s1 := s.(engine := s.engine + [CreateWebRtcTransport(t.id)]);
      WithPeerReplaced(s1, RoomKey(s, c), c, p.(transports := p.transports + [Transport(t.id, false)]));
    }
  }

  // -------------------------------------------------------- connectTransport

  function ConnectTransport(s: State, c: ConnId, transportId: TransportId, dtlsParameters: Blob, connectOk: bool): State {
    match PeerOf(s, c)
    case None => s
    case Some(p) =>
      match TransportIndex(p.transports, transportId)
      case None => s
      case Some(i) =>
        if p.transports[i].dtlsConnected || !connectOk then s
        else
          var s1 := WithPeer(s, RoomKey(s, c), c, p.(transports := p.transports[i := Transport(transportId, true)]));
          s1.(engine := s1.engine + [Connect(transportId, dtlsParameters)])
  }

  /** No callback: every failure only logs. A transport id is resolved in
      the caller's own list, an already connected transport is left alone,
      and connectOk says whether `transport.connect` resolved; only then is
      the transport marked connected */
  lemma ConnectTransportOutcome(s: State, c: ConnId, transportId: TransportId, dtlsParameters: Blob, connectOk: bool)
    ensures var r := ConnectTransport(s, c, transportId, dtlsParameters, connectOk);
            && r.outbox == s.outbox
            && (PeerOf(s, c).None? ==> r == s)
            && ((PeerOf(s, c).Some? && forall k :: 0 <= k < |PeerOf(s, c).value.transports| ==>
                                       PeerOf(s, c).value.transports[k].id != transportId) ==> r == s)
            && ((PeerOf(s, c).Some? && var ts := PeerOf(s, c).value.transports;
                 TransportIndex(ts, transportId).Some? && ts[TransportIndex(ts, transportId).value].dtlsConnected) ==> r == s)
            && (!connectOk ==> r == s)
    ensures Valid(s) && PeerOf(s, c).Some? && TransportIndex(PeerOf(s, c).value.transports, transportId).Some?
            && !PeerOf(s, c).value.transports[TransportIndex(PeerOf(s, c).value.transports, transportId).value].dtlsConnected
            && connectOk ==>
              var r, p := ConnectTransport(s, c, transportId, dtlsParameters, connectOk), PeerOf(s, c).value;
              var i := TransportIndex(p.transports, transportId).value;
              && Replaced(s, r, RoomKey(s, c), c, p.(transports := p.transports[i := Transport(transportId, true)]))
              && r.engine == s.engine + [Connect(transportId, dtlsParameters)]
              && r.outbox == s.outbox
  {
    if Valid(s) && PeerOf(s, c).Some? {
      var p := PeerOf(s, c).value;
      if TransportIndex(p.transports, transportId).Some? {
        var i := TransportIndex(p.transports, transportId).value;
        WithPeerReplaced(s, RoomKey(s, c), c, p.(transports := p.transports[i := Transport(transportId, true)]));
      }
    }
  }

  lemma ConnectTransportKeepsValid(s: State, c: ConnId, transportId: TransportId, dtlsParameters: Blob, connectOk: bool)
    requires Valid(s)
    ensures Valid(ConnectTransport(s, c, transportId, dtlsParameters, connectOk))
  {
    if PeerOf(s, c).Some? {
      var p := PeerOf(s, c).value;
      if TransportIndex(p.transports, transportId).Some? {
        var i := TransportIndex(p.transports, transportId).value;
        WithPeerReplaced(s, RoomKey(s, c), c, p.(transports := p.transports[i := Transport(transportId, true)]));
      }
    }
  }

  // ----------------------------------------------------------------- produce

  /** All of produce's checks pass and the engine made the producer */
  predicate ProduceAccepted(s: State, c: ConnId, transportId: TransportId, created: EngineResult<ProducerId>) {
    && HasRoomName(s, c) && PeerOf(s, c).Some?
    && TransportIndex(PeerOf(s, c).value.transports, transportId).Some?
    && created.Created?
  }

  function Produce(s: State, c: ConnId, transportId: TransportId, kind: Kind, rtpParameters: Blob,
                   created: EngineResult<ProducerId>): State {
    if !HasRoomName(s, c) then Reject(s, c, RoomNotFound)
    else
      var n := s.roomOf[c];
      match Get(s.rooms[n].peers, c)
      case None => Reject(s, c, PeerNotFound)
      case Some(p) =>
        match TransportIndex(p.transports, transportId)
        case None => Reject(s, c, TransportNotFound)
        case Some(_) =>
          match created
          case Threw(message) => Reject(s, c, message)
          case Created(pid) =>
            var s1 := WithPeer(s, n, c, p.(producers := p.producers + [Producer(pid, kind)]));
            var fanout := Broadcast(s1.rooms[n].peers, {c}, NewProducer(pid, kind, p.userId));
            s1.(engine := s1.engine + [ProduceOn(transportId, pid, kind, rtpParameters)],
                outbox := s1.outbox + fanout + [Reply(c, ProducerCreated(pid))])
  }

  /** The state a successful produce commits, spelled out field by field */
  lemma ProduceCommits(s: State, c: ConnId, transportId: TransportId, kind: Kind, rtpParameters: Blob, pid: ProducerId)
    requires ProduceAccepted(s, c, transportId, Created(pid))
    ensures var n, p := s.roomOf[c], PeerOf(s, c).value;
            var ps := Set(s.rooms[n].peers, c, p.(producers := p.producers + [Producer(pid, kind)]));
            Produce(s, c, transportId, kind, rtpParameters, Created(pid))
              == State(s.rooms[n := Room(ps)], s.roomOf, s.departed,
                       s.outbox + Broadcast(ps, {c}, NewProducer(pid, kind, p.userId)) + [Reply(c, ProducerCreated(pid))],
                       s.engine + [ProduceOn(transportId, pid, kind, rtpParameters)])
  {
  }

  /** produce checks, in this order, that the socket names a room that
      exists, that the room holds the socket, and that the transport is the
      caller's; then the engine may still throw. Each failure is its own
      reply and changes nothing else */
  lemma ProduceOutcome(s: State, c: ConnId, transportId: TransportId, kind: Kind, rtpParameters: Blob,
                       created: EngineResult<ProducerId>)
    ensures var r := Produce(s, c, transportId, kind, rtpParameters, created);
            && (!HasRoomName(s, c) ==> r == Reject(s, c, RoomNotFound))
            && (HasRoomName(s, c) && PeerOf(s, c).None? ==> r == Reject(s, c, PeerNotFound))
            && (HasRoomName(s, c) && PeerOf(s, c).Some? && TransportIndex(PeerOf(s, c).value.transports, transportId).None? ==>
                  r == Reject(s, c, TransportNotFound))
            && ((HasRoomName(s, c) && PeerOf(s, c).Some? && TransportIndex(PeerOf(s, c).value.transports, transportId).Some?
                 && created.Threw?) ==> r == Reject(s, c, created.message))
  {
  }

  /** On success the producer is pushed onto the caller's record and on no
      other, the engine made it on the named transport, and the reply with
      its id comes last */
  lemma ProduceRegisters(s: State, c: ConnId, transportId: TransportId, kind: Kind, rtpParameters: Blob, pid: ProducerId)
    requires Valid(s) && ProduceAccepted(s, c, transportId, Created(pid))
    ensures var r, p := Produce(s, c, transportId, kind, rtpParameters, Created(pid)), PeerOf(s, c).value;
            && Replaced(s, r, s.roomOf[c], c, p.(producers := p.producers + [Producer(pid, kind)]))
            && r.engine == s.engine + [ProduceOn(transportId, pid, kind, rtpParameters)]
            && |r.outbox| > |s.outbox| && r.outbox[..|s.outbox|] == s.outbox
            && r.outbox[|r.outbox| - 1] == Reply(c, ProducerCreated(pid))
  {
    var n, p := s.roomOf[c], PeerOf(s, c).value;
    var p' := p.(producers := p.producers + [Producer(pid, kind)]);
    WithPeerReplaced(s, n, c, p');
    var r := Produce(s, c, transportId, kind, rtpParameters, Created(pid));
    var fanout := Broadcast(WithPeer(s, n, c, p').rooms[n].peers, {c}, NewProducer(pid, kind, p.userId));
    assert r.outbox == s.outbox + fanout + [Reply(c, ProducerCreated(pid))];
    assert r.outbox[..|s.outbox|] == s.outbox;
  }

  lemma ProduceKeepsValid(s: State, c: ConnId, transportId: TransportId, kind: Kind, rtpParameters: Blob,
                          created: EngineResult<ProducerId>)
    requires Valid(s)
    ensures Valid(Produce(s, c, transportId, kind, rtpParameters, created))
  {
    if ProduceAccepted(s, c, transportId, created) {
      var p := PeerOf(s, c).value;
      WithPeerReplaced(s, s.roomOf[c], c, p.(producers := p.producers + [Producer(created.value, kind)]));
    }
  }

  /** What a successful produce adds to the outbox: the fan-out, then the reply */
  lemma ProduceAdds(s: State, c: ConnId, transportId: TransportId, kind: Kind, rtpParameters: Blob, pid: ProducerId)
    requires ProduceAccepted(s, c, transportId, Created(pid))
    ensures var p := PeerOf(s, c).value;
            var ps := Set(s.rooms[s.roomOf[c]].peers, c, p.(producers := p.producers + [Producer(pid, kind)]));
            Produce(s, c, transportId, kind, rtpParameters, Created(pid)).outbox[|s.outbox|..]
              == Broadcast(ps, {c}, NewProducer(pid, kind, p.userId)) + [Reply(c, ProducerCreated(pid))]
  {
    var p := PeerOf(s, c).value;
    var ps := Set(s.rooms[s.roomOf[c]].peers, c, p.(producers := p.producers + [Producer(pid, kind)]));
    var added := Broadcast(ps, {c}, NewProducer(pid, kind, p.userId)) + [Reply(c, ProducerCreated(pid))];
    ProduceCommits(s, c, transportId, kind, rtpParameters, pid);
    var r := Produce(s, c, transportId, kind, rtpParameters, Created(pid));
    assert r.outbox == s.outbox + added;
  }

  /** A successful produce sends one newProducer, naming the producer, its
      kind and the caller's user id, to every other peer of the room, and
      sends the caller only its reply */
  lemma ProduceNotifiesOthersOnce(s: State, c: ConnId, transportId: TransportId, kind: Kind, rtpParameters: Blob,
                                  pid: ProducerId, d: ConnId)
    requires Valid(s) && ProduceAccepted(s, c, transportId, Created(pid))
    ensures var r := Produce(s, c, transportId, kind, rtpParameters, Created(pid));
            var ev := NewProducer(pid, kind, PeerOf(s, c).value.userId);
            var added := r.outbox[|s.outbox|..];
            && multiset(added)[Event(d, ev)] == (if d != c && d in Conns(s.rooms[s.roomOf[c]].peers) then 1 else 0)
            && multiset(added)[Reply(c, ProducerCreated(pid))] == 1
            && forall m :: m in added ==> m == Reply(c, ProducerCreated(pid)) || (m.Event? && m.event == ev && m.to != c)
  {
    var n, p := s.roomOf[c], PeerOf(s, c).value;
    var ps := Set(s.rooms[n].peers, c, p.(producers := p.producers + [Producer(pid, kind)]));
    ProduceAdds(s, c, transportId, kind, rtpParameters, pid);
    BroadcastThenReply(ps, {c}, NewProducer(pid, kind, p.userId), Reply(c, ProducerCreated(pid)), d);
    var added := Produce(s, c, transportId, kind, rtpParameters, Created(pid)).outbox[|s.outbox|..];
    assert added == Broadcast(ps, {c}, NewProducer(pid, kind, p.userId)) + [Reply(c, ProducerCreated(pid))];
  }

  // ----------------------------------------------------------------- consume

  /** All of consume's checks pass and the engine made the consumer */
  predicate ConsumeAccepted(s: State, compatible: bool, c: ConnId, transportId: TransportId, producerId: ProducerId,
                            rtpCapabilities: Blob, created: EngineResult<NewConsumer>) {
    && compatible
    && PeerOf(s, c).Some?
    && TransportIndex(PeerOf(s, c).value.transports, transportId).Some?
    && created.Created?
  }

  function Consume(s: State, compatible: bool, c: ConnId, transportId: TransportId, producerId: ProducerId,
                   rtpCapabilities: Blob, created: EngineResult<NewConsumer>): State {
    if !compatible then Reject(s, c, CannotConsume)
    else
      var n := RoomKey(s, c);
      if n !in s.rooms then Reject(s, c, RoomNotFound)
      else
        match Get(s.rooms[n].peers, c)
        case None => Reject(s, c, PeerNotFound)
        case Some(p) =>
          match TransportIndex(p.transports, transportId)
          case None => Reject(s, c, TransportNotFound)
          case Some(_) =>
            var owner := FirstOwner(s.rooms[n].peers, producerId);
            match created
            case Threw(message) => Reject(s, c, message)
            case Created(k) =>
              var s1 := WithPeer(s, n, c, p.(consumers := p.consumers + [Consumer(k.id, producerId, k.kind)]));
              s1.(engine := s1.engine + [ConsumeOn(transportId, k.id, producerId, rtpCapabilities)],
                  outbox := s1.outbox + [Reply(c, ConsumerParams(k.id, producerId, k.kind, k.rtpParameters, owner))])
  }

  /** consume runs the compatibility check before any lookup, then checks
      room, peer and transport in that order; the owner it reports is
      searched for in the caller's room only, and the consumer is pushed
      onto the caller's record */
  lemma ConsumeOutcome(s: State, compatible: bool, c: ConnId, transportId: TransportId, producerId: ProducerId,
                       rtpCapabilities: Blob, created: EngineResult<NewConsumer>)
    ensures var r, ok := Consume(s, compatible, c, transportId, producerId, rtpCapabilities, created), compatible;
            && (!ok ==> r == Reject(s, c, CannotConsume))
            && (ok && RoomKey(s, c) !in s.rooms ==> r == Reject(s, c, RoomNotFound))
            && (ok && RoomKey(s, c) in s.rooms && PeerOf(s, c).None? ==> r == Reject(s, c, PeerNotFound))
            && ((ok && PeerOf(s, c).Some? && TransportIndex(PeerOf(s, c).value.transports, transportId).None?) ==>
                  r == Reject(s, c, TransportNotFound))
            && ((ok && PeerOf(s, c).Some? && TransportIndex(PeerOf(s, c).value.transports, transportId).Some?
                 && created.Threw?) ==> r == Reject(s, c, created.message))
    ensures Valid(s) && ConsumeAccepted(s, compatible, c, transportId, producerId, rtpCapabilities, created) ==>
              var r := Consume(s, compatible, c, transportId, producerId, rtpCapabilities, created);
              var n, p, k := RoomKey(s, c), PeerOf(s, c).value, created.value;
              && Replaced(s, r, n, c, p.(consumers := p.consumers + [Consumer(k.id, producerId, k.kind)]))
              && r.engine == s.engine + [ConsumeOn(transportId, k.id, producerId, rtpCapabilities)]
              && r.outbox == s.outbox + [Reply(c, ConsumerParams(k.id, producerId, k.kind, k.rtpParameters,
                                                                 FirstOwner(s.rooms[n].peers, producerId)))]
  {
    if Valid(s) && ConsumeAccepted(s, compatible, c, transportId, producerId, rtpCapabilities, created) {
      var p, k := PeerOf(s, c).value, created.value;
      WithPeerReplaced(s, RoomKey(s, c), c, p.(consumers := p.consumers + [Consumer(k.id, producerId, k.kind)]));
    }
  }

  lemma ConsumeKeepsValid(s: State, compatible: bool, c: ConnId, transportId: TransportId, producerId: ProducerId,
                          rtpCapabilities: Blob, created: EngineResult<NewConsumer>)
    requires Valid(s)
    ensures Valid(Consume(s, compatible, c, transportId, producerId, rtpCapabilities, created))
  {
  }

  // -------------------------------------------------------------- disconnect

  /** disconnect reads `peer.userId` before testing `peer`: it throws when
      the socket's room exists but does not hold the socket. In a valid
      state that needs a socket that never joined and a room that is
      literally named "undefined". */
  function DisconnectFaults(s: State, c: ConnId): (r: bool)
    ensures Valid(s) && c !in s.departed && r ==> c !in s.roomOf && Undefined in s.rooms
    ensures r ==> PeerOf(s, c).None?
  {
    RoomKey(s, c) in s.rooms && Get(s.rooms[RoomKey(s, c)].peers, c).None?
  }

  function Disconnect(s: State, c: ConnId): State {
    var s0 := s.(departed := s.departed + {c});
    var n := RoomKey(s, c);
    if n !in s.rooms then s0
    else
      match Get(s.rooms[n].peers, c)
      case None => s0
      case Some(p) =>
        var rest := Delete(s.rooms[n].peers, c);
        var notify := Broadcast(rest, s0.departed, UserDisconnected(p.userId));
        s0.(engine := s.engine + CloseAll(p),
            rooms := if |rest| == 0 then s.rooms - {n} else s.rooms[n := Room(rest)],
            outbox := s.outbox + notify)
  }

  /** The socket is gone; when its room holds it, its engine objects are
      closed, it leaves the room, and the room is deleted exactly when that
      left it empty */
  lemma DisconnectOutcome(s: State, c: ConnId)
    ensures var r := Disconnect(s, c);
            && r.departed == s.departed + {c} && r.roomOf == s.roomOf
            && (PeerOf(s, c).None? ==> r == s.(departed := s.departed + {c}))
    ensures Valid(s) && PeerOf(s, c).Some? ==>
              var r, n, p := Disconnect(s, c), RoomKey(s, c), PeerOf(s, c).value;
              && r.engine == s.engine + CloseAll(p)
              && (n in r.rooms <==> Conns(s.rooms[n].peers) - {c} != {})
              && r.rooms.Keys - {n} == s.rooms.Keys - {n}
              && (forall m :: m in s.rooms && m != n ==> m in r.rooms && r.rooms[m] == s.rooms[m])
              && (n in r.rooms ==> Get(r.rooms[n].peers, c).None?
                                   && forall d :: d != c ==> Get(r.rooms[n].peers, d) == Get(s.rooms[n].peers, d))
  {
    if Valid(s) && PeerOf(s, c).Some? {
      var n := RoomKey(s, c);
      var rest := Delete(s.rooms[n].peers, c);
      if |rest| > 0 {
        assert rest[0].conn in Conns(rest);
      }
      forall d ensures Get(rest, d) == if d == c then None else Get(s.rooms[n].peers, d) {
        DeleteGet(s.rooms[n].peers, c, d);
      }
    }
  }

  /** The peers that stay in the room keep their Map order */
  lemma DisconnectKeepsOrder(s: State, c: ConnId)
    requires PeerOf(s, c).Some?
    ensures var r, n := Disconnect(s, c), RoomKey(s, c);
            n in r.rooms ==> exists idx :: KeptInOrder(r.rooms[n].peers, s.rooms[n].peers, idx)
  {
    var n := RoomKey(s, c);
    DeleteKeepsOrder(s.rooms[n].peers, c);
  }

  /** The departed socket no longer counts; the others of its room stay in
      it, so the room survives while one of them is there */
  lemma DisconnectKeepsValid(s: State, c: ConnId)
    requires Valid(s)
    ensures Valid(Disconnect(s, c))
  {
  }

  /** Leaving sends one user-disconnected, naming the departing user, to each
      remaining peer whose socket is still connected, and to no one else */
  lemma DisconnectNotifiesConnectedOnce(s: State, c: ConnId, d: ConnId)
    requires Valid(s) && PeerOf(s, c).Some?
    ensures var r := Disconnect(s, c);
            var ev := UserDisconnected(PeerOf(s, c).value.userId);
            var added := r.outbox[|s.outbox|..];
            && r.outbox[..|s.outbox|] == s.outbox
            && multiset(added)[Event(d, ev)] ==
                 (if d in Conns(s.rooms[RoomKey(s, c)].peers) && d != c && d !in s.departed then 1 else 0)
            && forall m :: m in added ==> m.Event? && m.event == ev && m.to != c
  {
    var n, p := RoomKey(s, c), PeerOf(s, c).value;
    var rest := Delete(s.rooms[n].peers, c);
    var ev := UserDisconnected(p.userId);
    var notify := Broadcast(rest, s.departed + {c}, ev);
    var r := Disconnect(s, c);
    assert r.outbox == s.outbox + notify;
    assert r.outbox[|s.outbox|..] == notify;
    BroadcastOnce(rest, s.departed + {c}, ev, d);
  }

  /** The fault is reachable from the initial state in two steps */
  lemma DisconnectFaultExample()
    ensures DisconnectFaults(JoinRoom(Initial(), "a", Undefined, "alice"), "b")
  {
  }

  // ------------------------------------------------- the server as a whole

  /** One handler invocation on a connection; the engine's answers ride along */
  datatype Request =
    | JoinRoomRequest(roomName: RoomName, userId: UserId)
    | GetExistingProducersRequest
    | GetRouterRtpCapabilitiesRequest
    | CreateTransportRequest(transport: EngineResult<NewTransport>)
    | ConnectTransportRequest(transportId: TransportId, dtlsParameters: Blob, connectOk: bool)
    | ProduceRequest(transportId: TransportId, kind: Kind, rtpParameters: Blob, producer: EngineResult<ProducerId>)
    | ConsumeRequest(compatible: bool, transportId: TransportId, producerId: ProducerId, rtpCapabilities: Blob, consumer: EngineResult<NewConsumer>)
    | DisconnectRequest

  datatype Call = Call(conn: ConnId, request: Request)

  function Step(s: State, router: Router, call: Call): State {
    var c := call.conn;
    match call.request
    case JoinRoomRequest(roomName, userId) => JoinRoom(s, c, roomName, userId)
    case GetExistingProducersRequest => GetExistingProducers(s, c)
    case GetRouterRtpCapabilitiesRequest => GetRouterRtpCapabilities(s, router, c)
    case CreateTransportRequest(t) => CreateTransport(s, c, t)
    case ConnectTransportRequest(tid, dtls, ok) => ConnectTransport(s, c, tid, dtls, ok)
    case ProduceRequest(tid, kind, rtp, pr) => Produce(s, c, tid, kind, rtp, pr)
    case ConsumeRequest(ok, tid, pid, caps, co) => Consume(s, ok, c, tid, pid, caps, co)
    case DisconnectRequest => Disconnect(s, c)
  }

  /** A disconnect that throws: the exception escapes the listener, and
      Node ends the process on an uncaught exception */
  predicate Crashes(s: State, call: Call) {
    call.request.DisconnectRequest? && DisconnectFaults(s, call.conn)
  }

  /** Handlers run one after another, in arrival order, until one crashes
      the server; a socket runs no handler once it has disconnected */
  function Run(s: State, router: Router, calls: seq<Call>): State
    decreases |calls|
  {
    if calls == [] then s
    else if calls[0].conn in s.departed then Run(s, router, calls[1..])
    else if Crashes(s, calls[0]) then Step(s, router, calls[0])
    else Run(Step(s, router, calls[0]), router, calls[1..])
  }

  /** Every handler keeps the registry valid */
  lemma StepKeepsValid(s: State, router: Router, call: Call)
    requires Valid(s)
    ensures Valid(Step(s, router, call))
  {
    var c := call.conn;
    match call.request
    case JoinRoomRequest(roomName, userId) => JoinRoomKeepsValid(s, c, roomName, userId);
    case GetExistingProducersRequest =>
    case GetRouterRtpCapabilitiesRequest =>
    case CreateTransportRequest(t) => CreateTransportKeepsValid(s, c, t);
    case ConnectTransportRequest(tid, dtls, ok) => ConnectTransportKeepsValid(s, c, tid, dtls, ok);
    case ProduceRequest(tid, kind, rtp, pr) => ProduceKeepsValid(s, c, tid, kind, rtp, pr);
    case ConsumeRequest(ok, tid, pid, caps, co) => ConsumeKeepsValid(s, ok, c, tid, pid, caps, co);
    case DisconnectRequest => DisconnectKeepsValid(s, c);
  }

  /** In every state the server can reach, a room is in the registry only
      while it has peers, and a connected socket is a peer of the room it
      joined last */
  lemma {:induction false} RunKeepsValid(s: State, router: Router, calls: seq<Call>)
    requires Valid(s)
    ensures Valid(Run(s, router, calls))
    decreases |calls|
  {
    if calls != [] && calls[0].conn in s.departed {
      RunKeepsValid(s, router, calls[1..]);
    } else if calls != [] {
      StepKeepsValid(s, router, calls[0]);
      if !Crashes(s, calls[0]) {
        RunKeepsValid(Step(s, router, calls[0]), router, calls[1..]);
      }
    }
  }

  lemma ReachableValid(router: Router, calls: seq<Call>)
    ensures Valid(Run(Initial(), router, calls))
  {
    RunKeepsValid(Initial(), router, calls);
  }
}
