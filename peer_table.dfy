/**
  A room's peers: the JavaScript Map from connection id to peer record,
  kept as a sequence of entries in insertion order (the order in which
  `for ... of` and `forEach` visit it), together with the lookups and
  traversals the handlers perform on it.
 */
module PeerTable {
  import opened Engine
  import opened Messages

  /** The record joinRoom stores for a connection */
  datatype Peer = Peer(userId: UserId, transports: seq<Transport>, producers: seq<Producer>, consumers: seq<Consumer>)

  function NewPeer(userId: UserId): Peer {
    Peer(userId, [], [], [])
  }

  /** One slot of the Map */
  datatype Entry = Entry(conn: ConnId, peer: Peer)

  function Conns(ps: seq<Entry>): set<ConnId> {
    set i | 0 <= i < |ps| :: ps[i].conn
  }

  /** Map keys are unique */
  predicate Distinct(ps: seq<Entry>) {
    forall i, j :: 0 <= i < j < |ps| ==> ps[i].conn != ps[j].conn
  }

  lemma DistinctTail(ps: seq<Entry>)
    requires |ps| > 0 && Distinct(ps)
    ensures Distinct(ps[1..]) && ps[0].conn !in Conns(ps[1..])
  {
  }

  lemma DistinctInit(ps: seq<Entry>)
    requires |ps| > 0 && Distinct(ps)
    ensures Distinct(ps[..|ps| - 1]) && ps[|ps| - 1].conn !in Conns(ps[..|ps| - 1])
  {
  }

  lemma DistinctCons(e: Entry, ps: seq<Entry>)
    requires Distinct(ps) && e.conn !in Conns(ps)
    ensures Distinct([e] + ps)
  {
  }

  lemma ConnsCons(e: Entry, ps: seq<Entry>)
    ensures Conns([e] + ps) == {e.conn} + Conns(ps)
  {
    var qs := [e] + ps;
    forall d | d in Conns(qs) ensures d in {e.conn} + Conns(ps) {
      var i :| 0 <= i < |qs| && qs[i].conn == d;
      if i > 0 { assert ps[i - 1].conn == d; }
    }
    forall d | d in Conns(ps) ensures d in Conns(qs) {
      var i :| 0 <= i < |ps| && ps[i].conn == d;
      assert qs[i + 1].conn == d;
    }
    assert qs[0].conn == e.conn;
  }

  lemma ConnsSnoc(ps: seq<Entry>, e: Entry)
    ensures Conns(ps + [e]) == Conns(ps) + {e.conn}
  {
    var qs := ps + [e];
    forall d | d in Conns(qs) ensures d in Conns(ps) + {e.conn} {
      var i :| 0 <= i < |qs| && qs[i].conn == d;
      if i < |ps| { assert ps[i].conn == d; }
    }
    forall d | d in Conns(ps) ensures d in Conns(qs) {
      var i :| 0 <= i < |ps| && ps[i].conn == d;
      assert qs[i].conn == d;
    }
    assert qs[|ps|].conn == e.conn;
  }

  /** The slot of key c, if any: the first one holding it */
  function KeyIndex(ps: seq<Entry>, c: ConnId): (r: Option<nat>)
    ensures r.Some? ==> r.value < |ps| && ps[r.value].conn == c
    ensures r.Some? ==> forall k :: 0 <= k < r.value ==> ps[k].conn != c
    ensures r.None? <==> c !in Conns(ps)
  {
    if ps == [] then None
    else if ps[0].conn == c then Some(0)
    else
      assert ps == [ps[0]] + ps[1..];
      ConnsCons(ps[0], ps[1..]);
      match KeyIndex(ps[1..], c)
      case None => None
      case Some(k) => Some(k + 1)
  }

  /** A slot that holds c and follows none that does is the one KeyIndex finds */
  lemma KeyIndexFirst(ps: seq<Entry>, c: ConnId, i: nat)
    requires i < |ps| && ps[i].conn == c && forall k :: 0 <= k < i ==> ps[k].conn != c
    ensures KeyIndex(ps, c) == Some(i)
  {
  }

  /** Map.prototype.get */
  function Get(ps: seq<Entry>, c: ConnId): (r: Option<Peer>)
    ensures r.None? <==> c !in Conns(ps)
    ensures r.Some? ==> Entry(c, r.value) in ps
  {
    match KeyIndex(ps, c)
    case None => None
    case Some(i) => Some(ps[i].peer)
  }

  /** With unique keys, get(c) is p exactly when the Map holds the entry c => p */
  lemma GetIn(ps: seq<Entry>, c: ConnId, p: Peer)
    requires Distinct(ps)
    ensures Get(ps, c) == Some(p) <==> Entry(c, p) in ps
  {
  }

  /** Map.prototype.set: an existing key keeps its place and gets the new
      value, a new key goes to the end */
  function Set(ps: seq<Entry>, c: ConnId, p: Peer): (r: seq<Entry>)
    ensures |r| == if c in Conns(ps) then |ps| else |ps| + 1
    ensures forall i :: 0 <= i < |ps| ==> r[i].conn == ps[i].conn
    ensures Conns(r) == Conns(ps) + {c}
    ensures Distinct(ps) ==> Distinct(r)
  {
    match KeyIndex(ps, c)
    case Some(i) =>
      var r := ps[i := Entry(c, p)];
      assert Conns(r) == Conns(ps) by {
        forall d | d in Conns(r) ensures d in Conns(ps) {
          var k :| 0 <= k < |r| && r[k].conn == d;
          assert ps[k].conn == d;
        }
        forall d | d in Conns(ps) ensures d in Conns(r) {
          var k :| 0 <= k < |ps| && ps[k].conn == d;
          assert r[k].conn == d;
        }
      }
      r
    case None =>
      ConnsSnoc(ps, Entry(c, p));
      var r := ps + [Entry(c, p)];
      assert Distinct(ps) ==> Distinct(r) by {
        if Distinct(ps) {
          forall i, j | 0 <= i < j < |r| ensures r[i].conn != r[j].conn {
            if j == |ps| { assert r[i].conn == ps[i].conn && ps[i].conn in Conns(ps); }
          }
        }
      }
      r
  }

  /** After set(c, p), get(c) is p and every other key reads what it read before */
  lemma SetGet(ps: seq<Entry>, c: ConnId, p: Peer, d: ConnId)
    ensures Get(Set(ps, c, p), d) == if d == c then Some(p) else Get(ps, d)
  {
    var r := Set(ps, c, p);
    match KeyIndex(ps, c)
    case Some(i) =>
      if d == c {
        KeyIndexFirst(r, c, i);
      } else if KeyIndex(ps, d).Some? {
        KeyIndexFirst(r, d, KeyIndex(ps, d).value);
      }
    case None =>
      assert r[|ps|] == Entry(c, p);
      if d == c {
        KeyIndexFirst(r, c, |ps|);
      } else if KeyIndex(ps, d).Some? {
        KeyIndexFirst(r, d, KeyIndex(ps, d).value);
      }
  }

  /** Map.prototype.delete */
  function Delete(ps: seq<Entry>, c: ConnId): (r: seq<Entry>)
    ensures forall e :: e in r <==> e in ps && e.conn != c
    ensures Conns(r) == Conns(ps) - {c}
    ensures |r| <= |ps|
    ensures Distinct(ps) ==> Distinct(r)
  {
    if ps == [] then []
    else
      assert ps == [ps[0]] + ps[1..];
      ConnsCons(ps[0], ps[1..]);
      var rest := Delete(ps[1..], c);
      if ps[0].conn == c then
        if Distinct(ps) then DistinctTail(ps); rest else rest
      else
        var r := [ps[0]] + rest;
        ConnsCons(ps[0], rest);
        if Distinct(ps) then
          DistinctTail(ps);
          DistinctCons(ps[0], rest);
          r
        else r
  }

  /** After delete(c), get(c) is undefined and every other key reads what it read before */
  lemma DeleteGet(ps: seq<Entry>, c: ConnId, d: ConnId)
    requires Distinct(ps)
    ensures Get(Delete(ps, c), d) == if d == c then None else Get(ps, d)
  {
  }

  /** idx lists, in increasing order, the positions of ps that r keeps */
  ghost predicate KeptInOrder(r: seq<Entry>, ps: seq<Entry>, idx: seq<int>) {
    && |idx| == |r|
    && (forall k :: 0 <= k < |r| ==> 0 <= idx[k] < |ps| && r[k] == ps[idx[k]])
    && (forall k, l :: 0 <= k < l < |r| ==> idx[k] < idx[l])
  }

  /** delete keeps the surviving entries in their Map order */
  lemma {:induction false} DeleteKeepsOrder(ps: seq<Entry>, c: ConnId)
    ensures exists idx :: KeptInOrder(Delete(ps, c), ps, idx)
  {
    if ps == [] {
      assert Delete(ps, c) == [];
      assert KeptInOrder(Delete(ps, c), ps, []);
    } else {
      DeleteKeepsOrder(ps[1..], c);
      var idx' :| KeptInOrder(Delete(ps[1..], c), ps[1..], idx');
      var keep := ps[0].conn != c;
      var idx := (if keep then [0] else []) + seq(|idx'|, k requires 0 <= k < |idx'| => idx'[k] + 1);
      KeptShift(Delete(ps[1..], c), ps, idx', keep);
      assert Delete(ps, c) == (if keep then [ps[0]] else []) + Delete(ps[1..], c);
      assert KeptInOrder(Delete(ps, c), ps, idx);
    }
  }

  /** One step of delete: a kept tail's positions shift by one, and a kept head comes first */
  lemma KeptShift(rest: seq<Entry>, ps: seq<Entry>, idx': seq<int>, keep: bool)
    requires |ps| > 0 && KeptInOrder(rest, ps[1..], idx')
    ensures KeptInOrder((if keep then [ps[0]] else []) + rest, ps,
                        (if keep then [0] else []) + seq(|idx'|, k requires 0 <= k < |idx'| => idx'[k] + 1))
  {
  }

  /** Array.prototype.find on a peer's transports by id, giving the index
      of the first match so that the handler can update it */
  function TransportIndex(ts: seq<Transport>, id: TransportId): (r: Option<nat>)
    ensures r.Some? ==> r.value < |ts| && ts[r.value].id == id
    ensures r.Some? ==> forall k :: 0 <= k < r.value ==> ts[k].id != id
    ensures r.None? ==> forall k :: 0 <= k < |ts| ==> ts[k].id != id
  {
    if ts == [] then None
    else if ts[0].id == id then Some(0)
    else match TransportIndex(ts[1..], id)
      case None => None
      case Some(k) => Some(k + 1)
  }

  /** `peer.producers.find(p => p.id === producerId)` finds something */
  predicate HasProducer(p: Peer, pid: ProducerId) {
    exists k :: 0 <= k < |p.producers| && p.producers[k].id == pid
  }

  /** The owner search in consume: the user id of the first peer, in Map
      order, that holds the producer, or null */
  function FirstOwner(ps: seq<Entry>, pid: ProducerId): (r: Option<UserId>)
    ensures r.None? <==> forall i :: 0 <= i < |ps| ==> !HasProducer(ps[i].peer, pid)
    ensures r.Some? ==> exists i :: 0 <= i < |ps| && HasProducer(ps[i].peer, pid) && r.value == ps[i].peer.userId
                              && forall j :: 0 <= j < i ==> !HasProducer(ps[j].peer, pid)
  {
    if ps == [] then None
    else if HasProducer(ps[0].peer, pid) then Some(ps[0].peer.userId)
    else
      var r := FirstOwner(ps[1..], pid);
      assert forall i :: 1 <= i < |ps| ==> ps[i] == ps[1..][i - 1];
      if r.Some? then
        var i :| 0 <= i < |ps[1..]| && HasProducer(ps[1..][i].peer, pid) && r.value == ps[1..][i].peer.userId
                 && forall j :: 0 <= j < i ==> !HasProducer(ps[1..][j].peer, pid);
        assert HasProducer(ps[i + 1].peer, pid) && forall j :: 0 <= j < i + 1 ==> !HasProducer(ps[j].peer, pid);
        r
      else r
  }

  /** How getExistingProducers describes one producer of peer p */
  function Info(p: Peer, pr: Producer): ProducerInfo {
    ProducerInfo(pr.id, pr.kind, p.userId)
  }

  /** Every producer of p, tagged with p's user id, in list order */
  function Tagged(p: Peer): (r: seq<ProducerInfo>)
    ensures |r| == |p.producers|
    ensures forall k :: 0 <= k < |r| ==> r[k] == Info(p, p.producers[k])
  {
    seq(|p.producers|, k requires 0 <= k < |p.producers| => Info(p, p.producers[k]))
  }

  /** The number of producers held by peers other than c */
  function ProducerCountOfOthers(ps: seq<Entry>, c: ConnId): nat {
    if ps == [] then 0
    else ProducerCountOfOthers(ps[..|ps| - 1], c) + (if ps[|ps| - 1].conn != c then |ps[|ps| - 1].peer.producers| else 0)
  }

  /** The list getExistingProducers builds for connection c */
  function ProducersOfOthers(ps: seq<Entry>, c: ConnId): (r: seq<ProducerInfo>)
    ensures |r| == ProducerCountOfOthers(ps, c)
  {
    if ps == [] then []
    else
      var last := ps[|ps| - 1];
      ProducersOfOthers(ps[..|ps| - 1], c) + (if last.conn != c then Tagged(last.peer) else [])
  }

  /** Every entry of the list is a producer of another peer, tagged with its owner's user id */
  lemma {:induction false} ProducersOfOthersSound(ps: seq<Entry>, c: ConnId, x: ProducerInfo)
    requires x in ProducersOfOthers(ps, c)
    ensures exists i, pr :: 0 <= i < |ps| && ps[i].conn != c && pr in ps[i].peer.producers && x == Info(ps[i].peer, pr)
  {
    var init, last := ps[..|ps| - 1], ps[|ps| - 1];
    var tail := if last.conn != c then Tagged(last.peer) else [];
    assert ProducersOfOthers(ps, c) == ProducersOfOthers(init, c) + tail;
    if x in tail {
      var k :| 0 <= k < |tail| && tail[k] == x;
      assert ps[|ps| - 1].conn != c && last.peer.producers[k] in ps[|ps| - 1].peer.producers
          && x == Info(ps[|ps| - 1].peer, last.peer.producers[k]);
    } else {
      ProducersOfOthersSound(init, c, x);
      var i, pr :| 0 <= i < |init| && init[i].conn != c && pr in init[i].peer.producers && x == Info(init[i].peer, pr);
      assert ps[i] == init[i];
    }
  }

  /** Every producer of another peer appears in the list */
  lemma {:induction false} ProducersOfOthersComplete(ps: seq<Entry>, c: ConnId, i: nat, pr: Producer)
    requires i < |ps| && ps[i].conn != c && pr in ps[i].peer.producers
    ensures Info(ps[i].peer, pr) in ProducersOfOthers(ps, c)
  {
    var init, last := ps[..|ps| - 1], ps[|ps| - 1];
    var tail := if last.conn != c then Tagged(last.peer) else [];
    assert ProducersOfOthers(ps, c) == ProducersOfOthers(init, c) + tail;
    if i == |ps| - 1 {
      var k :| 0 <= k < |last.peer.producers| && last.peer.producers[k] == pr;
      assert tail[k] == Info(ps[i].peer, pr);
    } else {
      assert init[i] == ps[i];
      ProducersOfOthersComplete(init, c, i, pr);
    }
  }

  /** The list holds exactly the producers of the other peers, each with its owner's user id */
  lemma ProducersOfOthersMembers(ps: seq<Entry>, c: ConnId, x: ProducerInfo)
    ensures x in ProducersOfOthers(ps, c) <==>
            exists i, pr :: 0 <= i < |ps| && ps[i].conn != c && pr in ps[i].peer.producers && x == Info(ps[i].peer, pr)
  {
    if x in ProducersOfOthers(ps, c) {
      ProducersOfOthersSound(ps, c, x);
    }
    if exists i, pr :: 0 <= i < |ps| && ps[i].conn != c && pr in ps[i].peer.producers && x == Info(ps[i].peer, pr) {
      var i, pr :| 0 <= i < |ps| && ps[i].conn != c && pr in ps[i].peer.producers && x == Info(ps[i].peer, pr);
      ProducersOfOthersComplete(ps, c, i, pr);
    }
  }

  /** The emits of one fan-out loop: event ev to every peer whose
      connection is not in skip, in Map order */
  function Broadcast(ps: seq<Entry>, skip: set<ConnId>, ev: EventBody): (r: seq<Message>)
    ensures |r| <= |ps|
    ensures forall m :: m in r ==> m.Event? && m.event == ev && m.to in Conns(ps) && m.to !in skip
  {
    if ps == [] then []
    else
      var init, last := ps[..|ps| - 1], ps[|ps| - 1];
      assert ps == init + [last];
      ConnsSnoc(init, last);
      Broadcast(init, skip, ev) + (if last.conn in skip then [] else [Event(last.conn, ev)])
  }

  /** One more iteration of a fan-out loop */
  lemma BroadcastStep(ps: seq<Entry>, skip: set<ConnId>, ev: EventBody, i: nat)
    requires i < |ps|
    ensures Broadcast(ps[..i + 1], skip, ev)
         == Broadcast(ps[..i], skip, ev) + (if ps[i].conn in skip then [] else [Event(ps[i].conn, ev)])
  {
    assert ps[..i + 1][..i] == ps[..i];
  }

  /** A fan-out reaches every peer outside skip exactly once and nobody else */
  lemma {:induction false} BroadcastOnce(ps: seq<Entry>, skip: set<ConnId>, ev: EventBody, d: ConnId)
    requires Distinct(ps)
    ensures multiset(Broadcast(ps, skip, ev))[Event(d, ev)] == if d in Conns(ps) && d !in skip then 1 else 0
  {
    if ps != [] {
      var init, last := ps[..|ps| - 1], ps[|ps| - 1];
      assert ps == init + [last];
      ConnsSnoc(init, last);
      DistinctInit(ps);
      BroadcastOnce(init, skip, ev, d);
      var tail := if last.conn in skip then [] else [Event(last.conn, ev)];
      assert Broadcast(ps, skip, ev) == Broadcast(init, skip, ev) + tail;
      assert multiset(Broadcast(ps, skip, ev)) == multiset(Broadcast(init, skip, ev)) + multiset(tail);
    }
  }

  /** A fan-out followed by a reply sends ev to each connection of ps outside skip exactly once */
  lemma BroadcastThenReply(ps: seq<Entry>, skip: set<ConnId>, ev: EventBody, reply: Message, d: ConnId)
    requires Distinct(ps) && reply.Reply?
    ensures var sent := Broadcast(ps, skip, ev) + [reply];
            && multiset(sent)[Event(d, ev)] == (if d in Conns(ps) && d !in skip then 1 else 0)
            && multiset(sent)[reply] == 1
            && forall m :: m in sent ==> m == reply || (m.Event? && m.event == ev && m.to !in skip)
  {
    BroadcastOnce(ps, skip, ev, d);
    assert reply !in Broadcast(ps, skip, ev);
    assert multiset(Broadcast(ps, skip, ev) + [reply]) == multiset(Broadcast(ps, skip, ev)) + multiset{reply};
  }

  function TransportCloses(ts: seq<Transport>): seq<EngineCall> {
    seq(|ts|, i requires 0 <= i < |ts| => CloseTransport(ts[i].id))
  }

  function ProducerCloses(ps: seq<Producer>): seq<EngineCall> {
    seq(|ps|, i requires 0 <= i < |ps| => CloseProducer(ps[i].id))
  }

  function ConsumerCloses(cs: seq<Consumer>): seq<EngineCall> {
    seq(|cs|, i requires 0 <= i < |cs| => CloseConsumer(cs[i].id))
  }

  /** The close calls disconnect makes for a departing peer: its transports,
      then its producers, then its consumers, each in list order */
  function CloseAll(p: Peer): (r: seq<EngineCall>)
    ensures |r| == |p.transports| + |p.producers| + |p.consumers|
    ensures forall i :: 0 <= i < |p.transports| ==> r[i] == CloseTransport(p.transports[i].id)
    ensures forall i :: 0 <= i < |p.producers| ==> r[|p.transports| + i] == CloseProducer(p.producers[i].id)
    ensures forall i :: 0 <= i < |p.consumers| ==> r[|p.transports| + |p.producers| + i] == CloseConsumer(p.consumers[i].id)
  {
    TransportCloses(p.transports) + ProducerCloses(p.producers) + ConsumerCloses(p.consumers)
  }
}
