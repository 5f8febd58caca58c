// One gateway as the program keeps it, and the loop that offers a message from the tunnel to every
// gateway in turn through one shared buffer.
module TunnelGateway {
  import opened LinkTypes
  import opened GatewayModel
  import PeerTracker
  import Codec

  class TunnelGateway {
    const iface: Interface
    var nodes: map<NodeId, Surrogate>
    var meters: map<NodeId, Endpoint>
    var local: map<NodeId, LocalNode>
    var byMeasurement: map<Endpoint, NodeId>
    const localTracker: PeerTracker.Pruner
    const remoteTracker: PeerTracker.Pruner

    function View(): Gateway
      reads this, localTracker, remoteTracker
    {
      Gateway(iface, nodes, meters, local, byMeasurement, localTracker.View(), remoteTracker.View())
    }

    ghost predicate Valid()
      reads this, localTracker, remoteTracker
    {
      localTracker != remoteTracker && View().Valid()
    }

    // The objects this gateway updates.
    ghost function Repr(): set<object> {
      {this, localTracker, remoteTracker}
    }

    constructor (iface: Interface)
      requires iface.multicast.V4? || iface.v6
      ensures Valid() && fresh(Repr())
      ensures View() == Gateway(iface, map[], map[], map[], map[], PeerTracker.EMPTY, PeerTracker.EMPTY)
    {
      this.iface := iface;
      nodes, meters, local, byMeasurement := map[], map[], map[], map[];
      localTracker := new PeerTracker.Pruner();
      remoteTracker := new PeerTracker.Pruner();
    }

    // The message returned, if any, goes to the tunnel.
    method HandleStateMessage(from: Endpoint, m: StateMessage, to: Option<NodeId>, now: int)
      returns (forward: Option<Message>)
      requires Valid() && WellParsed(Event.State(from, m, to, now))
      modifies this`local, this`byMeasurement, localTracker
      ensures Reaction(View(), forward, None) == OnState(old(View()), from, m, to, now)
    {
      if m.ident in nodes {
        return None;
      }
      match m.kind {
        case Alive | Response =>
          // a payload that does not parse is ignored
          forward := None;
          if m.endpoint.Some? {
            forward := ReceivePeerState(from, m, m.endpoint.value, to, now);
          }
        case Bye => forward := ReceiveByeBye(m, to);
        case Unknown => forward := None;
      }
    }

    method ReceivePeerState(from: Endpoint, m: StateMessage, e: Endpoint, to: Option<NodeId>, now: int)
      returns (forward: Option<Message>)
      requires Valid() && |m.bytes| >= EntrySize(e)
      modifies this`local, this`byMeasurement, localTracker
      ensures Reaction(View(), forward, None) == Learned(old(View()), from, m, e, to, now)
    {
      local := local[m.ident := LocalNode(from, e)];
      byMeasurement := byMeasurement[e := m.ident];
      localTracker.UpdateTimeout(m.ident, m.ttl * SECOND, now);
      var stripped := m.bytes[..|m.bytes| - EntrySize(e)];
      forward := Some(Message(if to.Some? then Unicast else Broadcast, m.ident, to, stripped));
    }

    method ReceiveByeBye(m: StateMessage, to: Option<NodeId>) returns (forward: Option<Message>)
      requires Valid() && m.kind.Bye? && m.ident !in nodes
      modifies this`local, this`byMeasurement, localTracker
      ensures forall from, now :: WellParsed(Event.State(from, m, to, now)) ==>
                Reaction(View(), forward, None) == OnState(old(View()), from, m, to, now)
    {
      forward := Some(Message(ByeBye, m.ident, to, m.bytes));
      localTracker.Forget(m.ident);
      if m.ident !in local {
        // looking up an unknown node creates it
        local := local[m.ident := LocalNode(UNSET, UNSET)];
      }
      byMeasurement := byMeasurement - {local[m.ident].measurement};
      local := local - {m.ident};
    }

    // `peer` is the node, real or made up, behind the socket the measurement arrived on.
    method HandleMeasurementMessage(from: Endpoint, ping: bool, bytes: seq<Byte>, peer: NodeId, random: NodeId)
      returns (forward: Option<Message>)
      modifies this`local, this`byMeasurement
      ensures Reaction(View(), forward, None)
           == if ping then OnPing(old(View()), from, bytes, peer, random) else OnPong(old(View()), from, bytes, peer)
    {
      if ping {
        if from !in byMeasurement {
          byMeasurement := byMeasurement[from := random];
          local := local[random := LocalNode(UNSET, from)];
        }
        forward := Some(Message(MeasurementPing, byMeasurement[from], Some(peer), bytes));
      } else if from in byMeasurement {
        forward := Some(Message(MeasurementPong, byMeasurement[from], Some(peer), bytes));
      } else {
        forward := None;
      }
    }

    method GetSocketsForRemoteNode(n: NodeId, sockets: Surrogate) returns (s: Surrogate)
      modifies this`nodes
      ensures View() == WithNode(old(View()), n, sockets) && s == View().nodes[n]
    {
      if n !in nodes {
        nodes := nodes[n := sockets];
      }
      s := nodes[n];
    }

    method GetSocketForRemoteMeasurement(n: NodeId, sockets: Surrogate) returns (s: Endpoint)
      modifies this`meters
      ensures View() == WithMeter(old(View()), n, sockets.measurement) && s == View().meters[n]
    {
      if n !in meters {
        meters := meters[n := sockets.measurement];
      }
      s := meters[n];
    }

    method ResolveDestination(msg: Message, sockets: Surrogate) returns (routing: Option<Routing>)
      modifies this`nodes, this`meters
      ensures routing == Resolve(old(View()), msg, sockets)
      ensures View() == if routing.Some? then routing.value.g else old(View())
    {
      if msg.typ.HasTarget() && (msg.to.None? || msg.to.value !in local) {
        return None;
      }
      if msg.typ.MeasurementPing? {
        var socket := GetSocketForRemoteMeasurement(msg.from, sockets);
        return Some(Routing(View(), socket, Scoped(iface, local[msg.to.value].measurement)));
      }
      var own := GetSocketsForRemoteNode(msg.from, sockets);
      match msg.typ {
        case MeasurementPong =>
          routing := Some(Routing(View(), own.measurement, Scoped(iface, local[msg.to.value].measurement)));
        case Unicast => routing := Some(Routing(View(), own.state, Scoped(iface, local[msg.to.value].state)));
        case _ => routing := Some(Routing(View(), own.state, Scoped(iface, iface.multicast)));
      }
    }

    // Writes the stand-in endpoint behind the message if there is room, and returns the new end.
    method AppendMeasurementEndpoint(from: NodeId, buf: array<Byte>, size: nat) returns (end: nat)
      requires from in nodes && size <= buf.Length == Codec.MAX_MESSAGE_SIZE
      modifies buf
      ensures size <= end <= buf.Length && buf[..size] == old(buf[..size])
      ensures var entry := if nodes[from].measurement.V4? then 14 else 26;
              buf[..end] == if size + entry < 512 then old(buf[..size]) + Entry(nodes[from].measurement)
                            else old(buf[..size])
    {
      var e := nodes[from].measurement;
      end := size;
      if size + EntrySize(e) < Codec.MAX_MESSAGE_SIZE {
        end := Codec.Put(buf, size, Entry(e));
        assert buf[..size] == buf[..end][..size];
      }
    }

    // Delivers the first `size` bytes of the buffer locally.  The buffer is shared with the other
    // gateways: this one may write behind those bytes, but not into them.
    method ForwardMessageLocally(typ: MessageType, from: NodeId, to: Option<NodeId>, buf: array<Byte>, size: nat,
                                 ttl: Option<nat>, now: int, sockets: Surrogate) returns (sent: Option<Datagram>)
      requires Valid() && size <= buf.Length == Codec.MAX_MESSAGE_SIZE
      modifies this`nodes, this`meters, remoteTracker, buf
      ensures buf[..size] == old(buf[..size])
      ensures Reaction(View(), None, sent)
           == OnRemote(old(View()), Message(typ, from, to, old(buf[..size])), ttl, now, sockets)
    {
      ghost var msg := Message(typ, from, to, buf[..size]);
      var routing := ResolveDestination(Message(typ, from, to, []), sockets);
      ResolveIgnoresPayload(old(View()), msg, sockets);
      if routing.None? || routing.value.dest.None? {
        return None;
      }
      ResolveOnlyAddsSurrogates(old(View()), msg, sockets);
      Observe(typ, from, ttl, now);
      var end := size;
      if !typ.MeasurementPing? && !typ.ByeBye? {
        end := AppendMeasurementEndpoint(from, buf, size);
      }
      sent := Some(Datagram(routing.value.source, routing.value.dest.value, buf[..end]));
    }

    method Observe(typ: MessageType, from: NodeId, ttl: Option<nat>, now: int)
      requires Valid()
      modifies remoteTracker
      ensures forall to, payload :: View() == Observed(old(View()), Message(typ, from, to, payload), ttl, now)
    {
      if typ.Broadcast? || typ.Unicast? {
        if ttl.Some? {
          remoteTracker.UpdateTimeout(from, ttl.value * SECOND, now);
        }
      } else if typ.ByeBye? {
        remoteTracker.Forget(from);
      }
    }

    // The expiry timer of the local nodes.
    method OnLocalTimeouts(now: int)
      requires Valid()
      modifies this`local, this`byMeasurement, localTracker
      ensures View() == OnLocalTimer(old(View()), now).g
    {
      var gone := localTracker.Prune(now);
      ForgetLocals(gone);
    }

    method ForgetLocals(gone: seq<NodeId>)
      modifies this`local, this`byMeasurement
      ensures local == Except(old(local), gone)
      ensures byMeasurement == Unclaimed(old(byMeasurement), old(local), gone)
    {
      for i := 0 to |gone|
        invariant local == Except(old(local), gone[..i])
        invariant byMeasurement == Unclaimed(old(byMeasurement), old(local), gone[..i])
      {
        OneMoreGone(old(local), gone, i);
        ForgetLocal(gone[i]);
      }
      assert gone[..|gone|] == gone;
    }

    method ForgetLocal(id: NodeId)
      modifies this`local, this`byMeasurement
      ensures local == old(local) - {id}
      ensures byMeasurement
           == if id in old(local) then old(byMeasurement) - {old(local)[id].measurement} else old(byMeasurement)
    {
      if id in local {
        byMeasurement := byMeasurement - {local[id].measurement};
        local := local - {id};
      }
    }

    // The expiry timer of the remote nodes: their surrogates are dropped.
    method OnRemoteTimeouts(now: int)
      requires Valid()
      modifies this`nodes, this`meters, remoteTracker
      ensures View() == OnRemoteTimer(old(View()), now).g
    {
      var gone := remoteTracker.Prune(now);
      ForgetRemotes(gone);
    }

    method ForgetRemotes(gone: seq<NodeId>)
      modifies this`nodes, this`meters
      ensures nodes == Except(old(nodes), gone) && meters == Except(old(meters), gone)
    {
      for i := 0 to |gone|
        invariant nodes == Except(old(nodes), gone[..i]) && meters == Except(old(meters), gone[..i])
      {
        assert gone[..i + 1] == gone[..i] + [gone[i]];
        nodes := nodes - {gone[i]};
        meters := meters - {gone[i]};
      }
      assert gone[..|gone|] == gone;
    }

    method StopListening()
      requires Valid()
      modifies this`nodes, this`meters, this`local, this`byMeasurement, localTracker, remoteTracker
      ensures View() == Stopped(old(View()))
    {
      nodes, meters, local, byMeasurement := map[], map[], map[], map[];
      localTracker.Clear();
      remoteTracker.Clear();
    }
  }

  lemma ResolveIgnoresPayload(g: Gateway, msg: Message, sockets: Surrogate)
    ensures Resolve(g, msg, sockets) == Resolve(g, msg.(payload := []), sockets)
  {
  }

  lemma OneMoreGone(local: map<NodeId, LocalNode>, gone: seq<NodeId>, i: nat)
    requires i < |gone|
    ensures forall n :: n in gone[..i + 1] <==> n in gone[..i] || n == gone[i]
    ensures forall e :: Announced(local, gone[..i + 1], e) <==>
                          Announced(local, gone[..i], e) || (gone[i] in local && local[gone[i]].measurement == e)
  {
    assert gone[..i + 1] == gone[..i] + [gone[i]];
    forall e | Announced(local, gone[..i], e) || (gone[i] in local && local[gone[i]].measurement == e)
      ensures Announced(local, gone[..i + 1], e)
    {
      if Announced(local, gone[..i], e) {
        var n :| n in gone[..i] && n in local && local[n].measurement == e;
        assert n in gone[..i + 1];
      } else {
        assert gone[i] in gone[..i + 1];
      }
    }
  }

  // No two gateways share an object.
  ghost predicate Separate(gateways: seq<TunnelGateway>) {
    forall i, j :: 0 <= i < j < |gateways| ==> gateways[i].Repr() !! gateways[j].Repr()
  }

  ghost function AllReprs(gateways: seq<TunnelGateway>): set<object> {
    set i, o | 0 <= i < |gateways| && o in gateways[i].Repr() :: o
  }

  lemma OthersUntouched(gateways: seq<TunnelGateway>, i: nat, k: nat)
    requires Separate(gateways) && i < |gateways| && k < |gateways| && k != i
    ensures gateways[k] != gateways[i] && gateways[k].localTracker != gateways[i].remoteTracker
    ensures gateways[k].remoteTracker != gateways[i].remoteTracker
  {
    assert gateways[i].Repr() !! gateways[k].Repr();
    assert gateways[k].localTracker in gateways[k].Repr() && gateways[k].remoteTracker in gateways[k].Repr();
  }

  // The i-th gateway delivers the message; the others are not touched.
  method ForwardTo(gateways: seq<TunnelGateway>, i: nat, typ: MessageType, from: NodeId, to: Option<NodeId>,
                   buf: array<Byte>, size: nat, ttl: Option<nat>, now: int, sockets: Surrogate)
    returns (sent: Option<Datagram>)
    requires Separate(gateways) && i < |gateways| && gateways[i].Valid()
    requires size <= buf.Length == Codec.MAX_MESSAGE_SIZE
    modifies gateways[i].Repr(), buf
    ensures buf[..size] == old(buf[..size])
    ensures Reaction(gateways[i].View(), None, sent)
         == OnRemote(old(gateways[i].View()), Message(typ, from, to, old(buf[..size])), ttl, now, sockets)
    ensures forall k :: 0 <= k < |gateways| && k != i ==> gateways[k].View() == old(gateways[k].View())
  {
    forall k | 0 <= k < |gateways| && k != i
      ensures gateways[k] != gateways[i] && gateways[k].localTracker != gateways[i].remoteTracker
      ensures gateways[k].remoteTracker != gateways[i].remoteTracker
    {
      OthersUntouched(gateways, i, k);
    }
    sent := gateways[i].ForwardMessageLocally(typ, from, to, buf, size, ttl, now, sockets);
  }

  // Offers one message to all gateways in turn.  Although each may write its own endpoint into the
  // shared buffer, every one of them reacts as if it had a buffer of its own.
  method ForwardLocally(gateways: seq<TunnelGateway>, typ: MessageType, from: NodeId, to: Option<NodeId>,
                        buf: array<Byte>, size: nat, ttl: Option<nat>, now: int, sockets: seq<Surrogate>)
    returns (sent: seq<Option<Datagram>>)
    requires Separate(gateways) && |sockets| == |gateways|
    requires forall k :: 0 <= k < |gateways| ==> gateways[k].Valid()
    requires size <= buf.Length == Codec.MAX_MESSAGE_SIZE
    modifies AllReprs(gateways), buf
    ensures |sent| == |gateways|
    ensures forall k :: 0 <= k < |gateways| ==>
              Reaction(gateways[k].View(), None, sent[k])
              == OnRemote(old(gateways[k].View()), Message(typ, from, to, old(buf[..size])), ttl, now, sockets[k])
  {
    sent := [];
    for i := 0 to |gateways|
      invariant |sent| == i && buf[..size] == old(buf[..size])
      invariant forall k :: i <= k < |gateways| ==> gateways[k].View() == old(gateways[k].View())
      invariant forall k :: 0 <= k < i ==>
                  Reaction(gateways[k].View(), None, sent[k])
                  == OnRemote(old(gateways[k].View()), Message(typ, from, to, old(buf[..size])), ttl, now, sockets[k])
    {
      assert gateways[i].Repr() <= AllReprs(gateways);
      var one := ForwardTo(gateways, i, typ, from, to, buf, size, ttl, now, sockets[i]);
      sent := sent + [one];
    }
  }
}
