// A peer state on its way from a node to the gateways of another site: only its measurement endpoint
// is rewritten, and of the copies that several gateways of a site hear only one crosses the tunnel.
module PeerStates {
  import opened LinkTypes
  import opened Codec
  import opened GatewayModel
  import opened TunnelVectors
  import TunnelRefinement
  import Dedup
  import Fnv

  // What arrives at the far end of the tunnel when msg is sent.
  function Transported(msg: Message): Message
    requires Addressed(msg) && Fits(msg)
  {
    AsMessage(Decoded(Padded(Wire(msg)))).value
  }

  /* The near gateway */

  // n's peer state with the measurement endpoint e at its end.
  predicate Describes(m: StateMessage, n: NodeId, e: Endpoint, body: seq<Byte>) {
    && m.ident == n && (m.kind.Alive? || m.kind.Response?)
    && m.endpoint == Some(e) && m.bytes == body + GatewayModel.Entry(e)
  }

  // The message handed to the tunnel does not depend on the endpoint.
  function Stripped(n: NodeId, body: seq<Byte>, to: Option<NodeId>): Message {
    Message(if to.Some? then Unicast else Broadcast, n, to, body)
  }

  lemma EndpointIsStripped(a: Gateway, from: Endpoint, m: StateMessage, n: NodeId, e: Endpoint, body: seq<Byte>,
                           to: Option<NodeId>, now: int)
    requires n !in a.nodes && Describes(m, n, e, body)
    ensures OnState(a, from, m, to, now).forward == Some(Stripped(n, body, to))
  {
    assert m.bytes[..|m.bytes| - EntrySize(e)] == body;
  }

  // A goodbye is handed over whole, also when the node was never known.
  lemma GoodbyeIsHandedOver(a: Gateway, from: Endpoint, m: StateMessage, to: Option<NodeId>, now: int)
    requires m.ident !in a.nodes && m.kind == Bye && WellParsed(GatewayModel.State(from, m, to, now))
    ensures OnState(a, from, m, to, now).forward == Some(Message(ByeBye, m.ident, to, m.bytes))
  {
  }

  /* The tunnel */

  lemma LinkedPeersListed(v: Vectors, msg: Message)
    requires v.Inverse()
    ensures Lists(ToConnected(v.peers, msg), set e | e in v.endpointIdx && v.Linked(e) :: Send(e, msg))
  {
    TunnelRefinement.ToConnectedList(v, msg);
    assert (set e | e in v.endpointIdx && v.Linked(e) :: Send(e, msg))
        == (set e | e in v.PeerMap() && v.Abs().Holds(e) :: Send(e, msg));
  }

  // A broadcast, goodbye or pong that passes the filter is sent to each connected peer once and arrives
  // there, a pong with its target and the others without; all but a goodbye of a node not yet mapped
  // teach the far site the way back, and a goodbye ends it.
  lemma BroadcastCrosses(near: Vectors, far: Vectors, here: Endpoint, msg: Message, now: int)
    requires near.Inverse() && far.Sound() && far.Linked(here)
    requires msg.typ in {Broadcast, ByeBye, MeasurementPong} && Addressed(msg) && Fits(msg)
    ensures var sent := if msg.typ == MeasurementPong then msg else msg.(to := None);
            && Lists(Forwarded(near, msg), set e | e in near.endpointIdx && near.Linked(e) :: Send(e, sent))
            && Transported(msg) == sent
            && TunnelVectors.Received(far, here, sent, now).upcall == Some(sent)
    ensures var r := TunnelVectors.Received(far, here, OnWire(msg), now).state.nodeIdx;
            if msg.typ == ByeBye then msg.from !in r
            else
              && msg.from in r
              && r[msg.from] == if msg.from in far.nodeIdx then far.nodeIdx[msg.from] else far.endpointIdx[here]
  {
    LinkedPeersListed(near, OnWire(msg));
    TransportIsFaithful(msg);
  }

  // Without a target, or for a node nobody has heard of, a targeted message goes nowhere.
  lemma UntargetedGoesNowhere(near: Vectors, msg: Message)
    requires (msg.typ in {Unicast, MeasurementPing, MeasurementPong} && msg.to == None)
          || (msg.typ in {Unicast, MeasurementPing} && msg.to.Some? && msg.to.value !in near.nodeIdx)
    ensures Forwarded(near, msg) == []
  {
  }

  // n lives behind the connected peer `there`.
  ghost predicate Mapped(v: Vectors, n: NodeId, there: Endpoint)
    requires v.Sound()
  {
    v.Linked(there) && n in v.nodeIdx && v.nodeIdx[n] == v.endpointIdx[there]
  }

  // A unicast or ping goes to the peer its target lives behind and to nobody else, unless the filter
  // drops it, arrives unchanged, and teaches the far site the way back.
  lemma TargetedMessageCrosses(near: Vectors, far: Vectors, here: Endpoint, there: Endpoint, msg: Message,
                               seen: seq<Dedup.Entry>, capacity: nat, window: int, now: int)
    requires near.Sound() && far.Sound() && far.Linked(here) && Addressed(msg) && Fits(msg)
    requires (msg.typ.Unicast? || msg.typ.MeasurementPing?) && Mapped(near, msg.to.value, there)
    ensures Relaying(seen, capacity, window, near, msg, now).sends
         == if Suppressed(seen, capacity, window, msg, now) then [] else [Send(there, msg)]
    ensures Transported(msg) == msg
    ensures TunnelVectors.Received(far, here, msg, now).upcall == Some(msg)
    ensures var r := TunnelVectors.Received(far, here, msg, now).state.nodeIdx;
            && msg.from in r
            && r[msg.from] == if msg.from in far.nodeIdx then far.nodeIdx[msg.from] else far.endpointIdx[here]
  {
    TransportIsFaithful(msg);
  }

  /* The far gateways */

  // Each gateway, if it knows the target, sends the message from its own socket for the node to the
  // target or the multicast address, in the interface's scope, as the same bytes followed by the entry
  // of its own stand-in endpoint, if the whole then stays below 512 bytes.
  lemma EndpointIsReplaced(b: Gateway, msg: Message, ttl: Option<nat>, now: int, sockets: Surrogate)
    requires b.Valid() && (msg.typ == Broadcast || (msg.typ == Unicast && msg.to.Some?))
    requires msg.typ == Unicast && msg.to.value in b.local ==> b.local[msg.to.value].state.V4? || b.iface.v6
    ensures var arrival := OnRemote(b, msg, ttl, now, sockets);
            if msg.typ == Unicast && msg.to.value !in b.local then arrival == Idle(b)
            else
              && msg.from in arrival.g.nodes
              && var own := arrival.g.nodes[msg.from];
                 && own == (if msg.from in b.nodes then b.nodes[msg.from] else sockets)
                 && var dest := if msg.typ == Unicast then b.local[msg.to.value].state else b.iface.multicast;
                    var size := if own.measurement.V4? then 14 else 26;
                    && arrival.sent.Some? && arrival.sent.value.source == own.state
                    && arrival.sent.value.dest
                       == (if dest.V4? then dest else V6(dest.address6, b.iface.scope, dest.port))
                    && arrival.sent.value.bytes
                       == if |msg.payload| + size < 512 then msg.payload + GatewayModel.Entry(own.measurement)
                          else msg.payload
    ensures msg.from in b.nodes ==> OnRemote(b, msg, ttl, now, sockets).g.nodes == b.nodes
  {
    ResolveOnlyAddsSurrogates(b, msg, sockets);
  }

  // A gateway on an IPv4 interface cannot send to an IPv6 endpoint: it creates its own sockets for the node
  // all the same, but sends nothing and does not note the node's lifetime.
  lemma UnreachableIsNotSent(b: Gateway, msg: Message, ttl: Option<nat>, now: int, sockets: Surrogate)
    requires b.Valid() && !b.iface.v6 && msg.typ == Unicast && msg.to.Some? && msg.to.value in b.local
    requires b.local[msg.to.value].state.V6?
    ensures var arrival := OnRemote(b, msg, ttl, now, sockets);
            && arrival.sent == None && arrival.forward == None
            && arrival.g.nodes == (if msg.from in b.nodes then b.nodes else b.nodes[msg.from := sockets])
            && arrival.g.meters == b.meters && arrival.g.remoteTracker == b.remoteTracker
  {
  }

  // A goodbye leaves every gateway unchanged, from its own socket for the node to the multicast address,
  // and the stand-ins stay.
  lemma GoodbyeIsRepeated(b: Gateway, msg: Message, ttl: Option<nat>, now: int, sockets: Surrogate)
    requires b.Valid() && msg.typ == ByeBye
    ensures var arrival, dest := OnRemote(b, msg, ttl, now, sockets), b.iface.multicast;
            && msg.from in arrival.g.nodes && arrival.sent.Some?
            && arrival.sent.value.source == (if msg.from in b.nodes then b.nodes[msg.from].state else sockets.state)
            && arrival.sent.value.dest == (if dest.V4? then dest else V6(dest.address6, b.iface.scope, dest.port))
            && arrival.sent.value.bytes == msg.payload
    ensures msg.from in b.nodes ==> OnRemote(b, msg, ttl, now, sockets).g.nodes == b.nodes
  {
    ResolveOnlyAddsSurrogates(b, msg, sockets);
  }

  // A gateway to which the message means something: it can reach the target, if there is one.
  predicate Reaches(b: Gateway, to: Option<NodeId>) {
    to.Some? ==> to.value in b.local && (b.local[to.value].state.V4? || b.iface.v6)
  }

  // The whole way.  The peer state of a node heard by gateway a of one site, if the filter lets it
  // through, is sent to each connected site, or for a target to the one the target lives at, arrives as
  // the same bytes without the endpoint, and every gateway there sends it on with its own.
  lemma PeerStateCrosses(a: Gateway, from: Endpoint, m: StateMessage, n: NodeId, e: Endpoint, body: seq<Byte>,
                         to: Option<NodeId>, near: Vectors, seen: seq<Dedup.Entry>, capacity: nat, window: int,
                         far: Vectors, here: Endpoint, there: Endpoint,
                         bs: seq<Gateway>, ttl: Option<nat>, now: int, sockets: seq<Surrogate>)
    requires n !in a.nodes && Describes(m, n, e, body) && Fits(Stripped(n, body, to))
    requires near.Inverse() && near.Linked(there) && far.Sound() && far.Linked(here)
    requires to.Some? ==> Mapped(near, to.value, there)
    requires !Suppressed(seen, capacity, window, Stripped(n, body, to), now)
    requires |sockets| == |bs| && forall k :: 0 <= k < |bs| ==> bs[k].Valid()
    ensures var msg := Stripped(n, body, to);
            && OnState(a, from, m, to, now).forward == Some(msg)
            && Send(there, msg) in Relaying(seen, capacity, window, near, msg, now).sends
            && (to.Some? ==> Relaying(seen, capacity, window, near, msg, now).sends == [Send(there, msg)])
            && TunnelVectors.Received(far, here, Transported(msg), now).upcall == Some(msg)
            && (forall k :: 0 <= k < |bs| && Reaches(bs[k], to) ==>
                  var arrival := OnRemote(bs[k], msg, ttl, now, sockets[k]);
                  && n in arrival.g.nodes && arrival.sent.Some?
                  && var own, sent := arrival.g.nodes[n], arrival.sent.value;
                     && sent.source == own.state
                     && sent.bytes == if |body| + (if own.measurement.V4? then 14 else 26) < 512
                                      then body + GatewayModel.Entry(own.measurement) else body)
            && (forall k :: 0 <= k < |bs| && to.Some? && to.value !in bs[k].local ==>
                  OnRemote(bs[k], msg, ttl, now, sockets[k]) == Idle(bs[k]))
  {
    var msg := Stripped(n, body, to);
    EndpointIsStripped(a, from, m, n, e, body, to, now);
    if to.Some? {
      TargetedMessageCrosses(near, far, here, there, msg, seen, capacity, window, now);
    } else {
      BroadcastCrosses(near, far, here, msg, now);
      assert Send(there, msg) in Elements(Forwarded(near, msg));
    }
    forall k | 0 <= k < |bs| && Reaches(bs[k], to)
      ensures var arrival := OnRemote(bs[k], msg, ttl, now, sockets[k]);
              && n in arrival.g.nodes && arrival.sent.Some?
              && var own, sent := arrival.g.nodes[n], arrival.sent.value;
                 && sent.source == own.state
                 && sent.bytes == if |body| + (if own.measurement.V4? then 14 else 26) < 512
                                  then body + GatewayModel.Entry(own.measurement) else body
    {
      EndpointIsReplaced(bs[k], msg, ttl, now, sockets[k]);
    }
  }

  // And the goodbye of a node, with all its bytes.
  lemma GoodbyeCrosses(a: Gateway, from: Endpoint, m: StateMessage, near: Vectors, seen: seq<Dedup.Entry>,
                       capacity: nat, window: int, far: Vectors, here: Endpoint, there: Endpoint,
                       bs: seq<Gateway>, ttl: Option<nat>, now: int, sockets: seq<Surrogate>)
    requires m.ident !in a.nodes && m.kind == Bye && WellParsed(GatewayModel.State(from, m, None, now))
    requires Fits(Message(ByeBye, m.ident, None, m.bytes))
    requires near.Inverse() && near.Linked(there) && far.Sound() && far.Linked(here)
    requires !Suppressed(seen, capacity, window, Message(ByeBye, m.ident, None, m.bytes), now)
    requires |sockets| == |bs| && forall k :: 0 <= k < |bs| ==> bs[k].Valid()
    ensures var msg := Message(ByeBye, m.ident, None, m.bytes);
            && OnState(a, from, m, None, now).forward == Some(msg)
            && Send(there, msg) in Relaying(seen, capacity, window, near, msg, now).sends
            && TunnelVectors.Received(far, here, Transported(msg), now).upcall == Some(msg)
            && m.ident !in TunnelVectors.Received(far, here, msg, now).state.nodeIdx
            && forall k :: 0 <= k < |bs| ==>
                 var arrival := OnRemote(bs[k], msg, ttl, now, sockets[k]);
                 && m.ident in arrival.g.nodes && arrival.sent.Some?
                 && arrival.sent.value.source == arrival.g.nodes[m.ident].state
                 && arrival.sent.value.bytes == m.bytes
  {
    var msg := Message(ByeBye, m.ident, None, m.bytes);
    GoodbyeIsHandedOver(a, from, m, None, now);
    BroadcastCrosses(near, far, here, msg, now);
    assert Send(there, msg) in Elements(Forwarded(near, msg));
    forall k | 0 <= k < |bs|
      ensures var arrival := OnRemote(bs[k], msg, ttl, now, sockets[k]);
              && m.ident in arrival.g.nodes && arrival.sent.Some?
              && arrival.sent.value.source == arrival.g.nodes[m.ident].state
              && arrival.sent.value.bytes == m.bytes
    {
      GoodbyeIsRepeated(bs[k], msg, ttl, now, sockets[k]);
    }
  }

  /* The duplicate filter */

  // A gateway's call of the tunnel.
  datatype Offer = Offer(msg: Message, now: int)

  // The calls among them that reach the filter.
  function Calls(offers: seq<Offer>): seq<Dedup.Call> {
    if offers == [] then []
    else
      var o := offers[|offers| - 1];
      Calls(offers[..|offers| - 1]) + if o.msg.typ.IsFiltered() then [CallOf(o.msg, o.now)] else []
  }

  // What the filter holds after these calls.
  function Seen(offers: seq<Offer>, capacity: nat, window: int): seq<Dedup.Entry> {
    if offers == [] then []
    else
      var o := offers[|offers| - 1];
      Recorded(Seen(offers[..|offers| - 1], capacity, window), capacity, window, o.msg, o.now)
  }

  // The datagrams of the j-th call of a run, made while the tunnel is in state v.
  function SendsAt(offers: seq<Offer>, j: nat, capacity: nat, window: int, v: Vectors): seq<Send>
    requires j < |offers|
  {
    Relaying(Seen(offers[..j], capacity, window), capacity, window, v, offers[j].msg, offers[j].now).sends
  }

  lemma {:induction false} AfterNext(h: seq<Dedup.Call>, c: Dedup.Call, capacity: nat, window: int)
    ensures Dedup.After(h + [c], capacity, window)
         == Dedup.Lookup(Dedup.After(h, capacity, window), capacity, window, c).entries
  {
    assert (h + [c])[..|h|] == h;
  }

  lemma {:induction false} SeenIsHistory(offers: seq<Offer>, capacity: nat, window: int)
    ensures Seen(offers, capacity, window) == Dedup.After(Calls(offers), capacity, window)
  {
    if offers != [] {
      var front, o := offers[..|offers| - 1], offers[|offers| - 1];
      SeenIsHistory(front, capacity, window);
      if o.msg.typ.IsFiltered() {
        AfterNext(Calls(front), CallOf(o.msg, o.now), capacity, window);
      } else {
        assert Calls(offers) == Calls(front);
      }
    }
  }

  lemma {:induction false} CallsAppend(a: seq<Offer>, b: seq<Offer>)
    ensures Calls(a + b) == Calls(a) + Calls(b)
  {
    if b == [] {
      assert a + b == a;
    } else {
      assert (a + b)[..|a + b| - 1] == a + b[..|b| - 1];
      CallsAppend(a, b[..|b| - 1]);
    }
  }

  lemma {:induction false} CallsCome(offers: seq<Offer>, c: Dedup.Call)
    ensures c in Calls(offers) <==> exists o :: o in offers && o.msg.typ.IsFiltered() && c == CallOf(o.msg, o.now)
  {
    if offers != [] {
      var front, o := offers[..|offers| - 1], offers[|offers| - 1];
      CallsCome(front, c);
      assert offers == front + [o];
    }
  }

  // The offers for the key of msg are all made less than a window after `since`, and fewer than
  // `capacity` other keys are offered.
  ghost predicate Burst(offers: seq<Offer>, msg: Message, since: int, capacity: nat, window: int) {
    && |Dedup.OtherKeys(Calls(offers), CallOf(msg, 0).key)| < capacity
    && forall o :: o in offers && o.msg.typ.IsFiltered() && CallOf(o.msg, 0).key == CallOf(msg, 0).key ==>
         o.now - since < window
  }

  lemma {:induction false} BurstPrefix(offers: seq<Offer>, k: nat, msg: Message, since: int, capacity: nat, window: int)
    requires k <= |offers| && Burst(offers, msg, since, capacity, window)
    ensures Burst(offers[..k], msg, since, capacity, window)
  {
    var key := CallOf(msg, 0).key;
    var all, some := Calls(offers), Calls(offers[..k]);
    assert offers == offers[..k] + offers[k..];
    CallsAppend(offers[..k], offers[k..]);
    assert all == some + Calls(offers[k..]);
    assert forall i :: 0 <= i < |some| ==> some[i] == all[i];
    Dedup.SubsetSize(Dedup.OtherKeys(some, key), Dedup.OtherKeys(all, key));
  }

  // A further copy in the burst finds the key of the one that was let through still fresh.
  lemma {:induction false} LastIsDuplicate(h: seq<Dedup.Call>, first: Offer, rest: seq<Offer>, capacity: nat,
                                           window: int)
    requires capacity >= 1 && rest != [] && rest[|rest| - 1].msg == first.msg && first.msg.typ.IsFiltered()
    requires !Dedup.Duplicate(h, capacity, window, CallOf(first.msg, first.now))
    requires Burst(rest, first.msg, first.now, capacity, window)
    ensures var last := rest[|rest| - 1];
            Dedup.Duplicate(h + [CallOf(first.msg, first.now)] + Calls(rest[..|rest| - 1]), capacity, window,
                            CallOf(last.msg, last.now))
  {
    var c, calls := CallOf(first.msg, first.now), Calls(rest);
    forall i | 0 <= i < |calls| && calls[i].key == c.key
      ensures calls[i].now - c.now < window
    {
      CallsCome(rest, calls[i]);
      assert calls[i] in calls;
    }
    Dedup.BurstIsForwardedOnce(h, c, calls, capacity, window);
    assert calls[..|calls| - 1] == Calls(rest[..|rest| - 1]);
  }

  // After an offer that was let through, every further copy in the burst is dropped, whatever
  // has become of the tunnel's peers meanwhile.
  lemma {:induction false} CopyIsDropped(before: seq<Offer>, first: Offer, rest: seq<Offer>, capacity: nat,
                                         window: int, v: Vectors)
    requires capacity >= 1 && rest != [] && rest[|rest| - 1].msg == first.msg
    requires first.msg.typ in {Broadcast, Unicast, ByeBye}
    requires !Dedup.Duplicate(Calls(before), capacity, window, CallOf(first.msg, first.now))
    requires Burst(rest, first.msg, first.now, capacity, window)
    ensures SendsAt(before + [first] + rest, |before| + |rest|, capacity, window, v) == []
  {
    var front := rest[..|rest| - 1];
    var earlier := before + [first] + front;
    assert (before + [first] + rest)[..|before| + |rest|] == earlier;
    LastIsDuplicate(Calls(before), first, rest, capacity, window);
    CallsOfEarlier(before, first, front);
    SeenIsHistory(earlier, capacity, window);
  }

  lemma {:induction false} CallsOfEarlier(before: seq<Offer>, first: Offer, front: seq<Offer>)
    requires first.msg.typ.IsFiltered()
    ensures Calls(before + [first] + front) == Calls(before) + [CallOf(first.msg, first.now)] + Calls(front)
  {
    CallsAppend(before + [first], front);
    CallsAppend(before, [first]);
    assert [first][..0] == [];
    assert Calls([first]) == [CallOf(first.msg, first.now)];
  }

  lemma {:induction false} FirstPasses(before: seq<Offer>, offers: seq<Offer>, capacity: nat, window: int, v: Vectors)
    requires offers != [] && offers[0].msg.typ in {Broadcast, Unicast, ByeBye}
    requires !Dedup.Duplicate(Calls(before), capacity, window, CallOf(offers[0].msg, offers[0].now))
    ensures SendsAt(before + offers, |before|, capacity, window, v) == Forwarded(v, offers[0].msg)
  {
    assert (before + offers)[..|before|] == before && (before + offers)[|before|] == offers[0];
    SeenIsHistory(before, capacity, window);
  }

  // Of the copies of one broadcast, unicast or goodbye the first to reach the filter, if it is no
  // duplicate already, is sent as the tunnel's state then says, and no later one in the burst goes
  // anywhere, however other messages, peers and links come and go in between.
  lemma {:induction false} CopiesLeaveOnce(before: seq<Offer>, offers: seq<Offer>, j: nat, capacity: nat, window: int,
                                           v: Vectors)
    requires capacity >= 1 && j < |offers| && offers[j].msg == offers[0].msg
    requires offers[0].msg.typ in {Broadcast, Unicast, ByeBye}
    requires !Dedup.Duplicate(Calls(before), capacity, window, CallOf(offers[0].msg, offers[0].now))
    requires Burst(offers[1..], offers[0].msg, offers[0].now, capacity, window)
    ensures SendsAt(before + offers, |before| + j, capacity, window, v)
         == if j == 0 then Forwarded(v, offers[0].msg) else []
  {
    if j == 0 {
      FirstPasses(before, offers, capacity, window, v);
    } else {
      LaterCopyIsDropped(before, offers, j, capacity, window, v);
    }
  }

  // Pings, pongs and control messages are never dropped, and leave no trace in the filter.
  lemma MeasurementsPass(seen: seq<Dedup.Entry>, capacity: nat, window: int, v: Vectors, msg: Message, now: int)
    requires msg.typ !in {Broadcast, Unicast, ByeBye}
    ensures Relaying(seen, capacity, window, v, msg, now) == Relay(seen, Forwarded(v, msg))
  {
  }

  // One gateway overhearing the node.
  datatype Hearing = Hearing(g: Gateway, from: Endpoint, m: StateMessage, own: Endpoint, now: int)

  // What the gateway hands to the tunnel.
  predicate HandsOver(h: Hearing, to: Option<NodeId>, msg: Message) {
    && WellParsed(GatewayModel.State(h.from, h.m, to, h.now))
    && OnState(h.g, h.from, h.m, to, h.now).forward == Some(msg)
  }

  // Several gateways of one site hear the same peer state, each with another endpoint at its end, to all
  // or to one target.  They hand the tunnel one and the same message: the first copy goes to each
  // connected peer once, or to the one the target lives behind, and the others go nowhere.
  lemma {:induction false} PeerStateLeavesOnce(heard: seq<Hearing>, n: NodeId, body: seq<Byte>, to: Option<NodeId>,
                                               before: seq<Offer>, offers: seq<Offer>, j: nat, capacity: nat,
                                               window: int, v: Vectors, there: Endpoint)
    requires forall k :: 0 <= k < |heard| ==> n !in heard[k].g.nodes && Describes(heard[k].m, n, heard[k].own, body)
    requires capacity >= 1 && j < |offers| && offers[0].msg == offers[j].msg == Stripped(n, body, to)
    requires !Dedup.Duplicate(Calls(before), capacity, window, CallOf(offers[0].msg, offers[0].now))
    requires Burst(offers[1..], offers[0].msg, offers[0].now, capacity, window) && v.Inverse()
    requires to.Some? ==> Mapped(v, to.value, there)
    ensures forall k :: 0 <= k < |heard| ==> HandsOver(heard[k], to, offers[0].msg)
    ensures j == 0 && to.None? ==> Lists(SendsAt(before + offers, |before|, capacity, window, v),
                                         set e | e in v.endpointIdx && v.Linked(e) :: Send(e, offers[0].msg))
    ensures j == 0 && to.Some? ==>
              SendsAt(before + offers, |before|, capacity, window, v) == [Send(there, offers[0].msg)]
    ensures j > 0 ==> SendsAt(before + offers, |before| + j, capacity, window, v) == []
  {
    forall k | 0 <= k < |heard|
      ensures HandsOver(heard[k], to, offers[0].msg)
    {
      var h := heard[k];
      EndpointIsStripped(h.g, h.from, h.m, n, h.own, body, to, h.now);
    }
    CopiesLeaveOnce(before, offers, j, capacity, window, v);
    LinkedPeersListed(v, offers[0].msg);
  }

  // The same of a goodbye that several gateways hear.
  lemma {:induction false} GoodbyeLeavesOnce(heard: seq<Hearing>, n: NodeId, bytes: seq<Byte>, before: seq<Offer>,
                                             offers: seq<Offer>, j: nat, capacity: nat, window: int, v: Vectors)
    requires forall k :: 0 <= k < |heard| ==>
               && n !in heard[k].g.nodes && heard[k].m.ident == n && heard[k].m.kind == Bye
               && heard[k].m.bytes == bytes && heard[k].m.endpoint == None
    requires capacity >= 1 && j < |offers| && offers[0].msg == offers[j].msg == Message(ByeBye, n, None, bytes)
    requires !Dedup.Duplicate(Calls(before), capacity, window, CallOf(offers[0].msg, offers[0].now))
    requires Burst(offers[1..], offers[0].msg, offers[0].now, capacity, window) && v.Inverse()
    ensures forall k :: 0 <= k < |heard| ==> HandsOver(heard[k], None, offers[0].msg)
    ensures j == 0 ==> Lists(SendsAt(before + offers, |before|, capacity, window, v),
                             set e | e in v.endpointIdx && v.Linked(e) :: Send(e, offers[0].msg))
    ensures j > 0 ==> SendsAt(before + offers, |before| + j, capacity, window, v) == []
  {
    forall k | 0 <= k < |heard|
      ensures HandsOver(heard[k], None, offers[0].msg)
    {
      GoodbyeIsHandedOver(heard[k].g, heard[k].from, heard[k].m, None, heard[k].now);
    }
    CopiesLeaveOnce(before, offers, j, capacity, window, v);
    LinkedPeersListed(v, offers[0].msg);
  }

  /* What the filter tells apart */

  // Two payloads of one length that differ in exactly one byte.
  ghost predicate OneByteApart(p: seq<Byte>, q: seq<Byte>) {
    |p| == |q| && exists i :: 0 <= i < |p| && p[i] != q[i] && forall k :: 0 <= k < |p| && k != i ==> p[k] == q[k]
  }

  ghost predicate Differ(a: Message, b: Message) {
    a.typ != b.typ || a.from != b.from || OneByteApart(a.payload, b.payload)
  }

  lemma KeysDiffer(a: Message, b: Message, s: int, t: int)
    requires Differ(a, b)
    ensures CallOf(a, s).key != CallOf(b, t).key
  {
    if a.typ == b.typ && a.from == b.from {
      var i :| 0 <= i < |a.payload| && a.payload[i] != b.payload[i]
            && forall k :: 0 <= k < |a.payload| && k != i ==> a.payload[k] == b.payload[k];
      Fnv.NoSingleByteCollision(a.payload, b.payload, i);
    }
  }

  // A message that differs from every message offered before, in type, in sender, or in one byte of the
  // payload, is never taken for a duplicate, however recent those are.
  lemma {:induction false} NewMessagePasses(offers: seq<Offer>, j: nat, capacity: nat, window: int, v: Vectors)
    requires capacity >= 1 && j < |offers| && forall i :: 0 <= i < j ==> Differ(offers[i].msg, offers[j].msg)
    ensures SendsAt(offers, j, capacity, window, v) == Forwarded(v, offers[j].msg)
  {
    var calls, c := Calls(offers[..j]), CallOf(offers[j].msg, offers[j].now);
    SeenIsHistory(offers[..j], capacity, window);
    forall i | 0 <= i < |calls|
      ensures calls[i].key != c.key
    {
      assert calls[i] in calls;
      CallsCome(offers[..j], calls[i]);
      var o :| o in offers[..j] && calls[i] == CallOf(o.msg, o.now);
      KeysDiffer(o.msg, offers[j].msg, o.now, offers[j].now);
    }
    Dedup.NeverForwarded(calls, capacity, window, c.key);
    Dedup.ExactVerdict(calls, capacity, window, c);
  }

  // As the program sets the filter up: a second copy is dropped if it comes less than 50 milliseconds
  // after the first, and sent again otherwise.
  lemma {:induction false} SecondCopy(msg: Message, s: int, t: int, v: Vectors)
    requires msg.typ in {Broadcast, Unicast, ByeBye}
    ensures SendsAt([Offer(msg, s), Offer(msg, t)], 1, Dedup.CAPACITY, Dedup.WINDOW, v)
         == if t - s < 50 then [] else Forwarded(v, msg)
  {
    var offers := [Offer(msg, s), Offer(msg, t)];
    assert offers[..1] == [Offer(msg, s)] && [Offer(msg, s)][..0] == [];
    assert Seen([Offer(msg, s)], Dedup.CAPACITY, Dedup.WINDOW) == [Dedup.Entry(CallOf(msg, s).key, s)];
  }

  lemma Regroup<T>(a: seq<T>, b: seq<T>, j: nat)
    requires 0 < j < |b|
    ensures var c := a + [b[0]] + b[1..][..j];
            c[..|a| + j] == (a + b)[..|a| + j] && c[|a| + j] == (a + b)[|a| + j] == b[j]
  {
  }

  lemma {:induction false} LaterCopyIsDropped(before: seq<Offer>, offers: seq<Offer>, j: nat, capacity: nat,
                                              window: int, v: Vectors)
    requires capacity >= 1 && 0 < j < |offers| && offers[j].msg == offers[0].msg
    requires offers[0].msg.typ in {Broadcast, Unicast, ByeBye}
    requires !Dedup.Duplicate(Calls(before), capacity, window, CallOf(offers[0].msg, offers[0].now))
    requires Burst(offers[1..], offers[0].msg, offers[0].now, capacity, window)
    ensures SendsAt(before + offers, |before| + j, capacity, window, v) == []
  {
    BurstPrefix(offers[1..], j, offers[0].msg, offers[0].now, capacity, window);
    CopyIsDropped(before, offers[0], offers[1..][..j], capacity, window, v);
    Regroup(before, offers, j);
  }
}
