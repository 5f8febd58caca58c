// A measurement between two sites: a ping to the stand-in of a remote node, and the pong that answers it.
module EndToEnd {
  import opened LinkTypes
  import opened Codec
  import opened GatewayModel
  import opened PeerStates
  import TunnelVectors
  import TunnelRefinement
  import PeerTracker
  import Dedup

  ghost predicate Untracked(t: PeerTracker.Tracker, id: NodeId) {
    forall x :: x in t.timeouts ==> x.node != id
  }

  // Whatever is sent to the made-up node id goes to e.
  ghost predicate LeadsTo(g: Gateway, id: NodeId, e: Endpoint) {
    id in g.local && g.local[id].measurement == e && Untracked(g.localTracker, id)
  }

  ghost predicate StandsIn(g: Gateway, n: NodeId, socket: Endpoint) {
    n in g.nodes && g.nodes[n].measurement == socket
  }

  ghost predicate Meters(g: Gateway, id: NodeId, socket: Endpoint) {
    id in g.meters && g.meters[id] == socket && Untracked(g.remoteTracker, id)
  }

  // n is known with the measurement endpoint m, and the two endpoint maps are matched.
  ghost predicate Settled(g: Gateway, n: NodeId, m: Endpoint) {
    Matched(g) && n in g.local && g.local[n].measurement == m
  }

  // Nobody announces the made-up id, nor is it made up again, and the gateway is not stopped.
  predicate Spares(ev: Event, id: NodeId) {
    && !ev.Stop?
    && (ev.State? ==> ev.m.ident != id)
    && (ev.Measurement? ==> ev.random != id)
    && (ev.Remote? ==> ev.msg.from != id || ev.msg.typ.MeasurementPing?)
  }

  // The surrogate of n does not expire.
  predicate SparesNode(g: Gateway, ev: Event, n: NodeId) {
    ev.RemoteTimer? ==> n !in PeerTracker.Reported(g.remoteTracker, ev.now)
  }

  // An orderly event in which n neither leaves nor expires.
  predicate KeepsNode(g: Gateway, ev: Event, n: NodeId) {
    && !ev.Stop? && Orderly(g, ev)
    && (ev.State? && ev.m.kind.Bye? ==> ev.m.ident != n)
    && (ev.LocalTimer? ==> n !in PeerTracker.Reported(g.localTracker, ev.now))
  }

  lemma ReportedIsTracked(t: PeerTracker.Tracker, now: int, id: NodeId)
    requires PeerTracker.Sorted(t.timeouts) && Untracked(t, id)
    ensures id !in PeerTracker.Reported(t, now) && Untracked(PeerTracker.Pruned(t, now), id)
  {
    var gone := PeerTracker.Reported(t, now);
    forall i | 0 <= i < |gone|
      ensures gone[i] != id
    {
      assert t.timeouts[i] in t.timeouts;
    }
    PeerTracker.LateEntriesStay(t.timeouts, now);
  }

  lemma OthersStayUntracked(t: PeerTracker.Tracker, n: NodeId, ttl: int, now: int, id: NodeId)
    requires PeerTracker.Sorted(t.timeouts) && Untracked(t, id) && n != id
    ensures Untracked(PeerTracker.Update(t, n, ttl, now), id) && Untracked(PeerTracker.Remove(t, n), id)
  {
    PeerTracker.UpdatedEntries(t, n, ttl, now);
  }

  lemma StateKeepsUntracked(g: Gateway, from: Endpoint, m: StateMessage, to: Option<NodeId>, now: int, id: NodeId)
    requires g.Valid() && WellParsed(Event.State(from, m, to, now)) && m.ident != id && Untracked(g.localTracker, id)
    ensures Untracked(OnState(g, from, m, to, now).g.localTracker, id)
  {
    OthersStayUntracked(g.localTracker, m.ident, m.ttl * SECOND, now, id);
  }

  lemma StateKeepsOthers(g: Gateway, from: Endpoint, m: StateMessage, to: Option<NodeId>, now: int, id: NodeId)
    requires WellParsed(Event.State(from, m, to, now)) && m.ident != id
    ensures var g' := OnState(g, from, m, to, now).g;
            (id in g'.local <==> id in g.local) && (id in g.local ==> g'.local[id] == g.local[id])
  {
  }

  lemma StateKeepsRoute(g: Gateway, ev: Event, id: NodeId, e: Endpoint)
    requires g.Valid() && WellParsed(ev) && ev.State? && Spares(ev, id)
    ensures LeadsTo(g, id, e) ==> LeadsTo(React(g, ev).g, id, e)
    ensures id !in g.local ==> id !in React(g, ev).g.local
  {
    StateKeepsOthers(g, ev.from, ev.m, ev.to, ev.now, id);
    if LeadsTo(g, id, e) {
      StateKeepsUntracked(g, ev.from, ev.m, ev.to, ev.now, id);
    }
  }

  lemma RemoteKeepsLocals(g: Gateway, msg: Message, ttl: Option<nat>, now: int, sockets: Surrogate)
    requires g.Valid()
    ensures var g' := OnRemote(g, msg, ttl, now, sockets).g;
            && g'.local == g.local && g'.byMeasurement == g.byMeasurement && g'.localTracker == g.localTracker
            && (forall n :: n in g.nodes ==> n in g'.nodes && g'.nodes[n] == g.nodes[n])
            && (forall n :: n in g.meters ==> n in g'.meters && g'.meters[n] == g.meters[n])
  {
    ResolveOnlyAddsSurrogates(g, msg, sockets);
  }

  lemma RemoteKeepsUntracked(g: Gateway, msg: Message, ttl: Option<nat>, now: int, sockets: Surrogate, id: NodeId)
    requires g.Valid() && Untracked(g.remoteTracker, id) && (msg.from != id || msg.typ.MeasurementPing?)
    ensures Untracked(OnRemote(g, msg, ttl, now, sockets).g.remoteTracker, id)
  {
    ResolveOnlyAddsSurrogates(g, msg, sockets);
    if ttl.Some? {
      PeerTracker.UpdatedEntries(g.remoteTracker, msg.from, ttl.value * SECOND, now);
    }
  }

  lemma ReactKeepsRoute(g: Gateway, ev: Event, id: NodeId, e: Endpoint)
    requires g.Valid() && WellParsed(ev) && Spares(ev, id)
    ensures LeadsTo(g, id, e) ==> LeadsTo(React(g, ev).g, id, e)
    ensures id !in g.local ==> id !in React(g, ev).g.local
  {
    match ev
    case State(from, m, to, now) => StateKeepsRoute(g, ev, id, e);
    case Remote(msg, ttl, now, sockets) => RemoteKeepsLocals(g, msg, ttl, now, sockets);
    case LocalTimer(now) =>
      if Untracked(g.localTracker, id) {
        ReportedIsTracked(g.localTracker, now, id);
      }
    case _ =>
  }

  lemma ReactKeepsStandIn(g: Gateway, ev: Event, n: NodeId, socket: Endpoint)
    requires g.Valid() && WellParsed(ev) && !ev.Stop? && SparesNode(g, ev, n) && StandsIn(g, n, socket)
    ensures StandsIn(React(g, ev).g, n, socket)
  {
    if ev.Remote? {
      RemoteKeepsLocals(g, ev.msg, ev.ttl, ev.now, ev.sockets);
    }
  }

  lemma ReactKeepsMeter(g: Gateway, ev: Event, id: NodeId, socket: Endpoint)
    requires g.Valid() && WellParsed(ev) && Spares(ev, id) && Meters(g, id, socket)
    ensures Meters(React(g, ev).g, id, socket)
  {
    match ev
    case Remote(msg, ttl, now, sockets) =>
      RemoteKeepsLocals(g, msg, ttl, now, sockets);
      RemoteKeepsUntracked(g, msg, ttl, now, sockets, id);
    case RemoteTimer(now) => ReportedIsTracked(g.remoteTracker, now, id);
    case _ =>
  }

  lemma ReactKeepsSettled(g: Gateway, ev: Event, n: NodeId, m: Endpoint)
    requires g.Valid() && WellParsed(ev) && KeepsNode(g, ev, n) && Settled(g, n, m)
    ensures Settled(React(g, ev).g, n, m)
  {
    MatchedIffOrderly(g, ev);
    if ev.Remote? {
      RemoteKeepsLocals(g, ev.msg, ev.ttl, ev.now, ev.sockets);
    }
  }

  ghost predicate Parsed(evs: seq<Event>) {
    forall i :: 0 <= i < |evs| ==> WellParsed(evs[i])
  }

  // Runs of one gateway during which the route of a measurement stays intact.
  ghost predicate RouteSpared(g: Gateway, evs: seq<Event>, id: NodeId, n: NodeId)
    requires g.Valid() && Parsed(evs)
  {
    forall i :: 0 <= i < |evs| ==> Spares(evs[i], id) && SparesNode(After(g, evs[..i]), evs[i], n)
  }

  ghost predicate NodeKept(g: Gateway, evs: seq<Event>, id: NodeId, n: NodeId)
    requires g.Valid() && Parsed(evs)
  {
    forall i :: 0 <= i < |evs| ==> Spares(evs[i], id) && KeepsNode(After(g, evs[..i]), evs[i], n)
  }

  lemma {:induction false} RunKeepsRoute(g: Gateway, evs: seq<Event>, id: NodeId, e: Endpoint)
    requires g.Valid() && Parsed(evs) && forall i :: 0 <= i < |evs| ==> Spares(evs[i], id)
    ensures LeadsTo(g, id, e) ==> LeadsTo(After(g, evs), id, e)
    ensures id !in g.local ==> id !in After(g, evs).local
  {
    if evs != [] {
      var front, last := evs[..|evs| - 1], evs[|evs| - 1];
      RunKeepsRoute(g, front, id, e);
      ReactKeepsRoute(After(g, front), last, id, e);
    }
  }

  lemma {:induction false} RunKeepsStandIn(g: Gateway, evs: seq<Event>, id: NodeId, n: NodeId, socket: Endpoint)
    requires g.Valid() && Parsed(evs) && RouteSpared(g, evs, id, n) && StandsIn(g, n, socket)
    ensures StandsIn(After(g, evs), n, socket)
  {
    if evs != [] {
      var front, last := evs[..|evs| - 1], evs[|evs| - 1];
      assert forall i :: 0 <= i < |front| ==> front[i] == evs[i] && front[..i] == evs[..i];
      RunKeepsStandIn(g, front, id, n, socket);
      ReactKeepsStandIn(After(g, front), last, n, socket);
    }
  }

  lemma {:induction false} RunKeepsMeasured(g: Gateway, evs: seq<Event>, id: NodeId, n: NodeId, m: Endpoint,
                                            socket: Endpoint)
    requires g.Valid() && Parsed(evs) && NodeKept(g, evs, id, n)
    requires Meters(g, id, socket) && Settled(g, n, m)
    ensures Meters(After(g, evs), id, socket) && Settled(After(g, evs), n, m)
  {
    if evs != [] {
      var front, last := evs[..|evs| - 1], evs[|evs| - 1];
      assert forall i :: 0 <= i < |front| ==> front[i] == evs[i] && front[..i] == evs[..i];
      RunKeepsMeasured(g, front, id, n, m, socket);
      ReactKeepsMeter(After(g, front), last, id, socket);
      ReactKeepsSettled(After(g, front), last, n, m);
    }
  }

  /* One measurement */

  // e is the socket that pings, n the node it pings, id the identity it goes by in the tunnel; random
  // is the identity made up if e has none yet.
  datatype Exchange = Exchange(e: Endpoint, n: NodeId, id: NodeId, random: NodeId, ping: seq<Byte>, pong: seq<Byte>)

  function PingOf(x: Exchange): Message {
    Message(MeasurementPing, x.id, Some(x.n), x.ping)
  }

  function PongOf(x: Exchange): Message {
    Message(MeasurementPong, x.n, Some(x.id), x.pong)
  }

  // id is the identity made up for e at an earlier ping, or the one about to be made up for it now.
  ghost predicate GoesBy(g: Gateway, x: Exchange) {
    if x.e in g.byMeasurement then g.byMeasurement[x.e] == x.id && LeadsTo(g, x.id, x.e)
    else x.random == x.id && Untracked(g.localTracker, x.id)
  }

  // What e's ping does at its gateway.
  function Pinging(g: Gateway, x: Exchange): Reaction {
    OnPing(g, x.e, x.ping, x.n, x.random)
  }

  // The ping leaves under the made-up identity, which from now on leads back to e.
  lemma PingLeaves(g: Gateway, x: Exchange)
    requires g.Valid() && GoesBy(g, x)
    ensures Pinging(g, x).forward == Some(PingOf(x)) && LeadsTo(Pinging(g, x).g, x.id, x.e)
    ensures Pinging(g, x).g.Valid() && Pinging(g, x).g.nodes == g.nodes && Pinging(g, x).g.iface == g.iface
  {
  }

  // A made-up identity is for measurements only: a peer state addressed to it goes to the unset endpoint.
  lemma MadeUpNodeHearsNoPeerState(g: Gateway, x: Exchange, msg: Message, ttl: Option<nat>, now: int,
                                   sockets: Surrogate)
    requires GoesBy(g, x) && x.e !in g.byMeasurement && msg.typ == Unicast && msg.to == Some(x.id)
    ensures var arrival := OnRemote(Pinging(g, x).g, msg, ttl, now, sockets);
            arrival.sent.Some? && arrival.sent.value.dest == V4(0, 0)
  {
  }

  // A far gateway with matched maps that has not heard of the made-up identity.
  ghost predicate Ready(h: Gateway, x: Exchange) {
    h.Valid() && Matched(h) && Untracked(h.remoteTracker, x.id)
  }

  // Where such a gateway, if it knows the pinged node, sends the ping, if it can reach the endpoint.
  function Destination(h: Gateway, x: Exchange): Option<Endpoint>
    requires x.n in h.local
  {
    Scoped(h.iface, h.local[x.n].measurement)
  }

  // Once the ping has arrived.
  ghost function Pinged(h: Gateway, x: Exchange, ttl: Option<nat>, now: int, sockets: Surrogate): Gateway {
    OnRemote(h, PingOf(x), ttl, now, sockets).g
  }

  // A gateway that knows the node sends it the ping unchanged, from a socket that it keeps for the
  // made-up identity; any other does nothing.
  lemma PingArrives(h: Gateway, x: Exchange, ttl: Option<nat>, now: int, sockets: Surrogate)
    requires Ready(h, x)
    ensures var arrival := OnRemote(h, PingOf(x), ttl, now, sockets);
            if x.n !in h.local then arrival == Idle(h)
            else
              && x.id in arrival.g.meters && Meters(arrival.g, x.id, arrival.g.meters[x.id])
              && arrival.g.meters[x.id] == (if x.id in h.meters then h.meters[x.id] else sockets.measurement)
              && Settled(arrival.g, x.n, h.local[x.n].measurement)
              && arrival.sent == match Destination(h, x)
                                 case Some(d) => Some(Datagram(arrival.g.meters[x.id], d, x.ping))
                                 case None => None
    ensures Pinged(h, x, ttl, now, sockets).Valid()
  {
    RemoteKeepsValid(h, PingOf(x), ttl, now, sockets);
    RemoteKeepsMatched(h, PingOf(x), ttl, now, sockets);
  }

  lemma {:induction false} RunKeepsMeter(h: Gateway, evs: seq<Event>, id: NodeId, socket: Endpoint)
    requires h.Valid() && Parsed(evs) && (forall i :: 0 <= i < |evs| ==> Spares(evs[i], id)) && Meters(h, id, socket)
    ensures Meters(After(h, evs), id, socket)
  {
    if evs != [] {
      var front, last := evs[..|evs| - 1], evs[|evs| - 1];
      RunKeepsMeter(h, front, id, socket);
      ReactKeepsMeter(After(h, front), last, id, socket);
    }
  }

  // Measurements are never forgotten: however long a run lasts and whatever timers run in it, until the
  // gateway stops the made-up identity keeps its entry at the pinging gateway, and at the pinged one the
  // socket opened for it.
  lemma MeasurementsAreNeverForgotten(g: Gateway, h: Gateway, x: Exchange, ttl: Option<nat>, now: int,
                                      sockets: Surrogate, near: seq<Event>, far: seq<Event>)
    requires g.Valid() && GoesBy(g, x) && Ready(h, x) && x.n in h.local && Parsed(near) && Parsed(far)
    requires Pinging(g, x).g.Valid() && Pinged(h, x, ttl, now, sockets).Valid()
    requires forall i :: 0 <= i < |near| ==> Spares(near[i], x.id)
    requires forall i :: 0 <= i < |far| ==> Spares(far[i], x.id)
    ensures var g' := After(Pinging(g, x).g, near); x.id in g'.local && g'.local[x.id].measurement == x.e
    ensures x.id in After(Pinged(h, x, ttl, now, sockets), far).meters
  {
    PingLeaves(g, x);
    PingArrives(h, x, ttl, now, sockets);
    RunKeepsRoute(Pinging(g, x).g, near, x.id, x.e);
    var h' := Pinged(h, x, ttl, now, sockets);
    RunKeepsMeter(h', far, x.id, h'.meters[x.id]);
  }

  // A pong from endpoint d to that socket leaves under n's own identity if and only if d is the very
  // endpoint that n has announced; if nobody has announced d, nothing leaves.
  lemma PongLeavesIffAnnounced(g: Gateway, x: Exchange, m: Endpoint, d: Endpoint)
    requires Settled(g, x.n, m)
    ensures OnPong(g, d, x.pong, x.id).forward == Some(PongOf(x)) <==> d == m
    ensures d !in g.byMeasurement ==> OnPong(g, d, x.pong, x.id) == Idle(g)
  {
  }

  // The endpoint is announced with the scope of the interface, or needs none.
  predicate SameScope(h: Gateway, x: Exchange)
    requires x.n in h.local
  {
    h.local[x.n].measurement.V4? || h.local[x.n].measurement.scope == h.iface.scope
  }

  // After any orderly run in which n stays, the socket still belongs to e's identity, and the pong from
  // where the ping arrived is relayed in n's name if and only if n announced the interface's own scope.
  lemma PongAnswersPing(h: Gateway, x: Exchange, ttl: Option<nat>, now: int, sockets: Surrogate, meanwhile: seq<Event>)
    requires Ready(h, x) && x.n in h.local && Destination(h, x).Some?
    requires Parsed(meanwhile) && Pinged(h, x, ttl, now, sockets).Valid()
    requires NodeKept(Pinged(h, x, ttl, now, sockets), meanwhile, x.id, x.n)
    ensures var h' := Pinged(h, x, ttl, now, sockets);
            && x.id in h'.meters && Meters(After(h', meanwhile), x.id, h'.meters[x.id])
            && (OnPong(After(h', meanwhile), Destination(h, x).value, x.pong, x.id).forward == Some(PongOf(x))
                <==> SameScope(h, x))
  {
    var h', m := Pinged(h, x, ttl, now, sockets), h.local[x.n].measurement;
    PingArrives(h, x, ttl, now, sockets);
    RunKeepsMeasured(h', meanwhile, x.id, x.n, m, h'.meters[x.id]);
    PongLeavesIffAnnounced(After(h', meanwhile), x, m, Destination(h, x).value);
  }

  /* The gateways of the pinging site, each during a run of its own that spares the route */

  ghost predicate SiteSpared(gs: seq<Gateway>, meanwhile: seq<seq<Event>>, id: NodeId, n: NodeId) {
    && |gs| == |meanwhile|
    && forall k :: 0 <= k < |gs| ==> gs[k].Valid() && Parsed(meanwhile[k]) && RouteSpared(gs[k], meanwhile[k], id, n)
  }

  predicate PongArrival(ev: Event, x: Exchange) {
    ev.Remote? && ev.msg == PongOf(x)
  }

  // Whenever in the run the pong arrives, the gateway sends this.
  ghost predicate AnswersWith(g: Gateway, evs: seq<Event>, x: Exchange, sent: Option<Datagram>)
    requires g.Valid() && Parsed(evs)
  {
    forall t :: 0 <= t < |evs| && PongArrival(evs[t], x) ==> React(After(g, evs[..t]), evs[t]).sent == sent
  }

  lemma PongIsSent(g: Gateway, x: Exchange, standIn: Endpoint, ttl: Option<nat>, now: int, sockets: Surrogate)
    requires LeadsTo(g, x.id, x.e) && StandsIn(g, x.n, standIn) && Scoped(g.iface, x.e) == Some(x.e)
    ensures OnRemote(g, PongOf(x), ttl, now, sockets).sent
         == Some(Datagram(standIn, x.e, Extended(x.pong, standIn)))
  {
  }

  // To exactly e, from exactly the socket that e had pinged, by the gateway that e had pinged ...
  lemma {:induction false} PongReturns(g: Gateway, evs: seq<Event>, x: Exchange, standIn: Endpoint)
    requires g.Valid() && Parsed(evs) && RouteSpared(g, evs, x.id, x.n)
    requires LeadsTo(g, x.id, x.e) && StandsIn(g, x.n, standIn) && Scoped(g.iface, x.e) == Some(x.e)
    ensures AnswersWith(g, evs, x, Some(Datagram(standIn, x.e, Extended(x.pong, standIn))))
  {
    forall t | 0 <= t < |evs| && PongArrival(evs[t], x)
      ensures React(After(g, evs[..t]), evs[t]).sent == Some(Datagram(standIn, x.e, Extended(x.pong, standIn)))
    {
      RouteSparedBefore(g, evs, t, x.id, x.n);
      RunKeepsRoute(g, evs[..t], x.id, x.e);
      RunKeepsStandIn(g, evs[..t], x.id, x.n, standIn);
      PongIsSent(After(g, evs[..t]), x, standIn, evs[t].ttl, evs[t].now, evs[t].sockets);
    }
  }

  // ... and nothing by any other gateway of that site.
  lemma {:induction false} PongStaysAway(g: Gateway, evs: seq<Event>, x: Exchange)
    requires g.Valid() && Parsed(evs) && RouteSpared(g, evs, x.id, x.n) && x.id !in g.local
    ensures AnswersWith(g, evs, x, None)
  {
    forall t | 0 <= t < |evs| && PongArrival(evs[t], x)
      ensures React(After(g, evs[..t]), evs[t]).sent == None
    {
      RouteSparedBefore(g, evs, t, x.id, x.n);
      RunKeepsRoute(g, evs[..t], x.id, x.e);
    }
  }

  lemma {:induction false} RouteSparedBefore(g: Gateway, evs: seq<Event>, t: nat, id: NodeId, n: NodeId)
    requires g.Valid() && Parsed(evs) && RouteSpared(g, evs, id, n) && t <= |evs|
    ensures Parsed(evs[..t]) && RouteSpared(g, evs[..t], id, n)
  {
    assert forall i :: 0 <= i < t ==> evs[..t][i] == evs[i] && evs[..t][..i] == evs[..i];
  }

  lemma PongIsDelivered(gs: seq<Gateway>, meanwhile: seq<seq<Event>>, i: nat, x: Exchange, standIn: Endpoint)
    requires SiteSpared(gs, meanwhile, x.id, x.n) && i < |gs|
    requires LeadsTo(gs[i], x.id, x.e) && StandsIn(gs[i], x.n, standIn) && Scoped(gs[i].iface, x.e) == Some(x.e)
    requires forall k :: 0 <= k < |gs| && k != i ==> x.id !in gs[k].local
    ensures forall k :: 0 <= k < |gs| ==>
              AnswersWith(gs[k], meanwhile[k], x,
                          if k == i then Some(Datagram(standIn, x.e, Extended(x.pong, standIn))) else None)
  {
    forall k | 0 <= k < |gs|
      ensures AnswersWith(gs[k], meanwhile[k], x,
                          if k == i then Some(Datagram(standIn, x.e, Extended(x.pong, standIn))) else None)
    {
      if k == i {
        PongReturns(gs[i], meanwhile[i], x, standIn);
      } else {
        PongStaysAway(gs[k], meanwhile[k], x);
      }
    }
  }

  /* The tunnel in between */

  // The two instances, named by the endpoints at which they see each other: A's and B's when the ping
  // crosses.
  datatype Link = Link(siteA: Endpoint, siteB: Endpoint, outA: TunnelVectors.Vectors, inB: TunnelVectors.Vectors)

  // Each end holds the other connected, and A knows which peer n lives behind.
  ghost predicate Up(l: Link, n: NodeId) {
    l.outA.Sound() && Mapped(l.outA, n, l.siteB) && l.inB.Sound() && l.inB.Linked(l.siteA)
  }

  // What the pong meets on its way: B's tunnel with its filter, and A's.
  datatype Passage = Passage(outB: TunnelVectors.Vectors, seen: seq<Dedup.Entry>, capacity: nat, window: int,
                             inA: TunnelVectors.Vectors, now: int)

  ghost predicate Open(w: Passage, l: Link) {
    w.outB.Inverse() && w.outB.Linked(l.siteA) && w.inA.Sound() && w.inA.Linked(l.siteB)
  }

  // The pong is sent to A, whatever the filter has seen, and arrives there as it left.
  ghost predicate Carries(w: Passage, l: Link, x: Exchange)
    requires w.inA.Sound() && Fits(PongOf(x))
  {
    && Send(l.siteA, PongOf(x))
       in TunnelVectors.Relaying(w.seen, w.capacity, w.window, w.outB, PongOf(x), w.now).sends
    && TunnelVectors.Received(w.inA, l.siteB, Transported(PongOf(x)), w.now).upcall == Some(PongOf(x))
  }

  lemma PongCrosses(w: Passage, l: Link, x: Exchange)
    requires Open(w, l) && Fits(PongOf(x))
    ensures Carries(w, l, x)
  {
    TransportIsFaithful(PongOf(x));
    TunnelRefinement.ToConnectedAre(w.outB.peers, PongOf(x), Send(l.siteA, PongOf(x)));
  }

  /* There and back */

  // Gateway i of site A is pinged by e through its stand-in socket for n, and no other gateway there
  // uses e's identity.
  ghost predicate Asks(gs: seq<Gateway>, i: nat, x: Exchange, standIn: Endpoint) {
    && i < |gs| && gs[i].Valid() && GoesBy(gs[i], x) && StandsIn(gs[i], x.n, standIn)
    && Scoped(gs[i].iface, x.e) == Some(x.e)
    && forall k :: 0 <= k < |gs| && k != i ==> x.id !in gs[k].local
  }

  // The gateways of site A once the ping has left.
  function Asked(gs: seq<Gateway>, i: nat, x: Exchange): seq<Gateway>
    requires i < |gs|
  {
    gs[i := Pinging(gs[i], x).g]
  }

  // A far gateway and what happens to it: the ping with its time, the sockets opened for it if need be,
  // and the events until n answers.
  datatype Far = Far(h: Gateway, ttl: Option<nat>, now: int, sockets: Surrogate, meanwhile: seq<Event>)

  ghost predicate Quiet(f: Far, x: Exchange) {
    && Ready(f.h, x) && Parsed(f.meanwhile) && Pinged(f.h, x, f.ttl, f.now, f.sockets).Valid()
    && (x.n in f.h.local ==> NodeKept(Pinged(f.h, x, f.ttl, f.now, f.sockets), f.meanwhile, x.id, x.n))
  }

  // The far gateway when n's answer arrives at the socket the ping came from.
  ghost function Answered(f: Far, x: Exchange): Gateway
    requires Quiet(f, x)
  {
    After(Pinged(f.h, x, f.ttl, f.now, f.sockets), f.meanwhile)
  }

  // What one far gateway does: it sends the ping on if it knows the node and can reach it, and relays
  // the pong if and only if the node announced the interface's own scope.
  ghost predicate Plays(f: Far, x: Exchange)
    requires Quiet(f, x)
  {
    var arrival := OnRemote(f.h, PingOf(x), f.ttl, f.now, f.sockets);
    if x.n !in f.h.local then arrival == Idle(f.h)
    else match Destination(f.h, x)
      case None => arrival.sent == None
      case Some(d) =>
        && x.id in arrival.g.meters && arrival.sent == Some(Datagram(arrival.g.meters[x.id], d, x.ping))
        && Meters(Answered(f, x), x.id, arrival.g.meters[x.id])
        && (OnPong(Answered(f, x), d, x.pong, x.id).forward == Some(PongOf(x)) <==> SameScope(f.h, x))
  }

  lemma FarGatewayPlays(f: Far, x: Exchange)
    requires Quiet(f, x)
    ensures Plays(f, x)
  {
    PingArrives(f.h, x, f.ttl, f.now, f.sockets);
    if x.n in f.h.local && Destination(f.h, x).Some? {
      PongAnswersPing(f.h, x, f.ttl, f.now, f.sockets, f.meanwhile);
    }
  }

  // The round trip.  A socket e at site A pings n through a stand-in socket.  The ping crosses to site B
  // alone and is sent unchanged by every gateway there that knows n, from a socket kept for e's made-up
  // identity.  Then anything may happen at the gateways of A that spares e's identity and n's stand-in,
  // and anything orderly at those of B in which n stays.  A pong sent from where a ping arrived to where
  // it came from is relayed as n's answer to e if and only if n announced that gateway's own scope; the
  // tunnel carries it whenever it is connected; and whenever one arrives at site A it is delivered
  // to exactly e, from exactly the stand-in socket e had pinged, and by no other gateway.
  lemma RoundTrip(gs: seq<Gateway>, i: nat, x: Exchange, standIn: Endpoint, meanwhileA: seq<seq<Event>>, fars: seq<Far>,
                  l: Link, seen: seq<Dedup.Entry>, capacity: nat, window: int, now: int)
    requires Asks(gs, i, x, standIn) && SiteSpared(Asked(gs, i, x), meanwhileA, x.id, x.n)
    requires Up(l, x.n) && Fits(PingOf(x)) && Fits(PongOf(x))
    requires forall j :: 0 <= j < |fars| ==> Quiet(fars[j], x)
    // the ping goes out
    ensures Pinging(gs[i], x).forward == Some(PingOf(x))
    ensures TunnelVectors.Relaying(seen, capacity, window, l.outA, PingOf(x), now).sends == [Send(l.siteB, PingOf(x))]
    ensures TunnelVectors.Received(l.inB, l.siteA, Transported(PingOf(x)), now).upcall == Some(PingOf(x))
    // to the far gateways, which relay the pongs
    ensures forall j :: 0 <= j < |fars| ==> Plays(fars[j], x)
    // that come back to e
    ensures forall w: Passage :: Open(w, l) ==> Carries(w, l, x)
    ensures forall k :: 0 <= k < |gs| ==>
              AnswersWith(Asked(gs, i, x)[k], meanwhileA[k], x,
                          if k == i then Some(Datagram(standIn, x.e, Extended(x.pong, standIn))) else None)
  {
    PingLeaves(gs[i], x);
    TargetedMessageCrosses(l.outA, l.inB, l.siteA, l.siteB, PingOf(x), seen, capacity, window, now);
    forall j | 0 <= j < |fars|
      ensures Plays(fars[j], x)
    {
      FarGatewayPlays(fars[j], x);
    }
    forall w: Passage | Open(w, l)
      ensures Carries(w, l, x)
    {
      PongCrosses(w, l, x);
    }
    PongIsDelivered(Asked(gs, i, x), meanwhileA, i, x, standIn);
  }

  // So a node heard by two far gateways is pinged twice and answers twice, and the duplicate filter,
  // which does not look at pongs, lets both answers through: they reach e one after the other.
  lemma PongsAreNotDeduplicated(f1: Far, f2: Far, x: Exchange, v: TunnelVectors.Vectors, seen: seq<Dedup.Entry>,
                                capacity: nat, window: int, first: Event, second: Event, g: Gateway, standIn: Endpoint)
    requires forall f :: f == f1 || f == f2 ==>
               Quiet(f, x) && x.n in f.h.local && Destination(f.h, x).Some? && SameScope(f.h, x)
    requires PongArrival(first, x) && PongArrival(second, x) && g.Valid()
    requires LeadsTo(g, x.id, x.e) && StandsIn(g, x.n, standIn) && Scoped(g.iface, x.e) == Some(x.e)
    ensures OnPong(Answered(f1, x), Destination(f1.h, x).value, x.pong, x.id).forward == Some(PongOf(x))
    ensures OnPong(Answered(f2, x), Destination(f2.h, x).value, x.pong, x.id).forward == Some(PongOf(x))
    ensures var r1 := TunnelVectors.Relaying(seen, capacity, window, v, PongOf(x), first.now);
            var r2 := TunnelVectors.Relaying(r1.seen, capacity, window, v, PongOf(x), second.now);
            r1.sends == r2.sends == TunnelVectors.Forwarded(v, PongOf(x))
    ensures React(g, first).sent == React(React(g, first).g, second).sent
         == Some(Datagram(standIn, x.e, Extended(x.pong, standIn)))
  {
    FarGatewayPlays(f1, x);
    FarGatewayPlays(f2, x);
    PongIsSent(g, x, standIn, first.ttl, first.now, first.sockets);
    RemoteKeepsLocals(g, first.msg, first.ttl, first.now, first.sockets);
    ReactKeepsValid(g, first);
    PongIsSent(React(g, first).g, x, standIn, second.ttl, second.now, second.sockets);
  }

  // An IPv6 endpoint announced with another scope than the interface's, which the bytes of the
  // announcement do not tell apart, is pinged with the interface's scope, and the pong that comes from
  // there is lost.
  lemma PongIsLost(iface: Interface, from: Endpoint, m: StateMessage, body: seq<Byte>, address: nat, scope: nat,
                   port: nat, x: Exchange, ttl: Option<nat>, now: int, sockets: Surrogate)
    requires iface.v6 && scope != iface.scope && Describes(m, x.n, V6(address, scope, port), body)
    ensures GatewayModel.Entry(V6(address, scope, port)) == GatewayModel.Entry(V6(address, iface.scope, port))
    ensures var h := OnState(Fresh(iface), from, m, None, now).g;
            && Ready(h, x) && x.n in h.local && Destination(h, x) == Some(V6(address, iface.scope, port))
            && var arrival := OnRemote(h, PingOf(x), ttl, now, sockets);
               && arrival.sent.Some? && arrival.sent.value.dest == V6(address, iface.scope, port)
               && arrival.sent.value.bytes == x.ping
               && OnPong(arrival.g, V6(address, iface.scope, port), x.pong, x.id) == Idle(arrival.g)
  {
    var h := OnState(Fresh(iface), from, m, None, now).g;
    AfterAnnouncement(Fresh(iface), Event.State(from, m, None, now), x.n, V6(address, scope, port));
    MatchedIffOrderly(Fresh(iface), Event.State(from, m, None, now));
    PingArrives(h, x, ttl, now, sockets);
    RemoteKeepsLocals(h, PingOf(x), ttl, now, sockets);
  }

  // A gateway that has just been started.
  function Fresh(iface: Interface): Gateway {
    Gateway(iface, map[], map[], map[], map[], PeerTracker.EMPTY, PeerTracker.EMPTY)
  }
}
