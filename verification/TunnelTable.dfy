// What one UdpTunnel does, told without indices: a table of peers by endpoint and a table of
// routes by node.  The class in UdpTunnel.dfy is proved to behave like this.
module TunnelTable {
  import opened LinkTypes

  const MAINTENANCE_INTERVAL := 5 * SECOND
  const KEEPALIVE_TIMEOUT := 15 * SECOND

  datatype Link = Disconnected | Connecting | Connected

  datatype Peer = Peer(link: Link, lastSeen: int)

  const NEW_PEER := Peer(Disconnected, 0)

  datatype Table = Table(peers: map<Endpoint, Peer>, routes: map<NodeId, Endpoint>,
                         pending: set<Endpoint>, rejected: set<Endpoint>)
  {
    predicate Knows(e: Endpoint) {
      e in peers
    }

    predicate Holds(e: Endpoint) {
      e in peers && peers[e].link.Connected?
    }

    // Every route leads to a connected peer.
    ghost predicate Valid() {
      forall n :: n in routes ==> Holds(routes[n])
    }
  }

  datatype Event =
    | Receive(from: Endpoint, msg: Message, now: int)
    | Pass(now: int)
    | Add(peer: Endpoint)
    | Remove(peer: Endpoint)
    | Accept(peer: Endpoint)
    | Reject(peer: Endpoint)
    | Forward(msg: Message)

  // The new table, the datagrams sent, the message handed to the local gateways, and the endpoint
  // about which the unknown-peer callback is invoked.
  datatype Outcome = Outcome(table: Table, sends: set<Send>, upcall: Option<Message>, ask: Option<Endpoint>)

  function Quiet(t: Table): Outcome {
    Outcome(t, {}, None, None)
  }

  function Initial(peers: set<Endpoint>): Table {
    Table(map e | e in peers :: NEW_PEER, map[], {}, {})
  }

  function DropRoutes(routes: map<NodeId, Endpoint>, e: Endpoint): map<NodeId, Endpoint> {
    map n | n in routes && routes[n] != e :: routes[n]
  }

  predicate TimesOut(p: Peer, now: int) {
    p.link.Connected? && now - p.lastSeen > KEEPALIVE_TIMEOUT
  }

  function Maintained(p: Peer, now: int): Peer {
    if TimesOut(p, now) then p.(link := Disconnected)
    else if p.link.Connected? then p
    else p.(link := Connecting)
  }

  function Apply(t: Table, ev: Event): Outcome {
    match ev
    case Receive(from, msg, now) => OnReceive(t, from, msg, now)
    case Pass(now) => OnPass(t, now)
    case Add(e) => OnAdd(t, e)
    case Remove(e) => OnRemove(t, e)
    case Accept(e) => OnAdd(t.(pending := t.pending - {e}), e)
    case Reject(e) => Quiet(t.(pending := t.pending - {e}, rejected := t.rejected + {e}))
    case Forward(msg) => Quiet(t).(sends := Relayed(t, msg))
  }

  function OnAdd(t: Table, e: Endpoint): Outcome {
    if t.Knows(e) then Quiet(t)
    else Quiet(t.(peers := t.peers[e := NEW_PEER])).(sends := {Send(e, HELLO)})
  }

  function OnRemove(t: Table, e: Endpoint): Outcome {
    if !t.Knows(e) then Quiet(t)
    else Quiet(t.(peers := t.peers - {e}, routes := DropRoutes(t.routes, e))).(sends := {Send(e, BYE)})
  }

  function OnReceive(t: Table, from: Endpoint, msg: Message, now: int): Outcome {
    match msg.typ
    case TunnelHello =>
      if !t.Knows(from) then
        if from in t.rejected || from in t.pending then Quiet(t)
        else Quiet(t.(pending := t.pending + {from})).(ask := Some(from))
      else
        var heard := t.(peers := t.peers[from := Peer(Connected, now)]);
        Quiet(heard).(sends := if t.Holds(from) then {} else {Send(from, HELLO)})
    case TunnelKeepalive =>
      if t.Holds(from) then Quiet(t.(peers := t.peers[from := Peer(Connected, now)])) else Quiet(t)
    case TunnelBye =>
      if !t.Knows(from) then Quiet(t)
      else
        var lost := t.peers[from := t.peers[from].(link := Disconnected)];
        Quiet(t.(peers := lost, routes := DropRoutes(t.routes, from)))
    case ByeBye =>
      if !t.Holds(from) then Quiet(t)
      else Quiet(t.(routes := t.routes - {msg.from})).(upcall := Some(msg))
    case _ =>
      if !t.Holds(from) then Quiet(t)
      else
        var routes := if msg.from in t.routes then t.routes else t.routes[msg.from := from];
        Quiet(t.(routes := routes)).(upcall := Some(msg))
  }

  function OnPass(t: Table, now: int): Outcome {
    var peers := map e | e in t.peers :: Maintained(t.peers[e], now);
    var routes := map n | n in t.routes && !(t.routes[n] in t.peers && TimesOut(t.peers[t.routes[n]], now))
                    :: t.routes[n];
    var sends := set e | e in t.peers && !TimesOut(t.peers[e], now)
                   :: Send(e, if t.Holds(e) then KEEPALIVE else HELLO);
    Quiet(t.(peers := peers, routes := routes)).(sends := sends)
  }

  // The datagrams a gateway's message gives rise to, once the duplicate filter lets it through.
  function Relayed(t: Table, msg: Message): set<Send> {
    if msg.typ.HasTarget() && msg.to.None? then {}
    else if msg.typ.Unicast? || msg.typ.MeasurementPing? then
      var n := msg.to.value;
      if n in t.routes && t.Holds(t.routes[n]) then {Send(t.routes[n], OnWire(msg))} else {}
    else set e | e in t.peers && t.Holds(e) :: Send(e, OnWire(msg))
  }

  function Goodbyes(t: Table): set<Send> {
    set e | e in t.peers && t.Holds(e) :: Send(e, BYE)
  }

  /* Invariants of one table */

  // Every handler keeps every route on a connected peer.
  lemma ApplyKeepsRoutesConnected(t: Table, ev: Event)
    requires t.Valid()
    ensures Apply(t, ev).table.Valid()
  {
    var t' := Apply(t, ev).table;
    forall n | n in t'.routes
      ensures t'.Holds(t'.routes[n])
    {
      if n in t.routes { assert t.Holds(t.routes[n]); }
    }
  }

  // A message for a routed node makes exactly one datagram, to the peer the node lives behind; one
  // for an unrouted node makes none.
  lemma KnownTargetGetsOneSend(t: Table, msg: Message)
    requires t.Valid()
    requires (msg.typ.Unicast? || msg.typ.MeasurementPing?) && msg.to.Some?
    ensures |Apply(t, Forward(msg)).sends| == if msg.to.value in t.routes then 1 else 0
    ensures forall s :: s in Apply(t, Forward(msg)).sends ==>
              s.msg == msg && s.to == t.routes[msg.to.value] && t.Holds(s.to)
  {
  }

  // A maintenance pass sends every peer exactly one control message, except those timing out in it.
  lemma PassSendsOncePerPeer(t: Table, now: int, e: Endpoint)
    ensures var sends := Apply(t, Pass(now)).sends;
            && (Send(e, KEEPALIVE) in sends <==> t.Holds(e) && now - t.peers[e].lastSeen <= KEEPALIVE_TIMEOUT)
            && (Send(e, HELLO) in sends <==> t.Knows(e) && !t.Holds(e))
            && (forall m :: Send(e, m) in sends ==> m == HELLO || m == KEEPALIVE)
  {
    assert HELLO.typ != KEEPALIVE.typ;
  }

  /* One event seen from one peer */

  predicate Hears(ev: Event, e: Endpoint, typ: MessageType) {
    ev.Receive? && ev.from == e && ev.msg.typ == typ
  }

  predicate Admits(ev: Event, e: Endpoint) {
    ev == Add(e) || ev == Accept(e)
  }

  // When a HELLO is sent to e: on admitting it, as the echo of its HELLO unless already connected,
  // and on every pass while not connected.
  predicate Greets(t: Table, ev: Event, e: Endpoint) {
    || (Admits(ev, e) && !t.Knows(e))
    || ((Hears(ev, e, TunnelHello) || ev.Pass?) && t.Knows(e) && !t.Holds(e))
  }

  // When a connection to e ends.
  predicate Loses(t: Table, ev: Event, e: Endpoint) {
    || ev == Remove(e) || Hears(ev, e, TunnelBye)
    || (ev.Pass? && t.Holds(e) && TimesOut(t.peers[e], ev.now))
  }

  // Everything an event does to the connection with e ...
  ghost predicate ViewEffect(t: Table, ev: Event, o: Outcome, e: Endpoint) {
    && (o.table.Knows(e) <==> Admits(ev, e) || (t.Knows(e) && ev != Remove(e)))
    && (o.table.Holds(e) <==> (Hears(ev, e, TunnelHello) && t.Knows(e)) || (t.Holds(e) && !Loses(t, ev, e)))
    && (o.table.Holds(e) ==> t.Knows(e))
    && (o.table.Holds(e) ==> o.table.peers[e].lastSeen == Heard(t, ev, e))
  }

  // ... and every control message it sends to e.
  ghost predicate SendEffect(t: Table, ev: Event, o: Outcome, e: Endpoint) {
    && (Send(e, HELLO) in o.sends <==> Greets(t, ev, e))
    && (Send(e, KEEPALIVE) in o.sends <==> ev.Pass? && t.Holds(e) && !Loses(t, ev, e))
    && (Send(e, BYE) in o.sends <==> ev == Remove(e) && t.Knows(e))
    && (forall m :: Send(e, m) in o.sends && m.typ.IsControl() ==> m in {HELLO, KEEPALIVE, BYE})
  }

  ghost predicate PeerEffect(t: Table, ev: Event, o: Outcome, e: Endpoint) {
    ViewEffect(t, ev, o, e) && SendEffect(t, ev, o, e)
  }

  // When e was last heard, if ev leaves it connected.
  function Heard(t: Table, ev: Event, e: Endpoint): int
    requires t.Knows(e)
  {
    if Hears(ev, e, TunnelHello) || Hears(ev, e, TunnelKeepalive) then ev.now else t.peers[e].lastSeen
  }

  lemma ReceiveOnView(t: Table, ev: Event, e: Endpoint)
    requires ev.Receive?
    ensures ViewEffect(t, ev, OnReceive(t, ev.from, ev.msg, ev.now), e)
  {
  }

  lemma EffectOnView(t: Table, ev: Event, e: Endpoint)
    ensures ViewEffect(t, ev, Apply(t, ev), e)
  {
    if ev.Receive? {
      ReceiveOnView(t, ev, e);
    }
  }

  lemma EffectOnSends(t: Table, ev: Event, e: Endpoint)
    requires ev.Forward? ==> !ev.msg.typ.IsControl()
    ensures SendEffect(t, ev, Apply(t, ev), e)
  {
  }

  lemma EffectOnPeer(t: Table, ev: Event, e: Endpoint)
    requires ev.Forward? ==> !ev.msg.typ.IsControl()
    ensures PeerEffect(t, ev, Apply(t, ev), e)
  {
    EffectOnView(t, ev, e);
    EffectOnSends(t, ev, e);
  }

  // Exactly when the unknown-peer callback is invoked, and what happens to pending and rejected endpoints.
  lemma AdmissionEffect(t: Table, ev: Event, e: Endpoint)
    ensures var o := Apply(t, ev);
            && (o.ask == Some(e) <==>
                  Hears(ev, e, TunnelHello) && e !in t.peers && e !in t.pending && e !in t.rejected)
            && (e in o.table.pending <==>
                  o.ask == Some(e) || (e in t.pending && ev != Accept(e) && ev != Reject(e)))
            && (e in o.table.rejected <==> ev == Reject(e) || e in t.rejected)
  {
  }

  // Exactly what reaches the local gateways: the data messages of connected peers, as they came.
  lemma UpcallEffect(t: Table, ev: Event)
    ensures Apply(t, ev).upcall
         == if && ev.Receive? && ev.from in t.peers && t.peers[ev.from].link == Connected
               && ev.msg.typ in {Broadcast, Unicast, ByeBye, MeasurementPing, MeasurementPong}
            then Some(ev.msg) else None
  {
  }

  // The events that end the route of n.
  predicate EndsRoute(t: Table, ev: Event, n: NodeId)
    requires n in t.routes
  {
    match ev
    case Receive(from, msg, _) =>
      || (msg.typ == TunnelBye && from == t.routes[n] && from in t.peers)
      || (msg.typ == ByeBye && msg.from == n && from in t.peers && t.peers[from].link == Connected)
    case Remove(e) => e == t.routes[n] && e in t.peers
    case Pass(now) =>
      var e := t.routes[n];
      e in t.peers && t.peers[e].link == Connected && now - t.peers[e].lastSeen > 15 * SECOND
    case _ => false
  }

  // Exactly which nodes are routed after an event, and where: a route stays until one of these ends it,
  // and a new one leads to the connected peer that brings a first message of the node.
  lemma RouteEffect(t: Table, ev: Event, n: NodeId)
    ensures var r := Apply(t, ev).table.routes;
            if n in t.routes && !EndsRoute(t, ev, n) then n in r && r[n] == t.routes[n]
            else if n !in t.routes && ev.Receive? && Introduces(ev, n, ev.from) && t.Holds(ev.from) then
              n in r && r[n] == ev.from
            else n !in r
  {
  }

  /* Whole runs of one table */

  function After(t: Table, evs: seq<Event>): Table {
    if evs == [] then t else Apply(After(t, evs[..|evs| - 1]), evs[|evs| - 1]).table
  }

  lemma AfterNext(t: Table, evs: seq<Event>, k: nat)
    requires k < |evs|
    ensures After(t, evs[..k + 1]) == Apply(After(t, evs[..k]), evs[k]).table
  {
    assert evs[..k + 1][..k] == evs[..k];
  }

  lemma {:induction false} RunKeepsRoutesConnected(t: Table, evs: seq<Event>)
    requires t.Valid()
    ensures After(t, evs).Valid()
  {
    if evs != [] {
      var front := evs[..|evs| - 1];
      RunKeepsRoutesConnected(t, front);
      ApplyKeepsRoutesConnected(After(t, front), evs[|evs| - 1]);
    }
  }

  // The k-th event of the run invokes the unknown-peer callback for e.
  predicate AsksAbout(t: Table, evs: seq<Event>, k: nat, e: Endpoint)
    requires k < |evs|
  {
    Apply(After(t, evs[..k]), evs[k]).ask == Some(e)
  }

  ghost predicate AcceptedSince(evs: seq<Event>, i: nat, k: nat, e: Endpoint)
    requires k <= |evs|
  {
    exists a :: i < a < k && evs[a] == Accept(e)
  }

  ghost predicate AcceptedThenRemovedSince(evs: seq<Event>, i: nat, k: nat, e: Endpoint)
    requires k <= |evs|
  {
    exists a, r :: i < a < r < k && evs[a] == Accept(e) && evs[r] == Remove(e)
  }

  // Only an accept ends "pending", only a removal ends "known", and nothing ends "rejected".
  ghost predicate BlockStep(t: Table, ev: Event, s: Table, e: Endpoint) {
    && (e in t.rejected ==> e in s.rejected)
    && (e in t.pending ==> e in s.pending || e in s.rejected || ev == Accept(e))
    && (t.Knows(e) && ev != Remove(e) ==> s.Knows(e))
    && (ev == Accept(e) ==> s.Knows(e))
  }

  lemma EveryEventIsABlockStep(t: Table, ev: Event, e: Endpoint)
    ensures BlockStep(t, ev, Apply(t, ev).table, e)
    ensures Apply(t, ev).ask == Some(e) ==> !t.Knows(e) && e !in t.pending && e !in t.rejected
    ensures Apply(t, ev).ask == Some(e) ==> e in Apply(t, ev).table.pending
  {
  }

  // Once asked about, an endpoint stays pending, rejected or known until it has been accepted and
  // then removed.
  ghost predicate Blocked(s: Table, evs: seq<Event>, i: nat, k: nat, e: Endpoint)
    requires k <= |evs|
  {
    || e in s.pending || e in s.rejected
    || (s.Knows(e) && AcceptedSince(evs, i, k, e))
    || AcceptedThenRemovedSince(evs, i, k, e)
  }

  lemma BlockedExtends(t: Table, s: Table, evs: seq<Event>, i: nat, k: nat, e: Endpoint)
    requires i < k < |evs| && Blocked(t, evs, i, k, e) && BlockStep(t, evs[k], s, e)
    ensures Blocked(s, evs, i, k + 1, e)
  {
    if AcceptedThenRemovedSince(evs, i, k, e) {
      var a, r :| i < a < r < k && evs[a] == Accept(e) && evs[r] == Remove(e);
      assert AcceptedThenRemovedSince(evs, i, k + 1, e);
    } else if AcceptedSince(evs, i, k, e) {
      var a :| i < a < k && evs[a] == Accept(e);
      assert AcceptedSince(evs, i, k + 1, e);
    }
  }

  // The k-th event of a run as a block step.
  lemma BlockStepAt(t: Table, evs: seq<Event>, k: nat, e: Endpoint)
    requires k < |evs|
    ensures BlockStep(After(t, evs[..k]), evs[k], After(t, evs[..k + 1]), e)
    ensures AsksAbout(t, evs, k, e) ==>
              var s := After(t, evs[..k]); !s.Knows(e) && e !in s.pending && e !in s.rejected
    ensures AsksAbout(t, evs, k, e) ==> e in After(t, evs[..k + 1]).pending
  {
    AfterNext(t, evs, k);
    EveryEventIsABlockStep(After(t, evs[..k]), evs[k], e);
  }

  lemma {:induction false} AskedStaysBlocked(t: Table, evs: seq<Event>, i: nat, k: nat, e: Endpoint)
    requires i < k <= |evs| && AsksAbout(t, evs, i, e)
    ensures Blocked(After(t, evs[..k]), evs, i, k, e)
  {
    BlockStepAt(t, evs, k - 1, e);
    if k > i + 1 {
      AskedStaysBlocked(t, evs, i, k - 1, e);
      BlockedExtends(After(t, evs[..k - 1]), After(t, evs[..k]), evs, i, k - 1, e);
    }
  }

  // Between two callbacks for one endpoint lie an accept of it and, later, a removal of it.
  lemma CallbackRepeatsOnlyAfterAcceptAndRemove(t: Table, evs: seq<Event>, i: nat, j: nat, e: Endpoint)
    requires i < j < |evs| && AsksAbout(t, evs, i, e) && AsksAbout(t, evs, j, e)
    ensures exists a, r :: i < a < r < j && evs[a] == Accept(e) && evs[r] == Remove(e)
  {
    AskedStaysBlocked(t, evs, i, j, e);
    BlockStepAt(t, evs, j, e);
    assert AcceptedThenRemovedSince(evs, i, j, e);
  }

  lemma {:induction false} RejectedStaysRejected(t: Table, evs: seq<Event>, i: nat, k: nat, e: Endpoint)
    requires i < k <= |evs| && evs[i] == Reject(e)
    ensures e in After(t, evs[..k]).rejected
  {
    if k == i + 1 {
      AfterNext(t, evs, i);
    } else {
      RejectedStaysRejected(t, evs, i, k - 1, e);
      BlockStepAt(t, evs, k - 1, e);
    }
  }

  // A rejected endpoint is never asked about again.
  lemma RejectedIsNeverAskedAbout(t: Table, evs: seq<Event>, i: nat, j: nat, e: Endpoint)
    requires i < j < |evs| && evs[i] == Reject(e)
    ensures !AsksAbout(t, evs, j, e)
  {
    RejectedStaysRejected(t, evs, i, j, e);
    BlockStepAt(t, evs, j, e);
  }

  // The message that would introduce node n through peer e.
  predicate Introduces(ev: Event, n: NodeId, e: Endpoint) {
    ev.Receive? && ev.from == e && ev.msg.from == n && !ev.msg.typ.IsControl() && !ev.msg.typ.ByeBye?
  }

  // A route appears only with a message of its node from a connected peer, and never changes.
  lemma RouteStep(t: Table, ev: Event, n: NodeId)
    requires n in Apply(t, ev).table.routes
    ensures n in t.routes ==> Apply(t, ev).table.routes[n] == t.routes[n]
    ensures n !in t.routes ==> var e := Apply(t, ev).table.routes[n]; Introduces(ev, n, e) && t.Holds(e)
  {
  }

  ghost predicate RoutedSince(t: Table, evs: seq<Event>, k: nat, n: NodeId, e: Endpoint) {
    forall i :: k < i <= |evs| ==> n in After(t, evs[..i]).routes && After(t, evs[..i]).routes[n] == e
  }

  // A route comes from the first message of its node since the route was last absent: that message
  // arrived from the routed peer while connected, and the route has not changed since.
  lemma {:induction false} RouteComesFromFirstMessage(t: Table, evs: seq<Event>, n: NodeId) returns (k: nat)
    requires n !in t.routes && n in After(t, evs).routes
    ensures k < |evs| && n !in After(t, evs[..k]).routes
    ensures var e := After(t, evs).routes[n];
            Introduces(evs[k], n, e) && After(t, evs[..k]).Holds(e) && RoutedSince(t, evs, k, n, e)
  {
    var front, last := evs[..|evs| - 1], evs[|evs| - 1];
    var e := After(t, evs).routes[n];
    RouteStep(After(t, front), last, n);
    if n in After(t, front).routes {
      k := RouteComesFromFirstMessage(t, front, n);
    } else {
      k := |front|;
    }
    assert front[..k] == evs[..k];
    forall i | k < i <= |evs|
      ensures n in After(t, evs[..i]).routes && After(t, evs[..i]).routes[n] == e
    {
      if i == |evs| {
        assert evs[..i] == evs;
      } else {
        assert evs[..i] == front[..i];
      }
    }
  }
}
