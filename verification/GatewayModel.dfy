// What one gateway does, as a function of its state: local nodes are learned and relayed to the
// tunnel, remote nodes are given surrogate sockets on the local network.
module GatewayModel {
  import opened LinkTypes
  import opened PeerTracker
  import opened Codec

  // The two sockets that stand in for a remote node, named by their local endpoints.
  datatype Surrogate = Surrogate(state: Endpoint, measurement: Endpoint)

  datatype LocalNode = LocalNode(state: Endpoint, measurement: Endpoint)

  const UNSET := V4(0, 0)

  datatype Interface = Interface(v6: bool, scope: nat, multicast: Endpoint)

  datatype Gateway = Gateway(iface: Interface,
                             nodes: map<NodeId, Surrogate>, meters: map<NodeId, Endpoint>,
                             local: map<NodeId, LocalNode>, byMeasurement: map<Endpoint, NodeId>,
                             localTracker: Tracker, remoteTracker: Tracker)
  {
    // Both trackers are sorted, and the multicast endpoint belongs to the interface's own family.
    ghost predicate Valid() {
      Sorted(localTracker.timeouts) && Sorted(remoteTracker.timeouts) && (iface.multicast.V4? || iface.v6)
    }
  }

  datatype Kind = Alive | Response | Bye | Unknown

  // A discovery message as the Link library parses it: `endpoint` is the measurement endpoint of
  // the payload, None if the payload does not parse.
  datatype StateMessage = StateMessage(kind: Kind, ident: NodeId, ttl: nat, endpoint: Option<Endpoint>,
                                       bytes: seq<Byte>)

  datatype Datagram = Datagram(source: Endpoint, dest: Endpoint, bytes: seq<Byte>)

  // `forward` is what the gateway hands to the tunnel, `sent` what it sends on the local network.
  datatype Reaction = Reaction(g: Gateway, forward: Option<Message>, sent: Option<Datagram>)

  datatype Event =
    | State(from: Endpoint, m: StateMessage, to: Option<NodeId>, now: int)
    | Measurement(from: Endpoint, ping: bool, bytes: seq<Byte>, peer: NodeId, random: NodeId)
    | Remote(msg: Message, ttl: Option<nat>, now: int, sockets: Surrogate)
    | LocalTimer(now: int)
    | RemoteTimer(now: int)
    | Stop

  function Idle(g: Gateway): Reaction {
    Reaction(g, None, None)
  }

  /* The measurement endpoint entry at the end of a peer state message */

  function BigEndian(n: nat, k: nat): (r: seq<Byte>)
    ensures |r| == k
  {
    if k == 0 then [] else BigEndian(n / 256, k - 1) + [n % 256]
  }

  function Entry(e: Endpoint): (r: seq<Byte>)
    ensures |r| == EntrySize(e)
  {
    match e
    case V4(a, port) => [109, 101, 112, 52] + BigEndian(6, 4) + BigEndian(a, 4) + BigEndian(port, 2)
    case V6(a, _, port) => [109, 101, 112, 54] + BigEndian(18, 4) + BigEndian(a, 16) + BigEndian(port, 2)
  }

  function EntrySize(e: Endpoint): nat {
    if e.V4? then 8 + 6 else 8 + 18
  }

  // Reading an entry back: the number that big-endian bytes stand for.
  function Number(bytes: seq<Byte>): nat {
    if bytes == [] then 0 else 256 * Number(bytes[..|bytes| - 1]) + bytes[|bytes| - 1]
  }

  // One past the largest number that fits into k bytes.
  function Limit(k: nat): (r: nat)
    ensures r > 0
  {
    if k == 0 then 1 else 256 * Limit(k - 1)
  }

  lemma {:induction false} BigEndianReadsBack(n: nat, k: nat)
    requires n < Limit(k)
    ensures Number(BigEndian(n, k)) == n
  {
    if k > 0 {
      BigEndianReadsBack(n / 256, k - 1);
      assert BigEndian(n, k)[..k - 1] == BigEndian(n / 256, k - 1);
    }
  }

  // The letters mep4 or mep6, the size of what follows, the address and the port.
  lemma EntryReadsBack(e: Endpoint)
    requires e.V4? ==> e.address < Limit(4) && e.port < Limit(2)
    requires e.V6? ==> e.address6 < Limit(16) && e.port < Limit(2)
    ensures var b, end := Entry(e), if e.V4? then 12 else 24;
            && |b| == end + 2
            && b[..4] == ['m' as int, 'e' as int, 'p' as int, (if e.V4? then '4' else '6') as int]
            && Number(b[4..8]) == end - 6
            && Number(b[8..end]) == (if e.V4? then e.address else e.address6) && Number(b[end..]) == e.port
  {
    var b, end := Entry(e), if e.V4? then 12 else 24;
    var address := if e.V4? then e.address else e.address6;
    BigEndianReadsBack(end - 6, 4);
    BigEndianReadsBack(address, end - 8);
    BigEndianReadsBack(e.port, 2);
    assert b[4..8] == BigEndian(end - 6, 4);
    assert b[8..end] == BigEndian(address, end - 8);
    assert b[end..] == BigEndian(e.port, 2);
  }

  // A message is extended only while it stays strictly below the maximum size.
  predicate HasRoom(bytes: seq<Byte>, e: Endpoint) {
    |bytes| + EntrySize(e) < MAX_MESSAGE_SIZE
  }

  function Extended(bytes: seq<Byte>, e: Endpoint): seq<Byte> {
    if HasRoom(bytes, e) then bytes + Entry(e) else bytes
  }

  /* From the local network to the tunnel */

  function OnState(g: Gateway, from: Endpoint, m: StateMessage, to: Option<NodeId>, now: int): Reaction
    requires m.endpoint.Some? ==> |m.bytes| >= EntrySize(m.endpoint.value)
  {
    if m.ident in g.nodes then Idle(g)
    else match m.kind
      case Alive | Response => if m.endpoint.None? then Idle(g) else Learned(g, from, m, m.endpoint.value, to, now)
      case Bye =>
        var known := if m.ident in g.local then g.local[m.ident].measurement else UNSET;
        Reaction(g.(local := g.local - {m.ident}, byMeasurement := g.byMeasurement - {known},
                    localTracker := PeerTracker.Remove(g.localTracker, m.ident)),
                 Some(Message(ByeBye, m.ident, to, m.bytes)), None)
      case Unknown => Idle(g)
  }

  function Learned(g: Gateway, from: Endpoint, m: StateMessage, e: Endpoint, to: Option<NodeId>, now: int): Reaction
    requires |m.bytes| >= EntrySize(e)
  {
    var stripped := m.bytes[..|m.bytes| - EntrySize(e)];
    Reaction(g.(local := g.local[m.ident := LocalNode(from, e)], byMeasurement := g.byMeasurement[e := m.ident],
                localTracker := Update(g.localTracker, m.ident, m.ttl * SECOND, now)),
             Some(Message(if to.Some? then Unicast else Broadcast, m.ident, to, stripped)), None)
  }

  // A ping comes from a socket nobody has announced, so its sender gets a made-up identity.
  function OnPing(g: Gateway, from: Endpoint, bytes: seq<Byte>, to: NodeId, random: NodeId): Reaction {
    var g' := if from in g.byMeasurement then g
              else g.(byMeasurement := g.byMeasurement[from := random],
                      local := g.local[random := LocalNode(UNSET, from)]);
    Reaction(g', Some(Message(MeasurementPing, g'.byMeasurement[from], Some(to), bytes)), None)
  }

  function OnPong(g: Gateway, from: Endpoint, bytes: seq<Byte>, to: NodeId): Reaction {
    if from in g.byMeasurement then
      Idle(g).(forward := Some(Message(MeasurementPong, g.byMeasurement[from], Some(to), bytes)))
    else Idle(g)
  }

  /* From the tunnel to the local network */

  function WithNode(g: Gateway, n: NodeId, sockets: Surrogate): (r: Gateway)
    ensures n in r.nodes && (n in g.nodes ==> r == g)
  {
    if n in g.nodes then g else g.(nodes := g.nodes[n := sockets])
  }

  function WithMeter(g: Gateway, n: NodeId, socket: Endpoint): (r: Gateway)
    ensures n in r.meters && (n in g.meters ==> r == g)
  {
    if n in g.meters then g else g.(meters := g.meters[n := socket])
  }

  // IPv6 destinations get the scope of the interface; an IPv4 interface cannot reach them.
  function Scoped(iface: Interface, to: Endpoint): Option<Endpoint> {
    if to.V4? then Some(to) else if iface.v6 then Some(to.(scope := iface.scope)) else None
  }

  datatype Routing = Routing(g: Gateway, source: Endpoint, dest: Option<Endpoint>)

  // Finds socket and destination, creating the surrogate if need be; None if the target is not here.
  function Resolve(g: Gateway, msg: Message, sockets: Surrogate): Option<Routing> {
    if msg.typ.HasTarget() && (msg.to.None? || msg.to.value !in g.local) then None
    else match msg.typ
      case MeasurementPing =>
        var g' := WithMeter(g, msg.from, sockets.measurement);
        Some(Routing(g', g'.meters[msg.from], Scoped(g.iface, g.local[msg.to.value].measurement)))
      case MeasurementPong =>
        var g' := WithNode(g, msg.from, sockets);
        Some(Routing(g', g'.nodes[msg.from].measurement, Scoped(g.iface, g.local[msg.to.value].measurement)))
      case Unicast =>
        var g' := WithNode(g, msg.from, sockets);
        Some(Routing(g', g'.nodes[msg.from].state, Scoped(g.iface, g.local[msg.to.value].state)))
      case _ =>
        var g' := WithNode(g, msg.from, sockets);
        Some(Routing(g', g'.nodes[msg.from].state, Scoped(g.iface, g.iface.multicast)))
  }

  function Observed(g: Gateway, msg: Message, ttl: Option<nat>, now: int): Gateway {
    if (msg.typ.Broadcast? || msg.typ.Unicast?) && ttl.Some? then
      g.(remoteTracker := Update(g.remoteTracker, msg.from, ttl.value * SECOND, now))
    else if msg.typ.ByeBye? then g.(remoteTracker := PeerTracker.Remove(g.remoteTracker, msg.from))
    else g
  }

  // The bytes that leave the gateway: all but pings and goodbyes get the surrogate's endpoint.
  function Rewritten(g: Gateway, msg: Message): seq<Byte> {
    if msg.typ.MeasurementPing? || msg.typ.ByeBye? || msg.from !in g.nodes then msg.payload
    else Extended(msg.payload, g.nodes[msg.from].measurement)
  }

  function OnRemote(g: Gateway, msg: Message, ttl: Option<nat>, now: int, sockets: Surrogate): Reaction {
    var routing := Resolve(g, msg, sockets);
    if routing.None? then Idle(g)
    else
      var Routing(g', source, dest) := routing.value;
      if dest.None? then Idle(g')
      else Reaction(Observed(g', msg, ttl, now), None, Some(Datagram(source, dest.value, Rewritten(g', msg))))
  }

  /* Timers */

  function OnLocalTimer(g: Gateway, now: int): Reaction {
    var gone := Reported(g.localTracker, now);
    Idle(g.(local := Except(g.local, gone), byMeasurement := Unclaimed(g.byMeasurement, g.local, gone),
            localTracker := Pruned(g.localTracker, now)))
  }

  function Except<T>(m: map<NodeId, T>, gone: seq<NodeId>): map<NodeId, T> {
    map n | n in m && n !in gone :: m[n]
  }

  // The endpoints that belong to none of these nodes.
  function Unclaimed(m: map<Endpoint, NodeId>, local: map<NodeId, LocalNode>, gone: seq<NodeId>)
    : map<Endpoint, NodeId>
  {
    map e | e in m && !Announced(local, gone, e) :: m[e]
  }

  // e is the measurement endpoint of one of these nodes.
  predicate Announced(local: map<NodeId, LocalNode>, ids: seq<NodeId>, e: Endpoint) {
    exists n :: n in ids && n in local && local[n].measurement == e
  }

  function OnRemoteTimer(g: Gateway, now: int): Reaction {
    var gone := Reported(g.remoteTracker, now);
    Idle(g.(nodes := Except(g.nodes, gone), meters := Except(g.meters, gone),
            remoteTracker := Pruned(g.remoteTracker, now)))
  }

  function Stopped(g: Gateway): Gateway {
    g.(nodes := map[], meters := map[], local := map[], byMeasurement := map[],
       localTracker := g.localTracker.(timeouts := []), remoteTracker := g.remoteTracker.(timeouts := []))
  }

  // The endpoint parsed from a message takes part of its bytes.
  predicate WellParsed(ev: Event) {
    ev.State? && ev.m.endpoint.Some? ==> |ev.m.bytes| >= EntrySize(ev.m.endpoint.value)
  }

  function React(g: Gateway, ev: Event): Reaction
    requires WellParsed(ev)
  {
    match ev
    case State(from, m, to, now) => OnState(g, from, m, to, now)
    case Measurement(from, ping, bytes, peer, random) =>
      if ping then OnPing(g, from, bytes, peer, random) else OnPong(g, from, bytes, peer)
    case Remote(msg, ttl, now, sockets) => OnRemote(g, msg, ttl, now, sockets)
    case LocalTimer(now) => OnLocalTimer(g, now)
    case RemoteTimer(now) => OnRemoteTimer(g, now)
    case Stop => Idle(Stopped(g))
  }

  lemma UpdateStaysSorted(t: Tracker, n: NodeId, ttl: int, now: int)
    requires Sorted(t.timeouts)
    ensures Sorted(Update(t, n, ttl, now).timeouts)
  {
    WithoutStaysSorted(t.timeouts, n);
    InsertedStaysSorted(Without(t.timeouts, n), Timeout(now + ttl, n));
  }

  lemma RemoveStaysSorted(t: Tracker, n: NodeId)
    requires Sorted(t.timeouts)
    ensures Sorted(PeerTracker.Remove(t, n).timeouts)
  {
    WithoutStaysSorted(t.timeouts, n);
  }

  lemma StateKeepsValid(g: Gateway, from: Endpoint, m: StateMessage, to: Option<NodeId>, now: int)
    requires g.Valid() && WellParsed(Event.State(from, m, to, now))
    ensures OnState(g, from, m, to, now).g.Valid()
  {
    UpdateStaysSorted(g.localTracker, m.ident, m.ttl * SECOND, now);
    RemoveStaysSorted(g.localTracker, m.ident);
  }

  // Resolving a destination touches nothing but the surrogate tables.
  lemma ResolveOnlyAddsSurrogates(g: Gateway, msg: Message, sockets: Surrogate)
    ensures var r := Resolve(g, msg, sockets);
            r.Some? ==>
              && r.value.g == g.(nodes := r.value.g.nodes, meters := r.value.g.meters)
              && (forall n :: n in g.nodes ==> n in r.value.g.nodes && r.value.g.nodes[n] == g.nodes[n])
              && (forall n :: n in g.meters ==> n in r.value.g.meters && r.value.g.meters[n] == g.meters[n])
              && (!msg.typ.MeasurementPing? ==> msg.from in r.value.g.nodes)
  {
  }

  lemma ObservedKeepsValid(g: Gateway, msg: Message, ttl: Option<nat>, now: int)
    requires g.Valid()
    ensures Observed(g, msg, ttl, now).Valid()
  {
    if ttl.Some? {
      UpdateStaysSorted(g.remoteTracker, msg.from, ttl.value * SECOND, now);
    }
    WithoutStaysSorted(g.remoteTracker.timeouts, msg.from);
  }

  lemma RemoteKeepsValid(g: Gateway, msg: Message, ttl: Option<nat>, now: int, sockets: Surrogate)
    requires g.Valid()
    ensures OnRemote(g, msg, ttl, now, sockets).g.Valid()
  {
    ResolveOnlyAddsSurrogates(g, msg, sockets);
    var routing := Resolve(g, msg, sockets);
    if routing.Some? {
      ObservedKeepsValid(routing.value.g, msg, ttl, now);
    }
  }

  lemma ReactKeepsValid(g: Gateway, ev: Event)
    requires g.Valid() && WellParsed(ev)
    ensures React(g, ev).g.Valid() && React(g, ev).g.iface == g.iface
  {
    match ev
    case State(from, m, to, now) => StateKeepsValid(g, from, m, to, now);
    case Remote(msg, ttl, now, sockets) => RemoteKeepsValid(g, msg, ttl, now, sockets);
    case LocalTimer(now) => PrunedStaysSorted(g.localTracker, now);
    case RemoteTimer(now) => PrunedStaysSorted(g.remoteTracker, now);
    case _ =>
  }

  lemma PrunedStaysSorted(t: Tracker, now: int)
    requires Sorted(t.timeouts)
    ensures Sorted(Pruned(t, now).timeouts)
  {
  }

  // The gateway after a run of events.
  function After(g: Gateway, evs: seq<Event>): (r: Gateway)
    requires g.Valid() && forall i :: 0 <= i < |evs| ==> WellParsed(evs[i])
    ensures r.Valid() && r.iface == g.iface
  {
    if evs == [] then g
    else
      var front, last := After(g, evs[..|evs| - 1]), evs[|evs| - 1];
      ReactKeepsValid(front, last);
      React(front, last).g
  }

  /* No echo */

  // The gateway stands in for r, and its tracker will not report r before `until`.
  ghost predicate Guards(g: Gateway, r: NodeId, until: int) {
    && r in g.nodes
    && forall x :: x in g.remoteTracker.timeouts && x.node == r ==> x.deadline >= until
  }

  // An event that neither stops the gateway, nor runs the expiry timer past `until`, nor announces
  // r with a lifetime ending before it.
  predicate LeavesGuard(ev: Event, r: NodeId, until: int) {
    && !ev.Stop?
    && (ev.RemoteTimer? ==> ev.now <= until)
    && (ev.Remote? && ev.msg.from == r && ev.ttl.Some? ==> ev.now + ev.ttl.value * SECOND >= until)
  }

  lemma ObservedKeepsGuard(g: Gateway, msg: Message, ttl: Option<nat>, now: int, r: NodeId, until: int)
    requires g.Valid() && Guards(g, r, until)
    requires msg.from == r && ttl.Some? ==> now + ttl.value * SECOND >= until
    ensures Guards(Observed(g, msg, ttl, now), r, until)
  {
    if ttl.Some? {
      UpdatedEntries(g.remoteTracker, msg.from, ttl.value * SECOND, now);
    }
  }

  lemma RemoteKeepsGuard(g: Gateway, msg: Message, ttl: Option<nat>, now: int, sockets: Surrogate, r: NodeId,
                         until: int)
    requires g.Valid() && Guards(g, r, until)
    requires msg.from == r && ttl.Some? ==> now + ttl.value * SECOND >= until
    ensures Guards(OnRemote(g, msg, ttl, now, sockets).g, r, until)
  {
    ResolveOnlyAddsSurrogates(g, msg, sockets);
    var routing := Resolve(g, msg, sockets);
    if routing.Some? {
      ObservedKeepsGuard(routing.value.g, msg, ttl, now, r, until);
    }
  }

  lemma TimerKeepsGuard(g: Gateway, now: int, r: NodeId, until: int)
    requires g.Valid() && Guards(g, r, until) && now <= until
    ensures Guards(OnRemoteTimer(g, now).g, r, until)
  {
    var ts, gone := g.remoteTracker.timeouts, Reported(g.remoteTracker, now);
    forall i | 0 <= i < |gone|
      ensures gone[i] != r
    {
      assert ts[i] in ts;
    }
    LateEntriesStay(ts, now);
  }

  lemma ReactKeepsGuard(g: Gateway, ev: Event, r: NodeId, until: int)
    requires g.Valid() && WellParsed(ev) && Guards(g, r, until) && LeavesGuard(ev, r, until)
    ensures Guards(React(g, ev).g, r, until)
  {
    match ev
    case Remote(msg, ttl, now, sockets) => RemoteKeepsGuard(g, msg, ttl, now, sockets, r, until);
    case RemoteTimer(now) => TimerKeepsGuard(g, now, r, until);
    case _ =>
  }

  // Relaying a broadcast of r sets the guard for as long as the broadcast says r lives; relaying
  // r's goodbye sets it for good, until r is announced again.
  lemma RelayingSetsGuard(g: Gateway, msg: Message, ttl: Option<nat>, now: int, sockets: Surrogate, until: int)
    requires g.Valid()
    requires (msg.typ.Broadcast? && ttl.Some? && until <= now + ttl.value * SECOND) || msg.typ.ByeBye?
    ensures Guards(OnRemote(g, msg, ttl, now, sockets).g, msg.from, until)
  {
    ResolveOnlyAddsSurrogates(g, msg, sockets);
    var g' := Resolve(g, msg, sockets).value.g;
    assert OnRemote(g, msg, ttl, now, sockets).g == Observed(g', msg, ttl, now);
    if ttl.Some? {
      UpdatedEntries(g'.remoteTracker, msg.from, ttl.value * SECOND, now);
    }
  }

  // The k-th event relays a broadcast of r that says r lives at least until `until`, or r's goodbye.
  predicate Relays(ev: Event, r: NodeId, until: int) {
    && ev.Remote? && ev.msg.from == r
    && ((ev.msg.typ.Broadcast? && ev.ttl.Some? && until <= ev.now + ev.ttl.value * SECOND) || ev.msg.typ.ByeBye?)
  }

  lemma {:induction false} GuardHeldSince(g: Gateway, evs: seq<Event>, k: nat, r: NodeId, until: int)
    requires g.Valid() && k < |evs| && forall i :: 0 <= i < |evs| ==> WellParsed(evs[i])
    requires Relays(evs[k], r, until) && forall i :: k < i < |evs| ==> LeavesGuard(evs[i], r, until)
    ensures Guards(After(g, evs), r, until)
  {
    var front, last := evs[..|evs| - 1], evs[|evs| - 1];
    if k == |evs| - 1 {
      RelayingSetsGuard(After(g, front), last.msg, last.ttl, last.now, last.sockets, until);
    } else {
      GuardHeldSince(g, front, k, r, until);
      ReactKeepsGuard(After(g, front), last, r, until);
    }
  }

  // Once a broadcast or goodbye of r has been relayed, a discovery message claiming to be from r that
  // the gateway overhears, its own surrogate's among them, changes nothing and is not relayed back.
  // After a broadcast this lasts as long as the broadcast says r lives; after a goodbye, until r is
  // announced again.
  lemma NoEcho(g: Gateway, evs: seq<Event>, k: nat, r: NodeId, until: int, ev: Event)
    requires g.Valid() && k < |evs| && forall i :: 0 <= i < |evs| ==> WellParsed(evs[i])
    requires Relays(evs[k], r, until) && forall i :: k < i < |evs| ==> LeavesGuard(evs[i], r, until)
    requires ev.State? && ev.m.ident == r && WellParsed(ev)
    ensures React(After(g, evs), ev) == Idle(After(g, evs))
  {
    GuardHeldSince(g, evs, k, r, until);
  }

  /* The two endpoint maps */

  // Local nodes and measurement endpoints are matched one to one.
  ghost predicate Matched(g: Gateway) {
    && (forall n :: n in g.local ==>
          g.local[n].measurement in g.byMeasurement && g.byMeasurement[g.local[n].measurement] == n)
    && (forall e :: e in g.byMeasurement ==>
          g.byMeasurement[e] in g.local && g.local[g.byMeasurement[e]].measurement == e)
  }

  // Nobody moves to another endpoint, claims somebody else's, or gets an identity that is taken; and
  // a goodbye comes from a known node, or at least nobody sits at the unset endpoint.
  predicate Orderly(g: Gateway, ev: Event) {
    match ev
    case State(_, m, _, _) =>
      if m.ident in g.nodes || m.kind.Unknown? then true
      else if m.kind.Bye? then m.ident in g.local || UNSET !in g.byMeasurement
      else m.endpoint.Some? ==>
        && (m.ident in g.local ==> g.local[m.ident].measurement == m.endpoint.value)
        && (m.endpoint.value in g.byMeasurement ==> g.byMeasurement[m.endpoint.value] == m.ident)
    case Measurement(from, ping, _, _, random) => ping && from !in g.byMeasurement ==> random !in g.local
    case _ => true
  }

  // The endpoint a node has left, and the node that owned a claimed endpoint, still point to it.
  lemma DisorderlyLearningUnmatches(g: Gateway, from: Endpoint, m: StateMessage, e: Endpoint, to: Option<NodeId>,
                                    now: int)
    requires g.Valid() && Matched(g) && |m.bytes| >= EntrySize(e)
    requires (m.ident in g.local && g.local[m.ident].measurement != e)
          || (e in g.byMeasurement && g.byMeasurement[e] != m.ident)
    ensures !Matched(Learned(g, from, m, e, to, now).g)
  {
    var g' := Learned(g, from, m, e, to, now).g;
    if m.ident in g.local && g.local[m.ident].measurement != e {
      assert g'.byMeasurement[g.local[m.ident].measurement] == m.ident;
    } else {
      assert g'.local[g.byMeasurement[e]].measurement == e;
    }
  }

  lemma OrderlyLearningMatches(g: Gateway, from: Endpoint, m: StateMessage, e: Endpoint, to: Option<NodeId>, now: int)
    requires g.Valid() && Matched(g) && |m.bytes| >= EntrySize(e)
    requires m.ident in g.local ==> g.local[m.ident].measurement == e
    requires e in g.byMeasurement ==> g.byMeasurement[e] == m.ident
    ensures Matched(Learned(g, from, m, e, to, now).g)
  {
  }

  lemma LearningKeepsMatched(g: Gateway, from: Endpoint, m: StateMessage, e: Endpoint, to: Option<NodeId>, now: int)
    requires g.Valid() && Matched(g) && |m.bytes| >= EntrySize(e)
    ensures Matched(Learned(g, from, m, e, to, now).g) <==>
              && (m.ident in g.local ==> g.local[m.ident].measurement == e)
              && (e in g.byMeasurement ==> g.byMeasurement[e] == m.ident)
  {
    if (m.ident in g.local ==> g.local[m.ident].measurement == e)
      && (e in g.byMeasurement ==> g.byMeasurement[e] == m.ident)
    {
      OrderlyLearningMatches(g, from, m, e, to, now);
    } else {
      DisorderlyLearningUnmatches(g, from, m, e, to, now);
    }
  }

  lemma GoodbyeKeepsMatched(g: Gateway, from: Endpoint, m: StateMessage, to: Option<NodeId>, now: int)
    requires g.Valid() && Matched(g) && WellParsed(Event.State(from, m, to, now)) && m.kind.Bye? && m.ident !in g.nodes
    ensures Matched(OnState(g, from, m, to, now).g) <==> m.ident in g.local || UNSET !in g.byMeasurement
  {
    var g' := OnState(g, from, m, to, now).g;
    if m.ident !in g.local && UNSET in g.byMeasurement {
      assert g'.local[g.byMeasurement[UNSET]].measurement == UNSET;
    }
  }

  lemma PingKeepsMatched(g: Gateway, from: Endpoint, bytes: seq<Byte>, peer: NodeId, random: NodeId)
    requires Matched(g)
    ensures Matched(OnPing(g, from, bytes, peer, random).g) <==> from in g.byMeasurement || random !in g.local
  {
    if from !in g.byMeasurement && random in g.local {
      assert OnPing(g, from, bytes, peer, random).g.byMeasurement[g.local[random].measurement] == random;
    }
  }

  lemma ExpiryKeepsMatched(g: Gateway, now: int)
    requires g.Valid() && Matched(g)
    ensures Matched(OnLocalTimer(g, now).g)
  {
    var gone, g' := Reported(g.localTracker, now), OnLocalTimer(g, now).g;
    forall e | e in g.byMeasurement
      ensures Announced(g.local, gone, e) <==> g.byMeasurement[e] in gone
    {
      var n := g.byMeasurement[e];
      assert n in gone ==> Announced(g.local, gone, e);
    }
  }

  lemma RemoteKeepsMatched(g: Gateway, msg: Message, ttl: Option<nat>, now: int, sockets: Surrogate)
    requires g.Valid() && Matched(g)
    ensures Matched(OnRemote(g, msg, ttl, now, sockets).g)
  {
    ResolveOnlyAddsSurrogates(g, msg, sockets);
  }

  // The maps stay matched under an event if and only if the event is orderly.  While they are, the
  // pong to a known measuring socket is addressed to that socket.
  lemma MatchedIffOrderly(g: Gateway, ev: Event)
    requires g.Valid() && WellParsed(ev) && Matched(g)
    ensures Matched(React(g, ev).g) <==> Orderly(g, ev)
  {
    match ev
    case State(from, m, to, now) =>
      if m.ident !in g.nodes && m.kind.Bye? {
        GoodbyeKeepsMatched(g, from, m, to, now);
      } else if m.ident !in g.nodes && !m.kind.Unknown? && m.endpoint.Some? {
        LearningKeepsMatched(g, from, m, m.endpoint.value, to, now);
      }
    case Measurement(from, ping, bytes, peer, random) =>
      if ping { PingKeepsMatched(g, from, bytes, peer, random); }
    case Remote(msg, ttl, now, sockets) => RemoteKeepsMatched(g, msg, ttl, now, sockets);
    case LocalTimer(now) => ExpiryKeepsMatched(g, now);
    case _ =>
  }

  lemma {:induction false} OrderlyRunStaysMatched(g: Gateway, evs: seq<Event>)
    requires g.Valid() && Matched(g) && forall i :: 0 <= i < |evs| ==> WellParsed(evs[i])
    requires forall i :: 0 <= i < |evs| ==> Orderly(After(g, evs[..i]), evs[i])
    ensures Matched(After(g, evs))
  {
    if evs != [] {
      var front := evs[..|evs| - 1];
      assert forall i :: 0 <= i < |front| ==> front[i] == evs[i] && front[..i] == evs[..i];
      OrderlyRunStaysMatched(g, front);
      MatchedIffOrderly(After(g, front), evs[|evs| - 1]);
    }
  }

  // A peer state of n with measurement endpoint e, and a goodbye of n.
  predicate Announcement(ev: Event, n: NodeId, e: Endpoint) {
    && ev.State? && ev.m.ident == n && (ev.m.kind.Alive? || ev.m.kind.Response?)
    && ev.m.endpoint == Some(e) && WellParsed(ev)
  }

  predicate Goodbye(ev: Event, n: NodeId) {
    ev.State? && ev.m.ident == n && ev.m.kind.Bye? && WellParsed(ev)
  }

  lemma AfterAnnouncement(g: Gateway, ev: Event, n: NodeId, e: Endpoint)
    requires g.Valid() && n !in g.nodes && Announcement(ev, n, e)
    ensures var g' := React(g, ev).g;
            && g'.Valid() && g'.nodes == g.nodes && n in g'.local && g'.local[n].measurement == e
            && g'.byMeasurement == g.byMeasurement[e := n]
  {
    ReactKeepsValid(g, ev);
  }

  lemma AfterGoodbye(g: Gateway, ev: Event, n: NodeId)
    requires g.Valid() && n !in g.nodes && n in g.local && Goodbye(ev, n)
    ensures var g' := React(g, ev).g;
            n !in g'.local && g'.byMeasurement == g.byMeasurement - {g.local[n].measurement}
  {
  }

  lemma AfterThree(g: Gateway, a: Event, b: Event, c: Event)
    requires g.Valid() && WellParsed(a) && WellParsed(b) && WellParsed(c)
    ensures React(g, a).g.Valid() && React(React(g, a).g, b).g.Valid()
    ensures After(g, [a, b, c]) == React(React(React(g, a).g, b).g, c).g
  {
    ReactKeepsValid(g, a);
    ReactKeepsValid(React(g, a).g, b);
    assert [a, b, c][..2] == [a, b] && [a, b][..1] == [a] && [a][..0] == [];
    assert After(g, [a]) == React(g, a).g;
    assert After(g, [a, b]) == React(After(g, [a]), b).g;
  }

  // n is gone, and so is its endpoint e2, but e1 still stands for it: a pong from there is relayed in
  // the name of n.
  ghost predicate LeftBehind(g: Gateway, n: NodeId, e1: Endpoint, e2: Endpoint) {
    && n !in g.local && e2 !in g.byMeasurement && e1 in g.byMeasurement && g.byMeasurement[e1] == n && !Matched(g)
    && forall bytes, to :: OnPong(g, e1, bytes, to).forward == Some(Message(MeasurementPong, n, Some(to), bytes))
  }

  lemma MovesAndLeaves(g: Gateway, second: Event, bye: Event, n: NodeId, e1: Endpoint, e2: Endpoint)
    requires g.Valid() && n !in g.nodes && e1 != e2 && e1 in g.byMeasurement && g.byMeasurement[e1] == n
    requires Announcement(second, n, e2) && Goodbye(bye, n) && React(g, second).g.Valid()
    ensures LeftBehind(React(React(g, second).g, bye).g, n, e1, e2)
  {
    AfterAnnouncement(g, second, n, e2);
    AfterGoodbye(React(g, second).g, bye, n);
  }

  // A node that announces a second endpoint and then says goodbye leaves the first one behind.
  lemma MovedNodeLeavesEndpoint(g: Gateway, first: Event, second: Event, bye: Event, n: NodeId, e1: Endpoint,
                                e2: Endpoint)
    requires g.Valid() && n !in g.nodes && e1 != e2
    requires Announcement(first, n, e1) && Announcement(second, n, e2) && Goodbye(bye, n)
    ensures LeftBehind(After(g, [first, second, bye]), n, e1, e2)
  {
    AfterThree(g, first, second, bye);
    AfterAnnouncement(g, first, n, e1);
    MovesAndLeaves(React(g, first).g, second, bye, n, e1, e2);
  }
}
