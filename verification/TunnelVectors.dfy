// One tunnel instance as the program keeps it: a vector of peers, an index into it by endpoint and
// an index into it by node, changed by each handler exactly as the program changes them, mappings
// that a removal leaves behind included.  Related below to the index-free table of TunnelTable.
module TunnelVectors {
  import opened LinkTypes
  import opened TunnelTable
  import Dedup

  datatype Entry = Entry(endpoint: Endpoint, link: Link, lastSeen: int)

  datatype Vectors = Vectors(peers: seq<Entry>, endpointIdx: map<Endpoint, nat>, nodeIdx: map<NodeId, nat>,
                             pending: set<Endpoint>, rejected: set<Endpoint>)
  {
    // Every entry of the endpoint index is right.
    ghost predicate Sound() {
      forall e :: e in endpointIdx ==> endpointIdx[e] < |peers| && peers[endpointIdx[e]].endpoint == e
    }

    // The vector and the endpoint index are inverse to each other.
    ghost predicate Inverse() {
      && Sound()
      && (forall i :: 0 <= i < |peers| ==>
            peers[i].endpoint in endpointIdx && endpointIdx[peers[i].endpoint] == i)
    }

    // Every node mapping leads into the vector.
    ghost predicate InRange() {
      forall n :: n in nodeIdx ==> nodeIdx[n] < |peers|
    }

    predicate Linked(e: Endpoint)
      requires Sound()
    {
      e in endpointIdx && peers[endpointIdx[e]].link.Connected?
    }

    // A mapping that leads nowhere.
    predicate Dangles(n: NodeId) {
      n in nodeIdx && nodeIdx[n] >= |peers|
    }

    ghost function PeerMap(): map<Endpoint, Peer>
      requires Sound()
    {
      map e | e in endpointIdx :: Peer(peers[endpointIdx[e]].link, peers[endpointIdx[e]].lastSeen)
    }

    ghost function RouteMap(): map<NodeId, Endpoint> {
      map n | n in nodeIdx && nodeIdx[n] < |peers| :: peers[nodeIdx[n]].endpoint
    }

    // The table these vectors stand for.
    ghost function Abs(): Table
      requires Sound()
    {
      Table(PeerMap(), RouteMap(), pending, rejected)
    }
  }

  // What a handler leaves behind, the datagrams it sends in order, the message it hands to the
  // local gateways, and the endpoint about which it invokes the unknown-peer callback.
  datatype Reaction = Reaction(state: Vectors, sends: seq<Send>, upcall: Option<Message>, ask: Option<Endpoint>)

  function Still(v: Vectors): Reaction {
    Reaction(v, [], None, None)
  }

  /* The handlers */

  const NOTHING := Vectors([], map[], map[], {}, {})

  function Appended(v: Vectors, e: Endpoint): Vectors {
    v.(peers := v.peers + [Entry(e, Disconnected, 0)], endpointIdx := v.endpointIdx[e := |v.peers|])
  }

  // The configured peers, repeated ones included.
  function Start(initial: seq<Endpoint>): (v: Vectors)
    ensures v.Sound() && |v.peers| == |initial| && v == NOTHING.(peers := v.peers, endpointIdx := v.endpointIdx)
    ensures forall i :: 0 <= i < |initial| ==> v.peers[i] == Entry(initial[i], Disconnected, 0)
    ensures v.endpointIdx.Keys == Elements(initial)
  {
    if initial == [] then NOTHING else Appended(Start(initial[..|initial| - 1]), initial[|initial| - 1])
  }

  function Added(v: Vectors, e: Endpoint): (r: Reaction)
    requires v.Sound()
    ensures r.state.Sound()
  {
    if e in v.endpointIdx then Still(v)
    else Still(Appended(v, e)).(sends := [Send(e, HELLO)])
  }

  function RemoveAt<T>(s: seq<T>, i: nat): seq<T>
    requires i < |s|
  {
    s[..i] + s[i + 1..]
  }

  // The node mappings that remain after those into slot i are erased.
  function Kept(nodes: map<NodeId, nat>, i: nat): map<NodeId, nat> {
    map n | n in nodes && nodes[n] != i :: nodes[n]
  }

  // The endpoint index of a vector: of slots with one endpoint the last counts.
  function Rebuilt(peers: seq<Entry>): map<Endpoint, nat> {
    if peers == [] then map[]
    else Rebuilt(peers[..|peers| - 1])[peers[|peers| - 1].endpoint := |peers| - 1]
  }

  lemma {:induction false} RebuiltIsLast(peers: seq<Entry>)
    ensures var idx := Rebuilt(peers);
            && (forall e :: e in idx ==> idx[e] < |peers| && peers[idx[e]].endpoint == e)
            && (forall i :: 0 <= i < |peers| ==> peers[i].endpoint in idx && i <= idx[peers[i].endpoint])
  {
    if peers != [] {
      RebuiltIsLast(peers[..|peers| - 1]);
    }
  }

  // The endpoint index is rebuilt, but the mappings above the removed slot stay as they are.
  function Closed(v: Vectors, i: nat): (w: Vectors)
    requires i < |v.peers|
    ensures w.Sound()
  {
    var rest := RemoveAt(v.peers, i);
    RebuiltIsLast(rest);
    v.(peers := rest, endpointIdx := Rebuilt(rest), nodeIdx := Kept(v.nodeIdx, i))
  }

  function Removed(v: Vectors, e: Endpoint): (r: Reaction)
    requires v.Sound()
    ensures r.state.Sound()
  {
    if e !in v.endpointIdx then Still(v)
    else Still(Closed(v, v.endpointIdx[e])).(sends := [Send(e, BYE)])
  }

  // One peer's state and time stamp written.
  function Marked(v: Vectors, i: nat, link: Link, lastSeen: int): (w: Vectors)
    requires v.Sound() && i < |v.peers|
    ensures w.Sound()
  {
    v.(peers := v.peers[i := Entry(v.peers[i].endpoint, link, lastSeen)])
  }

  function Unknown(v: Vectors, from: Endpoint): (r: Reaction)
    requires v.Sound()
    ensures r.state.Sound()
  {
    if from in v.rejected || from in v.pending then Still(v)
    else Still(v.(pending := v.pending + {from})).(ask := Some(from))
  }

  // A HELLO from a known peer: connect, and answer unless already connected.
  function Greeted(v: Vectors, from: Endpoint, now: int): (r: Reaction)
    requires v.Sound() && from in v.endpointIdx
    ensures r.state.Sound()
  {
    Still(Marked(v, v.endpointIdx[from], Connected, now)).(sends := if v.Linked(from) then [] else [Send(from, HELLO)])
  }

  function Left(v: Vectors, from: Endpoint): (w: Vectors)
    requires v.Sound() && from in v.endpointIdx
    ensures w.Sound()
  {
    var i := v.endpointIdx[from];
    Marked(v, i, Disconnected, v.peers[i].lastSeen).(nodeIdx := Kept(v.nodeIdx, i))
  }

  // A data message from a connected peer: the first mapping of a node is kept, a dangling one too.
  function Learned(v: Vectors, from: Endpoint, msg: Message): (w: Vectors)
    requires v.Sound() && from in v.endpointIdx
    ensures w.Sound()
  {
    if msg.typ.ByeBye? then v.(nodeIdx := v.nodeIdx - {msg.from})
    else if msg.from in v.nodeIdx then v
    else v.(nodeIdx := v.nodeIdx[msg.from := v.endpointIdx[from]])
  }

  function Received(v: Vectors, from: Endpoint, msg: Message, now: int): (r: Reaction)
    requires v.Sound()
    ensures r.state.Sound()
  {
    match msg.typ
    case TunnelHello => if from in v.endpointIdx then Greeted(v, from, now) else Unknown(v, from)
    case TunnelKeepalive =>
      if v.Linked(from) then Still(Marked(v, v.endpointIdx[from], Connected, now)) else Still(v)
    case TunnelBye => if from in v.endpointIdx then Still(Left(v, from)) else Still(v)
    case _ => if v.Linked(from) then Still(Learned(v, from, msg)).(upcall := Some(msg)) else Still(v)
  }

  predicate Expired(p: Entry, now: int) {
    p.link.Connected? && now - p.lastSeen > KEEPALIVE_TIMEOUT
  }

  function Tended(p: Entry, now: int): Entry {
    if Expired(p, now) then p.(link := Disconnected)
    else if p.link.Connected? then p
    else p.(link := Connecting)
  }

  function PassPeers(peers: seq<Entry>, now: int): (r: seq<Entry>)
    ensures |r| == |peers| && forall i :: 0 <= i < |peers| ==> r[i] == Tended(peers[i], now)
  {
    if peers == [] then [] else PassPeers(peers[..|peers| - 1], now) + [Tended(peers[|peers| - 1], now)]
  }

  function PassSends(peers: seq<Entry>, now: int): seq<Send> {
    if peers == [] then []
    else
      var p := peers[|peers| - 1];
      var before := PassSends(peers[..|peers| - 1], now);
      if Expired(p, now) then before
      else before + [Send(p.endpoint, if p.link.Connected? then KEEPALIVE else HELLO)]
  }

  // The mappings that outlive a pass over the first i slots.
  function Surviving(peers: seq<Entry>, nodes: map<NodeId, nat>, i: nat, now: int): map<NodeId, nat> {
    map n | n in nodes && !(nodes[n] < i && nodes[n] < |peers| && Expired(peers[nodes[n]], now)) :: nodes[n]
  }

  function Passed(v: Vectors, now: int): (r: Reaction)
    requires v.Sound()
    ensures r.state.Sound()
  {
    var w := v.(peers := PassPeers(v.peers, now), nodeIdx := Surviving(v.peers, v.nodeIdx, |v.peers|, now));
    Still(w).(sends := PassSends(v.peers, now))
  }

  // The message addressed to every connected peer, in the order of the vector.
  function ToConnected(peers: seq<Entry>, msg: Message): seq<Send> {
    if peers == [] then []
    else
      var p := peers[|peers| - 1];
      var before := ToConnected(peers[..|peers| - 1], msg);
      if p.link.Connected? then before + [Send(p.endpoint, msg)] else before
  }

  // A gateway's message that the duplicate filter lets through.
  function Forwarded(v: Vectors, msg: Message): seq<Send> {
    if msg.typ.HasTarget() && msg.to.None? then []
    else if msg.typ.Unicast? || msg.typ.MeasurementPing? then
      var n := msg.to.value;
      if n in v.nodeIdx && v.nodeIdx[n] < |v.peers| && v.peers[v.nodeIdx[n]].link.Connected?
      then [Send(v.peers[v.nodeIdx[n]].endpoint, OnWire(msg))]
      else []
    else ToConnected(v.peers, OnWire(msg))
  }

  // What the duplicate filter holds after a call of forward, and the datagrams it sends.
  datatype Relay = Relay(seen: seq<Dedup.Entry>, sends: seq<Send>)

  function CallOf(msg: Message, now: int): Dedup.Call {
    Dedup.Call(Dedup.KeyOf(msg.typ, msg.from, msg.payload), now)
  }

  // Only some types pass through the filter, whose list of recent messages is `seen`.
  function Recorded(seen: seq<Dedup.Entry>, capacity: nat, window: int, msg: Message, now: int): seq<Dedup.Entry> {
    if msg.typ.IsFiltered() then Dedup.Lookup(seen, capacity, window, CallOf(msg, now)).entries else seen
  }

  predicate Suppressed(seen: seq<Dedup.Entry>, capacity: nat, window: int, msg: Message, now: int) {
    msg.typ.IsFiltered() && Dedup.Lookup(seen, capacity, window, CallOf(msg, now)).duplicate
  }

  function Relaying(seen: seq<Dedup.Entry>, capacity: nat, window: int, v: Vectors, msg: Message, now: int): Relay {
    Relay(Recorded(seen, capacity, window, msg, now),
          if Suppressed(seen, capacity, window, msg, now) then [] else Forwarded(v, msg))
  }

  function Stopped(v: Vectors): Vectors {
    NOTHING.(peers := v.peers)
  }

  function React(v: Vectors, ev: Event): (r: Reaction)
    requires v.Sound()
    ensures r.state.Sound()
  {
    match ev
    case Receive(from, msg, now) => Received(v, from, msg, now)
    case Pass(now) => Passed(v, now)
    case Add(e) => Added(v, e)
    case Remove(e) => Removed(v, e)
    case Accept(e) => Added(v.(pending := v.pending - {e}), e)
    case Reject(e) => Still(v.(pending := v.pending - {e}, rejected := v.rejected + {e}))
    case Forward(msg) => Still(v).(sends := Forwarded(v, msg))
  }
}
