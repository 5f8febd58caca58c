// What the program's vectors keep, how far they do what TunnelTable says, and where they do not.
module TunnelRefinement {
  import opened LinkTypes
  import opened TunnelTable
  import opened TunnelVectors

  /* The endpoint index */

  ghost predicate DistinctEndpoints(peers: seq<Entry>) {
    forall i, j :: 0 <= i < j < |peers| ==> peers[i].endpoint != peers[j].endpoint
  }

  lemma RemoveAtKeepsDistinct(peers: seq<Entry>, i: nat)
    requires DistinctEndpoints(peers) && i < |peers|
    ensures DistinctEndpoints(RemoveAt(peers, i))
  {
  }

  lemma RebuiltOfDistinct(peers: seq<Entry>, i: nat)
    requires DistinctEndpoints(peers) && i < |peers|
    ensures peers[i].endpoint in Rebuilt(peers) && Rebuilt(peers)[peers[i].endpoint] == i
  {
    RebuiltIsLast(peers);
  }

  lemma ClosedKeepsInverse(v: Vectors, i: nat)
    requires v.Inverse() && i < |v.peers|
    ensures Closed(v, i).Inverse()
  {
    var rest := RemoveAt(v.peers, i);
    RemoveAtKeepsDistinct(v.peers, i);
    forall j | 0 <= j < |rest|
      ensures rest[j].endpoint in Rebuilt(rest) && Rebuilt(rest)[rest[j].endpoint] == j
    {
      RebuiltOfDistinct(rest, j);
    }
  }

  lemma MarkedKeepsInverse(v: Vectors, i: nat, link: Link, lastSeen: int)
    requires v.Inverse() && i < |v.peers|
    ensures Marked(v, i, link, lastSeen).Inverse()
  {
  }

  lemma ReceivedKeepsInverse(v: Vectors, from: Endpoint, msg: Message, now: int)
    requires v.Inverse()
    ensures Received(v, from, msg, now).state.Inverse()
  {
    if from in v.endpointIdx {
      var i := v.endpointIdx[from];
      match msg.typ {
        case TunnelBye => MarkedKeepsInverse(v, i, Disconnected, v.peers[i].lastSeen);
        case _ => MarkedKeepsInverse(v, i, Connected, now);
      }
    }
  }

  // No handler breaks the index, removals and stale node mappings included.
  lemma ReactKeepsInverse(v: Vectors, ev: Event)
    requires v.Inverse()
    ensures React(v, ev).state.Inverse()
  {
    match ev {
      case Receive(from, msg, now) => ReceivedKeepsInverse(v, from, msg, now);
      case Remove(e) =>
        if e in v.endpointIdx {
          ClosedKeepsInverse(v, v.endpointIdx[e]);
        }
      case _ =>
    }
  }

  // The constructor does not look for repeated peers; the index misses a slot exactly when there are some.
  lemma StartIsInverse(initial: seq<Endpoint>)
    ensures Start(initial).Inverse() <==> Distinct(initial)
  {
    var v := Start(initial);
    if Distinct(initial) {
      forall i | 0 <= i < |initial|
        ensures v.peers[i].endpoint in v.endpointIdx && v.endpointIdx[v.peers[i].endpoint] == i
      {
        assert initial[i] in Elements(initial);
        assert initial[v.endpointIdx[initial[i]]] == initial[i];
      }
    } else {
      var i, j :| 0 <= i < j < |initial| && initial[i] == initial[j];
      assert v.peers[i].endpoint == v.peers[j].endpoint;
    }
  }

  // The index of the constructor is the one a rebuild would give: the last entry of an endpoint counts.
  lemma {:induction false} StartIndexIsLast(initial: seq<Endpoint>)
    ensures Start(initial).endpointIdx == Rebuilt(Start(initial).peers)
  {
    if initial != [] {
      StartIndexIsLast(initial[..|initial| - 1]);
      assert Start(initial).peers[..|initial| - 1] == Start(initial[..|initial| - 1]).peers;
    }
  }

  lemma StartIsInitial(initial: seq<Endpoint>)
    ensures Start(initial).Abs() == Initial(Elements(initial))
  {
    var v := Start(initial);
    assert forall e :: e in v.endpointIdx ==> v.peers[v.endpointIdx[e]] == Entry(e, Disconnected, 0);
    assert v.PeerMap() == Initial(Elements(initial)).peers;
  }

  function Reached(v: Vectors, evs: seq<Event>): (w: Vectors)
    requires v.Sound()
    ensures w.Sound()
  {
    if evs == [] then v else React(Reached(v, evs[..|evs| - 1]), evs[|evs| - 1]).state
  }

  lemma {:induction false} RunKeepsInverse(v: Vectors, evs: seq<Event>)
    requires v.Inverse()
    ensures Reached(v, evs).Inverse()
  {
    if evs != [] {
      RunKeepsInverse(v, evs[..|evs| - 1]);
      ReactKeepsInverse(Reached(v, evs[..|evs| - 1]), evs[|evs| - 1]);
    }
  }

  /* Everything but the routes */

  ghost predicate SamePeers(s: Table, t: Table) {
    s.peers == t.peers && s.pending == t.pending && s.rejected == t.rejected
  }

  // The handler does to the peers, sends and reports what the table says.
  ghost predicate Does(r: Reaction, o: Outcome)
    requires r.state.Sound()
  {
    && SamePeers(r.state.Abs(), o.table) && Lists(r.sends, o.sends)
    && r.upcall == o.upcall && r.ask == o.ask
  }

  lemma ListsNone()
    ensures Lists<Send>([], {})
  {
  }

  lemma ListsOne(s: Send)
    ensures Lists([s], {s})
  {
  }

  lemma AppendedMapsPeers(v: Vectors, e: Endpoint)
    requires v.Inverse() && e !in v.endpointIdx
    ensures Appended(v, e).PeerMap() == v.PeerMap()[e := NEW_PEER]
  {
  }

  lemma AddedDoes(v: Vectors, e: Endpoint)
    requires v.Inverse()
    ensures Does(Added(v, e), OnAdd(v.Abs(), e))
  {
    ListsNone();
    if e !in v.endpointIdx {
      AppendedMapsPeers(v, e);
      ListsOne(Send(e, HELLO));
    }
  }

  // Slot at of the old vector is slot Moved(at, i) once slot i is gone.
  function Moved(at: nat, i: nat): nat
    requires at != i
  {
    if at < i then at else at - 1
  }

  lemma ClosedKeepsEntry(v: Vectors, i: nat, e: Endpoint)
    requires v.Inverse() && i < |v.peers| && e in v.endpointIdx && e != v.peers[i].endpoint
    ensures var w := Closed(v, i);
            e in w.endpointIdx && w.peers[w.endpointIdx[e]] == v.peers[v.endpointIdx[e]]
  {
    var w, at := Closed(v, i), Moved(v.endpointIdx[e], i);
    assert w.peers[at] == v.peers[v.endpointIdx[e]];
    ClosedKeepsInverse(v, i);
  }

  lemma ClosedAddsNothing(v: Vectors, i: nat, e: Endpoint)
    requires v.Inverse() && i < |v.peers| && e in Closed(v, i).endpointIdx
    ensures e in v.endpointIdx && e != v.peers[i].endpoint
  {
    var w := Closed(v, i);
    var at := w.endpointIdx[e];
    assert w.peers[at] == v.peers[if at < i then at else at + 1];
  }

  lemma PeersWithout(v: Vectors, w: Vectors, e: Endpoint)
    requires v.Sound() && w.Sound() && w.endpointIdx.Keys == v.endpointIdx.Keys - {e}
    requires forall x :: x in w.endpointIdx ==> w.peers[w.endpointIdx[x]] == v.peers[v.endpointIdx[x]]
    ensures w.PeerMap() == v.PeerMap() - {e}
  {
  }

  lemma ClosedMapsPeers(v: Vectors, i: nat)
    requires v.Inverse() && i < |v.peers|
    ensures Closed(v, i).PeerMap() == v.PeerMap() - {v.peers[i].endpoint}
  {
    var w, e := Closed(v, i), v.peers[i].endpoint;
    forall x | x in v.endpointIdx && x != e
      ensures x in w.endpointIdx && w.peers[w.endpointIdx[x]] == v.peers[v.endpointIdx[x]]
    {
      ClosedKeepsEntry(v, i, x);
    }
    forall x | x in w.endpointIdx
      ensures x in v.endpointIdx && x != e
    {
      ClosedAddsNothing(v, i, x);
    }
    PeersWithout(v, w, e);
  }

  // The table's removal, from what the vectors w after it hold.
  lemma PeerGone(v: Vectors, w: Vectors, e: Endpoint)
    requires v.Sound() && w.Sound() && e in v.endpointIdx
    requires w.PeerMap() == v.PeerMap() - {e} && w.pending == v.pending && w.rejected == v.rejected
    ensures Does(Still(w).(sends := [Send(e, BYE)]), OnRemove(v.Abs(), e))
  {
    ListsOne(Send(e, BYE));
  }

  lemma RemovedDoes(v: Vectors, e: Endpoint)
    requires v.Inverse()
    ensures Does(Removed(v, e), OnRemove(v.Abs(), e))
  {
    if e in v.endpointIdx {
      var i := v.endpointIdx[e];
      ClosedMapsPeers(v, i);
      PeerGone(v, Closed(v, i), e);
    } else {
      ListsNone();
    }
  }

  lemma MarkedMapsPeers(v: Vectors, i: nat, link: Link, lastSeen: int)
    requires v.Inverse() && i < |v.peers|
    ensures Marked(v, i, link, lastSeen).Inverse()
    ensures Marked(v, i, link, lastSeen).PeerMap() == v.PeerMap()[v.peers[i].endpoint := Peer(link, lastSeen)]
    ensures Marked(v, i, link, lastSeen).RouteMap() == v.RouteMap()
  {
  }

  lemma HelloDoes(v: Vectors, from: Endpoint, msg: Message, now: int)
    requires v.Inverse() && msg.typ.TunnelHello?
    ensures Does(Received(v, from, msg, now), OnReceive(v.Abs(), from, msg, now))
  {
    ListsNone();
    if from in v.endpointIdx {
      ListsOne(Send(from, HELLO));
      MarkedMapsPeers(v, v.endpointIdx[from], Connected, now);
    } else {
      SameVectors(v, Unknown(v, from).state);
    }
  }

  lemma KeepaliveDoes(v: Vectors, from: Endpoint, msg: Message, now: int)
    requires v.Inverse() && msg.typ.TunnelKeepalive?
    ensures Does(Received(v, from, msg, now), OnReceive(v.Abs(), from, msg, now))
  {
    ListsNone();
    if v.Linked(from) {
      MarkedMapsPeers(v, v.endpointIdx[from], Connected, now);
    }
  }

  lemma ByeDoes(v: Vectors, from: Endpoint, msg: Message, now: int)
    requires v.Inverse() && msg.typ.TunnelBye?
    ensures Does(Received(v, from, msg, now), OnReceive(v.Abs(), from, msg, now))
  {
    ListsNone();
    if from in v.endpointIdx {
      var i := v.endpointIdx[from];
      MarkedMapsPeers(v, i, Disconnected, v.peers[i].lastSeen);
      SameVectors(Marked(v, i, Disconnected, v.peers[i].lastSeen), Left(v, from));
    }
  }

  lemma DataOnTable(t: Table, from: Endpoint, msg: Message, now: int)
    requires !msg.typ.IsControl()
    ensures var o := OnReceive(t, from, msg, now);
            && SamePeers(o.table, t) && o.sends == {} && o.ask == None
            && o.upcall == if t.Holds(from) then Some(msg) else None
  {
  }

  lemma DataOnVectors(v: Vectors, from: Endpoint, msg: Message, now: int)
    requires v.Sound() && !msg.typ.IsControl()
    ensures var r := Received(v, from, msg, now);
            && r.state.peers == v.peers && r.state.endpointIdx == v.endpointIdx
            && r.state.pending == v.pending && r.state.rejected == v.rejected && r.sends == [] && r.ask == None
            && r.upcall == if v.Linked(from) then Some(msg) else None
  {
  }

  lemma DataDoes(v: Vectors, from: Endpoint, msg: Message, now: int)
    requires v.Inverse() && !msg.typ.IsControl()
    ensures Does(Received(v, from, msg, now), OnReceive(v.Abs(), from, msg, now))
  {
    ListsNone();
    DataOnTable(v.Abs(), from, msg, now);
    DataOnVectors(v, from, msg, now);
    SameVectors(v, Received(v, from, msg, now).state);
  }

  // The peers of a table are those of the vector and its index.
  lemma SameVectors(v: Vectors, w: Vectors)
    requires v.Sound() && w.Sound() && w.peers == v.peers && w.endpointIdx == v.endpointIdx
    ensures w.PeerMap() == v.PeerMap()
  {
  }

  lemma ReceivedDoes(v: Vectors, from: Endpoint, msg: Message, now: int)
    requires v.Inverse()
    ensures Does(Received(v, from, msg, now), OnReceive(v.Abs(), from, msg, now))
  {
    match msg.typ {
      case TunnelHello => HelloDoes(v, from, msg, now);
      case TunnelKeepalive => KeepaliveDoes(v, from, msg, now);
      case TunnelBye => ByeDoes(v, from, msg, now);
      case _ => DataDoes(v, from, msg, now);
    }
  }

  // The control message a pass sends to a peer that does not time out in it.
  function PassSend(p: Entry): Send {
    Send(p.endpoint, if p.link.Connected? then KEEPALIVE else HELLO)
  }

  lemma {:induction false} PassSendsAre(peers: seq<Entry>, now: int, s: Send)
    ensures s in PassSends(peers, now) <==> exists p :: p in peers && !Expired(p, now) && s == PassSend(p)
  {
    if peers != [] {
      var front, p := peers[..|peers| - 1], peers[|peers| - 1];
      PassSendsAre(front, now, s);
      assert peers == front + [p];
    }
  }

  lemma {:induction false} PassSendsDiffer(peers: seq<Entry>, now: int)
    requires DistinctEndpoints(peers)
    ensures Distinct(PassSends(peers, now))
  {
    if peers != [] {
      var front, p := peers[..|peers| - 1], peers[|peers| - 1];
      PassSendsDiffer(front, now);
      PassSendsAre(front, now, PassSend(p));
    }
  }

  lemma PassSendIffInTable(v: Vectors, now: int, s: Send)
    requires v.Inverse()
    ensures s in OnPass(v.Abs(), now).sends <==> exists p :: p in v.peers && !Expired(p, now) && s == PassSend(p)
  {
    if p :| p in v.peers && !Expired(p, now) && s == PassSend(p) {
      assert v.PeerMap()[p.endpoint] == Peer(p.link, p.lastSeen);
    }
    if s in OnPass(v.Abs(), now).sends {
      var p := v.peers[v.endpointIdx[s.to]];
      assert p in v.peers && s == PassSend(p);
    }
  }

  lemma PassSendsList(v: Vectors, now: int)
    requires v.Inverse()
    ensures Lists(PassSends(v.peers, now), OnPass(v.Abs(), now).sends)
  {
    PassSendsDiffer(v.peers, now);
    forall s: Send
      ensures s in PassSends(v.peers, now) <==> s in OnPass(v.Abs(), now).sends
    {
      PassSendsAre(v.peers, now, s);
      PassSendIffInTable(v, now, s);
    }
  }

  lemma PassedDoes(v: Vectors, now: int)
    requires v.Inverse()
    ensures Does(Passed(v, now), OnPass(v.Abs(), now))
  {
    PassSendsList(v, now);
    assert Passed(v, now).state.PeerMap() == OnPass(v.Abs(), now).table.peers;
  }

  lemma {:induction false} ToConnectedAre(peers: seq<Entry>, msg: Message, s: Send)
    ensures s in ToConnected(peers, msg) <==>
              s.msg == msg && exists i :: 0 <= i < |peers| && peers[i].endpoint == s.to && peers[i].link.Connected?
  {
    if peers != [] {
      ToConnectedAre(peers[..|peers| - 1], msg, s);
    }
  }

  lemma {:induction false} ToConnectedDiffer(peers: seq<Entry>, msg: Message)
    requires DistinctEndpoints(peers)
    ensures Distinct(ToConnected(peers, msg))
  {
    if peers != [] {
      var front, p := peers[..|peers| - 1], peers[|peers| - 1];
      ToConnectedDiffer(front, msg);
      ToConnectedAre(front, msg, Send(p.endpoint, msg));
    }
  }

  lemma ToConnectedList(v: Vectors, msg: Message)
    requires v.Inverse()
    ensures Lists(ToConnected(v.peers, msg), set e | e in v.PeerMap() && v.Abs().Holds(e) :: Send(e, msg))
  {
    ToConnectedDiffer(v.peers, msg);
    var all := set e | e in v.PeerMap() && v.Abs().Holds(e) :: Send(e, msg);
    forall s: Send
      ensures s in ToConnected(v.peers, msg) <==> s in all
    {
      ToConnectedAre(v.peers, msg, s);
    }
  }

  // Stopping says goodbye to the peers the table would.
  lemma GoodbyesList(v: Vectors)
    requires v.Inverse()
    ensures Lists(ToConnected(v.peers, BYE), Goodbyes(v.Abs()))
  {
    ToConnectedList(v, BYE);
  }

  lemma ForwardedList(v: Vectors, msg: Message)
    requires v.Inverse()
    ensures Lists(Forwarded(v, msg), Relayed(v.Abs(), msg))
  {
    ToConnectedList(v, OnWire(msg));
  }

  // In every state with a good index, stale mappings or not, each handler treats peers, pending and
  // rejected endpoints, datagrams, upcalls and callbacks as the table does.
  lemma ReactDoes(v: Vectors, ev: Event)
    requires v.Inverse()
    ensures Does(React(v, ev), Apply(v.Abs(), ev))
  {
    match ev {
      case Receive(from, msg, now) => ReceivedDoes(v, from, msg, now);
      case Pass(now) => PassedDoes(v, now);
      case Add(e) => AddedDoes(v, e);
      case Remove(e) => RemovedDoes(v, e);
      case Accept(e) => AddedDoes(v.(pending := v.pending - {e}), e);
      case Reject(e) =>
      case Forward(msg) => ForwardedList(v, msg);
    }
  }

  /* The routes */

  // The condition under which a handler treats the routes as the table does: no mapping dangles where
  // the handler would look at it or append behind it, and none leads above a slot being removed.
  ghost predicate Steady(v: Vectors, ev: Event)
    requires v.Sound()
  {
    match ev
    case Receive(from, msg, _) => Introduces(ev, msg.from, from) && v.Linked(from) ==> !v.Dangles(msg.from)
    case Add(e) => e !in v.endpointIdx ==> NoneAtEnd(v)
    case Accept(e) => e !in v.endpointIdx ==> NoneAtEnd(v)
    case Remove(e) => e in v.endpointIdx ==> NoneAbove(v, v.endpointIdx[e])
    case _ => true
  }

  ghost predicate NoneAtEnd(v: Vectors) {
    forall n :: n in v.nodeIdx ==> v.nodeIdx[n] != |v.peers|
  }

  ghost predicate NoneAbove(v: Vectors, i: nat) {
    forall n :: n in v.nodeIdx && v.nodeIdx[n] < |v.peers| ==> v.nodeIdx[n] <= i
  }

  lemma AppendedRoutes(v: Vectors, e: Endpoint)
    ensures Appended(v, e).RouteMap() == v.RouteMap() <==> NoneAtEnd(v)
  {
    var w := Appended(v, e);
    if n :| n in v.nodeIdx && v.nodeIdx[n] == |v.peers| {
      assert n in w.RouteMap() && n !in v.RouteMap();
    } else {
      assert w.RouteMap().Keys == v.RouteMap().Keys;
    }
  }

  // A mapping leads to the peer at slot i exactly when it is the number i.
  lemma RouteIsSlot(v: Vectors, n: NodeId, i: nat)
    requires v.Inverse() && n in v.nodeIdx && v.nodeIdx[n] < |v.peers| && i < |v.peers|
    ensures v.nodeIdx[n] == i <==> v.RouteMap()[n] == v.peers[i].endpoint
  {
    assert v.endpointIdx[v.peers[v.nodeIdx[n]].endpoint] == v.nodeIdx[n];
    assert v.endpointIdx[v.peers[i].endpoint] == i;
  }

  lemma ErasedRoutes(v: Vectors, i: nat)
    requires v.Inverse() && i < |v.peers|
    ensures v.(nodeIdx := Kept(v.nodeIdx, i)).RouteMap() == DropRoutes(v.RouteMap(), v.peers[i].endpoint)
  {
    forall n | n in v.nodeIdx && v.nodeIdx[n] < |v.peers|
      ensures v.nodeIdx[n] == i <==> v.RouteMap()[n] == v.peers[i].endpoint
    {
      RouteIsSlot(v, n, i);
    }
  }

  // Where a mapping above the gap leads once the gap is closed: one peer further on, or nowhere.
  lemma ClosedShiftsMapping(v: Vectors, i: nat, n: NodeId)
    requires i < |v.peers| && n in v.nodeIdx && i < v.nodeIdx[n]
    ensures var w := Closed(v, i);
            && |w.peers| == |v.peers| - 1 && n in w.nodeIdx && w.nodeIdx[n] == v.nodeIdx[n]
            && (v.nodeIdx[n] + 1 < |v.peers| ==> w.peers[w.nodeIdx[n]] == v.peers[v.nodeIdx[n] + 1])
            && (v.nodeIdx[n] + 1 >= |v.peers| ==> w.Dangles(n))
  {
  }

  lemma ClosedChangesRoute(v: Vectors, i: nat, n: NodeId)
    requires v.Inverse() && i < |v.peers| && n in v.nodeIdx && i < v.nodeIdx[n] < |v.peers|
    ensures n in Closed(v, i).RouteMap() ==> Closed(v, i).RouteMap()[n] != v.RouteMap()[n]
  {
    ClosedShiftsMapping(v, i, n);
    if v.nodeIdx[n] + 1 < |v.peers| {
      RouteIsSlot(v, n, v.nodeIdx[n] + 1);
    }
  }

  // Equal slots behind equal nodes make equal routes.
  lemma SameRoutes(v: Vectors, w: Vectors)
    requires v.nodeIdx.Keys == w.nodeIdx.Keys
    requires forall n :: n in w.nodeIdx ==> SameSlot(v, w, n)
    ensures w.RouteMap() == v.RouteMap()
  {
  }

  ghost predicate SameSlot(v: Vectors, w: Vectors, n: NodeId)
    requires n in v.nodeIdx && n in w.nodeIdx
  {
    if v.nodeIdx[n] < |v.peers| then w.nodeIdx[n] < |w.peers| && w.peers[w.nodeIdx[n]] == v.peers[v.nodeIdx[n]]
    else w.nodeIdx[n] >= |w.peers|
  }

  lemma NoneAboveKeepsSlot(v: Vectors, i: nat, n: NodeId)
    requires i < |v.peers| && NoneAbove(v, i) && n in Kept(v.nodeIdx, i)
    ensures SameSlot(v, Closed(v, i), n)
  {
  }

  lemma NoneAboveKeepsRoutes(v: Vectors, i: nat)
    requires i < |v.peers| && NoneAbove(v, i)
    ensures Closed(v, i).RouteMap() == v.(nodeIdx := Kept(v.nodeIdx, i)).RouteMap()
  {
    var kept, w := v.(nodeIdx := Kept(v.nodeIdx, i)), Closed(v, i);
    forall n | n in w.nodeIdx
      ensures SameSlot(kept, w, n)
    {
      NoneAboveKeepsSlot(v, i, n);
    }
    SameRoutes(kept, w);
  }

  lemma OneAboveChangesRoutes(v: Vectors, i: nat)
    requires v.Inverse() && i < |v.peers| && !NoneAbove(v, i)
    ensures Closed(v, i).RouteMap() != v.(nodeIdx := Kept(v.nodeIdx, i)).RouteMap()
  {
    var n :| n in v.nodeIdx && i < v.nodeIdx[n] < |v.peers|;
    ClosedChangesRoute(v, i, n);
    assert n in v.(nodeIdx := Kept(v.nodeIdx, i)).RouteMap();
  }

  // Closing the gap at slot i keeps every other route exactly when no mapping leads above the gap.
  lemma RemovalKeepsRoutesIffNoneAbove(v: Vectors, i: nat)
    requires v.Inverse() && i < |v.peers|
    ensures Closed(v, i).RouteMap() == DropRoutes(v.RouteMap(), v.peers[i].endpoint) <==> NoneAbove(v, i)
  {
    ErasedRoutes(v, i);
    if NoneAbove(v, i) {
      NoneAboveKeepsRoutes(v, i);
    } else {
      OneAboveChangesRoutes(v, i);
    }
  }

  lemma LearnedRoutes(v: Vectors, from: Endpoint, msg: Message)
    requires v.Sound() && v.Linked(from) && !msg.typ.IsControl()
    ensures Learned(v, from, msg).RouteMap() == OnReceive(v.Abs(), from, msg, 0).table.routes
       <==> msg.typ.ByeBye? || !v.Dangles(msg.from)
  {
    var w, o := Learned(v, from, msg), OnReceive(v.Abs(), from, msg, 0).table;
    if !msg.typ.ByeBye? && v.Dangles(msg.from) {
      assert msg.from !in w.RouteMap() && msg.from in o.routes;
    } else {
      assert w.RouteMap().Keys == o.routes.Keys;
    }
  }

  lemma PassedRoutes(v: Vectors, now: int)
    requires v.Inverse()
    ensures Passed(v, now).state.RouteMap() == OnPass(v.Abs(), now).table.routes
  {
    var w := Passed(v, now).state;
    forall n | n in v.RouteMap()
      ensures n in w.nodeIdx <==> !TimesOut(v.PeerMap()[v.RouteMap()[n]], now)
    {
      assert v.endpointIdx[v.RouteMap()[n]] == v.nodeIdx[n];
    }
  }

  lemma ControlOnTable(t: Table, from: Endpoint, msg: Message, now: int)
    requires msg.typ.TunnelHello? || msg.typ.TunnelKeepalive?
    ensures OnReceive(t, from, msg, now).table.routes == t.routes
  {
  }

  lemma ControlRoutes(v: Vectors, from: Endpoint, msg: Message, now: int)
    requires v.Inverse() && (msg.typ.TunnelHello? || msg.typ.TunnelKeepalive?)
    ensures Received(v, from, msg, now).state.RouteMap() == v.RouteMap()
  {
    if from in v.endpointIdx {
      MarkedMapsPeers(v, v.endpointIdx[from], Connected, now);
    }
  }

  lemma LeftRoutes(v: Vectors, from: Endpoint)
    requires v.Inverse() && from in v.endpointIdx
    ensures Left(v, from).RouteMap() == DropRoutes(v.RouteMap(), from)
  {
    var i := v.endpointIdx[from];
    var kept := v.(nodeIdx := Kept(v.nodeIdx, i));
    ErasedRoutes(v, i);
    MarkedMapsPeers(kept, i, Disconnected, v.peers[i].lastSeen);
  }

  lemma ReceivedRoutes(v: Vectors, from: Endpoint, msg: Message, now: int)
    requires v.Inverse()
    ensures Received(v, from, msg, now).state.RouteMap() == OnReceive(v.Abs(), from, msg, now).table.routes
       <==> Steady(v, Receive(from, msg, now))
  {
    if msg.typ.TunnelHello? || msg.typ.TunnelKeepalive? {
      ControlOnTable(v.Abs(), from, msg, now);
      ControlRoutes(v, from, msg, now);
    } else if msg.typ.TunnelBye? {
      if from in v.endpointIdx {
        LeftRoutes(v, from);
      }
    } else if v.Linked(from) {
      DataRoutesIgnoreTime(v.Abs(), from, msg, now);
      LearnedRoutes(v, from, msg);
    } else {
      NotLinked(v, from, msg, now);
    }
  }

  lemma DataRoutesIgnoreTime(t: Table, from: Endpoint, msg: Message, now: int)
    requires !msg.typ.IsControl()
    ensures OnReceive(t, from, msg, now).table == OnReceive(t, from, msg, 0).table
  {
  }

  lemma NotLinked(v: Vectors, from: Endpoint, msg: Message, now: int)
    requires v.Sound() && !v.Linked(from) && !msg.typ.IsControl()
    ensures Received(v, from, msg, now).state == v && OnReceive(v.Abs(), from, msg, now).table == v.Abs()
  {
  }

  // One handler in any state with a good index: the routes come out as the table's exactly under the
  // condition, everything else always.
  lemma ReactRefinesIffSteady(v: Vectors, ev: Event)
    requires v.Inverse()
    ensures Does(React(v, ev), Apply(v.Abs(), ev))
    ensures React(v, ev).state.Abs() == Apply(v.Abs(), ev).table <==> Steady(v, ev)
  {
    ReactDoes(v, ev);
    match ev {
      case Receive(from, msg, now) => ReceivedRoutes(v, from, msg, now);
      case Pass(now) => PassedRoutes(v, now);
      case Add(e) => AppendedRoutes(v, e);
      case Accept(e) => AppendedRoutes(v.(pending := v.pending - {e}), e);
      case Remove(e) =>
        if e in v.endpointIdx {
          RemovalKeepsRoutesIffNoneAbove(v, v.endpointIdx[e]);
        }
      case Reject(e) => assert React(v, ev).state.RouteMap() == v.RouteMap();
      case Forward(msg) =>
    }
  }

  // While every mapping leads into the vector, only a removal can be unsteady, and a steady handler
  // keeps them there.
  lemma SteadyKeepsInRange(v: Vectors, ev: Event)
    requires v.Inverse() && v.InRange()
    ensures !ev.Remove? ==> Steady(v, ev)
    ensures Steady(v, ev) ==> React(v, ev).state.InRange()
  {
    if ev.Remove? && ev.peer in v.endpointIdx && Steady(v, ev) {
      ClosedKeepsInRange(v, v.endpointIdx[ev.peer]);
    }
  }

  lemma ClosedKeepsInRange(v: Vectors, i: nat)
    requires v.InRange() && i < |v.peers| && NoneAbove(v, i)
    ensures Closed(v, i).InRange()
  {
  }

  // A stopped tunnel hears nobody, has forgotten whom it rejected, and knows no node, but still relays
  // broadcasts to the peers in its vector that are connected.
  lemma StoppedForgets(v: Vectors, from: Endpoint, msg: Message, now: int)
    ensures var r := Received(Stopped(v), from, msg, now);
            && r.upcall == None && r.sends == [] && r.state.peers == v.peers
            && (msg.typ == TunnelHello ==> r.ask == Some(from))
    ensures msg.typ == Unicast || msg.typ == MeasurementPing ==> Forwarded(Stopped(v), msg) == []
    ensures msg.typ == Broadcast ==> Forwarded(Stopped(v), msg) == Forwarded(v, msg)
  {
  }

  /* Whole runs of the program */

  // Peers, pending and rejected endpoints do not depend on the routes.
  lemma ReceiveIgnoresRoutes(s: Table, t: Table, from: Endpoint, msg: Message, now: int)
    requires SamePeers(s, t)
    ensures SamePeers(OnReceive(s, from, msg, now).table, OnReceive(t, from, msg, now).table)
  {
  }

  lemma PeersIgnoreRoutes(s: Table, t: Table, ev: Event)
    requires SamePeers(s, t)
    ensures SamePeers(Apply(s, ev).table, Apply(t, ev).table)
    ensures Apply(s, ev).ask == Apply(t, ev).ask && Apply(s, ev).upcall == Apply(t, ev).upcall
  {
    if ev.Receive? {
      ReceiveIgnoresRoutes(s, t, ev.from, ev.msg, ev.now);
    }
  }

  lemma ControlIgnoresRoutes(s: Table, t: Table, ev: Event)
    requires SamePeers(s, t) && !ev.Forward?
    ensures Apply(s, ev).sends == Apply(t, ev).sends
  {
  }

  // In every run, removals included, peers, pending and rejected endpoints are those of the table.
  lemma {:induction false} RunDoes(v: Vectors, evs: seq<Event>)
    requires v.Inverse()
    ensures Reached(v, evs).Inverse() && SamePeers(Reached(v, evs).Abs(), After(v.Abs(), evs))
  {
    RunKeepsInverse(v, evs);
    if evs != [] {
      var front, last := evs[..|evs| - 1], evs[|evs| - 1];
      RunDoes(v, front);
      ReactDoes(Reached(v, front), last);
      PeersIgnoreRoutes(Reached(v, front).Abs(), After(v.Abs(), front), last);
    }
  }

  // So are the control messages, the upcalls and the callbacks at every step.
  lemma RunSendsAndAsks(v: Vectors, evs: seq<Event>, k: nat)
    requires v.Inverse() && k < |evs|
    ensures var r, o := React(Reached(v, evs[..k]), evs[k]), Apply(After(v.Abs(), evs[..k]), evs[k]);
            r.upcall == o.upcall && r.ask == o.ask && (!evs[k].Forward? ==> Lists(r.sends, o.sends))
  {
    RunDoes(v, evs[..k]);
    ReactDoes(Reached(v, evs[..k]), evs[k]);
    PeersIgnoreRoutes(Reached(v, evs[..k]).Abs(), After(v.Abs(), evs[..k]), evs[k]);
    if !evs[k].Forward? {
      ControlIgnoresRoutes(Reached(v, evs[..k]).Abs(), After(v.Abs(), evs[..k]), evs[k]);
    }
  }

  // Between two callbacks of the program for one endpoint lie an accept of it and, later, a removal.
  lemma ProgramRepeatsCallbackOnlyAfterRemove(v: Vectors, evs: seq<Event>, i: nat, j: nat, e: Endpoint)
    requires v.Inverse() && i < j < |evs|
    requires React(Reached(v, evs[..i]), evs[i]).ask == Some(e) && React(Reached(v, evs[..j]), evs[j]).ask == Some(e)
    ensures exists a, r :: i < a < r < j && evs[a] == Accept(e) && evs[r] == Remove(e)
  {
    RunSendsAndAsks(v, evs, i);
    RunSendsAndAsks(v, evs, j);
    CallbackRepeatsOnlyAfterAcceptAndRemove(v.Abs(), evs, i, j, e);
  }

  ghost predicate SteadyRemoval(v: Vectors, ev: Event)
    requires v.Sound()
  {
    ev.Remove? ==> Steady(v, ev)
  }

  // Every removal of the run leaves no mapping above its gap.
  ghost predicate SteadyRemovals(v: Vectors, evs: seq<Event>)
    requires v.Sound()
  {
    evs != [] ==> var front := evs[..|evs| - 1];
                  SteadyRemovals(v, front) && SteadyRemoval(Reached(v, front), evs[|evs| - 1])
  }

  lemma StepRefines(v: Vectors, ev: Event)
    requires v.Inverse() && v.InRange() && SteadyRemoval(v, ev)
    ensures React(v, ev).state.Inverse() && React(v, ev).state.InRange()
    ensures React(v, ev).state.Abs() == Apply(v.Abs(), ev).table
  {
    SteadyKeepsInRange(v, ev);
    ReactKeepsInverse(v, ev);
    ReactRefinesIffSteady(v, ev);
  }

  // A run in which no removal leaves a mapping above it does what the table does, routes included.
  lemma {:induction false} RunRefines(v: Vectors, evs: seq<Event>)
    requires v.Inverse() && v.InRange() && SteadyRemovals(v, evs)
    ensures Reached(v, evs).Inverse() && Reached(v, evs).InRange()
    ensures Reached(v, evs).Abs() == After(v.Abs(), evs)
  {
    if evs != [] {
      var front := evs[..|evs| - 1];
      RunRefines(v, front);
      StepRefines(Reached(v, front), evs[|evs| - 1]);
    }
  }

  // Every node mapping leads to a connected peer.
  ghost predicate RoutesConnected(v: Vectors) {
    forall n :: n in v.nodeIdx ==> v.nodeIdx[n] < |v.peers| && v.peers[v.nodeIdx[n]].link.Connected?
  }

  lemma ValidTableRoutesConnected(v: Vectors)
    requires v.Inverse() && v.InRange() && v.Abs().Valid()
    ensures RoutesConnected(v)
  {
    forall n | n in v.nodeIdx
      ensures v.peers[v.nodeIdx[n]].link.Connected?
    {
      var e := v.peers[v.nodeIdx[n]].endpoint;
      assert v.RouteMap()[n] == e && v.Abs().Holds(e) && v.endpointIdx[e] == v.nodeIdx[n];
    }
  }

  // In every run from the constructor in which no removal leaves a mapping above its gap, every known
  // node is mapped to a connected peer inside the vector, and a message for it makes exactly one
  // datagram, to that peer.
  lemma {:induction false} KnownNodeGetsOneSend(initial: seq<Endpoint>, evs: seq<Event>, msg: Message)
    requires Distinct(initial) && SteadyRemovals(Start(initial), evs)
    requires (msg.typ.Unicast? || msg.typ.MeasurementPing?) && msg.to.Some?
    ensures var v := Reached(Start(initial), evs);
            && RoutesConnected(v)
            && Forwarded(v, msg)
               == if msg.to.value in v.nodeIdx then [Send(v.peers[v.nodeIdx[msg.to.value]].endpoint, msg)] else []
  {
    StartIsInverse(initial);
    StartIsInitial(initial);
    RunRefines(Start(initial), evs);
    RunKeepsRoutesConnected(Start(initial).Abs(), evs);
    ValidTableRoutesConnected(Reached(Start(initial), evs));
  }

  /* What a removal does to the nodes behind later peers */

  lemma SentAlongMapping(v: Vectors, w: Vectors, msg: Message)
    requires (msg.typ.Unicast? || msg.typ.MeasurementPing?) && msg.to.Some?
    requires msg.to.value in v.nodeIdx && msg.to.value in w.nodeIdx
    requires |w.peers| == |v.peers| - 1 && w.nodeIdx[msg.to.value] == v.nodeIdx[msg.to.value]
    requires var next := v.nodeIdx[msg.to.value] + 1; next < |v.peers| ==> w.peers[next - 1] == v.peers[next]
    ensures var next := v.nodeIdx[msg.to.value] + 1;
            Forwarded(w, msg)
            == if next < |v.peers| && v.peers[next].link.Connected? then [Send(v.peers[next].endpoint, msg)] else []
  {
  }

  // After any removal a message for a node behind a later peer goes to the peer after that one if
  // there is one and it is connected, and nowhere otherwise.
  lemma RemovalShiftsTraffic(v: Vectors, e: Endpoint, msg: Message)
    requires v.Inverse() && e in v.endpointIdx && (msg.typ.Unicast? || msg.typ.MeasurementPing?) && msg.to.Some?
    requires msg.to.value in v.nodeIdx && v.endpointIdx[e] < v.nodeIdx[msg.to.value]
    ensures var next := v.nodeIdx[msg.to.value] + 1;
            Forwarded(React(v, Remove(e)).state, msg)
            == if next < |v.peers| && v.peers[next].link.Connected? then [Send(v.peers[next].endpoint, msg)] else []
  {
    ClosedShiftsMapping(v, v.endpointIdx[e], msg.to.value);
    SentAlongMapping(v, React(v, Remove(e)).state, msg);
  }

  // A run that does so: three configured peers connect, node n announces itself through b, and a is
  // removed.
  function DivertingRun(a: Endpoint, b: Endpoint, c: Endpoint, n: NodeId, now: int): seq<Event> {
    [Receive(a, HELLO, now), Receive(b, HELLO, now), Receive(c, HELLO, now),
     Receive(b, Message(Broadcast, n, None, []), now), Remove(a)]
  }

  lemma DivertingRunIs(v: Vectors, a: Endpoint, b: Endpoint, c: Endpoint, n: NodeId, now: int)
    requires v.Sound()
    ensures var evs := DivertingRun(a, b, c, n, now);
            && Reached(v, evs[..4]) == Received(Received(Received(Received(v, a, HELLO, now).state,
                 b, HELLO, now).state, c, HELLO, now).state, b, evs[3].msg, now).state
            && Reached(v, evs) == React(Reached(v, evs[..4]), Remove(a)).state
  {
    var evs := DivertingRun(a, b, c, n, now);
    assert evs[..5] == evs;
    assert evs[..5][..4] == evs[..4] && evs[..4][..3] == evs[..3];
    assert evs[..3][..2] == evs[..2] && evs[..2][..1] == evs[..1];
    assert Reached(v, evs[..1][..0]) == v;
    assert Reached(v, evs[..1]) == Received(v, a, HELLO, now).state;
    assert Reached(v, evs[..2]) == Received(Reached(v, evs[..1]), b, HELLO, now).state;
    assert Reached(v, evs[..3]) == Received(Reached(v, evs[..2]), c, HELLO, now).state;
    assert Reached(v, evs[..4]) == Received(Reached(v, evs[..3]), b, evs[3].msg, now).state;
  }

  lemma HelloConnects(v: Vectors, e: Endpoint, i: nat, now: int)
    requires v.Sound() && e in v.endpointIdx && v.endpointIdx[e] == i
    ensures Received(v, e, HELLO, now).state == v.(peers := v.peers[i := Entry(e, Connected, now)])
  {
  }

  function Three(a: Endpoint, b: Endpoint, c: Endpoint, now: int): seq<Entry> {
    [Entry(a, Connected, now), Entry(b, Connected, now), Entry(c, Connected, now)]
  }

  lemma StartOfThree(a: Endpoint, b: Endpoint, c: Endpoint) returns (v: Vectors)
    requires a != b && b != c && a != c
    ensures v == Start([a, b, c]) && v == NOTHING.(peers := v.peers, endpointIdx := v.endpointIdx)
    ensures v.endpointIdx == map[a := 0, b := 1, c := 2] && |v.peers| == 3
  {
    v := Start([a, b, c]);
    StartIsInverse([a, b, c]);
    assert v.peers[0].endpoint == a && v.peers[1].endpoint == b && v.peers[2].endpoint == c;
    assert v.endpointIdx.Keys == {a, b, c};
  }

  lemma ThreeHellos(v: Vectors, a: Endpoint, b: Endpoint, c: Endpoint, now: int)
    requires a != b && b != c && a != c
    requires v.Sound() && |v.peers| == 3 && v.endpointIdx == map[a := 0, b := 1, c := 2]
    ensures Received(Received(Received(v, a, HELLO, now).state, b, HELLO, now).state, c, HELLO, now).state
         == v.(peers := Three(a, b, c, now))
  {
    var v1 := Received(v, a, HELLO, now).state;
    var v2 := Received(v1, b, HELLO, now).state;
    HelloConnects(v, a, 0, now);
    HelloConnects(v1, b, 1, now);
    HelloConnects(v2, c, 2, now);
    assert v.peers[0 := Entry(a, Connected, now)][1 := Entry(b, Connected, now)][2 := Entry(c, Connected, now)]
        == Three(a, b, c, now);
  }

  lemma FirstWords(v: Vectors, b: Endpoint, n: NodeId, now: int)
    requires v.Sound() && v.Linked(b) && n !in v.nodeIdx
    ensures Received(v, b, Message(Broadcast, n, None, []), now).state
         == v.(nodeIdx := v.nodeIdx[n := v.endpointIdx[b]])
  {
  }

  lemma ThreeConnected(a: Endpoint, b: Endpoint, c: Endpoint, n: NodeId, now: int) returns (w: Vectors)
    requires a != b && b != c && a != c
    ensures w == Reached(Start([a, b, c]), DivertingRun(a, b, c, n, now)[..4])
    ensures w.peers == Three(a, b, c, now)
    ensures w.endpointIdx == map[a := 0, b := 1, c := 2] && w.nodeIdx == map[n := 1]
  {
    var v := StartOfThree(a, b, c);
    DivertingRunIs(v, a, b, c, n, now);
    ThreeHellos(v, a, b, c, now);
    FirstWords(v.(peers := Three(a, b, c, now)), b, n, now);
    w := v.(peers := Three(a, b, c, now), nodeIdx := map[n := 1]);
  }

  // Before the removal a unicast for n goes to b, after it to c, where n never was.
  lemma RemovalDivertsTraffic(a: Endpoint, b: Endpoint, c: Endpoint, n: NodeId, now: int, msg: Message)
    requires a != b && b != c && a != c && msg.typ.Unicast? && msg.to == Some(n)
    ensures var evs := DivertingRun(a, b, c, n, now);
            && Forwarded(Reached(Start([a, b, c]), evs[..4]), msg) == [Send(b, msg)]
            && Forwarded(Reached(Start([a, b, c]), evs), msg) == [Send(c, msg)]
  {
    var w := ThreeConnected(a, b, c, n, now);
    assert Forwarded(w, msg) == [Send(b, msg)];
    RemovalShiftsTraffic(w, a, msg);
    DivertingRunIs(Start([a, b, c]), a, b, c, n, now);
  }

  // Only a peer appended at the slot the mapping leads to and a goodbye of the node itself can end a
  // dangling mapping.
  predicate CanHeal(v: Vectors, ev: Event, n: NodeId) {
    || ((ev.Add? || ev.Accept?) && ev.peer !in v.endpointIdx && n in v.nodeIdx && v.nodeIdx[n] == |v.peers|)
    || (ev.Receive? && ev.msg.typ.ByeBye? && ev.msg.from == n)
  }

  lemma DanglingStays(v: Vectors, ev: Event, n: NodeId)
    requires v.Sound() && v.Dangles(n) && !CanHeal(v, ev, n)
    ensures React(v, ev).state.Dangles(n)
  {
  }

  // Until then every message for the node is lost, whatever the node itself sends meanwhile.
  lemma {:induction false} DanglingIsUnreachable(v: Vectors, evs: seq<Event>, n: NodeId, msg: Message)
    requires v.Sound() && v.Dangles(n) && (msg.typ.Unicast? || msg.typ.MeasurementPing?) && msg.to == Some(n)
    requires forall k :: 0 <= k < |evs| ==> !CanHeal(Reached(v, evs[..k]), evs[k], n)
    ensures Reached(v, evs).Dangles(n) && Forwarded(Reached(v, evs), msg) == []
  {
    if evs != [] {
      var front := evs[..|evs| - 1];
      forall k | 0 <= k < |front|
        ensures !CanHeal(Reached(v, front[..k]), front[k], n)
      {
        assert front[..k] == evs[..k];
      }
      DanglingIsUnreachable(v, front, n, msg);
      DanglingStays(Reached(v, front), evs[|evs| - 1], n);
    }
  }

  // A removal that also renumbers the mappings above the gap.
  ghost function Renumbered(v: Vectors, i: nat): Vectors
    requires i < |v.peers|
  {
    Closed(v, i).(nodeIdx := map n | n in v.nodeIdx && v.nodeIdx[n] != i ::
                               if v.nodeIdx[n] > i then v.nodeIdx[n] - 1 else v.nodeIdx[n])
  }

  lemma RenumberedSlot(v: Vectors, i: nat, n: NodeId)
    requires v.InRange() && i < |v.peers| && n in Kept(v.nodeIdx, i)
    ensures n in Renumbered(v, i).nodeIdx && SameSlot(v, Renumbered(v, i), n)
  {
  }

  // With renumbering a removal keeps every route that did not lead to the removed peer.
  lemma RenumberingKeepsRoutes(v: Vectors, i: nat)
    requires v.Inverse() && v.InRange() && i < |v.peers|
    ensures Renumbered(v, i).InRange()
    ensures Renumbered(v, i).RouteMap() == DropRoutes(v.RouteMap(), v.peers[i].endpoint)
  {
    var kept, moved := v.(nodeIdx := Kept(v.nodeIdx, i)), Renumbered(v, i);
    ErasedRoutes(v, i);
    forall n | n in moved.nodeIdx
      ensures SameSlot(kept, moved, n)
    {
      RenumberedSlot(v, i, n);
    }
    SameRoutes(kept, moved);
  }
}
