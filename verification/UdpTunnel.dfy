// One tunnel instance, updated in place.  Every handler accepts whatever state the handlers before it
// left behind, stale node mappings, repeated peers and a stopped tunnel included, and is proved to do
// what TunnelVectors says; TunnelRefinement says what that means.
module UdpTunnel {
  import opened LinkTypes
  import opened TunnelTable
  import opened TunnelVectors
  import Dedup

  class Tunnel {
    var running: bool
    var peers: seq<Entry>
    var endpointIdx: map<Endpoint, nat>
    var nodeIdx: map<NodeId, nat>
    var pending: set<Endpoint>
    var rejected: set<Endpoint>
    const cache: Dedup.DedupCache

    ghost function View(): Vectors
      reads this
    {
      Vectors(peers, endpointIdx, nodeIdx, pending, rejected)
    }

    ghost predicate Valid()
      reads this, cache
    {
      View().Sound() && cache.Valid()
    }

    constructor (initial: seq<Endpoint>, cache: Dedup.DedupCache)
      requires cache.Valid()
      ensures Valid() && running && this.cache == cache && View() == Start(initial)
    {
      running := true;
      peers, endpointIdx, nodeIdx := [], map[], map[];
      pending, rejected := {}, {};
      this.cache := cache;
      new;
      for i := 0 to |initial|
        invariant running && this.cache == cache && View() == Start(initial[..i])
      {
        assert initial[..i + 1][..i] == initial[..i];
        peers := peers + [Entry(initial[i], Disconnected, 0)];
        endpointIdx := endpointIdx[initial[i] := |peers| - 1];
      }
      assert initial[..|initial|] == initial;
    }

    method AddPeer(e: Endpoint) returns (sends: seq<Send>)
      requires View().Sound()
      modifies this`peers, this`endpointIdx
      ensures View() == Added(old(View()), e).state && sends == Added(old(View()), e).sends
    {
      if e in endpointIdx {
        return [];
      }
      peers := peers + [Entry(e, Disconnected, 0)];
      endpointIdx := endpointIdx[e := |peers| - 1];
      sends := [Send(e, HELLO)];
    }

    // The node mappings above the removed slot are left as they are.
    method RemovePeer(e: Endpoint) returns (sends: seq<Send>)
      requires View().Sound()
      modifies this`peers, this`endpointIdx, this`nodeIdx
      ensures View() == Removed(old(View()), e).state && sends == Removed(old(View()), e).sends
    {
      if e !in endpointIdx {
        return [];
      }
      var i := endpointIdx[e];
      ErasePeerNodeIds(i);
      peers := RemoveAt(peers, i);
      RebuildEndpointIndex();
      sends := [Send(e, BYE)];
    }

    method ErasePeerNodeIds(i: nat)
      modifies this`nodeIdx
      ensures nodeIdx == Kept(old(nodeIdx), i)
    {
      var unseen := nodeIdx.Keys;
      while unseen != {}
        invariant unseen <= old(nodeIdx).Keys
        invariant nodeIdx == map n | n in old(nodeIdx) && (n in unseen || old(nodeIdx)[n] != i) :: old(nodeIdx)[n]
        decreases unseen
      {
        var n :| n in unseen;
        if nodeIdx[n] == i {
          nodeIdx := nodeIdx - {n};
        }
        unseen := unseen - {n};
      }
    }

    method RebuildEndpointIndex()
      modifies this`endpointIdx
      ensures endpointIdx == Rebuilt(peers)
    {
      endpointIdx := map[];
      for i := 0 to |peers|
        invariant endpointIdx == Rebuilt(peers[..i])
      {
        assert peers[..i + 1][..i] == peers[..i];
        endpointIdx := endpointIdx[peers[i].endpoint := i];
      }
      assert peers[..|peers|] == peers;
    }

    method HandleReceive(from: Endpoint, msg: Message, now: int)
      returns (sends: seq<Send>, upcall: Option<Message>, ask: Option<Endpoint>)
      requires View().Sound()
      modifies this`peers, this`nodeIdx, this`pending
      ensures Reaction(View(), sends, upcall, ask) == Received(old(View()), from, msg, now)
    {
      sends, upcall, ask := [], None, None;
      match msg.typ {
        case TunnelHello =>
          if from !in endpointIdx {
            ask := HandleUnknownPeer(from);
          } else {
            sends := Greet(from, now);
          }
        case TunnelKeepalive =>
          if from in endpointIdx && peers[endpointIdx[from]].link.Connected? {
            SetPeer(endpointIdx[from], Connected, now);
          }
        case TunnelBye =>
          if from in endpointIdx {
            SetPeer(endpointIdx[from], Disconnected, peers[endpointIdx[from]].lastSeen);
            ErasePeerNodeIds(endpointIdx[from]);
          }
        case _ =>
          upcall := Admit(from, msg);
      }
    }

    // Writes one peer's state and time stamp.
    method SetPeer(i: nat, link: Link, lastSeen: int)
      requires View().Sound() && i < |peers|
      modifies this`peers
      ensures View() == Marked(old(View()), i, link, lastSeen)
    {
      peers := peers[i := Entry(peers[i].endpoint, link, lastSeen)];
    }

    // A HELLO from a known peer: connect, and answer unless already connected.
    method Greet(from: Endpoint, now: int) returns (sends: seq<Send>)
      requires View().Sound() && from in endpointIdx
      modifies this`peers
      ensures View() == Greeted(old(View()), from, now).state && sends == Greeted(old(View()), from, now).sends
    {
      var i := endpointIdx[from];
      var wasConnected := peers[i].link.Connected?;
      SetPeer(i, Connected, now);
      sends := if wasConnected then [] else [Send(from, HELLO)];
    }

    // A data message: taken only from a connected peer.
    method Admit(from: Endpoint, msg: Message) returns (upcall: Option<Message>)
      requires View().Sound()
      modifies this`nodeIdx
      ensures View() == if old(View()).Linked(from) then Learned(old(View()), from, msg) else old(View())
      ensures upcall == if old(View()).Linked(from) then Some(msg) else None
    {
      upcall := None;
      if from in endpointIdx && peers[endpointIdx[from]].link.Connected? {
        upcall := Some(msg);
        if msg.typ.ByeBye? {
          nodeIdx := nodeIdx - {msg.from};
        } else if msg.from !in nodeIdx {
          nodeIdx := nodeIdx[msg.from := endpointIdx[from]];
        }
      }
    }

    method HandleUnknownPeer(from: Endpoint) returns (ask: Option<Endpoint>)
      modifies this`pending
      ensures ask == if from in rejected || from in old(pending) then None else Some(from)
      ensures pending == if ask.Some? then old(pending) + {from} else old(pending)
    {
      if from in rejected || from in pending {
        return None;
      }
      pending := pending + {from};
      return Some(from);
    }

    // The continuation the callback may run to admit the peer.
    method AcceptPeer(from: Endpoint) returns (sends: seq<Send>)
      requires View().Sound()
      modifies this`peers, this`endpointIdx, this`pending
      ensures View() == React(old(View()), Accept(from)).state && sends == React(old(View()), Accept(from)).sends
    {
      pending := pending - {from};
      sends := AddPeer(from);
    }

    // The continuation the callback may run to turn the peer away.
    method RejectPeer(from: Endpoint)
      requires View().Sound()
      modifies this`pending, this`rejected
      ensures View() == React(old(View()), Reject(from)).state
    {
      pending := pending - {from};
      rejected := rejected + {from};
    }

    method RunMaintenance(now: int) returns (sends: seq<Send>)
      requires View().Sound()
      modifies this`peers, this`nodeIdx
      ensures !running ==> View() == old(View()) && sends == []
      ensures running ==> View() == Passed(old(View()), now).state && sends == Passed(old(View()), now).sends
    {
      sends := [];
      if running {
        sends := MaintainAll(now);
      }
    }

    method MaintainAll(now: int) returns (sends: seq<Send>)
      modifies this`peers, this`nodeIdx
      ensures peers == PassPeers(old(peers), now) && sends == PassSends(old(peers), now)
      ensures nodeIdx == Surviving(old(peers), old(nodeIdx), |old(peers)|, now)
    {
      sends := [];
      for i := 0 to |peers|
        invariant |peers| == |old(peers)| && peers[i..] == old(peers)[i..]
        invariant forall j :: 0 <= j < i ==> peers[j] == Tended(old(peers)[j], now)
        invariant nodeIdx == Surviving(old(peers), old(nodeIdx), i, now)
        invariant sends == PassSends(old(peers)[..i], now)
      {
        assert old(peers)[..i + 1][..i] == old(peers)[..i];
        var control := MaintainPeer(i, now);
        sends := sends + control;
      }
      assert old(peers)[..|peers|] == old(peers);
    }

    method MaintainPeer(i: nat, now: int) returns (sends: seq<Send>)
      requires i < |peers|
      modifies this`peers, this`nodeIdx
      ensures var p := old(peers[i]);
              && peers == old(peers)[i := Tended(p, now)]
              && nodeIdx == (if Expired(p, now) then Kept(old(nodeIdx), i) else old(nodeIdx))
              && sends == if Expired(p, now) then []
                          else [Send(p.endpoint, if p.link.Connected? then KEEPALIVE else HELLO)]
    {
      var peer := peers[i];
      if peer.link.Connected? {
        if now - peer.lastSeen > KEEPALIVE_TIMEOUT {
          peers := peers[i := peer.(link := Disconnected)];
          ErasePeerNodeIds(i);
          sends := [];
        } else {
          sends := [Send(peer.endpoint, KEEPALIVE)];
        }
      } else {
        peers := peers[i := peer.(link := Connecting)];
        sends := [Send(peer.endpoint, HELLO)];
      }
    }

    // Relays a gateway's message unless the duplicate filter has seen it.
    method Forward(msg: Message, now: int) returns (sends: seq<Send>)
      requires cache.Valid()
      modifies cache, cache.entries
      ensures cache.Valid()
      ensures Relay(cache.View(), sends)
           == Relaying(old(cache.View()), cache.capacity, cache.window, View(), msg, now)
    {
      sends := [];
      if msg.typ.IsFiltered() {
        var duplicate := cache.IsDuplicate(msg.typ, msg.from, msg.payload, now);
        if duplicate {
          return;
        }
      }
      if msg.typ.HasTarget() && msg.to.None? {
        return;
      }
      if msg.typ.Unicast? || msg.typ.MeasurementPing? {
        if msg.to.value in nodeIdx {
          var i := nodeIdx[msg.to.value];
          if i < |peers| && peers[i].link.Connected? {
            sends := [Send(peers[i].endpoint, OnWire(msg))];
          }
        }
      } else {
        sends := SendToConnected(OnWire(msg));
      }
    }

    // The message addressed to every connected peer, in the order of the peer vector.
    method SendToConnected(msg: Message) returns (sends: seq<Send>)
      ensures sends == ToConnected(peers, msg)
    {
      sends := [];
      for i := 0 to |peers|
        invariant sends == ToConnected(peers[..i], msg)
      {
        assert peers[..i + 1][..i] == peers[..i];
        if peers[i].link.Connected? {
          sends := sends + [Send(peers[i].endpoint, msg)];
        }
      }
      assert peers[..|peers|] == peers;
    }

    method StopListening() returns (sends: seq<Send>)
      modifies this`running, this`pending, this`rejected, this`nodeIdx, this`endpointIdx
      ensures !running && View() == Stopped(old(View())) && sends == ToConnected(peers, BYE)
    {
      running := false;
      sends := SendToConnected(BYE);
      pending, rejected := {}, {};
      nodeIdx, endpointIdx := map[], map[];
    }
  }
}
