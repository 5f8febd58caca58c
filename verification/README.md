# Relay core of Ableton Link Extender: model and proofs

Ableton Link Extender joins Link networks at several sites. Each site runs gateways, which learn the
local Link nodes and stand in for the remote ones, and a tunnel, which carries messages between sites
over UDP. This project models that relay core in Dafny and proves what it does over whole runs.

| file | what it models |
|---|---|
| `LinkTypes.dfy` | bytes, node ids, endpoints, tunnel messages |
| `Fnv.dfy`, `DedupCache.dfy` | the payload hash and the LRU duplicate filter |
| `Codec.dfy` | the tunnel's wire format |
| `TunnelTable.dfy` | one tunnel instance without indices: peers by endpoint, routes by node |
| `TunnelVectors.dfy`, `UdpTunnel.dfy` | the same instance as the program keeps it, a vector and two index maps: as values, and as a class proved to do the same in every state |
| `TunnelRefinement.dfy` | what those vectors keep, and exactly when they do what the table does |
| `Network.dfy` | any number of instances, started and stopped at any time, over a network that delivers in any order, loses and duplicates |
| `Handshake.dfy`, `Termination.dfy`, `Timing.dfy` | theorems about that network |
| `ProgramNetwork.dfy` | the network of instances as the program keeps them, shadowed by the network of tables |
| `PeerTracker.dfy` | the sorted expiry vector and its timer |
| `GatewayModel.dfy`, `TunnelGateway.dfy` | one gateway as a function of its state, and as a class; the loop over gateways sharing one buffer |
| `GatewayRuns.dfy` | whole runs of one gateway: when nodes are forgotten, and where messages for them go |
| `PeerStates.dfy` | two sites: a peer state or goodbye from a node to the far gateways, through filter, tunnel and both gateways |
| `EndToEnd.dfy` | two sites: a measurement there and back |
| `ApprovalQueue.dfy` | the queue of unknown peers and the threads that empty it |
| `SharedMessages.dfy` | the shared-memory ring |

Handlers of one instance run on one ASIO thread, so each is one step and a run is a sequence of steps.
Times are integers in milliseconds. An instance is named by the endpoint at which its peers see it.

## What the proofs found

- **Reconnection is not automatic after a lost echo.** The repository's `README.md` (lines 25 and 34)
  says the session recovers and silent peers are re-dialled. The code does not echo a HELLO from a peer
  it already holds connected and ignores KEEPALIVE unless connected, so one lost echo can leave a
  half-open pair. `Handshake.HalfOpenEndsOnlyByExit` says exactly which steps end that state,
  `Timing.LostEchoLeavesHalfOpen` reaches it from a normal start, and `Timing.HalfOpenIsForEver` proves
  that from then on a perfect connection keeps it for ever: the unanswered HELLOs themselves prevent the
  timeout that would cure it. A crash does the same to any connection: an instance that ends without its
  BYE arriving and is back before its peer has timed it out is never connected again
  (`Timing.CrashedPeerIsNeverReconnected`).
- **Removing a peer diverts traffic.** `removePeer` leaves the node mappings above the removed slot as they
  are. `TunnelRefinement.RemovalKeepsRoutesIffNoneAbove` shows that this is right if and only if there are
  none, `TunnelRefinement.RemovalShiftsTraffic` where the messages for the other nodes then go (to the peer
  after their own, or nowhere), `TunnelRefinement.RemovalDivertsTraffic` is such a run from the constructor
  to the datagram, `TunnelRefinement.DanglingIsUnreachable` shows that a node left without a slot stays
  unreachable whatever it sends, and `TunnelRefinement.RenumberingKeepsRoutes` that renumbering would be
  right always. Everything else the tunnel does is unaffected: in every state, stale mappings included, each
  handler treats peers, callbacks and control messages as the table does
  (`TunnelRefinement.ReactRefinesIffSteady`, `TunnelRefinement.RunSendsAndAsks`), and a whole network of
  program instances has the connections and control packets of the network of tables
  (`ProgramNetwork.ProgramIsShadowed`), so that what the network theorems say of connections holds of the
  program; what they say of routes holds of its runs in which no removal leaves a mapping above its gap
  (`TunnelRefinement.RunRefines`).
- **A pong can be lost on IPv6.** A ping is sent to the node's announced endpoint with the scope replaced by
  the interface's, and the pong is looked up under the endpoint it comes from, scope included, but the bytes
  of an announcement carry no scope. `EndToEnd.RoundTrip` shows that the pong is relayed as the node's answer
  if and only if the endpoint is IPv4 or was announced with the interface's own scope;
  `EndToEnd.PongIsLost` is the failing case from a newly started gateway.
- **Measurements are duplicated.** A comment at `include/ableton/extender/Tunnel.hpp:99-100` says that pings
  and pongs cannot duplicate and so need no filter. But every far gateway that has heard the node sends the
  ping on and relays an answer of its own: `EndToEnd.RoundTrip` is about all of them, and
  `EndToEnd.PongsAreNotDeduplicated` shows that two answers both pass the filter and both reach the socket
  that pinged.
- **An unknown peer may outlive its minute.** A timer thread acts only if its entry is at the front and
  runs once, so the promise of an automatic rejection holds if timers fire in order
  (`ApprovalQueue.TimersInOrderLeaveNothingBehind`) and can fail otherwise
  (`ApprovalQueue.TimersOutOfOrderLeaveOneBehind`).
- **A node that moves to another measurement endpoint leaves its old one behind**, still pointing to it,
  and not even its goodbye removes it: `GatewayModel.MovedNodeLeavesEndpoint` shows it for every gateway and
  node, and that pongs from there are still relayed in the name of the node that left.
  `GatewayModel.MatchedIffOrderly` gives the exact condition under which the two endpoint maps stay matched.
- **Measurements are never forgotten.** Every measuring socket gets a made-up identity and, at each far
  gateway that knows the node it measures, a socket of its own. No timer knows either, so both stay until the
  gateway stops: `EndToEnd.MeasurementsAreNeverForgotten`. The comment at
  `include/ableton/extender/TunnelGateway.hpp:236-237` says that measuring sockets are not used again.
- A goodbye does not free a remote node's surrogate; it keeps suppressing echoes until the node is
  announced again and times out (`GatewayModel.NoEcho`). A pong gets the stand-in endpoint appended, as
  a peer state does (`EndToEnd.RoundTrip`).

## Model

| member | source | states |
|---|---|---|
| Fnv.Fnv1a64 | include/ableton/extender/DedupCache.hpp:91-102 | the loop computes the 64-bit FNV-1a hash of the payload from the offset basis |
| Fnv.StepInjectiveInState | include/ableton/extender/DedupCache.hpp:98-99 | one hash step with a fixed byte maps different states to different states |
| Fnv.StepInjectiveInByte | include/ableton/extender/DedupCache.hpp:98-99 | one hash step from a fixed state maps different bytes to different states |
| Fnv.NoSingleByteCollision | include/ableton/extender/DedupCache.hpp:91-102 | two payloads of equal length that differ in exactly one byte never have the same hash |
| Fnv.KnownHashes | include/ableton/extender/DedupCache.hpp:91-102 | the hashes of the empty payload and of the letter `a` are the published test vectors |
| Dedup.DedupCache.IsDuplicate | include/ableton/extender/DedupCache.hpp:49-80 | list and index stay linked (distinct keys, each indexed to its own node, size within capacity), and answer and new contents are those of the pure LRU lookup |
| Dedup.DedupCache.Insert | include/ableton/extender/DedupCache.hpp:72-78 | a new entry goes in front, the least recently used one leaves when the list is full, and the index follows |
| Dedup.CacheHoldsMostRecent | include/ableton/extender/DedupCache.hpp:60-79 | after any history the cache lists the most recently asked keys in order, as many as fit, each stamped with the time of its last "not duplicate" answer |
| Dedup.ExactVerdict | include/ableton/extender/DedupCache.hpp:46-80 | a call is "duplicate" if and only if its key was last let through less than a window ago and fewer than `capacity` other keys were asked about since its last call; no assumption on the clock |
| Dedup.BurstIsForwardedOnce | include/ableton/extender/DedupCache.hpp:18-22 | copies of a message within the window of the one let through are all dropped, unless `capacity` other keys intervene |
| Dedup.DefaultVerdict | include/ableton/extender/DedupCache.hpp:46-80 | with the program's own settings the window is 50 ms and the capacity 256 |
| Codec.Encapsulate | include/ableton/extender/Tunnel.hpp:142-171 | writes header and payload into a zeroed 512-byte buffer; fails exactly when a target is called for and missing |
| Codec.Decapsulate | include/ableton/extender/Tunnel.hpp:173-225 | reads the header fields back and moves the rest to the start of a zeroed buffer |
| Codec.RoundTrip | include/ableton/extender/Tunnel.hpp:142-225 | decapsulating the padded first `encapsulatedSize` bytes returns type, sender, size, payload, and the target for the types that carry one |
| Codec.TransportIsFaithful | include/ableton/extender/UdpTunnel.hpp:184-236 | trimming before sending and padding after receiving loses nothing: the receiver handles the message that was sent |
| Codec.WireIsUnambiguous | include/ableton/extender/Tunnel.hpp:142-171 | two messages with the same wire form are the same message |
| Codec.WireLayout | include/ableton/extender/Tunnel.hpp:142-171 | where type letter, sender, target, size and payload of every message lie on the wire |
| TunnelTable.ApplyKeepsRoutesConnected | include/ableton/extender/UdpTunnel.hpp:272-405 | every handler keeps every node mapping on a connected peer |
| TunnelTable.KnownTargetGetsOneSend | include/ableton/extender/UdpTunnel.hpp:158-173 | a message for a known node makes exactly one datagram, to the peer the node lives behind; for an unknown node, none |
| TunnelTable.PassSendsOncePerPeer | include/ableton/extender/UdpTunnel.hpp:370-396 | a maintenance pass sends each peer exactly one control message, except those timing out in it |
| TunnelTable.RouteComesFromFirstMessage | include/ableton/extender/UdpTunnel.hpp:338-355 | in every run of the table, whose removals renumber, a node is routed to the connected peer that brought its first message since the route was last absent, and the route has not changed since; this is so of a run of the program if no removal in it leaves a mapping above its gap (TunnelRefinement.RunRefines) |
| TunnelTable.EffectOnPeer | include/ableton/extender/UdpTunnel.hpp:284-322 | for every event and every peer: exactly when the peer becomes known, connected or heard, and exactly when it is sent HELLO, KEEPALIVE or BYE |
| TunnelTable.AdmissionEffect | include/ableton/extender/UdpTunnel.hpp:411-445 | for every event and endpoint: exactly when the unknown-peer callback is invoked, and which endpoints are pending and rejected afterwards |
| TunnelTable.UpcallEffect | include/ableton/extender/UdpTunnel.hpp:324-355 | exactly the data messages of connected peers reach the local gateways, unchanged |
| TunnelTable.RouteEffect | include/ableton/extender/UdpTunnel.hpp:314-355 | for every event and node: exactly when its route ends, when it gets one, and to which peer |
| TunnelTable.CallbackRepeatsOnlyAfterAcceptAndRemove | include/ableton/extender/UdpTunnel.hpp:411-445 | between two unknown-peer callbacks for one endpoint lie an accept of it and then a removal of it, whatever the interleaving |
| TunnelTable.RejectedIsNeverAskedAbout | include/ableton/extender/UdpTunnel.hpp:413-414 | once rejected, an endpoint never triggers a callback again |
| UdpTunnel.Tunnel.constructor | include/ableton/extender/UdpTunnel.hpp:60-83 | any list of configured peers, repeated ones included, gives one disconnected entry each in order, and an index with exactly their endpoints |
| UdpTunnel.Tunnel.AddPeer | include/ableton/extender/UdpTunnel.hpp:88-100 | in every state: one HELLO and a new last entry for a new peer, nothing for a known one |
| UdpTunnel.Tunnel.RemovePeer | include/ableton/extender/UdpTunnel.hpp:103-128 | in every state: a BYE, the entry gone, its mappings erased, the index rebuilt, and the mappings above the slot left as they were |
| UdpTunnel.Tunnel.HandleReceive | include/ableton/extender/UdpTunnel.hpp:272-357 | in every state: the whole new state, datagrams, upcall and callback of each received message are those of the value model |
| UdpTunnel.Tunnel.RunMaintenance | include/ableton/extender/UdpTunnel.hpp:363-396 | in every state: the in-place pass over the vector, erasing mappings as it goes, changes all entries by their state before the pass and sends one control message per entry in order, except those timing out |
| UdpTunnel.Tunnel.Forward | include/ableton/extender/UdpTunnel.hpp:139-182 | in every state, stale and dangling mappings included: consults the duplicate filter for the filtered types only, and otherwise sends exactly the datagrams of the value model, in order |
| UdpTunnel.Tunnel.ErasePeerNodeIds | include/ableton/extender/UdpTunnel.hpp:447-451 | the erase-while-iterating loop drops exactly the mappings into one slot |
| UdpTunnel.Tunnel.RebuildEndpointIndex | include/ableton/extender/UdpTunnel.hpp:453-458 | the loop computes the index of any vector, the last entry of an endpoint counting |
| UdpTunnel.Tunnel.AcceptPeer | include/ableton/extender/UdpTunnel.hpp:419-433 | accepting ends "pending" and adds the peer unless it is known |
| UdpTunnel.Tunnel.RejectPeer | include/ableton/extender/UdpTunnel.hpp:434-443 | rejecting ends "pending" and records the rejection |
| UdpTunnel.Tunnel.StopListening | include/ableton/extender/UdpTunnel.hpp:198-217 | a BYE to every connected peer, and all tables but the vector are cleared |
| TunnelVectors.RebuiltIsLast | include/ableton/extender/UdpTunnel.hpp:453-458 | the rebuilt index holds every endpoint of the vector and leads to its last entry |
| TunnelRefinement.StartIsInverse | include/ableton/extender/UdpTunnel.hpp:71-75 | after construction vector and endpoint index are inverse if and only if no configured peer is repeated |
| TunnelRefinement.StartIndexIsLast | include/ableton/extender/UdpTunnel.hpp:71-75 | the constructor's index is the one a rebuild would give, in which the last entry of an endpoint counts |
| TunnelRefinement.StartIsInitial | include/ableton/extender/UdpTunnel.hpp:71-75 | repeated or not, the configured peers are the peers of the initial table |
| TunnelRefinement.RunKeepsInverse | include/ableton/extender/UdpTunnel.hpp:88-128 | vector and endpoint index stay inverse in every run, removals and stale mappings included |
| TunnelRefinement.ReactRefinesIffSteady | include/ableton/extender/UdpTunnel.hpp:88-405 | in every state with an inverse index each handler treats peers, pending and rejected endpoints, datagrams, upcalls and callbacks as the table does, and the routes too if and only if it does not meet a dangling mapping and a removal leaves no mapping above its gap |
| TunnelRefinement.RunRefines | include/ableton/extender/UdpTunnel.hpp:88-405 | a run in which no removal leaves a mapping above its gap ends in the table's state, routes included |
| TunnelRefinement.KnownNodeGetsOneSend | include/ableton/extender/UdpTunnel.hpp:158-173 | in every run from the constructor in which no removal leaves a mapping above its gap, every mapping leads to a connected peer inside the vector, and a message for a known node makes exactly one datagram, to that peer; for an unknown node, none |
| TunnelRefinement.RunSendsAndAsks | include/ableton/extender/UdpTunnel.hpp:272-405 | at every step of every run, removals included, control messages, upcalls and callbacks are those of the table |
| TunnelRefinement.ProgramRepeatsCallbackOnlyAfterRemove | include/ableton/extender/UdpTunnel.hpp:411-445 | so also in the program's own runs two unknown-peer callbacks for one endpoint enclose an accept and then a removal |
| TunnelRefinement.RemovalKeepsRoutesIffNoneAbove | include/ableton/extender/UdpTunnel.hpp:115-126 | closing a gap in the vector leaves every remaining mapping on its own peer if and only if none pointed above the gap |
| TunnelRefinement.RemovalShiftsTraffic | include/ableton/extender/UdpTunnel.hpp:158-173 | after any removal a message for a node mapped above the gap goes to the peer after the node's own if that one is connected, and nowhere otherwise |
| TunnelRefinement.RemovalDivertsTraffic | include/ableton/extender/UdpTunnel.hpp:115-126 | a run from the constructor: three peers connect, a node speaks through the second, the first is removed, and a unicast for the node is sent to the third |
| TunnelRefinement.DanglingIsUnreachable | include/ableton/extender/UdpTunnel.hpp:347-348 | over every run in which no peer is appended at its slot and it says no goodbye, a node with a dangling mapping gets no datagram, whatever it sends |
| TunnelRefinement.StoppedForgets | include/ableton/extender/UdpTunnel.hpp:198-217 | to a stopped tunnel every sender is unknown: a HELLO asks about it even if it was rejected, data is refused, and targeted messages go nowhere |
| TunnelRefinement.RenumberingKeepsRoutes | include/ableton/extender/UdpTunnel.hpp:115-126 | a removal that renumbered the mappings would keep every other route |
| Network.StepKeepsSane | include/ableton/extender/UdpTunnel.hpp:272-405 | every step of the network keeps routes on connected peers and time stamps in the past |
| Network.StepOnPair | include/ableton/extender/UdpTunnel.hpp:272-405 | for every step and every ordered pair: the exact effect on one's view of the other and on the packets between them |
| Network.DataIsNotRelayedOn | include/ableton/extender/UdpTunnel.hpp:324-355 | a data message received from a peer never causes a datagram to another peer |
| Handshake.StepKeepsAgreement | include/ableton/extender/UdpTunnel.hpp:286-303 | the agreement invariant survives every loss-free step of any number of instances |
| Handshake.BothEndsAgree | include/ableton/extender/UdpTunnel.hpp:286-303 | in every loss-free run, if X holds Y connected and Y does not hold X, a HELLO from X to Y is in flight; with none in flight all pairs agree |
| Handshake.DeliveredHelloConnectsBoth | include/ableton/extender/UdpTunnel.hpp:286-303 | one HELLO delivered to an instance that knows its sender leaves both ends connected once no HELLO is in flight |
| Handshake.HalfOpenEndsOnlyByExit | include/ableton/extender/UdpTunnel.hpp:294-322 | a half-open pair stays half-open under a step if and only if the step is not a timeout, removal or shutdown by which it can end |
| Handshake.HalfOpenRelaysNothing | include/ableton/extender/UdpTunnel.hpp:158-181 | in that state nothing crosses between the two sites in either direction |
| Termination.HelloExchangeTerminates | include/ableton/extender/UdpTunnel.hpp:286-303 | between passes, HELLO deliveries and effective accepts are bounded by a measure that pays for each, for any number of instances |
| Termination.HelloDecreases | include/ableton/extender/UdpTunnel.hpp:286-303 | every HELLO delivery lowers the measure by exactly one |
| Termination.AcceptDecreases | include/ableton/extender/UdpTunnel.hpp:419-433 | every accept of an unknown endpoint lowers the measure by exactly one |
| Timing.NoFalseTimeout | include/ableton/extender/UdpTunnel.hpp:363-405 | with no loss, passes at most `gap` apart and delays of at most `delay`, where gap + delay is at most 15 s, no pass ever times a peer out, and so all pairs agree when no HELLO is in flight |
| Timing.ConnectedWithinTwoDelays | include/ableton/extender/UdpTunnel.hpp:286-303 | under the same conditions two instances that know each other hold each other connected two delays after a pass, for good |
| Timing.RunKeepsWatched | include/ableton/extender/UdpTunnel.hpp:370-405 | in every run with passes at most `gap` apart, lossy or not, the last pass left nobody connected who was overdue |
| Timing.SilenceIsDetected | include/ableton/extender/UdpTunnel.hpp:370-382 | in every run from a start, whatever the network does, a peer that then stays silent for 15 s plus one gap is not connected and no node is routed to it |
| Timing.ConnectionEndsOnlyForCause | include/ableton/extender/UdpTunnel.hpp:314-322 | a connection ends only by BYE, removal, shutdown or more than 15 s of silence |
| Timing.LostEchoLeavesHalfOpen | include/ableton/extender/UdpTunnel.hpp:294-301 | two mutually configured instances reach the half-open state when one HELLO and one echo are lost |
| Timing.HalfOpenIsForEver | include/ableton/extender/UdpTunnel.hpp:294-312 | from a half-open state with X still heard by Y, every further run on a perfect connection stays half-open |
| Timing.RestartIsNeverReconnected | include/ableton/extender/UdpTunnel.hpp:60-83 | an instance that starts while a peer still holds it, early enough for its first HELLO to be heard in time, stays half-open with that peer over every undisturbed run |
| Timing.CrashedPeerIsNeverReconnected | include/ableton/extender/UdpTunnel.hpp:294-322 | so any quiet two-way connection is lost for good by a crash of one end, with its BYE lost, and a quick restart |
| ProgramNetwork.RunMatches | include/ableton/extender/UdpTunnel.hpp:88-445 | every run of a network of program instances, their own removal included, is shadowed by a run of the network of tables with the same peers, pending and rejected endpoints and control packets |
| ProgramNetwork.ProgramIsShadowed | include/ableton/extender/UdpTunnel.hpp:88-445 | from a start without repeated peers, each instance knows, holds and last heard exactly whom its shadow does |
| ProgramNetwork.ProgramEndsAgree | include/ableton/extender/UdpTunnel.hpp:286-303 | the two ends of the program's connections agree but for a HELLO on its way, in every run whose control steps are loss-free |
| ProgramNetwork.ProgramHasNoFalseTimeout | include/ableton/extender/UdpTunnel.hpp:43-44 | with passes at most 5 s apart, no control packet lost and none longer than 10 s under way, no connected peer of the program has been silent for more than 15 s |
| ProgramNetwork.ProgramDetectsSilence | include/ableton/extender/UdpTunnel.hpp:370-382 | with passes at most 5 s apart, a peer of the program silent for 20 s is not connected |
| PeerTracker.Pruner.UpdateTimeout | include/ableton/extender/TunnelGateway.hpp:707-720 | removes the node, inserts its new deadline by binary search and re-arms the timer |
| PeerTracker.Pruner.Prune | include/ableton/extender/TunnelGateway.hpp:735-746 | reports the overdue entries in order, drops them and re-arms the timer |
| PeerTracker.StepKeepsArmed | include/ableton/extender/TunnelGateway.hpp:707-761 | entries stay sorted, one per node, and while there are any the timer is due within a second of the first deadline |
| PeerTracker.StepTracks | include/ableton/extender/TunnelGateway.hpp:707-761 | the sorted vector always holds exactly the deadlines of a plain map from node to deadline |
| PeerTracker.SilentNodesAreReportedInTime | include/ableton/extender/TunnelGateway.hpp:722-746 | in every run from the empty tracker with an ideal timer exactly the overdue nodes are reported, once each, earliest deadline first, after their deadline and within a second of it |
| PeerTracker.AwaitedWasSeenLast | include/ableton/extender/TunnelGateway.hpp:748-761 | a node can be reported only if the last word about it was that it was seen, never after a goodbye |
| PeerTracker.LastSeenComesLast | include/ableton/extender/TunnelGateway.hpp:715-718 | of nodes with one deadline the one seen last is reported last |
| GatewayModel.NoEcho | include/ableton/extender/TunnelGateway.hpp:181-182 | after relaying a broadcast or goodbye of a node, discovery messages claiming to be from it change nothing and are not relayed, for the announced lifetime or, after a goodbye, until it is announced again |
| GatewayModel.GuardHeldSince | include/ableton/extender/TunnelGateway.hpp:588-605 | meanwhile the surrogate exists and the expiry timer does not drop it |
| GatewayModel.MatchedIffOrderly | include/ableton/extender/TunnelGateway.hpp:110-144 | local nodes and measurement endpoints stay matched one to one under an event if and only if nobody moves to another endpoint, claims somebody else's, or gets an identity that is taken |
| GatewayModel.LearningKeepsMatched | include/ableton/extender/TunnelGateway.hpp:139-142 | a peer state keeps the two maps matched if and only if its node had that endpoint before and no other node has it |
| GatewayModel.MovedNodeLeavesEndpoint | include/ableton/extender/TunnelGateway.hpp:110-144 | a node that announces a second endpoint and then says goodbye is forgotten with it, but its first endpoint still stands for it, and pongs from there are relayed in its name |
| GatewayModel.ExpiryKeepsMatched | include/ableton/extender/TunnelGateway.hpp:795-805 | the expiry of local nodes keeps the two maps matched |
| GatewayModel.OrderlyRunStaysMatched | include/ableton/extender/TunnelGateway.hpp:841-842 | so they are matched throughout every orderly run |
| GatewayModel.ReactKeepsValid | include/ableton/extender/TunnelGateway.hpp:697-822 | every event keeps both trackers sorted |
| GatewayModel.EntryReadsBack | include/ableton/extender/TunnelGateway.hpp:391-400 | the entry appended to a message is the tag, the size, the address and the port, each in network byte order and each recoverable from its bytes |
| GatewayRuns.RemoteNodeExpires | include/ableton/extender/TunnelGateway.hpp:807-822 | over every run of a gateway: a remote node announced for some seconds and not heard of since has no surrogate left after the first timer past its lifetime |
| GatewayRuns.ExpiredNodeIsHeardAgain | include/ableton/extender/TunnelGateway.hpp:181-182 | and its own discovery messages are then learned and relayed again |
| GatewayRuns.LocalNodeExpires | include/ableton/extender/TunnelGateway.hpp:795-805 | over every run: a local node that announced itself for some seconds and has not been heard of since is forgotten by the first timer past its lifetime, and so is its measurement endpoint |
| GatewayRuns.GoodbyeIsFinal | include/ableton/extender/TunnelGateway.hpp:110-122 | over every run: a local node that said goodbye stays forgotten until it speaks again, and no timer reports it although its lifetime was not over |
| GatewayRuns.UnicastGoesToSender | include/ableton/extender/TunnelGateway.hpp:644-687 | over every run in which the node neither speaks again, leaves nor expires, a unicast that arrives for it goes to the endpoint it announced itself from, in the interface's scope on IPv6, from the stand-in of its sender |
| GatewayRuns.StopForgets | include/ableton/extender/TunnelGateway.hpp:79-96 | a stopped gateway knows no node, stands in for none and awaits none |
| GatewayRuns.UnreadableIsIgnored | include/ableton/extender/TunnelGateway.hpp:166-212 | a message of an unknown kind and a peer state that does not parse change nothing and are not relayed |
| TunnelGateway.TunnelGateway.HandleStateMessage | include/ableton/extender/TunnelGateway.hpp:174-213 | learns, forgets and relays local nodes as the model does, and ignores the gateway's own surrogates |
| TunnelGateway.TunnelGateway.ReceivePeerState | include/ableton/extender/TunnelGateway.hpp:125-171 | records the node's endpoints and relays the message without its last entry |
| TunnelGateway.TunnelGateway.ReceiveByeBye | include/ableton/extender/TunnelGateway.hpp:110-122 | relays the goodbye and forgets the node, also when it was never known |
| TunnelGateway.TunnelGateway.HandleMeasurementMessage | include/ableton/extender/TunnelGateway.hpp:216-279 | gives a new pinging socket a made-up identity, and relays pongs only from known endpoints |
| TunnelGateway.TunnelGateway.ResolveDestination | include/ableton/extender/TunnelGateway.hpp:644-687 | finds socket and destination by message type, creating the surrogate on demand |
| TunnelGateway.TunnelGateway.AppendMeasurementEndpoint | include/ableton/extender/TunnelGateway.hpp:386-402 | writes the 14 or 26 bytes of the stand-in endpoint behind the message if the whole stays below 512 bytes, writes nothing otherwise, and leaves the message itself alone |
| TunnelGateway.TunnelGateway.ForwardMessageLocally | include/ableton/extender/TunnelGateway.hpp:357-383 | new state and datagram are the model's, and the shared bytes are unchanged |
| TunnelGateway.TunnelGateway.OnLocalTimeouts | include/ableton/extender/TunnelGateway.hpp:795-805 | the loop drops exactly the expired nodes and their measurement endpoints |
| TunnelGateway.TunnelGateway.OnRemoteTimeouts | include/ableton/extender/TunnelGateway.hpp:807-822 | the loop drops exactly the surrogates of the expired nodes |
| TunnelGateway.ForwardLocally | include/ableton/extender/Tunnel.hpp:128-140 | whatever the number and order of gateways sharing the buffer, each reacts as if it had its own |
| PeerStates.EndpointIsStripped | include/ableton/extender/TunnelGateway.hpp:149-161 | what a gateway hands to the tunnel for a peer state is the same bytes without the measurement endpoint, whichever endpoint that was |
| PeerStates.EndpointIsReplaced | include/ableton/extender/TunnelGateway.hpp:357-402 | a far gateway that knows the target sends, from its own socket for the node to the target or the multicast address, the message followed by the entry of its own stand-in endpoint if the whole stays below 512 bytes, and the message alone otherwise; the socket does not change once it exists |
| PeerStates.UnreachableIsNotSent | include/ableton/extender/TunnelGateway.hpp:357-383 | a unicast for a node at an IPv6 endpoint behind an IPv4 interface creates the surrogate but is not sent, and its lifetime is not noted |
| PeerStates.BroadcastCrosses | include/ableton/extender/UdpTunnel.hpp:174-181 | a broadcast, goodbye or pong is sent to each connected peer once, arrives, the pong with its target and the others without, and teaches or ends the way back |
| PeerStates.TargetedMessageCrosses | include/ableton/extender/UdpTunnel.hpp:158-167 | a message for a mapped node goes to that peer only, unless the filter drops it, arrives unchanged, and maps its sender to the peer it came from if it was not mapped before |
| PeerStates.PeerStateCrosses | include/ableton/extender/TunnelGateway.hpp:125-171 | the whole way: a peer state heard by one gateway reaches every gateway of the other site that knows its target, which sends the node's own bytes followed by its stand-in endpoint in place of the node's; the other gateways do nothing |
| PeerStates.PeerStateLeavesOnce | include/ableton/extender/DedupCache.hpp:18-22 | the copies of a peer state that several gateways of one site hear, to all or to one target, each with its own endpoint, are one message to the tunnel; the first to reach the filter goes to each connected peer once, or to the one the target lives behind, and no later one within the window goes anywhere, whatever happens in between, while fewer than `capacity` other messages do |
| PeerStates.GoodbyeCrosses | include/ableton/extender/TunnelGateway.hpp:110-122 | the whole way of a goodbye: from the near gateway with all its bytes to each connected site, where it ends the way back and leaves every gateway unchanged from its socket for the node |
| PeerStates.GoodbyeIsRepeated | include/ableton/extender/TunnelGateway.hpp:357-383 | a goodbye that arrives is sent to the multicast address unchanged, and the surrogate stays |
| PeerStates.GoodbyeLeavesOnce | include/ableton/extender/DedupCache.hpp:18-22 | of the copies of a goodbye that several gateways hear only the first leaves the site |
| PeerStates.CopiesLeaveOnce | include/ableton/extender/Tunnel.hpp:97-114 | of the copies of any broadcast, unicast or goodbye within the window the first is sent as the tunnel's state says and no later one goes anywhere, whatever else is offered in between |
| PeerStates.MeasurementsPass | include/ableton/extender/Tunnel.hpp:97-114 | pings, pongs and control messages are never dropped and leave no trace in the filter |
| PeerStates.NewMessagePasses | include/ableton/extender/DedupCache.hpp:49-55 | a message that differs from every one offered before in type, in sender or in one byte of the payload is sent, however recent the others are |
| PeerStates.SecondCopy | include/ableton/extender/DedupCache.hpp:46-80 | as the program sets the filter up, a second copy is dropped if and only if it comes less than 50 ms after the first |
| PeerStates.UntargetedGoesNowhere | include/ableton/extender/UdpTunnel.hpp:146-172 | a unicast, ping or pong without a target, or a unicast or ping for a node nobody has heard of, is sent to nobody |
| EndToEnd.RoundTrip | include/ableton/extender/TunnelGateway.hpp:216-279 | a ping to the stand-in socket of a remote node crosses to one site and is sent unchanged by every gateway there that knows the node, the others doing nothing; after any events that leave node and route in place, each such gateway relays the pong from where it sent the ping if and only if the node announced that interface's own scope or an IPv4 endpoint; every pong relayed crosses back while the tunnel is connected, and whenever one arrives it is delivered to exactly the socket that pinged, from exactly the stand-in socket, by no other gateway |
| EndToEnd.PongAnswersPing | include/ableton/extender/TunnelGateway.hpp:260-278 | after any orderly run in which the node stays, a pong from where the ping went is relayed in its name if and only if it announced the interface's own scope or an IPv4 endpoint |
| EndToEnd.PongsAreNotDeduplicated | include/ableton/extender/Tunnel.hpp:97-107 | two far gateways that know the node both relay its answer, the filter drops neither, and both are delivered |
| EndToEnd.PongIsLost | include/ableton/extender/TunnelGateway.hpp:631-636 | a node announced over IPv6 with another scope than the interface's gets the ping, and its pong is not relayed |
| EndToEnd.MeasurementsAreNeverForgotten | include/ableton/extender/TunnelGateway.hpp:235-256 | over every pair of runs of a pinging and a pinged gateway without a stop, whatever timers run, the made-up identity of the measuring socket stays at the one and its socket at the other |
| EndToEnd.MadeUpNodeHearsNoPeerState | include/ableton/extender/TunnelGateway.hpp:240-245 | a made-up identity is for measurements only: a peer state addressed to it goes to the unset endpoint |
| ApprovalQueue.SharedPending.Drain | source/main.cpp:122-135 | the destructor rejects everything left, in order, and empties the queue |
| ApprovalQueue.SharedPending.PopFront | source/main.cpp:195-207 | the user takes the oldest entry, if there is one, and leaves the rest |
| ApprovalQueue.SharedPending.PopIfFront | source/main.cpp:96-108 | a timer takes only its own entry, only from the front, only while the program lives |
| ApprovalQueue.StepKeepsExactlyOnce | source/main.cpp:75-135 | in every interleaving the queue holds a contiguous range of ids, and each id that left is held by one thread or has been called back once |
| ApprovalQueue.ExactlyOneVerdictPerEntry | source/main.cpp:195-220 | no entry is called back twice, only the user accepts, and with no call outstanding exactly the entries that left have been called back |
| ApprovalQueue.TimerRemovesOnlyTheFront | source/main.cpp:99-105 | once its timer has run, an entry is still queued if and only if an older one was |
| ApprovalQueue.TimersInOrderLeaveNothingBehind | source/main.cpp:91-118 | if timers fire in the order they were started, each entry has left once its timer has run |
| ApprovalQueue.TimersOutOfOrderLeaveOneBehind | source/main.cpp:99-105 | out of order, an entry can stay queued although its timer has run |
| ApprovalQueue.LateCallbackIsNeverAnswered | source/main.cpp:99-100 | a callback after the destructor's drain is never called back |
| ApprovalQueue.VerdictIsAboutTheAsked | source/main.cpp:75-89 | in every interleaving a verdict is about the endpoint whose question got its id: no answer goes to another peer |
| ApprovalQueue.VerdictIsCarriedOut | source/main.cpp:195-220 | in every interleaving: what the user decides about the oldest entry, what a timer or the destructor decides about theirs, is what is called, an accept as an accept, as soon as no thread is between popping and calling, and nothing else is ever called for that entry |
| SharedMessages.Ring.Push | include/ableton/extender/ShmTunnel.hpp:41-52 | accepts a message unless 99 are waiting |
| SharedMessages.Ring.Pop | include/ableton/extender/ShmTunnel.hpp:53-67 | messages come out in the order they were accepted, each once |

## Assumptions

- The Link library is not part of this model. Its header and payload parsing appear as parsed values
  next to the bytes; a measurement endpoint entry is an 8-byte header and 6 or 18 bytes, and the entry of
  the other address family is empty.
- Endpoint keys are the endpoints themselves. The sockets the operating system opens, random node ids
  and clock readings are parameters.
- The duplicate filter's capacity is at least one, as eviction needs.
- A payload fits the 512-byte buffer together with its header; beyond that the program writes past the
  buffer. Received packets were produced by `encapsulate`.

## Left out

- Network.StepOnPair: in a network a stopped instance handles nothing more; what its handlers would do is stated only by the class.
- Network.StepKeepsSane: the routes of the network theorems are those of the table, whose removal also renumbers; see above for exactly what they say of the program.
- ProgramNetwork.RunMatches: instances are started without repeated peers, since the program keeps two entries for a repeated one.
- Timing.NoFalseTimeout: all instances read one clock, and passes recur at most `gap` apart; the timer's own jitter is inside `gap`.
- GatewayModel.NoEcho: the registration of gateways with the tunnel is a fixed list.
- The send order of datagrams within one step, because the network reorders them anyway.
- The /24 subnet filter, argument and endpoint parsing, terminal output and logging, because they add only easy members.
- Sockets, threads, interface scanning and DNS in `include/ableton/platforms/asio/Context.hpp`, as I/O.
- `include/ableton/extender/Controller.hpp` and the observers, which only wire the Link library.
- Object lifetime, shared pointers, and the re-arming of receive handlers.
- The memory mapping, client numbering and poll loop of `include/ableton/extender/ShmTunnel.hpp`.
