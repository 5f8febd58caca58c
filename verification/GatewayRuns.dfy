// Whole runs of one gateway, told without its functions: when local and remote nodes are forgotten, and
// where a message for a local node goes.
module GatewayRuns {
  import opened LinkTypes
  import opened GatewayModel
  import PeerTracker

  // gs are the states of a run, one before each event and one after the last.
  ghost predicate Run(gs: seq<Gateway>, evs: seq<Event>) {
    |gs| == |evs| + 1 && gs[0].Valid() && forall i :: 0 <= i < |evs| ==> Follows(gs, evs, i)
  }

  ghost predicate Follows(gs: seq<Gateway>, evs: seq<Event>, i: nat)
    requires |gs| == |evs| + 1 && i < |evs|
  {
    WellParsed(evs[i]) && gs[i + 1] == React(gs[i], evs[i]).g
  }

  lemma {:induction false} ValidAt(gs: seq<Gateway>, evs: seq<Event>, k: nat)
    requires Run(gs, evs) && k < |gs|
    ensures gs[k].Valid() && gs[k].iface == gs[0].iface
  {
    if k > 0 {
      ValidAt(gs, evs, k - 1);
      assert Follows(gs, evs, k - 1);
      ReactKeepsValid(gs[k - 1], evs[k - 1]);
    }
  }

  /* Expiry of remote nodes */

  // The tracker will report r once the clock is past d.
  ghost predicate Due(t: PeerTracker.Tracker, r: NodeId, d: int) {
    PeerTracker.Timeout(d, r) in t.timeouts
  }

  lemma OverdueIsReported(t: PeerTracker.Tracker, r: NodeId, d: int, now: int)
    requires PeerTracker.Sorted(t.timeouts) && Due(t, r, d)
    ensures d < now ==> r in PeerTracker.Reported(t, now)
    ensures d >= now ==> Due(PeerTracker.Pruned(t, now), r, d)
  {
    if d < now {
      var i :| 0 <= i < |t.timeouts| && t.timeouts[i] == PeerTracker.Timeout(d, r);
      assert PeerTracker.Reported(t, now)[i] == r;
    } else {
      PeerTracker.LateEntriesStay(t.timeouts, now);
    }
  }

  lemma OthersStayDue(t: PeerTracker.Tracker, n: NodeId, ttl: int, now: int, r: NodeId, d: int)
    requires PeerTracker.Sorted(t.timeouts) && Due(t, r, d) && n != r
    ensures Due(PeerTracker.Update(t, n, ttl, now), r, d) && Due(PeerTracker.Remove(t, n), r, d)
  {
    PeerTracker.UpdatedEntries(t, n, ttl, now);
  }

  ghost predicate NoStandIn(g: Gateway, r: NodeId) {
    r !in g.nodes && r !in g.meters
  }

  predicate FromRemote(ev: Event, r: NodeId) {
    ev.Remote? && ev.msg.from == r
  }

  lemma RemoteOfAnother(g: Gateway, msg: Message, ttl: Option<nat>, now: int, sockets: Surrogate, r: NodeId, d: int)
    requires g.Valid() && msg.from != r && Due(g.remoteTracker, r, d)
    ensures Due(OnRemote(g, msg, ttl, now, sockets).g.remoteTracker, r, d)
  {
    ResolveOnlyAddsSurrogates(g, msg, sockets);
    if ttl.Some? {
      OthersStayDue(g.remoteTracker, msg.from, ttl.value * SECOND, now, r, d);
    }
  }

  lemma ResolvingAnotherAddsNone(g: Gateway, msg: Message, sockets: Surrogate, r: NodeId)
    requires msg.from != r && NoStandIn(g, r) && Resolve(g, msg, sockets).Some?
    ensures NoStandIn(Resolve(g, msg, sockets).value.g, r)
  {
  }

  lemma RemoteOfAnotherAddsNone(g: Gateway, msg: Message, ttl: Option<nat>, now: int, sockets: Surrogate, r: NodeId)
    requires msg.from != r && NoStandIn(g, r)
    ensures NoStandIn(OnRemote(g, msg, ttl, now, sockets).g, r)
  {
    if Resolve(g, msg, sockets).Some? {
      ResolvingAnotherAddsNone(g, msg, sockets, r);
    }
  }

  // r will be forgotten by the first timer past d, or is forgotten already.
  ghost predicate Expiring(g: Gateway, r: NodeId, d: int) {
    Due(g.remoteTracker, r, d) || NoStandIn(g, r)
  }

  lemma StepKeepsForgotten(g: Gateway, ev: Event, r: NodeId)
    requires g.Valid() && WellParsed(ev) && !FromRemote(ev, r) && NoStandIn(g, r)
    ensures NoStandIn(React(g, ev).g, r)
  {
    if ev.Remote? {
      RemoteOfAnotherAddsNone(g, ev.msg, ev.ttl, ev.now, ev.sockets, r);
    }
  }

  lemma StepKeepsExpiring(g: Gateway, ev: Event, r: NodeId, d: int)
    requires g.Valid() && WellParsed(ev) && !FromRemote(ev, r) && Expiring(g, r, d)
    ensures Expiring(React(g, ev).g, r, d)
    ensures ev.RemoteTimer? && ev.now > d ==> NoStandIn(React(g, ev).g, r)
  {
    if NoStandIn(g, r) {
      StepKeepsForgotten(g, ev, r);
    } else if ev.Remote? {
      RemoteOfAnother(g, ev.msg, ev.ttl, ev.now, ev.sockets, r, d);
    } else if ev.RemoteTimer? {
      OverdueIsReported(g.remoteTracker, r, d, ev.now);
    }
  }

  // Evs[k] is a broadcast of r that says r lives for ttl seconds, or such a unicast for a node that the
  // gateway knows and can reach.
  ghost predicate Announces(g: Gateway, ev: Event, r: NodeId, ttl: nat) {
    && FromRemote(ev, r) && ev.ttl == Some(ttl)
    && (ev.msg.typ == Broadcast
        || (ev.msg.typ == Unicast && ev.msg.to.Some? && ev.msg.to.value in g.local
            && (g.local[ev.msg.to.value].state.V4? || g.iface.v6)))
  }

  lemma AnnouncementIsDue(g: Gateway, ev: Event, g': Gateway, r: NodeId, ttl: nat)
    requires g.Valid() && Announces(g, ev, r, ttl) && g' == OnRemote(g, ev.msg, ev.ttl, ev.now, ev.sockets).g
    ensures Due(g'.remoteTracker, r, ev.now + ttl * SECOND)
  {
    ResolveOnlyAddsSurrogates(g, ev.msg, ev.sockets);
    PeerTracker.UpdatedEntries(g.remoteTracker, r, ttl * SECOND, ev.now);
  }

  lemma {:induction false} StaysExpiring(gs: seq<Gateway>, evs: seq<Event>, k: nat, m: nat, r: NodeId, d: int)
    requires Run(gs, evs) && k <= m < |gs| && Expiring(gs[k], r, d)
    requires forall i :: k <= i < m ==> !FromRemote(evs[i], r)
    ensures Expiring(gs[m], r, d)
  {
    if k < m {
      StaysExpiring(gs, evs, k, m - 1, r, d);
      ValidAt(gs, evs, m - 1);
      assert Follows(gs, evs, m - 1);
      StepKeepsExpiring(gs[m - 1], evs[m - 1], r, d);
    }
  }

  lemma {:induction false} StaysForgotten(gs: seq<Gateway>, evs: seq<Event>, k: nat, m: nat, r: NodeId)
    requires Run(gs, evs) && k <= m < |gs| && NoStandIn(gs[k], r)
    requires forall i :: k <= i < m ==> !FromRemote(evs[i], r)
    ensures NoStandIn(gs[m], r)
  {
    if k < m {
      StaysForgotten(gs, evs, k, m - 1, r);
      ValidAt(gs, evs, m - 1);
      assert Follows(gs, evs, m - 1);
      StepKeepsForgotten(gs[m - 1], evs[m - 1], r);
    }
  }

  lemma RemoteFollows(gs: seq<Gateway>, evs: seq<Event>, k: nat)
    requires Run(gs, evs) && k < |evs| && evs[k].Remote?
    ensures gs[k].Valid()
    ensures gs[k + 1] == OnRemote(gs[k], evs[k].msg, evs[k].ttl, evs[k].now, evs[k].sockets).g
  {
    ValidAt(gs, evs, k);
    assert Follows(gs, evs, k);
  }

  lemma AnnouncedAt(gs: seq<Gateway>, evs: seq<Event>, k: nat, r: NodeId, ttl: nat)
    requires Run(gs, evs) && k < |evs| && Announces(gs[k], evs[k], r, ttl)
    ensures Expiring(gs[k + 1], r, evs[k].now + ttl * SECOND)
  {
    RemoteFollows(gs, evs, k);
    AnnouncementIsDue(gs[k], evs[k], gs[k + 1], r, ttl);
  }

  lemma ForgottenAt(gs: seq<Gateway>, evs: seq<Event>, j: nat, r: NodeId, d: int)
    requires Run(gs, evs) && j < |evs| && Expiring(gs[j], r, d) && evs[j].RemoteTimer? && evs[j].now > d
    ensures NoStandIn(gs[j + 1], r)
  {
    ValidAt(gs, evs, j);
    assert Follows(gs, evs, j);
    StepKeepsExpiring(gs[j], evs[j], r, d);
  }

  // A remote node that is announced for ttl seconds and not heard of again is forgotten by the first
  // timer past its lifetime, both its stand-ins ...
  lemma RemoteNodeExpires(gs: seq<Gateway>, evs: seq<Event>, k: nat, j: nat, m: nat, r: NodeId, ttl: nat)
    requires Run(gs, evs) && k < j < m < |gs| && Announces(gs[k], evs[k], r, ttl)
    requires forall i :: k < i < m ==> !FromRemote(evs[i], r)
    requires evs[j].RemoteTimer? && evs[j].now > evs[k].now + ttl * SECOND
    ensures r !in gs[m].nodes && r !in gs[m].meters
  {
    var d := evs[k].now + ttl * SECOND;
    AnnouncedAt(gs, evs, k, r, ttl);
    StaysExpiring(gs, evs, k + 1, j, r, d);
    ForgottenAt(gs, evs, j, r, d);
    StaysForgotten(gs, evs, j + 1, m, r);
  }

  // ... and what it then says itself on the local network is learned and relayed again.
  lemma ExpiredNodeIsHeardAgain(gs: seq<Gateway>, evs: seq<Event>, k: nat, j: nat, m: nat, r: NodeId, ttl: nat,
                                own: Event, e: Endpoint)
    requires Run(gs, evs) && k < j < m < |gs| && Announces(gs[k], evs[k], r, ttl)
    requires forall i :: k < i < m ==> !FromRemote(evs[i], r)
    requires evs[j].RemoteTimer? && evs[j].now > evs[k].now + ttl * SECOND && Announcement(own, r, e)
    ensures var heard := React(gs[m], own);
            && r in heard.g.local && heard.g.local[r].measurement == e
            && heard.forward.Some? && heard.forward.value.from == r
  {
    RemoteNodeExpires(gs, evs, k, j, m, r, ttl);
    HeardIfNoStandIn(gs[m], own, r, e);
  }

  lemma HeardIfNoStandIn(g: Gateway, own: Event, r: NodeId, e: Endpoint)
    requires r !in g.nodes && Announcement(own, r, e)
    ensures var heard := React(g, own);
            && r in heard.g.local && heard.g.local[r].measurement == e
            && heard.forward.Some? && heard.forward.value.from == r
  {
  }

  /* Expiry of local nodes */

  // n is known with measurement endpoint e, and the tracker will report it once the clock is past d.
  ghost predicate Tracked(g: Gateway, n: NodeId, e: Endpoint, d: int) {
    Due(g.localTracker, n, d) && n in g.local && g.local[n].measurement == e
  }

  ghost predicate Unknown(g: Gateway, n: NodeId, e: Endpoint) {
    n !in g.local && e !in g.byMeasurement
  }

  // n will be forgotten, with e, by the first timer past d, or is forgotten already.
  ghost predicate Leaving(g: Gateway, n: NodeId, e: Endpoint, d: int) {
    Tracked(g, n, e, d) || Unknown(g, n, e)
  }

  // An event that speaks of n, or that claims its measurement endpoint e.
  predicate Concerns(ev: Event, n: NodeId, e: Endpoint) {
    match ev
    case State(_, m, _, _) => m.ident == n || m.endpoint == Some(e)
    case Measurement(from, ping, _, _, random) => ping && (random == n || from == e)
    case _ => false
  }

  lemma StateKeepsDue(g: Gateway, from: Endpoint, m: StateMessage, to: Option<NodeId>, now: int, n: NodeId, d: int)
    requires g.Valid() && WellParsed(Event.State(from, m, to, now)) && m.ident != n && Due(g.localTracker, n, d)
    ensures Due(OnState(g, from, m, to, now).g.localTracker, n, d)
  {
    OthersStayDue(g.localTracker, m.ident, m.ttl * SECOND, now, n, d);
  }

  lemma StateKeepsOthers(g: Gateway, from: Endpoint, m: StateMessage, to: Option<NodeId>, now: int, n: NodeId,
                         e: Endpoint)
    requires WellParsed(Event.State(from, m, to, now)) && m.ident != n
    ensures var g' := OnState(g, from, m, to, now).g;
            && (n in g'.local <==> n in g.local) && (n in g.local ==> g'.local[n] == g.local[n])
            && (m.endpoint != Some(e) && e !in g.byMeasurement ==> e !in g'.byMeasurement)
  {
  }

  lemma StateOfAnother(g: Gateway, from: Endpoint, m: StateMessage, to: Option<NodeId>, now: int, n: NodeId,
                       e: Endpoint, d: int)
    requires g.Valid() && WellParsed(Event.State(from, m, to, now)) && m.ident != n && m.endpoint != Some(e)
    ensures Tracked(g, n, e, d) ==> Tracked(OnState(g, from, m, to, now).g, n, e, d)
    ensures Unknown(g, n, e) ==> Unknown(OnState(g, from, m, to, now).g, n, e)
  {
    StateKeepsOthers(g, from, m, to, now, n, e);
    if Due(g.localTracker, n, d) {
      StateKeepsDue(g, from, m, to, now, n, d);
    }
  }

  lemma TimerOnLocal(g: Gateway, now: int, n: NodeId, e: Endpoint, d: int)
    requires g.Valid() && (Tracked(g, n, e, d) || Unknown(g, n, e))
    ensures var g' := OnLocalTimer(g, now).g;
            && (Tracked(g', n, e, d) || Unknown(g', n, e))
            && (Unknown(g, n, e) || now > d ==> Unknown(g', n, e))
  {
    var gone := PeerTracker.Reported(g.localTracker, now);
    if Tracked(g, n, e, d) {
      OverdueIsReported(g.localTracker, n, d, now);
      assert n in gone ==> Announced(g.local, gone, e);
    }
  }

  lemma StepKeepsUnknown(g: Gateway, ev: Event, n: NodeId, e: Endpoint)
    requires g.Valid() && WellParsed(ev) && !Concerns(ev, n, e) && Unknown(g, n, e)
    ensures Unknown(React(g, ev).g, n, e)
  {
    match ev
    case State(from, m, to, now) => StateKeepsOthers(g, from, m, to, now, n, e);
    case Remote(msg, ttl, now, sockets) => ResolveOnlyAddsSurrogates(g, msg, sockets);
    case _ =>
  }

  lemma StepKeepsLeaving(g: Gateway, ev: Event, n: NodeId, e: Endpoint, d: int)
    requires g.Valid() && WellParsed(ev) && !Concerns(ev, n, e) && Leaving(g, n, e, d)
    ensures Leaving(React(g, ev).g, n, e, d)
    ensures ev.LocalTimer? && ev.now > d ==> Unknown(React(g, ev).g, n, e)
  {
    match ev
    case State(from, m, to, now) => StateOfAnother(g, from, m, to, now, n, e, d);
    case Remote(msg, ttl, now, sockets) => ResolveOnlyAddsSurrogates(g, msg, sockets);
    case LocalTimer(now) => TimerOnLocal(g, now, n, e, d);
    case _ =>
  }

  lemma LearnedIsTracked(g: Gateway, ev: Event, g': Gateway, n: NodeId, e: Endpoint)
    requires g.Valid() && n !in g.nodes && Announcement(ev, n, e)
    requires g' == Learned(g, ev.from, ev.m, e, ev.to, ev.now).g
    ensures Tracked(g', n, e, ev.now + ev.m.ttl * SECOND)
  {
    PeerTracker.UpdatedEntries(g.localTracker, n, ev.m.ttl * SECOND, ev.now);
  }

  lemma {:induction false} StaysLeaving(gs: seq<Gateway>, evs: seq<Event>, k: nat, m: nat, n: NodeId, e: Endpoint,
                                        d: int)
    requires Run(gs, evs) && k <= m < |gs| && Leaving(gs[k], n, e, d)
    requires forall i :: k <= i < m ==> !Concerns(evs[i], n, e)
    ensures Leaving(gs[m], n, e, d)
  {
    if k < m {
      StaysLeaving(gs, evs, k, m - 1, n, e, d);
      ValidAt(gs, evs, m - 1);
      assert Follows(gs, evs, m - 1);
      StepKeepsLeaving(gs[m - 1], evs[m - 1], n, e, d);
    }
  }

  lemma {:induction false} StaysUnknown(gs: seq<Gateway>, evs: seq<Event>, k: nat, m: nat, n: NodeId, e: Endpoint)
    requires Run(gs, evs) && k <= m < |gs| && Unknown(gs[k], n, e)
    requires forall i :: k <= i < m ==> !Concerns(evs[i], n, e)
    ensures Unknown(gs[m], n, e)
  {
    if k < m {
      StaysUnknown(gs, evs, k, m - 1, n, e);
      ValidAt(gs, evs, m - 1);
      assert Follows(gs, evs, m - 1);
      StepKeepsUnknown(gs[m - 1], evs[m - 1], n, e);
    }
  }

  lemma AnnouncementFollows(gs: seq<Gateway>, evs: seq<Event>, k: nat, n: NodeId, e: Endpoint)
    requires Run(gs, evs) && k < |evs| && n !in gs[k].nodes && Announcement(evs[k], n, e)
    ensures gs[k].Valid()
    ensures gs[k + 1] == Learned(gs[k], evs[k].from, evs[k].m, e, evs[k].to, evs[k].now).g
  {
    ValidAt(gs, evs, k);
    assert Follows(gs, evs, k);
  }

  lemma LearnedAt(gs: seq<Gateway>, evs: seq<Event>, k: nat, n: NodeId, e: Endpoint)
    requires Run(gs, evs) && k < |evs| && n !in gs[k].nodes && Announcement(evs[k], n, e)
    ensures Leaving(gs[k + 1], n, e, evs[k].now + evs[k].m.ttl * SECOND)
  {
    AnnouncementFollows(gs, evs, k, n, e);
    LearnedIsTracked(gs[k], evs[k], gs[k + 1], n, e);
  }

  lemma UnknownAt(gs: seq<Gateway>, evs: seq<Event>, j: nat, n: NodeId, e: Endpoint, d: int)
    requires Run(gs, evs) && j < |evs| && Leaving(gs[j], n, e, d) && evs[j].LocalTimer? && evs[j].now > d
    ensures Unknown(gs[j + 1], n, e)
  {
    ValidAt(gs, evs, j);
    assert Follows(gs, evs, j);
    StepKeepsLeaving(gs[j], evs[j], n, e, d);
  }

  // A local node that announces itself and its measurement endpoint for some seconds and is not heard
  // of again is forgotten by the first timer past its lifetime, and so is the endpoint.
  lemma LocalNodeExpires(gs: seq<Gateway>, evs: seq<Event>, k: nat, j: nat, m: nat, n: NodeId, e: Endpoint)
    requires Run(gs, evs) && k < j < m < |gs| && n !in gs[k].nodes && Announcement(evs[k], n, e)
    requires forall i :: k < i < m ==> !Concerns(evs[i], n, e)
    requires evs[j].LocalTimer? && evs[j].now > evs[k].now + evs[k].m.ttl * SECOND
    ensures n !in gs[m].local && e !in gs[m].byMeasurement
  {
    var d := evs[k].now + evs[k].m.ttl * SECOND;
    LearnedAt(gs, evs, k, n, e);
    StaysLeaving(gs, evs, k + 1, j, n, e, d);
    UnknownAt(gs, evs, j, n, e, d);
    StaysUnknown(gs, evs, j + 1, m, n, e);
  }

  /* Goodbyes of local nodes */

  // n is not known, and no deadline is kept for it.
  ghost predicate Departed(g: Gateway, n: NodeId) {
    n !in g.local && forall x :: x in g.localTracker.timeouts ==> x.node != n
  }

  predicate Speaks(ev: Event, n: NodeId) {
    (ev.State? && ev.m.ident == n) || (ev.Measurement? && ev.ping && ev.random == n)
  }

  lemma GoodbyeDeparts(g: Gateway, ev: Event, n: NodeId)
    requires g.Valid() && n !in g.nodes && Goodbye(ev, n)
    ensures Departed(React(g, ev).g, n)
  {
  }

  lemma StateOfAnotherKeepsDeparted(g: Gateway, from: Endpoint, m: StateMessage, to: Option<NodeId>, now: int,
                                    n: NodeId)
    requires g.Valid() && WellParsed(Event.State(from, m, to, now)) && m.ident != n && Departed(g, n)
    ensures Departed(OnState(g, from, m, to, now).g, n)
  {
    PeerTracker.UpdatedEntries(g.localTracker, m.ident, m.ttl * SECOND, now);
  }

  lemma StepKeepsDeparted(g: Gateway, ev: Event, n: NodeId)
    requires g.Valid() && WellParsed(ev) && !Speaks(ev, n) && Departed(g, n)
    ensures Departed(React(g, ev).g, n)
  {
    match ev
    case State(from, m, to, now) => StateOfAnotherKeepsDeparted(g, from, m, to, now, n);
    case Remote(msg, ttl, now, sockets) => ResolveOnlyAddsSurrogates(g, msg, sockets);
    case LocalTimer(now) => PeerTracker.LateEntriesStay(g.localTracker.timeouts, now);
    case _ =>
  }

  // A node that said goodbye stays forgotten until it speaks again, and no timer reports it although its
  // lifetime was not over.
  lemma {:induction false} GoodbyeIsFinal(gs: seq<Gateway>, evs: seq<Event>, k: nat, m: nat, n: NodeId)
    requires Run(gs, evs) && k < m < |gs| && n !in gs[k].nodes && Goodbye(evs[k], n)
    requires forall i :: k < i < m ==> !Speaks(evs[i], n)
    ensures Departed(gs[m], n)
    ensures forall now :: n !in PeerTracker.Reported(gs[m].localTracker, now)
  {
    ValidAt(gs, evs, m - 1);
    assert Follows(gs, evs, m - 1);
    if m == k + 1 {
      GoodbyeDeparts(gs[k], evs[k], n);
    } else {
      GoodbyeIsFinal(gs, evs, k, m - 1, n);
      StepKeepsDeparted(gs[m - 1], evs[m - 1], n);
    }
  }

  /* Where a message for a local node goes */

  // n sits at `from`, and its tracker will not report it before `until`.
  ghost predicate Sits(g: Gateway, n: NodeId, from: Endpoint, until: int) {
    && n in g.local && g.local[n].state == from
    && forall x :: x in g.localTracker.timeouts && x.node == n ==> x.deadline >= until
  }

  // n does not speak or leave, its identity is not made up for another, and it does not expire.
  predicate Leaves(ev: Event, n: NodeId, until: int) {
    match ev
    case State(_, m, _, _) => m.ident == n
    case Measurement(_, ping, _, _, random) => ping && random == n
    case LocalTimer(now) => now > until
    case Stop => true
    case _ => false
  }

  lemma LearnedSits(g: Gateway, ev: Event, n: NodeId, e: Endpoint)
    requires g.Valid() && n !in g.nodes && Announcement(ev, n, e)
    ensures Sits(React(g, ev).g, n, ev.from, ev.now + ev.m.ttl * SECOND)
  {
    PeerTracker.UpdatedEntries(g.localTracker, n, ev.m.ttl * SECOND, ev.now);
  }

  lemma StateKeepsLate(g: Gateway, from: Endpoint, m: StateMessage, to: Option<NodeId>, now: int, n: NodeId, until: int)
    requires g.Valid() && WellParsed(Event.State(from, m, to, now)) && m.ident != n
    requires forall x :: x in g.localTracker.timeouts && x.node == n ==> x.deadline >= until
    ensures forall x :: x in OnState(g, from, m, to, now).g.localTracker.timeouts && x.node == n ==> x.deadline >= until
  {
    PeerTracker.UpdatedEntries(g.localTracker, m.ident, m.ttl * SECOND, now);
  }

  lemma StateKeepsSits(g: Gateway, ev: Event, n: NodeId, from: Endpoint, until: int)
    requires g.Valid() && WellParsed(ev) && ev.State? && ev.m.ident != n && Sits(g, n, from, until)
    ensures Sits(React(g, ev).g, n, from, until)
  {
    StateKeepsOthers(g, ev.from, ev.m, ev.to, ev.now, n, from);
    StateKeepsLate(g, ev.from, ev.m, ev.to, ev.now, n, until);
  }

  lemma TimerKeepsSits(g: Gateway, now: int, n: NodeId, from: Endpoint, until: int)
    requires g.Valid() && now <= until && Sits(g, n, from, until)
    ensures Sits(OnLocalTimer(g, now).g, n, from, until)
  {
    var ts, gone := g.localTracker.timeouts, PeerTracker.Reported(g.localTracker, now);
    forall i | 0 <= i < |gone|
      ensures gone[i] != n
    {
      assert ts[i] in ts;
    }
    PeerTracker.LateEntriesStay(ts, now);
  }

  lemma StepKeepsSits(g: Gateway, ev: Event, n: NodeId, from: Endpoint, until: int)
    requires g.Valid() && WellParsed(ev) && !Leaves(ev, n, until) && Sits(g, n, from, until)
    ensures Sits(React(g, ev).g, n, from, until)
  {
    match ev
    case State(_, _, _, _) => StateKeepsSits(g, ev, n, from, until);
    case Remote(msg, ttl, now, sockets) => ResolveOnlyAddsSurrogates(g, msg, sockets);
    case LocalTimer(now) => TimerKeepsSits(g, now, n, from, until);
    case _ =>
  }

  lemma {:induction false} StaysSitting(gs: seq<Gateway>, evs: seq<Event>, k: nat, m: nat, n: NodeId, from: Endpoint,
                                        until: int)
    requires Run(gs, evs) && k <= m < |gs| && Sits(gs[k], n, from, until)
    requires forall i :: k <= i < m ==> !Leaves(evs[i], n, until)
    ensures Sits(gs[m], n, from, until)
  {
    if k < m {
      StaysSitting(gs, evs, k, m - 1, n, from, until);
      ValidAt(gs, evs, m - 1);
      assert Follows(gs, evs, m - 1);
      StepKeepsSits(gs[m - 1], evs[m - 1], n, from, until);
    }
  }

  lemma SeatedAt(gs: seq<Gateway>, evs: seq<Event>, k: nat, n: NodeId, e: Endpoint)
    requires Run(gs, evs) && k < |evs| && n !in gs[k].nodes && Announcement(evs[k], n, e)
    ensures Sits(gs[k + 1], n, evs[k].from, evs[k].now + evs[k].m.ttl * SECOND)
  {
    ValidAt(gs, evs, k);
    assert Follows(gs, evs, k);
    LearnedSits(gs[k], evs[k], n, e);
  }

  lemma UnicastGoesToState(g: Gateway, n: NodeId, msg: Message, ttl: Option<nat>, now: int, sockets: Surrogate)
    requires n in g.local && msg.typ == Unicast && msg.to == Some(n) && (g.local[n].state.V4? || g.iface.v6)
    ensures var arrival, from := OnRemote(g, msg, ttl, now, sockets), g.local[n].state;
            && msg.from in arrival.g.nodes && arrival.sent.Some?
            && arrival.sent.value.source == arrival.g.nodes[msg.from].state
            && arrival.sent.value.dest == if from.V4? then from else V6(from.address6, g.iface.scope, from.port)
  {
  }

  // A unicast that arrives for a local node goes, from the sender's own stand-in, to the endpoint from
  // which the node last announced itself, whatever measurement endpoint it announced.
  lemma UnicastGoesToSender(gs: seq<Gateway>, evs: seq<Event>, k: nat, m: nat, n: NodeId, e: Endpoint,
                            msg: Message, ttl: Option<nat>, now: int, sockets: Surrogate)
    requires Run(gs, evs) && k < m < |gs| && n !in gs[k].nodes && Announcement(evs[k], n, e)
    requires forall i :: k < i < m ==> !Leaves(evs[i], n, evs[k].now + evs[k].m.ttl * SECOND)
    requires msg.typ == Unicast && msg.to == Some(n) && (evs[k].from.V4? || gs[0].iface.v6)
    ensures var arrival, from := OnRemote(gs[m], msg, ttl, now, sockets), evs[k].from;
            && msg.from in arrival.g.nodes && arrival.sent.Some?
            && arrival.sent.value.source == arrival.g.nodes[msg.from].state
            && arrival.sent.value.dest == if from.V4? then from else V6(from.address6, gs[0].iface.scope, from.port)
  {
    SeatedAt(gs, evs, k, n, e);
    StaysSitting(gs, evs, k + 1, m, n, evs[k].from, evs[k].now + evs[k].m.ttl * SECOND);
    ValidAt(gs, evs, m);
    UnicastGoesToState(gs[m], n, msg, ttl, now, sockets);
  }

  /* Stopping, and what is ignored */

  // A gateway that has been stopped knows nobody, stands in for nobody and awaits nobody: pongs, and
  // messages from the tunnel for one target, go nowhere, its timers report nothing, and whoever announces
  // itself is taken for a local node.
  lemma StopForgets(g: Gateway, ev: Event, n: NodeId, e: Endpoint)
    requires WellParsed(ev)
    ensures var s := React(g, Stop).g;
            && n !in s.nodes && n !in s.meters && n !in s.local && e !in s.byMeasurement
            && (ev.Measurement? && !ev.ping ==> React(s, ev) == Idle(s))
            && (ev.Remote? && ev.msg.typ in {Unicast, MeasurementPing, MeasurementPong} ==> React(s, ev) == Idle(s))
            && (ev.LocalTimer? ==> PeerTracker.Reported(s.localTracker, ev.now) == [])
            && (ev.RemoteTimer? ==> PeerTracker.Reported(s.remoteTracker, ev.now) == [])
            && (Announcement(ev, n, e) ==> React(s, ev).forward.Some? && React(s, ev).forward.value.from == n)
  {
  }

  // A discovery message of an unknown kind, and a peer state that does not parse, do nothing.
  lemma UnreadableIsIgnored(g: Gateway, ev: Event)
    requires ev.State? && WellParsed(ev)
    requires ev.m.kind == Kind.Unknown || (ev.m.kind in {Alive, Response} && ev.m.endpoint == None)
    ensures React(g, ev).g == g && React(g, ev).forward == None && React(g, ev).sent == None
  {
  }
}
