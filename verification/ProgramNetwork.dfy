// The network again, with instances as the program keeps them.  Every run of it is shadowed by a run of
// the network of tables that has the same peers and the same control packets at every moment, so that
// whatever the theorems say about connections holds of the program, its own removal included.
module ProgramNetwork {
  import opened LinkTypes
  import opened TunnelTable
  import opened TunnelRefinement
  import Network
  import Handshake
  import Timing
  import TunnelVectors

  type Vectors = v: TunnelVectors.Vectors | v.Sound() ghost witness TunnelVectors.NOTHING

  datatype Instance = Instance(v: Vectors, lastPass: int)

  datatype Program = Program(now: int, sites: map<Endpoint, Instance>, flight: Network.Flight)
  {
    ghost predicate Knows(x: Endpoint, y: Endpoint) {
      x in sites && y in sites[x].v.endpointIdx
    }

    ghost predicate Holds(x: Endpoint, y: Endpoint) {
      x in sites && sites[x].v.Linked(y)
    }

    ghost function LastSeen(x: Endpoint, y: Endpoint): int
      requires Knows(x, y)
    {
      sites[x].v.peers[sites[x].v.endpointIdx[y]].lastSeen
    }
  }

  // The steps of the network, but an instance is started with a list of peers.
  datatype Step = Common(st: Network.Step) | Begin(at: Endpoint, initial: seq<Endpoint>)

  ghost predicate Enabled(p: Program, step: Step) {
    match step
    case Begin(at, initial) => at !in p.sites && Distinct(initial)
    case Common(st) =>
      match st
      case Deliver(q) => p.flight.Has(q) && q.dst in p.sites
      case Drop(q) => p.flight.Has(q)
      case Duplicate(q) => p.flight.Has(q)
      case Advance(to) => p.now <= to
      case Local(at, ev) =>
        && at in p.sites && !ev.Receive?
        && (ev.Pass? ==> ev.now == p.now)
        && (ev.Forward? ==> !ev.msg.typ.IsControl())
      case Stop(at) => at in p.sites
      case Launch(_, _) => false
  }

  ghost function Posted(src: Endpoint, sends: seq<Send>, now: int): set<Network.Packet> {
    Network.Posted(src, Elements(sends), now)
  }

  // The event ev takes place at site `at`.
  ghost function Happen(p: Program, at: Endpoint, ev: Event): Program
    requires at in p.sites
  {
    var r := TunnelVectors.React(p.sites[at].v, ev);
    p.(sites := p.sites[at := Instance(r.state, if ev.Pass? then p.now else p.sites[at].lastPass)],
       flight := p.flight.Plus(Posted(at, r.sends, p.now)))
  }

  ghost function Next(p: Program, step: Step): Program
    requires Enabled(p, step)
  {
    match step
    case Begin(at, initial) => p.(sites := p.sites[at := Instance(TunnelVectors.Start(initial), p.now)])
    case Common(st) =>
      match st
      case Deliver(q) => Happen(p.(flight := p.flight.Minus(q)), q.dst, Receive(q.src, q.msg, p.now))
      case Drop(q) => p.(flight := p.flight.Minus(q))
      case Duplicate(q) => p.(flight := p.flight.Plus({q}))
      case Advance(to) => p.(now := to)
      case Local(at, ev) => Happen(p, at, ev)
      case Stop(at) =>
        p.(sites := p.sites - {at},
           flight := p.flight.Plus(Posted(at, TunnelVectors.ToConnected(p.sites[at].v.peers, BYE), p.now)))
  }

  /* The shadow of a run */

  // Data packets and what gateways forward leave no trace.
  predicate Visible(step: Step) {
    match step
    case Begin(_, _) => true
    case Common(st) =>
      match st
      case Deliver(q) => q.msg.typ.IsControl()
      case Drop(q) => q.msg.typ.IsControl()
      case Duplicate(q) => q.msg.typ.IsControl()
      case Local(_, ev) => !ev.Forward?
      case _ => true
  }

  ghost function Shadow(step: Step): Network.Step {
    match step
    case Begin(at, initial) => Network.Launch(at, Elements(initial))
    case Common(st) => st
  }

  ghost function Control(run: seq<Step>): seq<Network.Step> {
    if run == [] then []
    else if Visible(run[0]) then [Shadow(run[0])] + Control(run[1..])
    else Control(run[1..])
  }

  // The same control packets, each as often.
  ghost predicate SameControl(a: Network.Flight, b: Network.Flight) {
    forall q: Network.Packet :: q.msg.typ.IsControl() ==> a.hellos[q] == b.hellos[q] && a.others[q] == b.others[q]
  }

  ghost predicate SameSite(i: Instance, j: Network.Site) {
    i.v.Inverse() && SamePeers(i.v.Abs(), j.table) && i.lastPass == j.lastPass
  }

  ghost predicate Matches(p: Program, s: Network.Net) {
    && p.now == s.now && p.sites.Keys == s.sites.Keys && SameControl(p.flight, s.flight)
    && forall x :: x in p.sites ==> SameSite(p.sites[x], s.sites[x])
  }

  lemma PlusKeepsSame(a: Network.Flight, b: Network.Flight, ps: set<Network.Packet>, qs: set<Network.Packet>)
    requires SameControl(a, b) && forall q: Network.Packet :: q.msg.typ.IsControl() ==> (q in ps <==> q in qs)
    ensures SameControl(a.Plus(ps), b.Plus(qs))
  {
  }

  lemma PlusDataKeepsSame(a: Network.Flight, b: Network.Flight, ps: set<Network.Packet>)
    requires SameControl(a, b) && forall q: Network.Packet :: q in ps ==> !q.msg.typ.IsControl()
    ensures SameControl(a.Plus(ps), b)
  {
  }

  lemma MinusKeepsSame(a: Network.Flight, b: Network.Flight, q: Network.Packet)
    requires SameControl(a, b)
    ensures SameControl(a.Minus(q), b.Minus(q))
    ensures !q.msg.typ.IsControl() ==> SameControl(a.Minus(q), b)
  {
  }

  // One event other than a gateway's message, in the vectors and in the table.
  lemma SiteDoes(v: Vectors, t: Table, ev: Event)
    requires v.Inverse() && SamePeers(v.Abs(), t) && !ev.Forward?
    ensures TunnelVectors.React(v, ev).state.Inverse()
    ensures SamePeers(TunnelVectors.React(v, ev).state.Abs(), Apply(t, ev).table)
    ensures Elements(TunnelVectors.React(v, ev).sends) == Apply(t, ev).sends
  {
    ReactKeepsInverse(v, ev);
    ReactDoes(v, ev);
    PeersIgnoreRoutes(v.Abs(), t, ev);
    ControlIgnoresRoutes(v.Abs(), t, ev);
  }

  lemma HappenMatches(p: Program, s: Network.Net, at: Endpoint, ev: Event)
    requires Matches(p, s) && at in p.sites && !ev.Forward?
    ensures Matches(Happen(p, at, ev), Network.Happen(s, at, ev))
  {
    assert SameSite(p.sites[at], s.sites[at]);
    SiteDoes(p.sites[at].v, s.sites[at].table, ev);
    PlusKeepsSame(p.flight, s.flight, Posted(at, TunnelVectors.React(p.sites[at].v, ev).sends, p.now),
                  Network.Posted(at, Apply(s.sites[at].table, ev).sends, s.now));
  }

  // A data message changes no peer and sends nothing.
  lemma DataMatches(p: Program, s: Network.Net, q: Network.Packet)
    requires Matches(p, s) && q.dst in p.sites && !q.msg.typ.IsControl()
    ensures Matches(Happen(p, q.dst, Receive(q.src, q.msg, p.now)), s)
  {
    var v, ev := p.sites[q.dst].v, Receive(q.src, q.msg, p.now);
    assert SameSite(p.sites[q.dst], s.sites[q.dst]);
    SiteDoes(v, v.Abs(), ev);
    DataOnTable(v.Abs(), q.src, q.msg, p.now);
    PlusDataKeepsSame(p.flight, s.flight, Posted(q.dst, TunnelVectors.React(v, ev).sends, p.now));
  }

  lemma ForwardedIsData(v: Vectors, msg: Message)
    requires v.Inverse() && !msg.typ.IsControl()
    ensures forall d :: d in TunnelVectors.Forwarded(v, msg) ==> d.msg.typ == msg.typ
  {
    ForwardedList(v, msg);
    assert forall d :: d in TunnelVectors.Forwarded(v, msg) ==> d in Relayed(v.Abs(), msg);
  }

  // A gateway's message changes nothing but the data packets on their way.
  lemma ForwardMatches(p: Program, s: Network.Net, at: Endpoint, msg: Message)
    requires Matches(p, s) && at in p.sites && !msg.typ.IsControl()
    ensures Matches(Happen(p, at, Forward(msg)), s)
  {
    var v := p.sites[at].v;
    assert SameSite(p.sites[at], s.sites[at]);
    ForwardedIsData(v, msg);
    PlusDataKeepsSame(p.flight, s.flight, Posted(at, TunnelVectors.Forwarded(v, msg), p.now));
  }

  lemma StopMatches(p: Program, s: Network.Net, at: Endpoint)
    requires Matches(p, s) && at in p.sites
    ensures Matches(Next(p, Common(Network.Stop(at))), Network.Next(s, Network.Stop(at)))
  {
    assert SameSite(p.sites[at], s.sites[at]);
    GoodbyesList(p.sites[at].v);
    PlusKeepsSame(p.flight, s.flight, Posted(at, TunnelVectors.ToConnected(p.sites[at].v.peers, BYE), p.now),
                  Network.Posted(at, Goodbyes(s.sites[at].table), s.now));
  }

  lemma StartsAlike(initial: seq<Endpoint>, now: int)
    requires Distinct(initial)
    ensures SameSite(Instance(TunnelVectors.Start(initial), now), Network.Site(Initial(Elements(initial)), now))
  {
    StartIsInverse(initial);
    StartIsInitial(initial);
  }

  lemma OneMoreMatches(p: Program, s: Network.Net, at: Endpoint, i: Instance, j: Network.Site)
    requires Matches(p, s) && SameSite(i, j)
    ensures Matches(p.(sites := p.sites[at := i]), s.(sites := s.sites[at := j]))
  {
  }

  lemma BeginMatches(p: Program, s: Network.Net, at: Endpoint, initial: seq<Endpoint>)
    requires Matches(p, s) && at !in p.sites && Distinct(initial)
    ensures Matches(Next(p, Begin(at, initial)), Network.Next(s, Network.Launch(at, Elements(initial))))
  {
    var i := Instance(TunnelVectors.Start(initial), p.now);
    StartsAlike(initial, p.now);
    OneMoreMatches(p, s, at, i, Network.Site(Initial(Elements(initial)), s.now));
  }

  lemma SameControlHas(a: Network.Flight, b: Network.Flight, q: Network.Packet)
    requires SameControl(a, b) && q.msg.typ.IsControl()
    ensures a.Has(q) <==> b.Has(q)
  {
    assert q in a.hellos <==> a.hellos[q] > 0;
    assert q in a.others <==> a.others[q] > 0;
  }

  lemma VisibleStepMatches(p: Program, s: Network.Net, step: Step)
    requires Matches(p, s) && Enabled(p, step) && Visible(step)
    ensures Network.Enabled(s, Shadow(step)) && Matches(Next(p, step), Network.Next(s, Shadow(step)))
  {
    match step {
      case Begin(at, initial) => BeginMatches(p, s, at, initial);
      case Common(st) =>
        match st {
          case Deliver(q) =>
            SameControlHas(p.flight, s.flight, q);
            MinusKeepsSame(p.flight, s.flight, q);
            HappenMatches(p.(flight := p.flight.Minus(q)), s.(flight := s.flight.Minus(q)), q.dst,
                          Receive(q.src, q.msg, p.now));
          case Drop(q) =>
            SameControlHas(p.flight, s.flight, q);
            MinusKeepsSame(p.flight, s.flight, q);
          case Duplicate(q) =>
            SameControlHas(p.flight, s.flight, q);
            PlusKeepsSame(p.flight, s.flight, {q}, {q});
          case Advance(to) =>
          case Local(at, ev) => HappenMatches(p, s, at, ev);
          case Stop(at) => StopMatches(p, s, at);
        }
    }
  }

  lemma InvisibleStepMatches(p: Program, s: Network.Net, step: Step)
    requires Matches(p, s) && Enabled(p, step) && !Visible(step)
    ensures Matches(Next(p, step), s)
  {
    match step.st {
      case Deliver(q) =>
        MinusKeepsSame(p.flight, s.flight, q);
        DataMatches(p.(flight := p.flight.Minus(q)), s, q);
      case Drop(q) => MinusKeepsSame(p.flight, s.flight, q);
      case Duplicate(q) => PlusDataKeepsSame(p.flight, s.flight, {q});
      case Local(at, ev) => ForwardMatches(p, s, at, ev.msg);
    }
  }

  /* Whole runs */

  ghost predicate Legal(p: Program, run: seq<Step>)
    decreases |run|
  {
    run != [] ==> Enabled(p, run[0]) && Legal(Next(p, run[0]), run[1..])
  }

  ghost function End(p: Program, run: seq<Step>): Program
    requires Legal(p, run)
    decreases |run|
  {
    if run == [] then p else End(Next(p, run[0]), run[1..])
  }

  ghost function Start(now: int, config: map<Endpoint, seq<Endpoint>>): Program {
    Program(now, map x | x in config :: Instance(TunnelVectors.Start(config[x]), now),
            Network.Flight(multiset{}, multiset{}))
  }

  ghost function Configured(config: map<Endpoint, seq<Endpoint>>): map<Endpoint, set<Endpoint>> {
    map x | x in config :: Elements(config[x])
  }

  ghost predicate NoRepeats(config: map<Endpoint, seq<Endpoint>>) {
    forall x :: x in config ==> Distinct(config[x])
  }

  lemma StartSiteMatches(now: int, config: map<Endpoint, seq<Endpoint>>, x: Endpoint)
    requires NoRepeats(config) && x in config
    ensures SameSite(Start(now, config).sites[x], Network.Start(now, Configured(config)).sites[x])
  {
    StartsAlike(config[x], now);
  }

  lemma StartMatches(now: int, config: map<Endpoint, seq<Endpoint>>)
    requires NoRepeats(config)
    ensures Matches(Start(now, config), Network.Start(now, Configured(config)))
  {
    forall x | x in config
      ensures SameSite(Start(now, config).sites[x], Network.Start(now, Configured(config)).sites[x])
    {
      StartSiteMatches(now, config, x);
    }
  }

  // The program's run and its shadow stay together.
  lemma {:induction false} RunMatches(p: Program, s: Network.Net, run: seq<Step>)
    requires Matches(p, s) && Legal(p, run)
    ensures Network.Legal(s, Control(run)) && Matches(End(p, run), Network.End(s, Control(run)))
    decreases |run|
  {
    if run != [] {
      var p' := Next(p, run[0]);
      if Visible(run[0]) {
        VisibleStepMatches(p, s, run[0]);
        RunMatches(p', Network.Next(s, Shadow(run[0])), run[1..]);
        assert Control(run)[1..] == Control(run[1..]);
      } else {
        InvisibleStepMatches(p, s, run[0]);
        RunMatches(p', s, run[1..]);
      }
    }
  }

  // In every run of the program from a start, each instance knows, holds and last heard exactly whom
  // its shadow does, and the same control packets are on their way.
  lemma {:induction false} ProgramIsShadowed(now: int, config: map<Endpoint, seq<Endpoint>>, run: seq<Step>,
                                             x: Endpoint, y: Endpoint)
    requires NoRepeats(config) && Legal(Start(now, config), run)
    ensures Network.Legal(Network.Start(now, Configured(config)), Control(run))
    ensures var p := End(Start(now, config), run);
            var s := Network.End(Network.Start(now, Configured(config)), Control(run));
            && p.now == s.now
            && (p.Knows(x, y) <==> s.Knows(x, y)) && (p.Holds(x, y) <==> s.Holds(x, y))
            && (p.Knows(x, y) ==> p.LastSeen(x, y) == s.LastSeen(x, y))
            && SameControl(p.flight, s.flight)
  {
    StartMatches(now, config);
    RunMatches(Start(now, config), Network.Start(now, Configured(config)), run);
    MatchedSitesAgree(End(Start(now, config), run), Network.End(Network.Start(now, Configured(config)), Control(run)),
                      x, y);
  }

  lemma MatchedSitesAgree(p: Program, s: Network.Net, x: Endpoint, y: Endpoint)
    requires Matches(p, s)
    ensures (p.Knows(x, y) <==> s.Knows(x, y)) && (p.Holds(x, y) <==> s.Holds(x, y))
    ensures p.Knows(x, y) ==> p.LastSeen(x, y) == s.LastSeen(x, y)
  {
    if x in p.sites {
      assert SameSite(p.sites[x], s.sites[x]);
      assert y in p.sites[x].v.PeerMap() <==> y in s.sites[x].table.peers;
    }
  }

  /* What that gives */

  ghost predicate HelloOnItsWay(p: Program, x: Endpoint, y: Endpoint) {
    exists q :: q in p.flight.hellos && q.src == x && q.dst == y && q.msg.typ.TunnelHello?
  }

  lemma SameHellos(p: Program, s: Network.Net, x: Endpoint, y: Endpoint)
    requires SameControl(p.flight, s.flight) && s.flight.Sorted() && Handshake.HelloInFlight(s, x, y)
    ensures HelloOnItsWay(p, x, y)
  {
    var q :| q in s.flight.hellos && q.src == x && q.dst == y && q.sent <= s.now;
    assert p.flight.hellos[q] == s.flight.hellos[q] > 0;
  }

  // The two ends of the program's connections agree but for a HELLO on its way, in every run whose
  // control steps are loss-free.
  lemma {:induction false} ProgramEndsAgree(now: int, config: map<Endpoint, seq<Endpoint>>, run: seq<Step>,
                                            x: Endpoint, y: Endpoint)
    requires NoRepeats(config) && Legal(Start(now, config), run)
    requires var s0 := Network.Start(now, Configured(config));
             Network.Legal(s0, Control(run)) ==> Handshake.CalmRun(s0, Control(run))
    ensures var p := End(Start(now, config), run);
            p.Holds(x, y) ==> p.Knows(y, x) && (p.Holds(y, x) || HelloOnItsWay(p, x, y))
  {
    var s0 := Network.Start(now, Configured(config));
    ProgramIsShadowed(now, config, run, x, y);
    ProgramIsShadowed(now, config, run, y, x);
    Handshake.BothEndsAgree(now, Configured(config), Control(run), x, y);
    Handshake.StartAgrees(now, Configured(config));
    Network.RunKeepsSane(s0, Control(run));
    var p, s := End(Start(now, config), run), Network.End(s0, Control(run));
    if p.Holds(x, y) && !p.Holds(y, x) {
      SameHellos(p, s, x, y);
    }
  }

  // With the program's own maintenance interval, and no control packet lost or more than ten seconds
  // under way, no instance of the program ever times a peer out.
  lemma {:induction false} ProgramHasNoFalseTimeout(now: int, config: map<Endpoint, seq<Endpoint>>, run: seq<Step>,
                                                    delay: int, x: Endpoint, y: Endpoint)
    requires NoRepeats(config) && Legal(Start(now, config), run) && 0 <= delay <= 10 * SECOND
    requires var s0 := Network.Start(now, Configured(config));
             Network.Legal(s0, Control(run)) ==> Timing.GentleRun(s0, Control(run), MAINTENANCE_INTERVAL, delay)
    ensures var p := End(Start(now, config), run);
            p.Holds(x, y) ==> p.now - p.LastSeen(x, y) <= 15 * SECOND
  {
    ProgramIsShadowed(now, config, run, x, y);
    Timing.NoFalseTimeout(now, Configured(config), Control(run), MAINTENANCE_INTERVAL, delay, x, y);
  }

  // And a peer that has fallen silent for twenty seconds is not connected.
  lemma {:induction false} ProgramDetectsSilence(now: int, config: map<Endpoint, seq<Endpoint>>, before: seq<Step>,
                                                 silent: seq<Step>, x: Endpoint, y: Endpoint)
    requires NoRepeats(config) && Legal(Start(now, config), before) && Legal(End(Start(now, config), before), silent)
    requires var s0 := Network.Start(now, Configured(config));
             Network.Legal(s0, Control(before)) ==>
               && Timing.PunctualRun(s0, Control(before), y, MAINTENANCE_INTERVAL)
               && var s := Network.End(s0, Control(before));
                  Network.Legal(s, Control(silent)) ==>
                    Timing.SilentRun(s, Control(silent), x, y, MAINTENANCE_INTERVAL)
    requires End(End(Start(now, config), before), silent).now > End(Start(now, config), before).now + 20 * SECOND
    ensures !End(End(Start(now, config), before), silent).Holds(y, x)
  {
    StartMatches(now, config);
    RunMatches(Start(now, config), Network.Start(now, Configured(config)), before);
    var p, s := End(Start(now, config), before), Network.End(Network.Start(now, Configured(config)), Control(before));
    RunMatches(p, s, silent);
    MatchedSitesAgree(End(p, silent), Network.End(s, Control(silent)), y, x);
    Timing.SilenceIsDetected(now, Configured(config), Control(before), Control(silent), x, y, MAINTENANCE_INTERVAL);
  }
}
