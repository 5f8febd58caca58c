// Any number of tunnel instances joined by an unreliable datagram network.  Instances are named by
// the endpoint at which the others see them.
module Network {
  import opened LinkTypes
  import opened TunnelTable

  datatype Packet = Packet(src: Endpoint, dst: Endpoint, msg: Message, sent: int)

  datatype Site = Site(table: Table, lastPass: int)

  // Datagrams in flight, handshakes counted apart from the rest.
  datatype Flight = Flight(hellos: multiset<Packet>, others: multiset<Packet>) {
    predicate Has(p: Packet) {
      p in hellos || p in others
    }

    function Minus(p: Packet): Flight {
      Flight(hellos - multiset{p}, others - multiset{p})
    }

    function Plus(ps: set<Packet>): Flight {
      Flight(hellos + multiset(set p | p in ps && p.msg.typ.TunnelHello?),
             others + multiset(set p | p in ps && !p.msg.typ.TunnelHello?))
    }

    ghost predicate Sorted() {
      (forall p :: p in hellos ==> p.msg.typ.TunnelHello?) && (forall p :: p in others ==> !p.msg.typ.TunnelHello?)
    }
  }

  predicate IsPulse(typ: MessageType) {
    typ.TunnelHello? || typ.TunnelKeepalive?
  }

  datatype Net = Net(now: int, sites: map<Endpoint, Site>, flight: Flight)
  {
    predicate Knows(x: Endpoint, y: Endpoint) {
      x in sites && sites[x].table.Knows(y)
    }

    // x holds y CONNECTED.
    predicate Holds(x: Endpoint, y: Endpoint) {
      x in sites && sites[x].table.Holds(y)
    }

    function LastSeen(x: Endpoint, y: Endpoint): int
      requires Knows(x, y)
    {
      sites[x].table.peers[y].lastSeen
    }

    // A HELLO from x to y sent no later than `until` is in flight.
    ghost predicate Hello(x: Endpoint, y: Endpoint, until: int) {
      exists p :: p in flight.hellos && p.src == x && p.dst == y && p.sent <= until
    }

    ghost predicate Bye(x: Endpoint, y: Endpoint) {
      exists p :: p in flight.others && p.src == x && p.dst == y && p.msg.typ.TunnelBye?
    }

    // A HELLO or KEEPALIVE from x to y sent no later than `until` is in flight.
    ghost predicate Pulse(x: Endpoint, y: Endpoint, until: int) {
      exists p :: flight.Has(p) && p.src == x && p.dst == y && IsPulse(p.msg.typ) && p.sent <= until
    }
  }

  datatype Step =
    | Deliver(p: Packet)
    | Drop(p: Packet)
    | Duplicate(p: Packet)
    | Advance(to: int)
    | Local(at: Endpoint, ev: Event)
    | Stop(at: Endpoint)
    | Launch(at: Endpoint, peers: set<Endpoint>)

  predicate Enabled(s: Net, st: Step) {
    match st
    case Deliver(p) => s.flight.Has(p) && p.dst in s.sites
    case Drop(p) => s.flight.Has(p)
    case Duplicate(p) => s.flight.Has(p)
    case Advance(to) => s.now <= to
    case Local(at, ev) =>
      && at in s.sites && !ev.Receive?
      && (ev.Pass? ==> ev.now == s.now)
      && (ev.Forward? ==> !ev.msg.typ.IsControl())
    case Stop(at) => at in s.sites
    case Launch(at, peers) => at !in s.sites
  }

  function Posted(src: Endpoint, sends: set<Send>, now: int): set<Packet> {
    set d | d in sends :: Packet(src, d.to, d.msg, now)
  }

  // Site `at` ends up as o says and sends what o says.
  function Install(s: Net, at: Endpoint, o: Outcome, pass: bool): Net
    requires at in s.sites
  {
    var site := Site(o.table, if pass then s.now else s.sites[at].lastPass);
    s.(sites := s.sites[at := site], flight := s.flight.Plus(Posted(at, o.sends, s.now)))
  }

  // The event ev takes place at site `at`.
  function Happen(s: Net, at: Endpoint, ev: Event): Net
    requires at in s.sites
  {
    Install(s, at, Apply(s.sites[at].table, ev), ev.Pass?)
  }

  function Next(s: Net, st: Step): Net
    requires Enabled(s, st)
  {
    match st
    case Deliver(p) => Happen(s.(flight := s.flight.Minus(p)), p.dst, Receive(p.src, p.msg, s.now))
    case Drop(p) => s.(flight := s.flight.Minus(p))
    case Duplicate(p) => s.(flight := s.flight.Plus({p}))
    case Advance(to) => s.(now := to)
    case Local(at, ev) => Happen(s, at, ev)
    case Stop(at) =>
      s.(sites := s.sites - {at}, flight := s.flight.Plus(Posted(at, Goodbyes(s.sites[at].table), s.now)))
    case Launch(at, peers) => s.(sites := s.sites[at := Site(Initial(peers), s.now)])
  }

  // All instances started at one time, each with its configured peers.
  function Start(now: int, config: map<Endpoint, set<Endpoint>>): Net {
    Net(now, map x | x in config :: Site(Initial(config[x]), now), Flight(multiset{}, multiset{}))
  }

  ghost predicate Legal(s: Net, run: seq<Step>)
    decreases |run|
  {
    run != [] ==> Enabled(s, run[0]) && Legal(Next(s, run[0]), run[1..])
  }

  ghost function End(s: Net, run: seq<Step>): Net
    requires Legal(s, run)
    decreases |run|
  {
    if run == [] then s else End(Next(s, run[0]), run[1..])
  }

  /* What is true of every run, whatever the network does */

  // Time stamps lie in the past, handshakes are filed as handshakes, routes lead to connected peers.
  ghost predicate Sane(s: Net) {
    && s.flight.Sorted()
    && (forall p :: s.flight.Has(p) ==> p.sent <= s.now)
    && (forall x :: x in s.sites ==> SaneSite(s.sites[x], s.now))
  }

  ghost predicate SaneSite(a: Site, now: int) {
    && a.table.Valid()
    && a.lastPass <= now
    && (forall y :: y in a.table.peers && a.table.Holds(y) ==> a.table.peers[y].lastSeen <= now)
  }

  lemma ApplyKeepsSane(t: Table, ev: Event, lastPass: int, now: int)
    requires SaneSite(Site(t, lastPass), now)
    requires (ev.Pass? || ev.Receive?) ==> ev.now == now
    ensures SaneSite(Site(Apply(t, ev).table, lastPass), now)
  {
    var t' := Apply(t, ev).table;
    ApplyKeepsRoutesConnected(t, ev);
    forall y | y in t'.peers && t'.Holds(y)
      ensures t'.peers[y].lastSeen <= now
    {
      assert t.Holds(y) || t'.peers[y].lastSeen == now;
    }
  }

  lemma InstallKeepsSane(s: Net, at: Endpoint, o: Outcome, pass: bool)
    requires Sane(s) && at in s.sites && SaneSite(Site(o.table, s.sites[at].lastPass), s.now)
    ensures Sane(Install(s, at, o, pass))
  {
    assert SaneSite(Install(s, at, o, pass).sites[at], s.now);
  }

  lemma TakingOneKeepsSane(s: Net, p: Packet)
    requires Sane(s)
    ensures Sane(s.(flight := s.flight.Minus(p)))
  {
  }

  lemma AdvanceKeepsSane(s: Net, to: int)
    requires Sane(s) && s.now <= to
    ensures Sane(s.(now := to))
  {
    forall x | x in s.sites
      ensures SaneSite(s.sites[x], to)
    {
      assert SaneSite(s.sites[x], s.now);
    }
  }

  lemma StopKeepsSane(s: Net, at: Endpoint)
    requires Sane(s) && at in s.sites
    ensures Sane(Next(s, Stop(at)))
  {
    var s' := Next(s, Stop(at));
    forall x | x in s'.sites
      ensures SaneSite(s'.sites[x], s'.now)
    {
      assert SaneSite(s.sites[x], s.now);
    }
  }

  lemma LaunchKeepsSane(s: Net, at: Endpoint, peers: set<Endpoint>)
    requires Sane(s) && at !in s.sites
    ensures Sane(Next(s, Launch(at, peers)))
  {
    var s' := Next(s, Launch(at, peers));
    forall x | x in s'.sites
      ensures SaneSite(s'.sites[x], s'.now)
    {
      assert x != at ==> SaneSite(s.sites[x], s.now);
    }
  }

  lemma HappenKeepsSane(s: Net, at: Endpoint, ev: Event)
    requires Sane(s) && at in s.sites
    requires (ev.Pass? || ev.Receive?) ==> ev.now == s.now
    ensures Sane(Happen(s, at, ev))
  {
    assert SaneSite(s.sites[at], s.now);
    ApplyKeepsSane(s.sites[at].table, ev, s.sites[at].lastPass, s.now);
    InstallKeepsSane(s, at, Apply(s.sites[at].table, ev), ev.Pass?);
  }

  lemma StepKeepsSane(s: Net, st: Step)
    requires Sane(s) && Enabled(s, st)
    ensures Sane(Next(s, st))
  {
    match st
    case Deliver(p) =>
      TakingOneKeepsSane(s, p);
      HappenKeepsSane(s.(flight := s.flight.Minus(p)), p.dst, Receive(p.src, p.msg, s.now));
    case Local(at, ev) => HappenKeepsSane(s, at, ev);
    case Drop(p) => TakingOneKeepsSane(s, p);
    case Duplicate(p) =>
    case Advance(to) => AdvanceKeepsSane(s, to);
    case Stop(at) => StopKeepsSane(s, at);
    case Launch(at, peers) => LaunchKeepsSane(s, at, peers);
  }

  lemma {:induction false} RunKeepsSane(s: Net, run: seq<Step>)
    requires Sane(s) && Legal(s, run)
    ensures Sane(End(s, run))
    decreases |run|
  {
    if run != [] {
      StepKeepsSane(s, run[0]);
      RunKeepsSane(Next(s, run[0]), run[1..]);
    }
  }

  /* One step seen from one ordered pair of endpoints */

  // What an event at `at` does to x's view of y ...
  ghost predicate ViewStep(s: Net, s': Net, at: Endpoint, ev: Event, x: Endpoint, y: Endpoint)
    requires at in s.sites
  {
    var t := s.sites[at].table;
    && (s'.Knows(x, y) <==> if x == at then Admits(ev, y) || (t.Knows(y) && ev != Remove(y)) else s.Knows(x, y))
    && (s'.Holds(x, y) <==>
          if x == at then (Hears(ev, y, TunnelHello) && t.Knows(y)) || (t.Holds(y) && !Loses(t, ev, y))
          else s.Holds(x, y))
    && (s'.Holds(x, y) ==> s.Knows(x, y))
    && (s'.Holds(x, y) ==> s'.LastSeen(x, y) == if x == at then Heard(t, ev, y) else s.LastSeen(x, y))
  }

  // ... and to the packets on their way from x to y.
  ghost predicate FlightStep(s: Net, s': Net, at: Endpoint, ev: Event, x: Endpoint, y: Endpoint, until: int)
    requires at in s.sites
  {
    var t := s.sites[at].table;
    && (s'.Hello(x, y, until) <==> s.Hello(x, y, until) || (x == at && Greets(t, ev, y) && s.now <= until))
    && (s'.Bye(x, y) <==> s.Bye(x, y) || (x == at && ev == Remove(y) && t.Knows(y)))
    && (s'.Pulse(x, y, until) <==> s.Pulse(x, y, until) || (x == at && Beats(t, ev, y) && s.now <= until))
  }

  predicate Beats(t: Table, ev: Event, e: Endpoint) {
    Greets(t, ev, e) || (ev.Pass? && t.Holds(e) && !Loses(t, ev, e))
  }

  // The packets added are those sent.
  lemma FlightGrowsBySends(s: Net, at: Endpoint, o: Outcome, pass: bool)
    requires at in s.sites
    ensures var f := Install(s, at, o, pass).flight;
            && (forall p :: p in f.hellos <==>
                  p in s.flight.hellos || (p in Posted(at, o.sends, s.now) && p.msg.typ.TunnelHello?))
            && (forall p :: p in f.others <==>
                  p in s.flight.others || (p in Posted(at, o.sends, s.now) && !p.msg.typ.TunnelHello?))
            && (forall p :: p in Posted(at, o.sends, s.now) <==>
                  p.src == at && p.sent == s.now && Send(p.dst, p.msg) in o.sends)
  {
  }

  lemma HelloAfterInstall(s: Net, at: Endpoint, ev: Event, o: Outcome, x: Endpoint, y: Endpoint, until: int)
    requires at in s.sites && PeerEffect(s.sites[at].table, ev, o, y)
    ensures var s' := Install(s, at, o, ev.Pass?); var t := s.sites[at].table;
            s'.Hello(x, y, until) <==> s.Hello(x, y, until) || (x == at && Greets(t, ev, y) && s.now <= until)
  {
    FlightGrowsBySends(s, at, o, ev.Pass?);
    assert x == at && Send(y, HELLO) in o.sends ==>
             Packet(x, y, HELLO, s.now) in Install(s, at, o, ev.Pass?).flight.hellos;
  }

  lemma ByeAfterInstall(s: Net, at: Endpoint, ev: Event, o: Outcome, x: Endpoint, y: Endpoint)
    requires at in s.sites && PeerEffect(s.sites[at].table, ev, o, y)
    ensures var s' := Install(s, at, o, ev.Pass?); var t := s.sites[at].table;
            s'.Bye(x, y) <==> s.Bye(x, y) || (x == at && ev == Remove(y) && t.Knows(y))
  {
    FlightGrowsBySends(s, at, o, ev.Pass?);
    assert x == at && Send(y, BYE) in o.sends ==>
             Packet(x, y, BYE, s.now) in Install(s, at, o, ev.Pass?).flight.others;
  }

  lemma PulseAfterInstall(s: Net, at: Endpoint, ev: Event, o: Outcome, x: Endpoint, y: Endpoint, until: int)
    requires at in s.sites && PeerEffect(s.sites[at].table, ev, o, y)
    ensures var s' := Install(s, at, o, ev.Pass?); var t := s.sites[at].table;
            s'.Pulse(x, y, until) <==> s.Pulse(x, y, until) || (x == at && Beats(t, ev, y) && s.now <= until)
  {
    var s' := Install(s, at, o, ev.Pass?);
    FlightGrowsBySends(s, at, o, ev.Pass?);
    PulsesGrow(s, s', at, o.sends, x, y, until);
    assert Beats(s.sites[at].table, ev, y) <==> Send(y, HELLO) in o.sends || Send(y, KEEPALIVE) in o.sends;
  }

  lemma PulsesGrow(s: Net, s': Net, at: Endpoint, sends: set<Send>, x: Endpoint, y: Endpoint, until: int)
    requires forall p :: s.flight.Has(p) ==> s'.flight.Has(p)
    requires forall p :: s'.flight.Has(p) <==>
                           s.flight.Has(p) || (p.src == at && p.sent == s.now && Send(p.dst, p.msg) in sends)
    requires forall m :: Send(y, m) in sends && m.typ.IsControl() ==> m in {HELLO, KEEPALIVE, BYE}
    ensures s'.Pulse(x, y, until) <==>
              s.Pulse(x, y, until)
              || (x == at && s.now <= until && (Send(y, HELLO) in sends || Send(y, KEEPALIVE) in sends))
  {
    if x == at && s.now <= until {
      assert Send(y, HELLO) in sends ==> s'.flight.Has(Packet(x, y, HELLO, s.now));
      assert Send(y, KEEPALIVE) in sends ==> s'.flight.Has(Packet(x, y, KEEPALIVE, s.now));
    }
  }

  lemma HappenOnView(s: Net, at: Endpoint, ev: Event, x: Endpoint, y: Endpoint)
    requires at in s.sites
    ensures ViewStep(s, Happen(s, at, ev), at, ev, x, y)
  {
    EffectOnView(s.sites[at].table, ev, y);
  }

  lemma HappenOnPair(s: Net, at: Endpoint, ev: Event, x: Endpoint, y: Endpoint, until: int)
    requires at in s.sites
    requires ev.Forward? ==> !ev.msg.typ.IsControl()
    ensures ViewStep(s, Happen(s, at, ev), at, ev, x, y)
    ensures FlightStep(s, Happen(s, at, ev), at, ev, x, y, until)
  {
    var o := Apply(s.sites[at].table, ev);
    HappenOnView(s, at, ev, x, y);
    EffectOnPeer(s.sites[at].table, ev, y);
    HelloAfterInstall(s, at, ev, o, x, y, until);
    ByeAfterInstall(s, at, ev, o, x, y);
    PulseAfterInstall(s, at, ev, o, x, y, until);
  }

  // Taking one packet off the network adds nothing ...
  lemma TakeAddsNothing(s: Net, p: Packet, x: Endpoint, y: Endpoint, until: int)
    ensures var s' := s.(flight := s.flight.Minus(p));
            && (s'.Hello(x, y, until) ==> s.Hello(x, y, until)) && (s'.Bye(x, y) ==> s.Bye(x, y))
            && (s'.Pulse(x, y, until) ==> s.Pulse(x, y, until))
  {
    var s' := s.(flight := s.flight.Minus(p));
    assert forall q :: q in s'.flight.hellos ==> q in s.flight.hellos;
    assert forall q :: q in s'.flight.others ==> q in s.flight.others;
  }

  // ... and removes nothing but that packet.
  lemma TakeLeavesTheRest(s: Net, p: Packet, x: Endpoint, y: Endpoint, until: int)
    requires s.flight.Has(p) && s.flight.Sorted()
    ensures var s' := s.(flight := s.flight.Minus(p));
            && (s.Hello(x, y, until) && !Is(p, x, y, TunnelHello) ==> s'.Hello(x, y, until))
            && (s.Pulse(x, y, until) && !Is(p, x, y, TunnelHello) && !Is(p, x, y, TunnelKeepalive) ==>
                  s'.Pulse(x, y, until))
  {
    OthersRemain(s, s.(flight := s.flight.Minus(p)), p, x, y, until);
  }

  lemma OthersRemain(s: Net, s': Net, p: Packet, x: Endpoint, y: Endpoint, until: int)
    requires s.flight.Sorted()
    requires forall q :: q in s.flight.hellos && q != p ==> q in s'.flight.hellos
    requires forall q :: q in s.flight.others && q != p ==> q in s'.flight.others
    ensures s.Hello(x, y, until) && !Is(p, x, y, TunnelHello) ==> s'.Hello(x, y, until)
    ensures s.Pulse(x, y, until) && !Is(p, x, y, TunnelHello) && !Is(p, x, y, TunnelKeepalive) ==> s'.Pulse(x, y, until)
  {
  }

  predicate Is(p: Packet, x: Endpoint, y: Endpoint, typ: MessageType) {
    p.src == x && p.dst == y && p.msg.typ == typ
  }

  // The packets on their way from x to y after p was taken and, if `answers`, a HELLO was sent.
  ghost predicate Taken(s: Net, s': Net, p: Packet, answers: bool, x: Endpoint, y: Endpoint, until: int) {
    && (s'.Hello(x, y, until) ==> s.Hello(x, y, until) || answers)
    && (answers || (s.Hello(x, y, until) && !Is(p, x, y, TunnelHello)) ==> s'.Hello(x, y, until))
    && (s'.Pulse(x, y, until) ==> s.Pulse(x, y, until) || answers)
    && (answers || (s.Pulse(x, y, until) && !Is(p, x, y, TunnelHello) && !Is(p, x, y, TunnelKeepalive))
        ==> s'.Pulse(x, y, until))
    && (s'.Bye(x, y) ==> s.Bye(x, y))
  }

  ghost predicate SameView(s: Net, s': Net, x: Endpoint, y: Endpoint) {
    && (s'.Knows(x, y) <==> s.Knows(x, y)) && (s'.Holds(x, y) <==> s.Holds(x, y))
    && (s.Knows(x, y) ==> s'.LastSeen(x, y) == s.LastSeen(x, y))
  }

  ghost predicate SameFlight(s: Net, s': Net, x: Endpoint, y: Endpoint, until: int) {
    && (s'.Hello(x, y, until) <==> s.Hello(x, y, until))
    && (s'.Pulse(x, y, until) <==> s.Pulse(x, y, until))
    && (s'.Bye(x, y) <==> s.Bye(x, y))
  }

  predicate Answers(s: Net, p: Packet, x: Endpoint, y: Endpoint) {
    p.dst in s.sites && x == p.dst && Greets(s.sites[p.dst].table, Receive(p.src, p.msg, s.now), y)
  }

  // Everything a step does to x's view of y and to the packets on their way from x to y that were
  // sent no later than `until`.
  ghost predicate Moves(s: Net, s': Net, st: Step, x: Endpoint, y: Endpoint, until: int)
    requires Enabled(s, st)
  {
    && s'.now == (if st.Advance? then st.to else s.now)
    && match st
       case Deliver(p) =>
         && ViewStep(s, s', p.dst, Receive(p.src, p.msg, s.now), x, y)
         && Taken(s, s', p, Answers(s, p, x, y) && s.now <= until, x, y, until)
       case Drop(p) => SameView(s, s', x, y) && Taken(s, s', p, false, x, y, until)
       case Duplicate(p) => SameView(s, s', x, y) && SameFlight(s, s', x, y, until)
       case Advance(to) => SameView(s, s', x, y) && SameFlight(s, s', x, y, until)
       case Local(at, ev) => ViewStep(s, s', at, ev, x, y) && FlightStep(s, s', at, ev, x, y, until)
       case Stop(at) =>
         && (s'.Knows(x, y) <==> x != at && s.Knows(x, y))
         && (s'.Holds(x, y) <==> x != at && s.Holds(x, y))
         && (s'.Knows(x, y) ==> s'.LastSeen(x, y) == s.LastSeen(x, y))
         && (s'.Hello(x, y, until) <==> s.Hello(x, y, until))
         && (s'.Pulse(x, y, until) <==> s.Pulse(x, y, until))
         && (s'.Bye(x, y) <==> s.Bye(x, y) || (x == at && s.Holds(x, y)))
       case Launch(at, peers) =>
         && (s'.Knows(x, y) <==> if x == at then y in peers else s.Knows(x, y))
         && (s'.Holds(x, y) <==> s.Holds(x, y))
         && (s.Knows(x, y) ==> s'.LastSeen(x, y) == s.LastSeen(x, y))
         && SameFlight(s, s', x, y, until)
  }

  lemma ViewIgnoresFlight(s: Net, s1: Net, s': Net, at: Endpoint, ev: Event, x: Endpoint, y: Endpoint)
    requires at in s.sites && s1.sites == s.sites && ViewStep(s1, s', at, ev, x, y)
    ensures ViewStep(s, s', at, ev, x, y)
  {
  }

  lemma TakeThenSend(s: Net, s1: Net, s': Net, p: Packet, x: Endpoint, y: Endpoint, until: int)
    requires p.dst in s.sites && s1.sites == s.sites && s1.now == s.now && Taken(s, s1, p, false, x, y, until)
    requires FlightStep(s1, s', p.dst, Receive(p.src, p.msg, s.now), x, y, until)
    ensures Taken(s, s', p, Answers(s, p, x, y) && s.now <= until, x, y, until)
  {
  }

  lemma DeliverOnPair(s: Net, p: Packet, x: Endpoint, y: Endpoint, until: int)
    requires Enabled(s, Deliver(p)) && s.flight.Sorted()
    ensures Moves(s, Next(s, Deliver(p)), Deliver(p), x, y, until)
  {
    var s1 := s.(flight := s.flight.Minus(p));
    TakeAddsNothing(s, p, x, y, until);
    TakeLeavesTheRest(s, p, x, y, until);
    HappenOnPair(s1, p.dst, Receive(p.src, p.msg, s.now), x, y, until);
    ViewIgnoresFlight(s, s1, Next(s, Deliver(p)), p.dst, Receive(p.src, p.msg, s.now), x, y);
    TakeThenSend(s, s1, Next(s, Deliver(p)), p, x, y, until);
  }

  lemma EqualFlights(s: Net, s': Net, x: Endpoint, y: Endpoint, until: int)
    requires forall q :: q in s'.flight.hellos <==> q in s.flight.hellos
    requires forall q :: q in s'.flight.others <==> q in s.flight.others
    ensures SameFlight(s, s', x, y, until)
  {
  }

  lemma DuplicateOnPair(s: Net, p: Packet, x: Endpoint, y: Endpoint, until: int)
    requires s.flight.Has(p) && s.flight.Sorted()
    ensures Moves(s, Next(s, Duplicate(p)), Duplicate(p), x, y, until)
  {
    EqualFlights(s, Next(s, Duplicate(p)), x, y, until);
  }

  predicate IsGoodbye(s: Net, at: Endpoint, q: Packet) {
    q.src == at && q.sent == s.now && q.msg == BYE && s.Holds(at, q.dst)
  }

  lemma StopAddsGoodbyes(s: Net, at: Endpoint)
    requires at in s.sites
    ensures var f := Next(s, Stop(at)).flight;
            && (forall q :: q in f.hellos <==> q in s.flight.hellos)
            && (forall q :: q in f.others <==> q in s.flight.others || IsGoodbye(s, at, q))
  {
    var posted := Posted(at, Goodbyes(s.sites[at].table), s.now);
    forall q | IsGoodbye(s, at, q)
      ensures q in posted
    {
      assert Send(q.dst, BYE) in Goodbyes(s.sites[at].table);
    }
  }

  lemma StopOnPair(s: Net, at: Endpoint, x: Endpoint, y: Endpoint, until: int)
    requires at in s.sites
    ensures Moves(s, Next(s, Stop(at)), Stop(at), x, y, until)
  {
    GoodbyesSent(s, at, x, y, until);
  }

  lemma GoodbyesSent(s: Net, at: Endpoint, x: Endpoint, y: Endpoint, until: int)
    requires at in s.sites
    ensures var s' := Next(s, Stop(at));
            && (s'.Hello(x, y, until) <==> s.Hello(x, y, until))
            && (s'.Pulse(x, y, until) <==> s.Pulse(x, y, until))
            && (s'.Bye(x, y) <==> s.Bye(x, y) || (x == at && s.Holds(x, y)))
  {
    StopAddsGoodbyes(s, at);
    GoodbyesOnPair(s, Next(s, Stop(at)), at, x, y, until);
  }

  lemma GoodbyesOnPair(s: Net, s': Net, at: Endpoint, x: Endpoint, y: Endpoint, until: int)
    requires forall q :: q in s'.flight.hellos <==> q in s.flight.hellos
    requires forall q :: q in s'.flight.others <==> q in s.flight.others || IsGoodbye(s, at, q)
    ensures s'.Hello(x, y, until) <==> s.Hello(x, y, until)
    ensures s'.Pulse(x, y, until) <==> s.Pulse(x, y, until)
    ensures s'.Bye(x, y) <==> s.Bye(x, y) || (x == at && s.Holds(x, y))
  {
    assert x == at && s.Holds(x, y) ==> IsGoodbye(s, at, Packet(x, y, BYE, s.now));
  }

  lemma StepOnPair(s: Net, st: Step, x: Endpoint, y: Endpoint, until: int)
    requires Enabled(s, st) && s.flight.Sorted()
    ensures Moves(s, Next(s, st), st, x, y, until)
  {
    match st
    case Deliver(p) => DeliverOnPair(s, p, x, y, until);
    case Drop(p) =>
      TakeAddsNothing(s, p, x, y, until);
      TakeLeavesTheRest(s, p, x, y, until);
    case Duplicate(p) => DuplicateOnPair(s, p, x, y, until);
    case Advance(to) =>
    case Local(at, ev) => HappenOnPair(s, at, ev, x, y, until);
    case Stop(at) => StopOnPair(s, at, x, y, until);
    case Launch(at, peers) =>
  }

  // After a step every packet in flight was in flight before, or has just been sent by a site.
  lemma PacketsAreOldOrNew(s: Net, st: Step)
    requires Enabled(s, st)
    ensures forall p :: Next(s, st).flight.Has(p) ==> s.flight.Has(p) || (p.sent == s.now && p.src in s.sites)
    ensures !st.Launch? ==> Next(s, st).sites.Keys <= s.sites.Keys
    ensures Next(s, st).now == if st.Advance? then st.to else s.now
  {
    match st
    case Deliver(p) =>
      var ev := Receive(p.src, p.msg, s.now);
      FlightGrowsBySends(s.(flight := s.flight.Minus(p)), p.dst, Apply(s.sites[p.dst].table, ev), false);
    case Local(at, ev) => FlightGrowsBySends(s, at, Apply(s.sites[at].table, ev), ev.Pass?);
    case _ =>
  }

  lemma StepKeepsSorted(s: Net, st: Step)
    requires Enabled(s, st) && s.flight.Sorted()
    ensures Next(s, st).flight.Sorted()
  {
  }

  // A data message received from one peer is never passed on to another: delivering it only takes it
  // off the network.
  lemma DataIsNotRelayedOn(s: Net, p: Packet)
    requires Enabled(s, Deliver(p)) && !p.msg.typ.IsControl()
    ensures Next(s, Deliver(p)).flight == s.flight.Minus(p)
  {
    var s1 := s.(flight := s.flight.Minus(p));
    var o := Apply(s.sites[p.dst].table, Receive(p.src, p.msg, s.now));
    assert Posted(p.dst, o.sends, s.now) == {};
    assert s1.flight.Plus({}) == s1.flight;
  }
}
