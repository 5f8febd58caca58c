// The handshake over any number of instances: agreement in loss-free runs, termination of the
// HELLO exchange, and the half-open state that a lost echo leaves behind.
module Handshake {
  import opened LinkTypes
  import opened TunnelTable
  import opened Network

  /* Agreement */

  // A loss-free step: nothing is dropped, nobody is removed, stopped or timed out.
  ghost predicate Calm(s: Net, st: Step) {
    && !st.Drop? && !st.Stop?
    && (st.Local? ==> !st.ev.Remove?)
    && (st.Local? && st.ev.Pass? ==> !Expires(s, st.at))
  }

  // A pass at x now would time a peer out.
  ghost predicate Expires(s: Net, x: Endpoint) {
    exists y :: s.Holds(x, y) && TimesOut(s.sites[x].table.peers[y], s.now)
  }

  ghost predicate NoBye(s: Net) {
    forall p :: s.flight.Has(p) ==> !p.msg.typ.TunnelBye?
  }

  ghost predicate HelloInFlight(s: Net, x: Endpoint, y: Endpoint) {
    s.Hello(x, y, s.now)
  }

  // Whoever x holds or has greeted knows x back, and if x holds y while y does not hold x, then a
  // HELLO from x to y is on its way.
  ghost predicate Agrees(s: Net, x: Endpoint, y: Endpoint) {
    && (s.Holds(x, y) || HelloInFlight(s, y, x) ==> s.Knows(y, x))
    && (s.Holds(x, y) && !s.Holds(y, x) ==> HelloInFlight(s, x, y))
  }

  ghost predicate Agreement(s: Net) {
    Sane(s) && NoBye(s) && forall x, y :: Agrees(s, x, y)
  }

  lemma StartAgrees(now: int, config: map<Endpoint, set<Endpoint>>)
    ensures Agreement(Start(now, config))
  {
    var s := Start(now, config);
    forall x | x in s.sites ensures SaneSite(s.sites[x], now) {}
  }

  lemma MovesKeepAgrees(s: Net, s': Net, st: Step, x: Endpoint, y: Endpoint)
    requires Agrees(s, x, y) && Agrees(s, y, x)
    requires Enabled(s, st) && Calm(s, st) && s.now <= s'.now
    requires Moves(s, s', st, x, y, s'.now) && Moves(s, s', st, y, x, s'.now)
    requires s.Hello(x, y, s.now) <==> s.Hello(x, y, s'.now)
    requires s.Hello(y, x, s.now) <==> s.Hello(y, x, s'.now)
    requires st.Deliver? ==> !st.p.msg.typ.TunnelBye?
    requires st.Deliver? && st.p.msg.typ.TunnelHello? ==> s.Hello(st.p.src, st.p.dst, s.now)
    ensures Agrees(s', x, y)
  {
  }

  lemma NothingFromTheFuture(s: Net, x: Endpoint, y: Endpoint, until: int)
    requires Sane(s) && s.now <= until
    ensures s.Hello(x, y, s.now) <==> s.Hello(x, y, until)
  {
  }

  lemma ByeIsFiled(s: Net, p: Packet)
    requires s.flight.Sorted() && s.flight.Has(p) && p.msg.typ.TunnelBye?
    ensures s.Bye(p.src, p.dst)
  {
  }

  lemma StepKeepsNoBye(s: Net, st: Step)
    requires Sane(s) && NoBye(s) && Enabled(s, st) && Calm(s, st)
    ensures NoBye(Next(s, st))
  {
    var s' := Next(s, st);
    StepKeepsSorted(s, st);
    forall p | s'.flight.Has(p)
      ensures !p.msg.typ.TunnelBye?
    {
      if p.msg.typ.TunnelBye? {
        ByeIsFiled(s', p);
        NoByeAppears(s, st, p.src, p.dst);
      }
    }
  }

  lemma NoByeAppears(s: Net, st: Step, x: Endpoint, y: Endpoint)
    requires s.flight.Sorted() && NoBye(s) && Enabled(s, st) && Calm(s, st)
    ensures !Next(s, st).Bye(x, y)
  {
    StepOnPair(s, st, x, y, s.now);
  }

  lemma DeliveredWasInFlight(s: Net, p: Packet)
    requires Sane(s) && s.flight.Has(p)
    ensures p.msg.typ.TunnelHello? ==> s.Hello(p.src, p.dst, s.now)
    ensures p.msg.typ.TunnelBye? ==> s.Bye(p.src, p.dst)
  {
  }

  lemma StepKeepsAgrees(s: Net, st: Step, x: Endpoint, y: Endpoint)
    requires Agreement(s) && Enabled(s, st) && Calm(s, st)
    ensures Agrees(Next(s, st), x, y)
  {
    var s' := Next(s, st);
    if st.Deliver? {
      DeliveredWasInFlight(s, st.p);
    }
    assert Agrees(s, x, y) && Agrees(s, y, x);
    StepOnPair(s, st, x, y, s'.now);
    StepOnPair(s, st, y, x, s'.now);
    NothingFromTheFuture(s, x, y, s'.now);
    NothingFromTheFuture(s, y, x, s'.now);
    MovesKeepAgrees(s, s', st, x, y);
  }

  lemma StepKeepsAgreement(s: Net, st: Step)
    requires Agreement(s) && Enabled(s, st) && Calm(s, st)
    ensures Agreement(Next(s, st))
  {
    StepKeepsSane(s, st);
    StepKeepsNoBye(s, st);
    forall x, y
      ensures Agrees(Next(s, st), x, y)
    {
      StepKeepsAgrees(s, st, x, y);
    }
  }

  ghost predicate CalmRun(s: Net, run: seq<Step>)
    requires Legal(s, run)
    decreases |run|
  {
    run != [] ==> Calm(s, run[0]) && CalmRun(Next(s, run[0]), run[1..])
  }

  lemma {:induction false} RunKeepsAgreement(s: Net, run: seq<Step>)
    requires Agreement(s) && Legal(s, run) && CalmRun(s, run)
    ensures Agreement(End(s, run))
    decreases |run|
  {
    if run != [] {
      StepKeepsAgreement(s, run[0]);
      RunKeepsAgreement(Next(s, run[0]), run[1..]);
    }
  }

  // Whatever the number of instances and the order of delivery: in a loss-free run, if x holds y
  // CONNECTED and y does not hold x, then y knows x and a HELLO from x to y is on its way; so with
  // no HELLO left in flight both ends of every pair agree.
  lemma BothEndsAgree(now: int, config: map<Endpoint, set<Endpoint>>, run: seq<Step>, x: Endpoint, y: Endpoint)
    requires Legal(Start(now, config), run) && CalmRun(Start(now, config), run)
    ensures var s := End(Start(now, config), run);
            && (s.Holds(x, y) ==> s.Knows(y, x))
            && (s.Holds(x, y) && !s.Holds(y, x) ==> HelloInFlight(s, x, y))
            && (s.flight.hellos == multiset{} ==> (s.Holds(x, y) <==> s.Holds(y, x)))
  {
    StartAgrees(now, config);
    RunKeepsAgreement(Start(now, config), run);
    var s := End(Start(now, config), run);
    assert Agrees(s, x, y) && Agrees(s, y, x);
  }

  lemma CalmStepKeepsHolds(s: Net, st: Step, x: Endpoint, y: Endpoint)
    requires Agreement(s) && Enabled(s, st) && Calm(s, st) && s.Holds(x, y)
    ensures Next(s, st).Holds(x, y)
  {
    StepOnPair(s, st, x, y, s.now);
  }

  lemma {:induction false} CalmRunKeepsHolds(s: Net, run: seq<Step>, x: Endpoint, y: Endpoint)
    requires Agreement(s) && Legal(s, run) && CalmRun(s, run) && s.Holds(x, y)
    ensures End(s, run).Holds(x, y)
    decreases |run|
  {
    if run != [] {
      CalmStepKeepsHolds(s, run[0], x, y);
      StepKeepsAgreement(s, run[0]);
      CalmRunKeepsHolds(Next(s, run[0]), run[1..], x, y);
    }
  }

  // One delivered HELLO is enough: once the exchange it starts has died down, both ends hold each
  // other CONNECTED.
  lemma DeliveredHelloConnectsBoth(s: Net, p: Packet, run: seq<Step>)
    requires Agreement(s) && Enabled(s, Deliver(p)) && p.msg.typ.TunnelHello? && s.Knows(p.dst, p.src)
    requires Legal(Next(s, Deliver(p)), run) && CalmRun(Next(s, Deliver(p)), run)
    requires End(Next(s, Deliver(p)), run).flight.hellos == multiset{}
    ensures var e := End(Next(s, Deliver(p)), run); e.Holds(p.src, p.dst) && e.Holds(p.dst, p.src)
  {
    StepOnPair(s, Deliver(p), p.dst, p.src, s.now);
    var s' := Next(s, Deliver(p));
    assert s'.Holds(p.dst, p.src);
    StepKeepsAgreement(s, Deliver(p));
    CalmRunKeepsHolds(s', run, p.dst, p.src);
    RunKeepsAgreement(s', run);
    HeldBothWays(End(s', run), p.dst, p.src);
  }

  lemma HeldBothWays(s: Net, x: Endpoint, y: Endpoint)
    requires Agreement(s) && s.Holds(x, y) && s.flight.hellos == multiset{}
    ensures s.Holds(y, x)
  {
    assert Agrees(s, x, y);
  }

  /* The half-open pair */

  // y holds x CONNECTED, x does not hold y, and nothing on its way can change that.
  ghost predicate HalfOpen(s: Net, x: Endpoint, y: Endpoint) {
    s.Holds(y, x) && !s.Holds(x, y) && !HelloInFlight(s, y, x) && !s.Bye(x, y)
  }

  // The only ways out: y times x out, one of them removes the other, or y stops.
  ghost predicate Exits(s: Net, st: Step, x: Endpoint, y: Endpoint) {
    || (st.Local? && st.at == y && s.Holds(y, x) && st.ev.Pass? && TimesOut(s.sites[y].table.peers[x], st.ev.now))
    || st == Local(y, Remove(x))
    || (st == Local(x, Remove(y)) && s.Knows(x, y))
    || st == Stop(y)
  }

  lemma MovesKeepHalfOpen(s: Net, s': Net, st: Step, x: Endpoint, y: Endpoint)
    requires HalfOpen(s, x, y) && Enabled(s, st)
    requires Moves(s, s', st, x, y, s'.now) && Moves(s, s', st, y, x, s'.now)
    requires s.Hello(y, x, s.now) <==> s.Hello(y, x, s'.now)
    requires st.Deliver? && st.p.msg.typ.TunnelHello? ==> s.Hello(st.p.src, st.p.dst, s.now)
    requires st.Deliver? && st.p.msg.typ.TunnelBye? ==> s.Bye(st.p.src, st.p.dst)
    ensures HalfOpen(s', x, y) <==> !Exits(s, st, x, y)
  {
  }

  // A half-open pair stays half-open under every delivery, loss, duplication, pass and local
  // action, except exactly the exits.
  lemma HalfOpenEndsOnlyByExit(s: Net, st: Step, x: Endpoint, y: Endpoint)
    requires Sane(s) && Enabled(s, st) && HalfOpen(s, x, y)
    ensures HalfOpen(Next(s, st), x, y) <==> !Exits(s, st, x, y)
  {
    var s' := Next(s, st);
    StepOnPair(s, st, x, y, s'.now);
    StepOnPair(s, st, y, x, s'.now);
    NothingFromTheFuture(s, y, x, s'.now);
    if st.Deliver? {
      DeliveredWasInFlight(s, st.p);
    }
    MovesKeepHalfOpen(s, s', st, x, y);
  }

  // While it lasts, nothing x relays reaches y, and nothing y relays reaches x's gateways.
  lemma HalfOpenRelaysNothing(s: Net, x: Endpoint, y: Endpoint, msg: Message)
    requires HalfOpen(s, x, y) && x in s.sites && !msg.typ.IsControl() && s.sites[x].table.Valid()
    ensures forall d :: d in Apply(s.sites[x].table, Forward(msg)).sends ==> d.to != y
    ensures Apply(s.sites[x].table, Receive(y, msg, s.now)).upcall.None?
  {
  }
}
