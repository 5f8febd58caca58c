// Between two maintenance passes the exchange of HELLOs dies down by itself, for any number of
// instances.
module Termination {
  import opened LinkTypes
  import opened TunnelTable
  import opened Network

  // Pairs of an instance and an endpoint it does not know ...
  ghost function Strangers(s: Net, all: set<Endpoint>): set<(Endpoint, Endpoint)> {
    set y, x | y in s.sites && x in all && !s.Knows(y, x) :: (y, x)
  }

  // ... and of an instance and an endpoint it knows but does not hold CONNECTED.
  ghost function Unjoined(s: Net, all: set<Endpoint>): set<(Endpoint, Endpoint)> {
    set y, x | y in s.sites && x in all && s.Knows(y, x) && !s.Holds(y, x) :: (y, x)
  }

  // Every HELLO in flight counts 1, every stranger 3, every known but unconnected pair 1.
  ghost function Measure(s: Net, all: set<Endpoint>): nat {
    |s.flight.hellos| + 3 * |Strangers(s, all)| + |Unjoined(s, all)|
  }

  ghost predicate Within(s: Net, all: set<Endpoint>) {
    && s.sites.Keys <= all && s.flight.Sorted()
    && (forall p :: p in s.flight.hellos ==> p.src in all)
  }

  // A step between passes: no pass, BYE, add, remove, start or shutdown, and no duplication by the network.
  ghost predicate BetweenPasses(st: Step, all: set<Endpoint>) {
    match st
    case Deliver(p) => !p.msg.typ.TunnelBye?
    case Drop(p) => true
    case Duplicate(p) => false
    case Advance(to) => true
    case Local(at, ev) => (ev.Accept? && ev.peer in all) || ev.Reject? || ev.Forward?
    case Stop(at) => false
    case Launch(at, peers) => false
  }

  // The steps that cost something: delivering a HELLO, and accepting an endpoint not yet known.
  predicate Costs(s: Net, st: Step) {
    (st.Deliver? && st.p.msg.typ.TunnelHello?) || (st.Local? && st.ev.Accept? && !s.Knows(st.at, st.ev.peer))
  }

  lemma SameViewsSameSets(s: Net, s': Net, all: set<Endpoint>)
    requires s.sites.Keys == s'.sites.Keys
    requires forall x, y :: (s'.Knows(x, y) <==> s.Knows(x, y)) && (s'.Holds(x, y) <==> s.Holds(x, y))
    ensures Strangers(s', all) == Strangers(s, all) && Unjoined(s', all) == Unjoined(s, all)
  {
  }

  // y connects to x and nothing else changes.
  lemma JoiningShrinksUnjoined(s: Net, s': Net, all: set<Endpoint>, y: Endpoint, x: Endpoint)
    requires s.sites.Keys == s'.sites.Keys && x in all && s.Knows(y, x) && !s.Holds(y, x) && s'.Holds(y, x)
    requires forall u, v :: s'.Knows(u, v) <==> s.Knows(u, v)
    requires forall u, v :: (u, v) != (y, x) ==> (s'.Holds(u, v) <==> s.Holds(u, v))
    ensures Strangers(s', all) == Strangers(s, all)
    ensures Unjoined(s', all) == Unjoined(s, all) - {(y, x)} && (y, x) in Unjoined(s, all)
  {
  }

  // y comes to know x and nothing else changes.
  lemma AdmittingTradesStranger(s: Net, s': Net, all: set<Endpoint>, y: Endpoint, x: Endpoint)
    requires s.sites.Keys == s'.sites.Keys && x in all && y in s.sites
    requires !s.Knows(y, x) && s'.Knows(y, x) && !s'.Holds(y, x)
    requires forall u, v :: (u, v) != (y, x) ==> (s'.Knows(u, v) <==> s.Knows(u, v))
    requires forall u, v :: (u, v) != (y, x) ==> (s'.Holds(u, v) <==> s.Holds(u, v))
    ensures Strangers(s', all) == Strangers(s, all) - {(y, x)} && (y, x) in Strangers(s, all)
    ensures Unjoined(s', all) == Unjoined(s, all) + {(y, x)}
  {
  }

  lemma NothingGreeted(s: Net, ps: set<Packet>)
    requires forall p :: p in ps ==> !p.msg.typ.TunnelHello?
    ensures s.flight.Plus(ps).hellos == s.flight.hellos
  {
    assert (set p | p in ps && p.msg.typ.TunnelHello?) == {};
  }

  lemma OneGreeted(s: Net, p: Packet)
    requires p.msg.typ.TunnelHello?
    ensures s.flight.Plus({p}).hellos == s.flight.hellos + multiset{p}
  {
    assert (set q | q in {p} && q.msg.typ.TunnelHello?) == {p};
  }

  lemma AcceptDecreases(s: Net, at: Endpoint, e: Endpoint, all: set<Endpoint>)
    requires Within(s, all) && at in s.sites && e in all && !s.Knows(at, e)
    ensures Measure(Next(s, Local(at, Accept(e))), all) + 1 == Measure(s, all)
  {
    var s' := Next(s, Local(at, Accept(e)));
    var o := Apply(s.sites[at].table, Accept(e));
    assert Posted(at, o.sends, s.now) == {Packet(at, e, HELLO, s.now)};
    OneGreeted(s, Packet(at, e, HELLO, s.now));
    AdmittingTradesStranger(s, s', all, at, e);
  }

  lemma AnsweredHelloDecreases(s: Net, p: Packet, all: set<Endpoint>)
    requires Within(s, all) && Enabled(s, Deliver(p)) && p.msg.typ.TunnelHello?
    requires s.Knows(p.dst, p.src) && !s.Holds(p.dst, p.src)
    ensures Measure(Next(s, Deliver(p)), all) + 1 == Measure(s, all)
  {
    var o := Apply(s.sites[p.dst].table, Receive(p.src, p.msg, s.now));
    assert Posted(p.dst, o.sends, s.now) == {Packet(p.dst, p.src, HELLO, s.now)};
    OneGreeted(s.(flight := s.flight.Minus(p)), Packet(p.dst, p.src, HELLO, s.now));
    JoiningShrinksUnjoined(s, Next(s, Deliver(p)), all, p.dst, p.src);
  }

  lemma UnansweredHelloDecreases(s: Net, p: Packet, all: set<Endpoint>)
    requires Within(s, all) && Enabled(s, Deliver(p)) && p.msg.typ.TunnelHello?
    requires s.Knows(p.dst, p.src) ==> s.Holds(p.dst, p.src)
    ensures Measure(Next(s, Deliver(p)), all) + 1 == Measure(s, all)
  {
    var o := Apply(s.sites[p.dst].table, Receive(p.src, p.msg, s.now));
    NothingGreeted(s.(flight := s.flight.Minus(p)), Posted(p.dst, o.sends, s.now));
    SameViewsSameSets(s, Next(s, Deliver(p)), all);
  }

  lemma HelloDecreases(s: Net, p: Packet, all: set<Endpoint>)
    requires Within(s, all) && Enabled(s, Deliver(p)) && p.msg.typ.TunnelHello?
    ensures Measure(Next(s, Deliver(p)), all) + 1 == Measure(s, all)
  {
    if s.Knows(p.dst, p.src) && !s.Holds(p.dst, p.src) {
      AnsweredHelloDecreases(s, p, all);
    } else {
      UnansweredHelloDecreases(s, p, all);
    }
  }

  lemma OtherDeliveriesKeepMeasure(s: Net, p: Packet, all: set<Endpoint>)
    requires Within(s, all) && Enabled(s, Deliver(p)) && !p.msg.typ.TunnelBye? && !p.msg.typ.TunnelHello?
    ensures Measure(Next(s, Deliver(p)), all) == Measure(s, all)
  {
    var o := Apply(s.sites[p.dst].table, Receive(p.src, p.msg, s.now));
    NothingGreeted(s.(flight := s.flight.Minus(p)), Posted(p.dst, o.sends, s.now));
    SameViewsSameSets(s, Next(s, Deliver(p)), all);
  }

  lemma OtherEventsKeepMeasure(s: Net, at: Endpoint, ev: Event, all: set<Endpoint>)
    requires Within(s, all) && Enabled(s, Local(at, ev)) && !Costs(s, Local(at, ev))
    requires ev.Accept? || ev.Reject? || ev.Forward?
    ensures Measure(Next(s, Local(at, ev)), all) == Measure(s, all)
  {
    NothingGreeted(s, Posted(at, Apply(s.sites[at].table, ev).sends, s.now));
    SameViewsSameSets(s, Next(s, Local(at, ev)), all);
  }

  lemma OtherStepsKeepMeasure(s: Net, st: Step, all: set<Endpoint>)
    requires Within(s, all) && Enabled(s, st) && BetweenPasses(st, all) && !Costs(s, st)
    ensures Measure(Next(s, st), all) <= Measure(s, all)
  {
    match st
    case Deliver(p) => OtherDeliveriesKeepMeasure(s, p, all);
    case Local(at, ev) => OtherEventsKeepMeasure(s, at, ev, all);
    case Drop(p) => SameViewsSameSets(s, Next(s, st), all);
    case Advance(to) => SameViewsSameSets(s, Next(s, st), all);
  }

  lemma StepKeepsWithin(s: Net, st: Step, all: set<Endpoint>)
    requires Within(s, all) && Enabled(s, st) && BetweenPasses(st, all)
    ensures Within(Next(s, st), all)
  {
    PacketsAreOldOrNew(s, st);
    StepKeepsSorted(s, st);
  }

  ghost predicate AllBetweenPasses(run: seq<Step>, all: set<Endpoint>) {
    forall i :: 0 <= i < |run| ==> BetweenPasses(run[i], all)
  }

  // The number of costly steps in a run.
  ghost function Cost(s: Net, run: seq<Step>): nat
    requires Legal(s, run)
    decreases |run|
  {
    if run == [] then 0 else (if Costs(s, run[0]) then 1 else 0) + Cost(Next(s, run[0]), run[1..])
  }

  // However the packets are reordered or lost, a run between passes delivers HELLOs and admits
  // endpoints at most as often as the measure says, and the measure pays for each.
  lemma {:induction false} HelloExchangeTerminates(s: Net, run: seq<Step>, all: set<Endpoint>)
    requires Within(s, all) && Legal(s, run) && AllBetweenPasses(run, all)
    ensures Cost(s, run) + Measure(End(s, run), all) <= Measure(s, all)
    decreases |run|
  {
    if run != [] {
      var st := run[0];
      assert BetweenPasses(st, all);
      StepKeepsWithin(s, st, all);
      HelloExchangeTerminates(Next(s, st), run[1..], all);
      if Costs(s, st) {
        if st.Deliver? { HelloDecreases(s, st.p, all); } else { AcceptDecreases(s, st.at, st.ev.peer, all); }
      } else {
        OtherStepsKeepMeasure(s, st, all);
      }
    }
  }
}
