// What the maintenance timer guarantees: no false timeouts, prompt detection of silence, prompt
// connection, and the permanence of a half-open pair.  `gap` bounds the time between two passes of
// one instance and `delay` the time a datagram travels.
module Timing {
  import opened LinkTypes
  import opened TunnelTable
  import opened Network
  import opened Handshake

  // x's next pass is not overdue, nor is any packet from x to y.
  ghost predicate OnTime(s: Net, x: Endpoint, y: Endpoint, gap: int, delay: int) {
    && (x in s.sites ==> s.now <= s.sites[x].lastPass + gap)
    && (y in s.sites ==> forall p :: s.flight.Has(p) && p.src == x && p.dst == y ==> s.now <= p.sent + delay)
  }

  // The clock may not move past either deadline, and no overdue packet awaits an instance that starts.
  ghost predicate Punctual(s: Net, st: Step, x: Endpoint, y: Endpoint, gap: int, delay: int)
    requires Enabled(s, st)
  {
    st.Advance? || st.Launch? ==> OnTime(Next(s, st), x, y, gap, delay)
  }

  lemma StepKeepsOnTime(s: Net, st: Step, x: Endpoint, y: Endpoint, gap: int, delay: int)
    requires Enabled(s, st) && gap >= 0 && delay >= 0
    requires OnTime(s, x, y, gap, delay) && Punctual(s, st, x, y, gap, delay)
    ensures OnTime(Next(s, st), x, y, gap, delay)
  {
    if !st.Launch? {
      PacketsAreOldOrNew(s, st);
      if x in Next(s, st).sites {
        LastPassAfter(s, st, x);
      }
    }
  }

  // The last time y heard x is no earlier than x's last pass, or a sign of life that x sent at most
  // `gap` after that time is still on its way.
  ghost predicate Audible(s: Net, x: Endpoint, y: Endpoint, gap: int)
    requires s.Holds(y, x)
  {
    && s.Knows(x, y)
    && (s.LastSeen(y, x) >= s.sites[x].lastPass || s.Pulse(x, y, s.LastSeen(y, x) + gap))
  }

  // An audible peer has been heard recently enough.
  lemma AudibleIsRecent(s: Net, x: Endpoint, y: Endpoint, gap: int, delay: int)
    requires gap >= 0 && delay >= 0 && OnTime(s, x, y, gap, delay)
    requires s.Holds(y, x) && Audible(s, x, y, gap)
    ensures s.now - s.LastSeen(y, x) <= gap + delay
  {
  }

  // x passes without being stopped, forgetting y or timing y out, and its signs of life are not lost.
  ghost predicate KeepsTalking(s: Net, st: Step, x: Endpoint, y: Endpoint) {
    && st != Stop(x) && st != Local(x, Remove(y))
    && (st.Drop? ==> !Is(st.p, x, y, TunnelHello) && !Is(st.p, x, y, TunnelKeepalive))
    && (st.Local? && st.at == x && st.ev.Pass? && s.Holds(x, y) ==> !TimesOut(s.sites[x].table.peers[y], st.ev.now))
  }

  lemma LastPassAfter(s: Net, st: Step, x: Endpoint)
    requires Enabled(s, st) && x in s.sites && st != Stop(x)
    ensures x in Next(s, st).sites
    ensures Next(s, st).sites[x].lastPass
         == if st.Local? && st.at == x && st.ev.Pass? then s.now else s.sites[x].lastPass
  {
  }

  lemma LastPassStays(s: Net, st: Step, x: Endpoint)
    requires Sane(s) && Enabled(s, st) && x in s.sites && st != Stop(x) && st != Local(x, Pass(s.now))
    ensures x in Next(s, st).sites && Next(s, st).sites[x].lastPass == s.sites[x].lastPass <= s.now
  {
    LastPassAfter(s, st, x);
    assert SaneSite(s.sites[x], s.now);
  }

  lemma PassKeepsAudible(s: Net, x: Endpoint, y: Endpoint, gap: int, delay: int)
    requires Sane(s) && x in s.sites && KeepsTalking(s, Local(x, Pass(s.now)), x, y) && gap >= 0
    requires s.Holds(y, x) && Audible(s, x, y, gap) && OnTime(s, x, y, gap, delay)
    ensures var s' := Next(s, Local(x, Pass(s.now))); s'.Holds(y, x) ==> Audible(s', x, y, gap)
  {
    StepOnPair(s, Local(x, Pass(s.now)), y, x, s.now);
    StepOnPair(s, Local(x, Pass(s.now)), x, y, s.LastSeen(y, x) + gap);
  }

  // Either y's record of x stands, or it has just been renewed ...
  lemma HeardNowOrBefore(s: Net, st: Step, x: Endpoint, y: Endpoint)
    requires Sane(s) && Enabled(s, st) && s.Holds(y, x) && Next(s, st).Holds(y, x)
    ensures Next(s, st).LastSeen(y, x) == s.LastSeen(y, x) || Next(s, st).LastSeen(y, x) == s.now
    ensures st.Deliver? && (Is(st.p, x, y, TunnelHello) || Is(st.p, x, y, TunnelKeepalive)) ==>
              Next(s, st).LastSeen(y, x) == s.now
  {
    StepOnPair(s, st, y, x, s.now);
  }

  // ... and x still knows y, and what it has sent is still on its way unless it has just arrived.
  lemma SignsOfLifeStay(s: Net, st: Step, x: Endpoint, y: Endpoint, until: int)
    requires Sane(s) && Enabled(s, st) && KeepsTalking(s, st, x, y) && s.Knows(x, y)
    ensures Next(s, st).Knows(x, y)
    ensures s.Pulse(x, y, until) ==>
              || Next(s, st).Pulse(x, y, until)
              || (st.Deliver? && (Is(st.p, x, y, TunnelHello) || Is(st.p, x, y, TunnelKeepalive)))
  {
    StepOnPair(s, st, x, y, until);
  }

  lemma StepKeepsAudible(s: Net, st: Step, x: Endpoint, y: Endpoint, gap: int, delay: int)
    requires Sane(s) && Enabled(s, st) && KeepsTalking(s, st, x, y) && gap >= 0
    requires s.Holds(y, x) && Audible(s, x, y, gap) && OnTime(s, x, y, gap, delay)
    ensures Next(s, st).Holds(y, x) ==> Audible(Next(s, st), x, y, gap)
  {
    if st == Local(x, Pass(s.now)) {
      PassKeepsAudible(s, x, y, gap, delay);
    } else if Next(s, st).Holds(y, x) {
      HeardNowOrBefore(s, st, x, y);
      SignsOfLifeStay(s, st, x, y, s.LastSeen(y, x) + gap);
      LastPassStays(s, st, x);
    }
  }

  // A peer that becomes connected has just been heard.
  lemma ConnectedByHelloOnly(s: Net, st: Step, x: Endpoint, y: Endpoint)
    requires Sane(s) && Enabled(s, st) && !s.Holds(y, x) && Next(s, st).Holds(y, x)
    ensures st.Deliver? && Is(st.p, x, y, TunnelHello) && Next(s, st).LastSeen(y, x) == s.now
  {
    StepOnPair(s, st, y, x, s.now);
  }

  /* No false timeouts */

  // No loss, no removal, no shutdown, and every clock and datagram on time.
  ghost predicate Gentle(s: Net, st: Step, gap: int, delay: int)
    requires Enabled(s, st)
  {
    && !st.Drop? && !st.Stop? && (st.Local? ==> !st.ev.Remove?)
    && (forall x, y :: Punctual(s, st, x, y, gap, delay))
  }

  ghost predicate GentleRun(s: Net, run: seq<Step>, gap: int, delay: int)
    requires Legal(s, run)
    decreases |run|
  {
    run != [] ==> Gentle(s, run[0], gap, delay) && GentleRun(Next(s, run[0]), run[1..], gap, delay)
  }

  ghost predicate Healthy(s: Net, gap: int, delay: int) {
    && Agreement(s)
    && (forall x, y :: OnTime(s, x, y, gap, delay))
    && (forall x, y :: s.Holds(y, x) ==> Audible(s, x, y, gap))
  }

  lemma NobodyExpires(s: Net, gap: int, delay: int, x: Endpoint)
    requires Healthy(s, gap, delay) && gap >= 0 && delay >= 0 && gap + delay <= KEEPALIVE_TIMEOUT
    ensures !Expires(s, x)
    ensures forall y :: s.Holds(x, y) ==> !TimesOut(s.sites[x].table.peers[y], s.now)
  {
    forall y | s.Holds(x, y)
      ensures s.now - s.LastSeen(x, y) <= gap + delay
    {
      assert Audible(s, y, x, gap);
      AudibleIsRecent(s, y, x, gap, delay);
    }
  }

  lemma StepKeepsPairAudible(s: Net, st: Step, gap: int, delay: int, x: Endpoint, y: Endpoint)
    requires Healthy(s, gap, delay) && gap >= 0 && delay >= 0 && gap + delay <= KEEPALIVE_TIMEOUT
    requires Enabled(s, st) && Gentle(s, st, gap, delay) && Agreement(Next(s, st)) && Next(s, st).Holds(y, x)
    ensures Audible(Next(s, st), x, y, gap)
  {
    if s.Holds(y, x) {
      NobodyExpires(s, gap, delay, x);
      StepKeepsAudible(s, st, x, y, gap, delay);
    } else {
      ConnectedByHelloOnly(s, st, x, y);
      assert Agrees(Next(s, st), y, x);
      LastPassAfter(s, st, x);
    }
  }

  lemma StepKeepsHealthy(s: Net, st: Step, gap: int, delay: int)
    requires Healthy(s, gap, delay) && gap >= 0 && delay >= 0 && gap + delay <= KEEPALIVE_TIMEOUT
    requires Enabled(s, st) && Gentle(s, st, gap, delay)
    ensures Calm(s, st) && Healthy(Next(s, st), gap, delay)
  {
    if st.Local? {
      NobodyExpires(s, gap, delay, st.at);
    }
    StepKeepsAgreement(s, st);
    forall x, y
      ensures OnTime(Next(s, st), x, y, gap, delay)
    {
      StepKeepsOnTime(s, st, x, y, gap, delay);
    }
    forall x, y | Next(s, st).Holds(y, x)
      ensures Audible(Next(s, st), x, y, gap)
    {
      StepKeepsPairAudible(s, st, gap, delay, x, y);
    }
  }

  lemma {:induction false} RunKeepsHealthy(s: Net, run: seq<Step>, gap: int, delay: int)
    requires Healthy(s, gap, delay) && gap >= 0 && delay >= 0 && gap + delay <= KEEPALIVE_TIMEOUT
    requires Legal(s, run) && GentleRun(s, run, gap, delay)
    ensures CalmRun(s, run) && Healthy(End(s, run), gap, delay)
    decreases |run|
  {
    if run != [] {
      StepKeepsHealthy(s, run[0], gap, delay);
      RunKeepsHealthy(Next(s, run[0]), run[1..], gap, delay);
    }
  }

  lemma StartIsHealthy(now: int, config: map<Endpoint, set<Endpoint>>, gap: int, delay: int)
    requires gap >= 0 && delay >= 0
    ensures Healthy(Start(now, config), gap, delay)
  {
    StartAgrees(now, config);
  }

  // In every loss-free run with passes at most `gap` apart and datagrams delayed by at most
  // `delay`, where gap + delay is within the keepalive timeout, no pass ever times a peer out; and
  // so, with no HELLO in flight, the two ends of every pair agree.
  lemma NoFalseTimeout(now: int, config: map<Endpoint, set<Endpoint>>, run: seq<Step>, gap: int, delay: int,
                       x: Endpoint, y: Endpoint)
    requires gap >= 0 && delay >= 0 && gap + delay <= KEEPALIVE_TIMEOUT
    requires Legal(Start(now, config), run) && GentleRun(Start(now, config), run, gap, delay)
    ensures var s := End(Start(now, config), run);
            && (s.Holds(x, y) ==> s.now - s.LastSeen(x, y) <= gap + delay)
            && !Expires(s, x)
            && (s.flight.hellos == multiset{} ==> (s.Holds(x, y) <==> s.Holds(y, x)))
  {
    StartIsHealthy(now, config, gap, delay);
    RunKeepsHealthy(Start(now, config), run, gap, delay);
    BothEndsAgree(now, config, run, x, y);
    var s := End(Start(now, config), run);
    NobodyExpires(s, gap, delay, x);
    if s.Holds(x, y) {
      assert Audible(s, y, x, gap);
      AudibleIsRecent(s, y, x, gap, delay);
    }
  }

  /* Prompt connection */

  // x's greeting of time `since` has reached y or is on its way, and so is y's answer.
  ghost predicate Joining(s: Net, x: Endpoint, y: Endpoint, since: int, delay: int) {
    && s.Knows(x, y) && s.Knows(y, x)
    && (s.Holds(y, x) || s.Hello(x, y, since))
    && (s.Holds(y, x) ==> s.Holds(x, y) || s.Hello(y, x, since + delay))
  }

  // The greeting is not lost on its way ...
  lemma GreetingArrives(s: Net, st: Step, x: Endpoint, y: Endpoint, since: int, delay: int)
    requires Enabled(s, st) && s.flight.Sorted() && Calm(s, st) && Joining(s, x, y, since, delay)
    requires st.Deliver? ==> !st.p.msg.typ.TunnelBye?
    ensures var s' := Next(s, st); s'.Knows(x, y) && s'.Knows(y, x) && (s'.Holds(y, x) || s'.Hello(x, y, since))
  {
    StepOnPair(s, st, x, y, since);
    StepOnPair(s, st, y, x, since);
  }

  // ... and neither is the answer.
  lemma AnswerArrives(s: Net, st: Step, x: Endpoint, y: Endpoint, since: int, delay: int)
    requires Enabled(s, st) && s.flight.Sorted() && Calm(s, st) && Joining(s, x, y, since, delay)
    requires st.Deliver? ==> !st.p.msg.typ.TunnelBye?
    requires s.Holds(y, x) || s.now <= since + delay
    ensures var s' := Next(s, st); s'.Holds(y, x) ==> s'.Holds(x, y) || s'.Hello(y, x, since + delay)
  {
    StepOnPair(s, st, x, y, since + delay);
    StepOnPair(s, st, y, x, since + delay);
  }

  lemma StepKeepsConnecting(s: Net, st: Step, x: Endpoint, y: Endpoint, since: int, gap: int, delay: int)
    requires Healthy(s, gap, delay) && gap >= 0 && delay >= 0 && gap + delay <= KEEPALIVE_TIMEOUT
    requires Enabled(s, st) && Gentle(s, st, gap, delay) && Joining(s, x, y, since, delay)
    ensures Joining(Next(s, st), x, y, since, delay)
  {
    StepKeepsHealthy(s, st, gap, delay);
    assert OnTime(s, x, y, gap, delay);
    assert st.Deliver? ==> !st.p.msg.typ.TunnelBye?;
    GreetingArrives(s, st, x, y, since, delay);
    AnswerArrives(s, st, x, y, since, delay);
  }

  lemma {:induction false} RunKeepsConnecting(s: Net, run: seq<Step>, x: Endpoint, y: Endpoint, since: int,
                                              gap: int, delay: int)
    requires Healthy(s, gap, delay) && gap >= 0 && delay >= 0 && gap + delay <= KEEPALIVE_TIMEOUT
    requires Legal(s, run) && GentleRun(s, run, gap, delay) && Joining(s, x, y, since, delay)
    ensures Joining(End(s, run), x, y, since, delay)
    decreases |run|
  {
    if run != [] {
      StepKeepsConnecting(s, run[0], x, y, since, gap, delay);
      StepKeepsHealthy(s, run[0], gap, delay);
      RunKeepsConnecting(Next(s, run[0]), run[1..], x, y, since, gap, delay);
    }
  }

  lemma PassStartsConnecting(s: Net, x: Endpoint, y: Endpoint, gap: int, delay: int)
    requires Healthy(s, gap, delay) && gap >= 0 && delay >= 0 && gap + delay <= KEEPALIVE_TIMEOUT
    requires s.Knows(x, y) && s.Knows(y, x)
    ensures Joining(Next(s, Local(x, Pass(s.now))), x, y, s.now, delay)
  {
    NobodyExpires(s, gap, delay, x);
    assert Agrees(s, x, y) && Agrees(s, y, x);
    NothingFromTheFuture(s, y, x, s.now + delay);
    StepOnPair(s, Local(x, Pass(s.now)), x, y, s.now);
    StepOnPair(s, Local(x, Pass(s.now)), y, x, s.now + delay);
  }

  // Two instances that know each other are connected both ways within two delays of either one's
  // pass, and stay so.
  lemma ConnectedWithinTwoDelays(s: Net, x: Endpoint, y: Endpoint, run: seq<Step>, gap: int, delay: int)
    requires Healthy(s, gap, delay) && gap >= 0 && delay >= 0 && gap + delay <= KEEPALIVE_TIMEOUT
    requires s.Knows(x, y) && s.Knows(y, x)
    requires Legal(s, [Local(x, Pass(s.now))] + run) && GentleRun(s, [Local(x, Pass(s.now))] + run, gap, delay)
    requires End(s, [Local(x, Pass(s.now))] + run).now > s.now + 2 * delay
    ensures var e := End(s, [Local(x, Pass(s.now))] + run); e.Holds(x, y) && e.Holds(y, x)
  {
    var all := [Local(x, Pass(s.now))] + run;
    assert all[0] == Local(x, Pass(s.now)) && all[1..] == run;
    var s1 := Next(s, all[0]);
    PassStartsConnecting(s, x, y, gap, delay);
    StepKeepsHealthy(s, all[0], gap, delay);
    RunKeepsConnecting(s1, run, x, y, s.now, gap, delay);
    RunKeepsHealthy(s1, run, gap, delay);
    var e := End(s1, run);
    assert OnTime(e, x, y, gap, delay) && OnTime(e, y, x, gap, delay);
  }

  /* Prompt detection of silence */

  // y's passes are punctual, and its last pass left no overdue peer connected.
  ghost predicate Watched(s: Net, y: Endpoint, gap: int) {
    y in s.sites ==>
      && s.now <= s.sites[y].lastPass + gap
      && forall x :: s.Holds(y, x) ==> s.sites[y].lastPass <= s.LastSeen(y, x) + KEEPALIVE_TIMEOUT
  }

  ghost predicate PassesPunctually(s: Net, st: Step, y: Endpoint, gap: int) {
    st.Advance? && y in s.sites ==> st.to <= s.sites[y].lastPass + gap
  }

  lemma StepKeepsWatched(s: Net, st: Step, y: Endpoint, gap: int)
    requires Sane(s) && Enabled(s, st) && PassesPunctually(s, st, y, gap) && gap >= 0 && Watched(s, y, gap)
    ensures Watched(Next(s, st), y, gap)
  {
    var s' := Next(s, st);
    if y in s.sites && y in s'.sites {
      LastPassAfter(s, st, y);
      forall x | s'.Holds(y, x)
        ensures s'.sites[y].lastPass <= s'.LastSeen(y, x) + KEEPALIVE_TIMEOUT
      {
        PassLeavesNobodyOverdue(s, st, x, y);
      }
    }
  }

  lemma PassSparesTheHeard(s: Net, x: Endpoint, y: Endpoint)
    requires Sane(s) && s.Holds(y, x) && Next(s, Local(y, Pass(s.now))).Holds(y, x)
    ensures s.now <= s.LastSeen(y, x) + KEEPALIVE_TIMEOUT
    ensures Next(s, Local(y, Pass(s.now))).LastSeen(y, x) == s.LastSeen(y, x)
  {
    StepOnPair(s, Local(y, Pass(s.now)), y, x, s.now);
  }

  lemma PassLeavesNobodyOverdue(s: Net, st: Step, x: Endpoint, y: Endpoint)
    requires Sane(s) && Enabled(s, st) && y in s.sites && st != Stop(y) && Next(s, st).Holds(y, x)
    requires s.Holds(y, x) ==> s.sites[y].lastPass <= s.LastSeen(y, x) + KEEPALIVE_TIMEOUT
    ensures Next(s, st).sites[y].lastPass <= Next(s, st).LastSeen(y, x) + KEEPALIVE_TIMEOUT
  {
    LastPassAfter(s, st, y);
    if !s.Holds(y, x) {
      ConnectedByHelloOnly(s, st, x, y);
    } else if st == Local(y, Pass(s.now)) {
      PassSparesTheHeard(s, x, y);
    } else {
      LastPassStays(s, st, y);
      HeardNowOrBefore(s, st, x, y);
    }
  }

  ghost predicate PunctualRun(s: Net, run: seq<Step>, y: Endpoint, gap: int)
    requires Legal(s, run)
    decreases |run|
  {
    run != [] ==> PassesPunctually(s, run[0], y, gap) && PunctualRun(Next(s, run[0]), run[1..], y, gap)
  }

  lemma StartIsWatched(now: int, config: map<Endpoint, set<Endpoint>>, y: Endpoint, gap: int)
    requires gap >= 0
    ensures Sane(Start(now, config)) && Watched(Start(now, config), y, gap)
  {
    StartAgrees(now, config);
  }

  lemma {:induction false} RunKeepsWatched(s: Net, run: seq<Step>, y: Endpoint, gap: int)
    requires Sane(s) && Watched(s, y, gap) && gap >= 0 && Legal(s, run) && PunctualRun(s, run, y, gap)
    ensures Sane(End(s, run)) && Watched(End(s, run), y, gap)
    decreases |run|
  {
    if run != [] {
      StepKeepsSane(s, run[0]);
      StepKeepsWatched(s, run[0], y, gap);
      RunKeepsWatched(Next(s, run[0]), run[1..], y, gap);
    }
  }

  // Nothing that y hears in the run is a sign of life from x.
  ghost predicate SilentRun(s: Net, run: seq<Step>, x: Endpoint, y: Endpoint, gap: int)
    requires Legal(s, run)
    decreases |run|
  {
    run != [] ==>
      && PassesPunctually(s, run[0], y, gap)
      && (run[0].Deliver? ==> !Is(run[0].p, x, y, TunnelHello) && !Is(run[0].p, x, y, TunnelKeepalive))
      && SilentRun(Next(s, run[0]), run[1..], x, y, gap)
  }

  lemma {:induction false} SilenceLeavesLastSeen(s: Net, run: seq<Step>, x: Endpoint, y: Endpoint, gap: int)
    requires Sane(s) && Watched(s, y, gap) && gap >= 0 && Legal(s, run) && SilentRun(s, run, x, y, gap)
    ensures var e := End(s, run); Sane(e) && Watched(e, y, gap)
    ensures var e := End(s, run); e.Holds(y, x) ==> s.Holds(y, x) && e.LastSeen(y, x) == s.LastSeen(y, x)
    decreases |run|
  {
    if run != [] {
      var s' := Next(s, run[0]);
      StepKeepsSane(s, run[0]);
      StepKeepsWatched(s, run[0], y, gap);
      SilenceLeavesLastSeen(s', run[1..], x, y, gap);
      StepOnPair(s, run[0], y, x, s.now);
    }
  }

  // y neither holds x connected nor routes any node to it.
  ghost predicate Forgotten(s: Net, x: Endpoint, y: Endpoint) {
    && !s.Holds(y, x)
    && (y in s.sites ==> forall n :: n in s.sites[y].table.routes ==> s.sites[y].table.routes[n] != x)
  }

  lemma SilenceEndsConnection(s: Net, run: seq<Step>, x: Endpoint, y: Endpoint, gap: int)
    requires Sane(s) && Watched(s, y, gap) && gap >= 0 && Legal(s, run) && SilentRun(s, run, x, y, gap)
    requires End(s, run).now > s.now + KEEPALIVE_TIMEOUT + gap
    ensures Forgotten(End(s, run), x, y)
  {
    SilenceLeavesLastSeen(s, run, x, y, gap);
    var e := End(s, run);
    assert s.Holds(y, x) ==> s.LastSeen(y, x) <= s.now by {
      if s.Holds(y, x) {
        assert SaneSite(s.sites[y], s.now);
      }
    }
    assert y in e.sites ==> SaneSite(e.sites[y], e.now);
  }

  // In every run from a start, lossy or not, in which y passes on time: a peer from which nothing is
  // then heard for the keepalive timeout plus one gap is no longer connected, and no node is routed to
  // it.
  lemma SilenceIsDetected(now: int, config: map<Endpoint, set<Endpoint>>, before: seq<Step>, silent: seq<Step>,
                          x: Endpoint, y: Endpoint, gap: int)
    requires gap >= 0 && Legal(Start(now, config), before) && PunctualRun(Start(now, config), before, y, gap)
    requires var s := End(Start(now, config), before);
             && Legal(s, silent) && SilentRun(s, silent, x, y, gap)
             && End(s, silent).now > s.now + KEEPALIVE_TIMEOUT + gap
    ensures Forgotten(End(End(Start(now, config), before), silent), x, y)
  {
    StartIsWatched(now, config, y, gap);
    RunKeepsWatched(Start(now, config), before, y, gap);
    SilenceEndsConnection(End(Start(now, config), before), silent, x, y, gap);
  }

  // A connection ends only by BYE, removal, shutdown, or more than the keepalive timeout of silence.
  lemma ConnectionEndsOnlyForCause(s: Net, st: Step, x: Endpoint, y: Endpoint)
    requires Sane(s) && Enabled(s, st) && s.Holds(y, x) && !Next(s, st).Holds(y, x)
    ensures || (st.Deliver? && Is(st.p, x, y, TunnelBye))
            || st == Local(y, Remove(x)) || st == Stop(y)
            || (st == Local(y, Pass(s.now)) && s.now > s.LastSeen(y, x) + KEEPALIVE_TIMEOUT)
  {
    StepOnPair(s, st, y, x, s.now);
  }

  /* A half-open pair is stuck for good */

  // In this run x and y neither stop nor remove each other, x's packets to y arrive on time, and x
  // passes on time.  Everything else is free, including loss on every other connection.
  ghost predicate Undisturbed(s: Net, run: seq<Step>, x: Endpoint, y: Endpoint, gap: int, delay: int)
    requires Legal(s, run)
    decreases |run|
  {
    run != [] ==>
      && Punctual(s, run[0], x, y, gap, delay)
      && (run[0].Drop? ==> !Is(run[0].p, x, y, TunnelHello) && !Is(run[0].p, x, y, TunnelKeepalive))
      && run[0] != Stop(x) && run[0] != Stop(y)
      && run[0] != Local(x, Remove(y)) && run[0] != Local(y, Remove(x))
      && Undisturbed(Next(s, run[0]), run[1..], x, y, gap, delay)
  }

  // Reconnection does not happen: on a perfect connection the pair stays half-open for ever, because
  // x's HELLOs keep the connection alive at y without ever being answered.
  lemma {:induction false} HalfOpenIsForEver(s: Net, run: seq<Step>, x: Endpoint, y: Endpoint, gap: int, delay: int)
    requires gap >= 0 && delay >= 0 && gap + delay <= KEEPALIVE_TIMEOUT
    requires Sane(s) && HalfOpen(s, x, y) && Audible(s, x, y, gap) && OnTime(s, x, y, gap, delay)
    requires Legal(s, run) && Undisturbed(s, run, x, y, gap, delay)
    ensures HalfOpen(End(s, run), x, y)
    decreases |run|
  {
    if run != [] {
      var st := run[0];
      AudibleIsRecent(s, x, y, gap, delay);
      assert !Exits(s, st, x, y);
      HalfOpenEndsOnlyByExit(s, st, x, y);
      StepKeepsAudible(s, st, x, y, gap, delay);
      StepKeepsOnTime(s, st, x, y, gap, delay);
      StepKeepsSane(s, st);
      HalfOpenIsForEver(Next(s, st), run[1..], x, y, gap, delay);
    }
  }

  // Two mutually configured instances get there when y's first HELLO and its echo are both lost.
  lemma LostEchoLeavesHalfOpen(x: Endpoint, y: Endpoint, now: int, gap: int, delay: int) returns (run: seq<Step>)
    requires x != y && gap >= 0 && delay >= 0
    ensures Legal(Start(now, map[x := {y}, y := {x}]), run)
    ensures var e := End(Start(now, map[x := {y}, y := {x}]), run);
            HalfOpen(e, x, y) && Audible(e, x, y, gap) && OnTime(e, x, y, gap, delay) && Sane(e)
  {
    var s0 := Start(now, map[x := {y}, y := {x}]);
    StartAgrees(now, map[x := {y}, y := {x}]);
    var h, g := Packet(y, x, HELLO, now), Packet(x, y, HELLO, now);
    var s1, s2 := LostFirstPass(s0, y, x);
    var s3, s4, s5 := LostFirstEcho(s2, x, y);
    run := [];
    StepThenRun(s4, Drop(h), s5, run);
    run := [Drop(h)] + run;
    StepThenRun(s3, Deliver(g), s4, run);
    run := [Deliver(g)] + run;
    StepThenRun(s2, Local(x, Pass(now)), s3, run);
    run := [Local(x, Pass(now))] + run;
    StepThenRun(s1, Drop(h), s2, run);
    run := [Drop(h)] + run;
    StepThenRun(s0, Local(y, Pass(now)), s1, run);
    run := [Local(y, Pass(now))] + run;
    RunKeepsSane(s0, run);
    NothingInFlight(s5, x, y, gap, delay);
  }

  lemma NothingInFlight(s: Net, x: Endpoint, y: Endpoint, gap: int, delay: int)
    requires s.flight == Flight(multiset{}, multiset{}) && gap >= 0
    requires s.Holds(y, x) && s.Knows(x, y) && !s.Holds(x, y)
    requires s.LastSeen(y, x) == s.sites[x].lastPass == s.now
    ensures HalfOpen(s, x, y) && Audible(s, x, y, gap) && OnTime(s, x, y, gap, delay)
  {
  }

  const QUIET_FLIGHT := Flight(multiset{}, multiset{})

  // A table whose only peer has been greeted.
  function Greeted(y: Endpoint): Table {
    Initial({y}).(peers := map[y := Peer(Connecting, 0)])
  }

  lemma LostFirstPass(s: Net, x: Endpoint, y: Endpoint) returns (s1: Net, s2: Net)
    requires x in s.sites && s.sites[x].table == Initial({y}) && s.flight == QUIET_FLIGHT
    ensures s1 == Next(s, Local(x, Pass(s.now))) && Enabled(s1, Drop(Packet(x, y, HELLO, s.now)))
    ensures s2 == Next(s1, Drop(Packet(x, y, HELLO, s.now)))
    ensures s2 == s.(sites := s.sites[x := Site(Greeted(y), s.now)])
  {
    FirstPass(s, x, y);
    s1 := Next(s, Local(x, Pass(s.now)));
    s2 := Next(s1, Drop(Packet(x, y, HELLO, s.now)));
  }

  lemma LostFirstEcho(s: Net, x: Endpoint, y: Endpoint) returns (s1: Net, s2: Net, s3: Net)
    requires x != y && x in s.sites && s.sites[x].table == Initial({y}) && s.flight == QUIET_FLIGHT
    requires y in s.sites && s.sites[y].table == Greeted(x)
    ensures s1 == Next(s, Local(x, Pass(s.now)))
    ensures Enabled(s1, Deliver(Packet(x, y, HELLO, s.now))) && s2 == Next(s1, Deliver(Packet(x, y, HELLO, s.now)))
    ensures Enabled(s2, Drop(Packet(y, x, HELLO, s.now))) && s3 == Next(s2, Drop(Packet(y, x, HELLO, s.now)))
    ensures s3.flight == QUIET_FLIGHT && s3.Holds(y, x) && s3.Knows(x, y) && !s3.Holds(x, y)
    ensures s3.LastSeen(y, x) == s3.sites[x].lastPass == s3.now
  {
    FirstPass(s, x, y);
    s1 := Next(s, Local(x, Pass(s.now)));
    FirstHello(s1, Packet(x, y, HELLO, s.now));
    s2 := Next(s1, Deliver(Packet(x, y, HELLO, s.now)));
    s3 := Next(s2, Drop(Packet(y, x, HELLO, s.now)));
  }

  // Puts one step in front of a run.
  lemma StepThenRun(s: Net, st: Step, s': Net, run: seq<Step>)
    requires Enabled(s, st) && s' == Next(s, st) && Legal(s', run)
    ensures Legal(s, [st] + run) && End(s, [st] + run) == End(s', run)
  {
    assert ([st] + run)[1..] == run;
  }

  // The first pass of an instance configured with a single peer, and the first HELLO it receives.
  lemma FirstPass(s: Net, x: Endpoint, y: Endpoint)
    requires x in s.sites && s.sites[x].table == Initial({y}) && s.flight == QUIET_FLIGHT
    ensures var s' := Next(s, Local(x, Pass(s.now)));
            && s'.flight == Flight(multiset{Packet(x, y, HELLO, s.now)}, multiset{})
            && s'.sites == s.sites[x := Site(Greeted(y), s.now)] && s'.now == s.now
  {
    var o := Apply(Initial({y}), Pass(s.now));
    assert Initial({y}).peers == map[y := NEW_PEER];
    PassSendsOncePerPeer(Initial({y}), s.now, y);
    assert forall d :: d in o.sends <==> d == Send(y, HELLO);
    assert Posted(x, o.sends, s.now) == {Packet(x, y, HELLO, s.now)};
    assert o.table.peers == map[y := Peer(Connecting, 0)];
  }

  lemma FirstHello(s: Net, p: Packet)
    requires p.dst in s.sites && p.msg == HELLO && s.flight == Flight(multiset{p}, multiset{})
    requires s.sites[p.dst].table == Greeted(p.src)
    ensures var s' := Next(s, Deliver(p));
            && s'.flight == Flight(multiset{Packet(p.dst, p.src, HELLO, s.now)}, multiset{})
            && s'.Holds(p.dst, p.src) && s'.LastSeen(p.dst, p.src) == s.now
            && (forall z :: z in s.sites && z != p.dst ==> z in s'.sites && s'.sites[z] == s.sites[z])
            && s'.now == s.now
  {
    var o := Apply(s.sites[p.dst].table, Receive(p.src, p.msg, s.now));
    assert o.sends == {Send(p.src, HELLO)};
    assert Posted(p.dst, o.sends, s.now) == {Packet(p.dst, p.src, HELLO, s.now)};
  }

  /* A restart */

  // x starts again and makes its first pass at once.
  function Restarted(s: Net, x: Endpoint, peers: set<Endpoint>): Net
    requires x !in s.sites
  {
    Next(Next(s, Launch(x, peers)), Local(x, Pass(s.now)))
  }

  // x is gone, but y still holds it connected, and neither a BYE nor a HELLO between them is on its way.
  ghost predicate Orphaned(s: Net, x: Endpoint, y: Endpoint) {
    x !in s.sites && s.Holds(y, x) && !HelloInFlight(s, y, x) && !s.Bye(x, y)
  }

  lemma LaunchLeavesHalfOpen(s: Net, x: Endpoint, peers: set<Endpoint>, y: Endpoint)
    requires Sane(s) && Orphaned(s, x, y) && y in peers
    ensures var s' := Next(s, Launch(x, peers));
            && Sane(s') && HalfOpen(s', x, y) && s'.Knows(x, y) && s'.now == s.now
            && s'.LastSeen(y, x) == s.LastSeen(y, x) && s'.sites[x].lastPass == s.now
  {
    StepKeepsSane(s, Launch(x, peers));
    StepOnPair(s, Launch(x, peers), x, y, s.now);
    StepOnPair(s, Launch(x, peers), y, x, s.now);
  }

  // The first HELLO of an instance that y already holds is a sign of life like any other.
  lemma FirstPassIsAudible(s: Net, x: Endpoint, y: Endpoint, gap: int)
    requires Sane(s) && HalfOpen(s, x, y) && x != y && s.Knows(x, y) && s.now <= s.LastSeen(y, x) + gap
    ensures var s' := Next(s, Local(x, Pass(s.now))); HalfOpen(s', x, y) && Audible(s', x, y, gap)
  {
    HalfOpenEndsOnlyByExit(s, Local(x, Pass(s.now)), x, y);
    StepOnPair(s, Local(x, Pass(s.now)), x, y, s.LastSeen(y, x) + gap);
    StepOnPair(s, Local(x, Pass(s.now)), y, x, s.now);
  }

  // Half-open, heard by y, and with x's next sign of life in time.
  ghost predicate Stuck(s: Net, x: Endpoint, y: Endpoint, gap: int, delay: int) {
    && gap >= 0 && delay >= 0 && gap + delay <= KEEPALIVE_TIMEOUT
    && Sane(s) && HalfOpen(s, x, y) && Audible(s, x, y, gap) && OnTime(s, x, y, gap, delay)
  }

  lemma RestartIsStuck(s: Net, x: Endpoint, peers: set<Endpoint>, y: Endpoint, gap: int, delay: int)
    requires gap >= 0 && delay >= 0 && gap + delay <= KEEPALIVE_TIMEOUT
    requires Sane(s) && Orphaned(s, x, y) && y in peers && x != y
    requires s.now <= s.LastSeen(y, x) + gap && OnTime(s, x, y, gap, delay)
    ensures Stuck(Restarted(s, x, peers), x, y, gap, delay)
  {
    var s1 := Next(s, Launch(x, peers));
    LaunchLeavesHalfOpen(s, x, peers, y);
    FirstPassIsAudible(s1, x, y, gap);
    StepKeepsSane(s1, Local(x, Pass(s.now)));
    StepKeepsOnTime(s1, Local(x, Pass(s.now)), x, y, gap, delay);
  }

  lemma {:induction false} StuckForEver(s: Net, run: seq<Step>, x: Endpoint, y: Endpoint, gap: int, delay: int)
    requires Stuck(s, x, y, gap, delay) && Legal(s, run) && Undisturbed(s, run, x, y, gap, delay)
    ensures HalfOpen(End(s, run), x, y)
  {
    HalfOpenIsForEver(s, run, x, y, gap, delay);
  }

  // An instance that comes back without having said goodbye, soon enough for its first HELLO to arrive
  // before its peer times it out (gap + delay may be as much as the keepalive timeout), is never
  // connected again, on a perfect connection for ever.
  lemma {:induction false} RestartIsNeverReconnected(s: Net, x: Endpoint, peers: set<Endpoint>, y: Endpoint, s': Net,
                                                     run: seq<Step>, gap: int, delay: int)
    requires gap >= 0 && delay >= 0 && gap + delay <= KEEPALIVE_TIMEOUT
    requires Sane(s) && Orphaned(s, x, y) && y in peers && x != y
    requires s.now <= s.LastSeen(y, x) + gap && OnTime(s, x, y, gap, delay) && s' == Restarted(s, x, peers)
    requires Legal(s', run) && Undisturbed(s', run, x, y, gap, delay)
    ensures HalfOpen(End(s', run), x, y)
  {
    RestartIsStuck(s, x, peers, y, gap, delay);
    StuckForEver(s', run, x, y, gap, delay);
  }

  // A crash is a stop whose BYE nobody gets.
  function Crashed(s: Net, x: Endpoint, y: Endpoint): Net
    requires x in s.sites && s.Holds(x, y)
  {
    GoodbyePosted(s, x, y);
    Next(Next(s, Stop(x)), Drop(Packet(x, y, BYE, s.now)))
  }

  lemma GoodbyePosted(s: Net, x: Endpoint, y: Endpoint)
    requires x in s.sites && s.Holds(x, y)
    ensures Enabled(Next(s, Stop(x)), Drop(Packet(x, y, BYE, s.now)))
  {
    StopAddsGoodbyes(s, x);
    assert IsGoodbye(s, x, Packet(x, y, BYE, s.now));
  }

  // So every quiet two-way connection is orphaned by a crash ...
  lemma CrashOrphans(s: Net, x: Endpoint, y: Endpoint)
    requires Sane(s) && x != y && s.Holds(x, y) && s.Holds(y, x) && !HelloInFlight(s, y, x) && !s.Bye(x, y)
    ensures var s' := Crashed(s, x, y);
            && Sane(s') && Orphaned(s', x, y) && s'.now == s.now && s'.LastSeen(y, x) == s.LastSeen(y, x)
            && forall p :: s'.flight.Has(p) && p.src == x && p.dst == y ==> s.flight.Has(p)
  {
    GoodbyePosted(s, x, y);
    var s1, bye := Next(s, Stop(x)), Packet(x, y, BYE, s.now);
    var s' := Crashed(s, x, y);
    StepKeepsSane(s, Stop(x));
    StepKeepsSane(s1, Drop(bye));
    StepOnPair(s, Stop(x), y, x, s.now);
    StepOnPair(s1, Drop(bye), y, x, s.now);
    GoodbyeDropped(s, x, y);
  }

  lemma OneGoodbyePosted(s: Net, x: Endpoint, bye: Packet)
    requires x in s.sites && !s.flight.Has(bye)
    ensures Next(s, Stop(x)).flight.others[bye] <= 1
  {
  }

  lemma GoodbyeTaken(s: Net, x: Endpoint, y: Endpoint, p: Packet)
    requires Sane(s) && s.Holds(x, y) && !s.Bye(x, y)
    requires Crashed(s, x, y).flight.Has(p) && p.src == x && p.dst == y
    ensures s.flight.Has(p)
  {
    StopAddsGoodbyes(s, x);
    OneGoodbyePosted(s, x, Packet(x, y, BYE, s.now));
  }

  lemma NoGoodbyeLeft(s: Net, s': Net, x: Endpoint, y: Endpoint)
    requires s.flight.Sorted() && !s.Bye(x, y)
    requires forall p :: s'.flight.Has(p) && p.src == x && p.dst == y ==> s.flight.Has(p)
    ensures !s'.Bye(x, y)
  {
  }

  lemma GoodbyeDropped(s: Net, x: Endpoint, y: Endpoint)
    requires Sane(s) && s.Holds(x, y) && !s.Bye(x, y)
    ensures forall p :: Crashed(s, x, y).flight.Has(p) && p.src == x && p.dst == y ==> s.flight.Has(p)
    ensures !Crashed(s, x, y).Bye(x, y)
  {
    var s' := Crashed(s, x, y);
    forall p | s'.flight.Has(p) && p.src == x && p.dst == y
      ensures s.flight.Has(p)
    {
      GoodbyeTaken(s, x, y, p);
    }
    NoGoodbyeLeft(s, s', x, y);
  }

  // ... and lost for good by a restart that is quick enough: x crashes, comes back at time `again`, and
  // its HELLOs keep the connection alive at y without ever being answered.
  lemma {:induction false} CrashedPeerIsNeverReconnected(s: Net, x: Endpoint, peers: set<Endpoint>, y: Endpoint,
                                                         again: int, s': Net, run: seq<Step>, gap: int,
                                                         delay: int)
    requires Sane(s) && x != y && s.Holds(x, y) && s.Holds(y, x) && !HelloInFlight(s, y, x) && !s.Bye(x, y)
    requires gap >= 0 && delay >= 0 && gap + delay <= KEEPALIVE_TIMEOUT
    requires y in peers && s.now <= again <= s.LastSeen(y, x) + gap
    requires forall p :: s.flight.Has(p) && p.src == x && p.dst == y ==> again <= p.sent + delay
    requires s' == Restarted(Crashed(s, x, y).(now := again), x, peers)
    requires Legal(s', run) && Undisturbed(s', run, x, y, gap, delay)
    ensures HalfOpen(End(s', run), x, y)
  {
    var s1 := Crashed(s, x, y);
    CrashOrphans(s, x, y);
    AdvanceKeepsSane(s1, again);
    NothingFromTheFuture(s1, y, x, again);
    RestartIsNeverReconnected(s1.(now := again), x, peers, y, s', run, gap, delay);
  }
}
