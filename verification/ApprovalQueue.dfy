// The queue of unknown peers awaiting a decision, shared by the network thread that fills it, the
// input thread, one timer thread per entry, and the destructor.
module ApprovalQueue {
  import opened LinkTypes

  datatype Approval = Approval(id: nat, peer: Endpoint)

  // The part guarded by the mutex.
  datatype Shared = Shared(approvals: seq<Approval>, nextId: nat, alive: bool) {
    // Ids below this one have left the queue.
    function First(): int {
      nextId - |approvals|
    }

    // The queue holds a contiguous range of ids that ends at nextId.
    ghost predicate Contiguous() {
      First() >= 0 && forall i :: 0 <= i < |approvals| ==> approvals[i].id == First() + i
    }
  }

  class SharedPending {
    var approvals: seq<Approval>
    var nextId: nat
    var alive: bool

    function View(): Shared
      reads this
    {
      Shared(approvals, nextId, alive)
    }

    constructor ()
      ensures View() == Shared([], 0, true)
    {
      approvals, nextId, alive := [], 0, true;
    }

    // The unknown-peer callback; the id is also handed to the timer thread it starts.
    method Push(peer: Endpoint) returns (id: nat)
      modifies this`approvals, this`nextId
      ensures id == old(nextId) && View() == Pushed(old(View()), peer)
    {
      id := nextId;
      nextId := nextId + 1;
      approvals := approvals + [Approval(id, peer)];
    }

    // The user accepts or denies the peer at the front.
    method PopFront() returns (entry: Option<Approval>)
      modifies this`approvals
      ensures (View(), entry) == Popped(old(View()))
    {
      entry := None;
      if approvals != [] {
        entry := Some(approvals[0]);
        approvals := approvals[1..];
      }
    }

    // A timer thread takes its own entry, if that is at the front by now.
    method PopIfFront(id: nat) returns (entry: Option<Approval>)
      modifies this`approvals
      ensures (View(), entry) == TimedOut(old(View()), id)
    {
      entry := None;
      if !alive {
        return;
      }
      if approvals != [] && approvals[0].id == id {
        entry := Some(approvals[0]);
        approvals := approvals[1..];
      }
    }

    // The destructor rejects what is left, in order, without letting go of the mutex.
    method Drain() returns (rejected: seq<Approval>)
      modifies this
      ensures View() == Drained(old(View())) && rejected == old(approvals)
    {
      alive := false;
      rejected := [];
      while approvals != []
        invariant rejected + approvals == old(approvals)
        invariant nextId == old(nextId) && !alive
        decreases |approvals|
      {
        rejected := rejected + [approvals[0]];
        approvals := approvals[1..];
      }
    }
  }

  function Pushed(s: Shared, peer: Endpoint): Shared {
    s.(approvals := s.approvals + [Approval(s.nextId, peer)], nextId := s.nextId + 1)
  }

  function Popped(s: Shared): (Shared, Option<Approval>) {
    if s.approvals == [] then (s, None) else (s.(approvals := s.approvals[1..]), Some(s.approvals[0]))
  }

  function TimedOut(s: Shared, id: nat): (Shared, Option<Approval>) {
    if s.alive && s.approvals != [] && s.approvals[0].id == id then Popped(s) else (s, None)
  }

  function Drained(s: Shared): Shared {
    s.(approvals := [], alive := false)
  }

  /* All interleavings */

  datatype Party = Input | Timer | Destructor

  // One call of an entry's accept (or else reject) continuation.
  datatype Call = Call(entry: Approval, party: Party, accept: bool)

  // `held` are the decisions of threads that have popped an entry but not yet called back; `fired`
  // the ids whose timer has run; `calls` the continuations called so far.
  datatype Program = Program(shared: Shared, held: map<nat, Call>, fired: set<nat>, calls: seq<Call>)

  datatype Step =
    | Ask(peer: Endpoint)
    | Decide(accept: bool)
    | Expire(id: nat)
    | CallBack(id: nat)
    | Destroy

  const INITIAL := Program(Shared([], 0, true), map[], {}, [])

  // The input thread has ended before the destructor runs; the network thread may still ask.
  predicate Enabled(p: Program, st: Step) {
    match st
    case Ask(_) => true
    case Decide(_) => p.shared.alive
    case Expire(id) => id < p.shared.nextId && id !in p.fired
    case CallBack(id) => id in p.held
    case Destroy => p.shared.alive
  }

  function Hold(p: Program, popped: (Shared, Option<Approval>), party: Party, accept: bool): Program {
    var (s, entry) := popped;
    if entry.None? then p.(shared := s)
    else p.(shared := s, held := p.held[entry.value.id := Call(entry.value, party, accept)])
  }

  function Rejections(entries: seq<Approval>): (r: seq<Call>)
    ensures |r| == |entries|
  {
    seq(|entries|, i requires 0 <= i < |entries| => Call(entries[i], Destructor, false))
  }

  function Next(p: Program, st: Step): Program
    requires Enabled(p, st)
  {
    match st
    case Ask(peer) => p.(shared := Pushed(p.shared, peer))
    case Decide(accept) => Hold(p, Popped(p.shared), Input, accept)
    case Expire(id) => Hold(p, TimedOut(p.shared, id), Timer, false).(fired := p.fired + {id})
    case CallBack(id) => p.(held := p.held - {id}, calls := p.calls + [p.held[id]])
    case Destroy => p.(shared := Drained(p.shared), calls := p.calls + Rejections(p.shared.approvals))
  }

  ghost predicate Called(p: Program, id: int) {
    exists i :: 0 <= i < |p.calls| && p.calls[i].entry.id == id
  }

  // Every id that has left the queue is either held by one thread or has been called back exactly
  // once; no other id has.
  ghost predicate ExactlyOnce(p: Program) {
    && p.shared.Contiguous()
    && (forall i, j :: 0 <= i < j < |p.calls| ==> p.calls[i].entry.id != p.calls[j].entry.id)
    && (forall i :: 0 <= i < |p.calls| ==> p.calls[i].entry.id < p.shared.First())
    && (forall id :: id in p.held ==> id < p.shared.First() && !Called(p, id) && p.held[id].entry.id == id)
    && (forall id :: 0 <= id < p.shared.First() ==> id in p.held || Called(p, id))
    && (forall i :: 0 <= i < |p.calls| ==> UserAccepts(p.calls[i]))
    && (forall id :: id in p.held ==> UserAccepts(p.held[id]))
  }

  // Timers and the destructor only ever reject.
  predicate UserAccepts(c: Call) {
    c.accept ==> c.party.Input?
  }

  lemma HoldKeepsExactlyOnce(p: Program, party: Party, accept: bool)
    requires (accept ==> party.Input?) && ExactlyOnce(p) && p.shared.approvals != []
    ensures ExactlyOnce(Hold(p, Popped(p.shared), party, accept))
  {
    var p' := Hold(p, Popped(p.shared), party, accept);
    assert !Called(p, p.shared.First());
    assert forall id :: Called(p', id) <==> Called(p, id);
  }

  lemma CallBackKeepsExactlyOnce(p: Program, id: nat)
    requires ExactlyOnce(p) && id in p.held
    ensures ExactlyOnce(Next(p, CallBack(id)))
  {
    var p' := Next(p, CallBack(id));
    assert p'.calls[|p.calls|].entry.id == id;
    assert forall i :: 0 <= i < |p.calls| ==> p'.calls[i] == p.calls[i];
    forall j | Called(p', j)
      ensures Called(p, j) || j == id
    {
      var i :| 0 <= i < |p'.calls| && p'.calls[i].entry.id == j;
      assert i < |p.calls| ==> p.calls[i].entry.id == j;
    }
    forall j | Called(p, j)
      ensures Called(p', j)
    {
      var i :| 0 <= i < |p.calls| && p.calls[i].entry.id == j;
      assert p'.calls[i].entry.id == j;
    }
  }

  lemma DestroyKeepsExactlyOnce(p: Program)
    requires ExactlyOnce(p) && p.shared.alive
    ensures ExactlyOnce(Next(p, Destroy))
  {
    var p' := Next(p, Destroy);
    var n, rest := |p.calls|, p.shared.approvals;
    assert forall i :: 0 <= i < n ==> p'.calls[i] == p.calls[i];
    assert forall i :: 0 <= i < |rest| ==> p'.calls[n + i].entry == rest[i];
    forall i | n <= i < |p'.calls|
      ensures p'.calls[i].entry.id == p.shared.First() + i - n
    {
      assert p'.calls[i].entry == rest[i - n];
    }
    forall id | 0 <= id < p'.shared.First()
      ensures id in p'.held || Called(p', id)
    {
      if id < p.shared.First() {
        if Called(p, id) {
          var i :| 0 <= i < n && p.calls[i].entry.id == id;
          assert p'.calls[i].entry.id == id;
        }
      } else {
        assert p'.calls[n + id - p.shared.First()].entry.id == id;
      }
    }
    forall id | id in p'.held
      ensures !Called(p', id)
    {
      forall i | 0 <= i < |p'.calls|
        ensures p'.calls[i].entry.id != id
      {
        assert i < n ==> Called(p, p.calls[i].entry.id);
      }
    }
  }

  lemma StepKeepsExactlyOnce(p: Program, st: Step)
    requires ExactlyOnce(p) && Enabled(p, st)
    ensures ExactlyOnce(Next(p, st))
  {
    match st
    case Ask(peer) => assert forall id :: Called(Next(p, st), id) <==> Called(p, id);
    case Decide(accept) =>
      if p.shared.approvals != [] { HoldKeepsExactlyOnce(p, Input, accept); }
    case Expire(id) =>
      if TimedOut(p.shared, id).1.Some? {
        HoldKeepsExactlyOnce(p, Timer, false);
      }
      FiringKeepsExactlyOnce(Hold(p, TimedOut(p.shared, id), Timer, false), id);
    case CallBack(id) => CallBackKeepsExactlyOnce(p, id);
    case Destroy => DestroyKeepsExactlyOnce(p);
  }

  lemma FiringKeepsExactlyOnce(p: Program, id: nat)
    requires ExactlyOnce(p)
    ensures ExactlyOnce(p.(fired := p.fired + {id}))
  {
    assert forall j :: Called(p.(fired := p.fired + {id}), j) <==> Called(p, j);
  }

  ghost predicate Legal(p: Program, run: seq<Step>)
    decreases |run|
  {
    run != [] ==> Enabled(p, run[0]) && Legal(Next(p, run[0]), run[1..])
  }

  ghost function End(p: Program, run: seq<Step>): Program
    requires Legal(p, run)
    decreases |run|
  {
    if run == [] then p else End(Next(p, run[0]), run[1..])
  }

  // In every interleaving each entry is called back at most once, by one party, and exactly once as
  // soon as it has left the queue and the thread that took it has called.
  lemma {:induction false} EveryEntryIsCalledBackOnce(p: Program, run: seq<Step>)
    requires ExactlyOnce(p) && Legal(p, run)
    ensures ExactlyOnce(End(p, run))
    decreases |run|
  {
    if run != [] {
      StepKeepsExactlyOnce(p, run[0]);
      EveryEntryIsCalledBackOnce(Next(p, run[0]), run[1..]);
    }
  }

  // From the empty queue: no entry is called back twice, an acceptance is the user's, and whenever no
  // thread is between popping and calling, exactly the entries that have left have been called back.
  lemma ExactlyOneVerdictPerEntry(run: seq<Step>, i: nat, j: nat)
    requires Legal(INITIAL, run) && i < |End(INITIAL, run).calls| && j < |End(INITIAL, run).calls|
    ensures var p := End(INITIAL, run);
            && (p.calls[i].entry.id == p.calls[j].entry.id ==> i == j)
            && (p.calls[i].accept ==> p.calls[i].party.Input?)
            && (p.held == map[] ==> forall id :: Called(p, id) <==> 0 <= id < p.shared.First())
  {
    EveryEntryIsCalledBackOnce(INITIAL, run);
  }

  /* Timers */

  predicate Queued(s: Shared, id: nat) {
    s.First() <= id < s.nextId
  }

  // Once its timer has run, an entry is gone if and only if no older entry was still queued: a timer
  // that finds an older entry in front does nothing and does not run again.
  lemma TimerRemovesOnlyTheFront(p: Program, id: nat)
    requires ExactlyOnce(p) && Enabled(p, Expire(id)) && p.shared.alive
    ensures Queued(Next(p, Expire(id)).shared, id) <==> p.shared.First() < id
  {
  }

  // Timers fire in the order in which they were started.
  ghost predicate InOrder(p: Program, run: seq<Step>)
    requires Legal(p, run)
    decreases |run|
  {
    run != [] ==>
      && (run[0].Expire? ==> forall j :: 0 <= j < run[0].id ==> j in p.fired)
      && InOrder(Next(p, run[0]), run[1..])
  }

  ghost predicate FiredHaveLeft(p: Program) {
    p.shared.alive ==> forall id :: id in p.fired ==> id < p.shared.First()
  }

  // If they do, every entry has left the queue once its own timer has run.
  lemma {:induction false} TimersInOrderLeaveNothingBehind(p: Program, run: seq<Step>)
    requires ExactlyOnce(p) && FiredHaveLeft(p) && Legal(p, run) && InOrder(p, run)
    ensures FiredHaveLeft(End(p, run))
    decreases |run|
  {
    if run != [] {
      var st := run[0];
      StepKeepsExactlyOnce(p, st);
      if st.Expire? && p.shared.alive {
        TimerRemovesOnlyTheFront(p, st.id);
        assert st.id > 0 ==> st.id - 1 in p.fired;
      }
      TimersInOrderLeaveNothingBehind(Next(p, st), run[1..]);
    }
  }

  // Puts one step in front of a run.
  lemma StepThenRun(p: Program, st: Step, run: seq<Step>)
    requires Enabled(p, st) && Legal(Next(p, st), run)
    ensures Legal(p, [st] + run) && End(p, [st] + run) == End(Next(p, st), run)
  {
    assert ([st] + run)[1..] == run;
  }

  // Out of order they may: then an entry waits for the user although its time is up.
  lemma TimersOutOfOrderLeaveOneBehind(x: Endpoint, y: Endpoint) returns (run: seq<Step>)
    ensures Legal(INITIAL, run)
    ensures End(INITIAL, run).fired == {0, 1} && End(INITIAL, run).shared.alive && Queued(End(INITIAL, run).shared, 1)
  {
    var p1 := Next(INITIAL, Ask(x));
    var p2 := Next(p1, Ask(y));
    var p3 := Next(p2, Expire(1));
    run := [];
    StepThenRun(p3, Expire(0), run);
    run := [Expire(0)] + run;
    StepThenRun(p2, Expire(1), run);
    run := [Expire(1)] + run;
    StepThenRun(p1, Ask(y), run);
    run := [Ask(y)] + run;
    StepThenRun(INITIAL, Ask(x), run);
    run := [Ask(x)] + run;
  }

  lemma {:induction false} NobodyTakesFromTheDead(p: Program, run: seq<Step>, id: nat)
    requires ExactlyOnce(p) && !p.shared.alive && p.shared.First() <= id && Legal(p, run)
    ensures var e := End(p, run); e.shared.First() == p.shared.First() && !Called(e, id) && id !in e.held
    decreases |run|
  {
    if run != [] {
      StepKeepsExactlyOnce(p, run[0]);
      NobodyTakesFromTheDead(Next(p, run[0]), run[1..], id);
    }
  }

  // A callback that comes after the destructor has drained the queue is never answered: its entry stays in
  // the queue, whatever timers run.
  lemma LateCallbackIsNeverAnswered(p: Program, run: seq<Step>, id: nat)
    requires ExactlyOnce(p) && Enabled(p, Destroy) && Legal(Next(p, Destroy), run) && id >= p.shared.nextId
    ensures var e := End(Next(p, Destroy), run);
            !Called(e, id) && id !in e.held && (id < e.shared.nextId ==> Queued(e.shared, id))
  {
    StepKeepsExactlyOnce(p, Destroy);
    NobodyTakesFromTheDead(Next(p, Destroy), run, id);
  }

  /* Whom a verdict is about, and what it is */

  // The endpoints asked about, in order: the id of an entry is its place among them.
  function Asks(run: seq<Step>): seq<Endpoint>
    decreases |run|
  {
    if run == [] then [] else Asked(run[0]) + Asks(run[1..])
  }

  function Asked(st: Step): seq<Endpoint> {
    if st.Ask? then [st.peer] else []
  }

  ghost predicate About(a: Approval, asked: seq<Endpoint>) {
    a.id < |asked| && asked[a.id] == a.peer
  }

  // Every entry waiting, held or called back is about the endpoint asked about under its id.
  ghost predicate AllAbout(p: Program, asked: seq<Endpoint>) {
    && p.shared.nextId == |asked|
    && (forall i :: 0 <= i < |p.shared.approvals| ==> About(p.shared.approvals[i], asked))
    && (forall id :: id in p.held ==> About(p.held[id].entry, asked))
    && (forall i :: 0 <= i < |p.calls| ==> About(p.calls[i].entry, asked))
  }

  lemma StepKeepsAbout(p: Program, st: Step, asked: seq<Endpoint>)
    requires Enabled(p, st) && AllAbout(p, asked)
    ensures AllAbout(Next(p, st), asked + Asked(st))
  {
  }

  lemma {:induction false} AsksFromHere(asked: seq<Endpoint>, run: seq<Step>)
    ensures run == [] ==> asked + Asks(run) == asked
    ensures run != [] ==> asked + Asks(run) == (asked + Asked(run[0])) + Asks(run[1..])
  {
  }

  lemma {:induction false} RunKeepsAbout(p: Program, run: seq<Step>, asked: seq<Endpoint>)
    requires Legal(p, run) && AllAbout(p, asked)
    ensures AllAbout(End(p, run), asked + Asks(run))
    decreases |run|
  {
    AsksFromHere(asked, run);
    if run != [] {
      StepKeepsAbout(p, run[0], asked);
      RunKeepsAbout(Next(p, run[0]), run[1..], asked + Asked(run[0]));
    }
  }

  // The k-th question is answered, if at all, about the endpoint it asked about.
  lemma {:induction false} VerdictIsAboutTheAsked(run: seq<Step>, i: nat)
    requires Legal(INITIAL, run) && i < |End(INITIAL, run).calls|
    ensures var a := End(INITIAL, run).calls[i].entry; a.id < |Asks(run)| && a.peer == Asks(run)[a.id]
  {
    RunKeepsAbout(INITIAL, run, []);
    assert [] + Asks(run) == Asks(run);
  }

  // The call that has been decided on is still to be made, or has been made.
  ghost predicate Settled(p: Program, c: Call) {
    (c.entry.id in p.held && p.held[c.entry.id] == c) || c in p.calls
  }

  // The step takes an entry from the queue, with this verdict: the user decides about the oldest entry, a
  // timer rejects its own if that is the oldest, and the destructor rejects all that are left.
  predicate Settles(p: Program, st: Step, c: Call) {
    match st
    case Decide(accept) => p.shared.approvals != [] && c == Call(p.shared.approvals[0], Input, accept)
    case Expire(id) =>
      p.shared.alive && p.shared.approvals != [] && p.shared.approvals[0].id == id
      && c == Call(p.shared.approvals[0], Timer, false)
    case Destroy => c.entry in p.shared.approvals && c == Call(c.entry, Destructor, false)
    case _ => false
  }

  lemma SettlingStep(p: Program, st: Step, c: Call)
    requires ExactlyOnce(p) && Enabled(p, st) && Settles(p, st, c)
    ensures Settled(Next(p, st), c) && c.entry !in Next(p, st).shared.approvals
  {
    if st.Destroy? {
      var i :| 0 <= i < |p.shared.approvals| && p.shared.approvals[i] == c.entry;
      assert Next(p, st).calls[|p.calls| + i] == c;
    }
  }

  lemma StepKeepsSettled(p: Program, st: Step, c: Call)
    requires ExactlyOnce(p) && Enabled(p, st) && Settled(p, c)
    ensures Settled(Next(p, st), c)
  {
    if c in p.calls {
      assert c in Next(p, st).calls;
    } else if st == CallBack(c.entry.id) {
      assert Next(p, st).calls[|p.calls|] == c;
    } else if p.shared.approvals != [] {
      assert p.shared.approvals[0].id == p.shared.First();
    }
  }

  lemma {:induction false} DecisionStands(p: Program, run: seq<Step>, c: Call)
    requires ExactlyOnce(p) && Settled(p, c) && Legal(p, run)
    ensures Settled(End(p, run), c) && (End(p, run).held == map[] ==> c in End(p, run).calls)
    decreases |run|
  {
    if run != [] {
      StepKeepsExactlyOnce(p, run[0]);
      StepKeepsSettled(p, run[0], c);
      DecisionStands(Next(p, run[0]), run[1..], c);
    }
  }

  // A verdict is carried out: whatever happens afterwards, the call decided on, an accept as an accept, has
  // been made whenever no thread is between popping and calling, and no other verdict is given on the entry.
  lemma {:induction false} VerdictIsCarriedOut(p: Program, st: Step, c: Call, run: seq<Step>)
    requires ExactlyOnce(p) && Enabled(p, st) && Settles(p, st, c) && Legal(Next(p, st), run)
    ensures var e := End(Next(p, st), run);
            && (e.held == map[] ==> c in e.calls)
            && (forall i :: 0 <= i < |e.calls| && e.calls[i].entry.id == c.entry.id ==> e.calls[i] == c)
  {
    var next := Next(p, st);
    var e := End(next, run);
    SettlingStep(p, st, c);
    StepKeepsExactlyOnce(p, st);
    DecisionStands(next, run, c);
    EveryEntryIsCalledBackOnce(next, run);
    forall i | 0 <= i < |e.calls| && e.calls[i].entry.id == c.entry.id
      ensures e.calls[i] == c
    {
      assert Called(e, c.entry.id);
      var j :| 0 <= j < |e.calls| && e.calls[j] == c;
    }
  }
}
