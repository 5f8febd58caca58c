// The expiry tracker of a gateway: a vector of deadlines kept sorted, and one timer.
module PeerTracker {
  import opened LinkTypes

  const SLACK := 1 * SECOND

  datatype Timeout = Timeout(deadline: int, node: NodeId)

  // `armed` is when the pending timer will fire, if one is pending.
  datatype Tracker = Tracker(timeouts: seq<Timeout>, armed: Option<int>)

  const EMPTY := Tracker([], None)

  ghost predicate Sorted(ts: seq<Timeout>) {
    forall i, j :: 0 <= i < j < |ts| ==> ts[i].deadline <= ts[j].deadline
  }

  ghost predicate OnePerNode(ts: seq<Timeout>) {
    forall i, j :: 0 <= i < j < |ts| ==> ts[i].node != ts[j].node
  }

  // The entries before k are due by d, those from k on are not.
  ghost predicate Divides(ts: seq<Timeout>, d: int, k: nat)
    requires k <= |ts|
  {
    forall j :: 0 <= j < |ts| ==> (ts[j].deadline <= d <==> j < k)
  }

  function Without(ts: seq<Timeout>, node: NodeId): (r: seq<Timeout>)
    ensures forall x :: x in r <==> x in ts && x.node != node
    ensures |r| <= |ts|
  {
    if ts == [] then []
    else
      var front, last := ts[..|ts| - 1], ts[|ts| - 1];
      assert ts == front + [last];
      Without(front, node) + if last.node == node then [] else [last]
  }

  // Where the entries due after d begin, provided they are sorted.
  function UpperBound(ts: seq<Timeout>, d: int): (k: nat)
    ensures k <= |ts|
    ensures Sorted(ts) ==> Divides(ts, d, k)
  {
    if ts == [] || ts[|ts| - 1].deadline <= d then |ts| else UpperBound(ts[..|ts| - 1], d)
  }

  lemma PartitionIsUnique(ts: seq<Timeout>, d: int, k: nat)
    requires Sorted(ts) && k <= |ts|
    requires forall j :: 0 <= j < k ==> ts[j].deadline <= d
    requires forall j :: k <= j < |ts| ==> ts[j].deadline > d
    ensures k == UpperBound(ts, d)
  {
    var u := UpperBound(ts, d);
    assert k < |ts| ==> ts[k].deadline > d;
    assert u < |ts| ==> ts[u].deadline > d;
  }

  function Inserted(ts: seq<Timeout>, x: Timeout): seq<Timeout> {
    var k := UpperBound(ts, x.deadline);
    ts[..k] + [x] + ts[k..]
  }

  // A timer is set for one second past the earliest deadline, replacing any pending one.
  function Scheduled(ts: seq<Timeout>, armed: Option<int>): Tracker {
    Tracker(ts, if ts == [] then armed else Some(ts[0].deadline + SLACK))
  }

  function Update(t: Tracker, node: NodeId, ttl: int, now: int): Tracker {
    Scheduled(Inserted(Without(t.timeouts, node), Timeout(now + ttl, node)), t.armed)
  }

  function Remove(t: Tracker, node: NodeId): Tracker {
    t.(timeouts := Without(t.timeouts, node))
  }

  // The entries due strictly before now come first: the timer reports and drops them.
  function Overdue(t: Tracker, now: int): nat {
    UpperBound(t.timeouts, now - 1)
  }

  function Pruned(t: Tracker, now: int): Tracker {
    Scheduled(t.timeouts[Overdue(t, now)..], None)
  }

  function Reported(t: Tracker, now: int): seq<NodeId> {
    seq(Overdue(t, now), i requires 0 <= i < Overdue(t, now) => t.timeouts[i].node)
  }

  lemma {:induction false} WithoutKeepsOrder(ts: seq<Timeout>, node: NodeId)
    requires Sorted(ts)
    ensures Sorted(Without(ts, node))
  {
    if ts != [] {
      var front, last := ts[..|ts| - 1], ts[|ts| - 1];
      WithoutKeepsOrder(front, node);
      var r := Without(front, node);
      forall i | 0 <= i < |r|
        ensures r[i].deadline <= last.deadline
      {
        assert r[i] in front;
      }
    }
  }

  lemma {:induction false} WithoutKeepsOnePerNode(ts: seq<Timeout>, node: NodeId)
    requires OnePerNode(ts)
    ensures OnePerNode(Without(ts, node))
  {
    if ts != [] {
      var front, last := ts[..|ts| - 1], ts[|ts| - 1];
      WithoutKeepsOnePerNode(front, node);
      var r := Without(front, node);
      forall i | 0 <= i < |r|
        ensures r[i].node != last.node
      {
        assert r[i] in front;
      }
    }
  }

  lemma WithoutStaysSorted(ts: seq<Timeout>, node: NodeId)
    ensures Sorted(ts) ==> Sorted(Without(ts, node))
    ensures OnePerNode(ts) ==> OnePerNode(Without(ts, node))
  {
    if Sorted(ts) {
      WithoutKeepsOrder(ts, node);
    }
    if OnePerNode(ts) {
      WithoutKeepsOnePerNode(ts, node);
    }
  }

  lemma InsertedStaysSorted(ts: seq<Timeout>, x: Timeout)
    requires Sorted(ts)
    ensures Sorted(Inserted(ts, x))
    ensures forall y :: y in Inserted(ts, x) <==> y in ts || y == x
    ensures OnePerNode(ts) && (forall y :: y in ts ==> y.node != x.node) ==> OnePerNode(Inserted(ts, x))
  {
    var k := UpperBound(ts, x.deadline);
    InsertionAt(ts, k, x);
    if OnePerNode(ts) && (forall y :: y in ts ==> y.node != x.node) {
      InsertionKeepsOnePerNode(ts, k, x);
    }
  }

  lemma InsertionAt(ts: seq<Timeout>, k: nat, x: Timeout)
    requires Sorted(ts) && k <= |ts|
    requires forall j :: 0 <= j < |ts| ==> (ts[j].deadline <= x.deadline <==> j < k)
    ensures Sorted(ts[..k] + [x] + ts[k..])
    ensures forall y :: y in ts[..k] + [x] + ts[k..] <==> y in ts || y == x
  {
    assert ts == ts[..k] + ts[k..];
  }

  lemma InsertionKeepsOnePerNode(ts: seq<Timeout>, k: nat, x: Timeout)
    requires OnePerNode(ts) && k <= |ts| && forall y :: y in ts ==> y.node != x.node
    ensures OnePerNode(ts[..k] + [x] + ts[k..])
  {
    var r := ts[..k] + [x] + ts[k..];
    forall i, j | 0 <= i < j < |r|
      ensures r[i].node != r[j].node
    {
      assert i != k ==> r[i] == ts[if i < k then i else i - 1];
      assert j != k ==> r[j] == ts[if j < k then j else j - 1];
    }
  }

  // r holds x and, of the other nodes, what ts holds.
  ghost predicate Replaces(r: seq<Timeout>, ts: seq<Timeout>, x: Timeout) {
    forall y :: y in r <==> (y in ts && y.node != x.node) || y == x
  }

  lemma UpdatedEntries(t: Tracker, n: NodeId, ttl: int, now: int)
    requires Sorted(t.timeouts)
    ensures Replaces(Update(t, n, ttl, now).timeouts, t.timeouts, Timeout(now + ttl, n))
  {
    WithoutStaysSorted(t.timeouts, n);
    InsertedStaysSorted(Without(t.timeouts, n), Timeout(now + ttl, n));
  }

  class Pruner {
    var timeouts: seq<Timeout>
    var armed: Option<int>

    function View(): Tracker
      reads this
    {
      Tracker(timeouts, armed)
    }

    constructor ()
      ensures View() == EMPTY
    {
      timeouts, armed := [], None;
    }

    method Erase(node: NodeId)
      modifies this`timeouts
      ensures timeouts == Without(old(timeouts), node)
    {
      var kept := [];
      for i := 0 to |timeouts|
        invariant kept == Without(timeouts[..i], node)
        invariant timeouts == old(timeouts)
      {
        assert timeouts[..i + 1][..i] == timeouts[..i];
        if timeouts[i].node != node {
          kept := kept + [timeouts[i]];
        }
      }
      assert timeouts[..|timeouts|] == timeouts;
      timeouts := kept;
    }

    // Binary search for the first entry due after d.
    method FirstAfter(d: int) returns (k: nat)
      requires Sorted(timeouts)
      ensures k == UpperBound(timeouts, d)
    {
      var lo, hi := 0, |timeouts|;
      while lo < hi
        invariant lo <= hi <= |timeouts|
        invariant forall j :: 0 <= j < lo ==> timeouts[j].deadline <= d
        invariant forall j :: hi <= j < |timeouts| ==> timeouts[j].deadline > d
      {
        var mid := (lo + hi) / 2;
        if timeouts[mid].deadline <= d {
          lo := mid + 1;
        } else {
          hi := mid;
        }
      }
      k := lo;
      PartitionIsUnique(timeouts, d, k);
    }

    method UpdateTimeout(node: NodeId, ttl: int, now: int)
      requires Sorted(timeouts)
      modifies this
      ensures View() == Update(old(View()), node, ttl, now)
    {
      WithoutStaysSorted(timeouts, node);
      Erase(node);
      Insert(Timeout(now + ttl, node));
      SchedulePruning();
    }

    method Insert(x: Timeout)
      requires Sorted(timeouts)
      modifies this`timeouts
      ensures timeouts == Inserted(old(timeouts), x)
    {
      var at := FirstAfter(x.deadline);
      timeouts := timeouts[..at] + [x] + timeouts[at..];
    }

    method SchedulePruning()
      modifies this`armed
      ensures View() == Scheduled(timeouts, old(armed))
    {
      if timeouts != [] {
        armed := Some(timeouts[0].deadline + SLACK);
      }
    }

    // Runs when the pending timer fires; returns the nodes reported, in order.
    method Prune(now: int) returns (expired: seq<NodeId>)
      requires Sorted(timeouts)
      modifies this
      ensures View() == Pruned(old(View()), now) && expired == Reported(old(View()), now)
    {
      armed := None;
      var end := FirstAfter(now - 1);
      var due := timeouts[..end];
      expired := [];
      for i := 0 to end
        invariant expired == seq(i, j requires 0 <= j < i => due[j].node)
      {
        expired := expired + [due[i].node];
      }
      timeouts := timeouts[end..];
      SchedulePruning();
    }

    // Leaves the pending timer as it is.
    method Forget(node: NodeId)
      modifies this`timeouts
      ensures View() == Remove(old(View()), node)
    {
      Erase(node);
    }

    method Clear()
      modifies this`timeouts
      ensures View() == old(View()).(timeouts := [])
    {
      timeouts := [];
    }
  }

  /* Whole runs, with an ideal timer: it fires exactly when it is due */

  datatype Event = Seen(node: NodeId, ttl: nat) | Gone(node: NodeId) | Clear | Wait(to: int) | Fire

  datatype State = State(now: int, tracker: Tracker)

  predicate Enabled(s: State, ev: Event) {
    match ev
    case Wait(to) => s.now <= to && (s.tracker.armed.Some? ==> to <= s.tracker.armed.value)
    case Fire => s.tracker.armed == Some(s.now)
    case _ => true
  }

  function Next(s: State, ev: Event): State {
    match ev
    case Seen(n, ttl) => s.(tracker := Update(s.tracker, n, ttl, s.now))
    case Gone(n) => s.(tracker := Remove(s.tracker, n))
    case Clear => s.(tracker := s.tracker.(timeouts := []))
    case Wait(to) => s.(now := to)
    case Fire => s.(tracker := Pruned(s.tracker, s.now))
  }

  // The vector is sorted with one entry per node, and while it is not empty the timer is pending,
  // due no later than a second after the earliest deadline.
  ghost predicate Armed(s: State) {
    var ts, armed := s.tracker.timeouts, s.tracker.armed;
    && Sorted(ts) && OnePerNode(ts)
    && (armed.Some? ==> s.now <= armed.value)
    && (ts != [] ==> armed.Some? && armed.value <= ts[0].deadline + SLACK)
  }

  lemma StepKeepsArmed(s: State, ev: Event)
    requires Armed(s) && Enabled(s, ev)
    ensures Armed(Next(s, ev))
  {
    match ev
    case Seen(n, ttl) => SeenKeepsArmed(s, n, ttl);
    case Gone(n) => GoneKeepsArmed(s, n);
    case _ =>
  }

  lemma InsertedFirst(ts: seq<Timeout>, x: Timeout)
    requires Sorted(ts)
    ensures Inserted(ts, x)[0] == if ts == [] || x.deadline < ts[0].deadline then x else ts[0]
  {
  }

  lemma SeenKeepsArmed(s: State, n: NodeId, ttl: nat)
    requires Armed(s)
    ensures Armed(s.(tracker := Update(s.tracker, n, ttl, s.now)))
  {
    var kept := Without(s.tracker.timeouts, n);
    WithoutStaysSorted(s.tracker.timeouts, n);
    InsertedStaysSorted(kept, Timeout(s.now + ttl, n));
    InsertedFirst(kept, Timeout(s.now + ttl, n));
    assert Inserted(kept, Timeout(s.now + ttl, n))[0].deadline >= s.now - SLACK by {
      assert kept != [] ==> kept[0] in s.tracker.timeouts;
    }
  }

  lemma GoneKeepsArmed(s: State, n: NodeId)
    requires Armed(s)
    ensures Armed(s.(tracker := Remove(s.tracker, n)))
  {
    var ts := s.tracker.timeouts;
    WithoutStaysSorted(ts, n);
    var rest := Without(ts, n);
    if rest != [] {
      assert rest[0] in ts;
    }
  }

  // The reference: which nodes are being waited for, and until when.
  function Expected(m: map<NodeId, int>, now: int, ev: Event): map<NodeId, int> {
    match ev
    case Seen(n, ttl) => m[n := now + ttl]
    case Gone(n) => m - {n}
    case Clear => map[]
    case Wait(_) => m
    case Fire => map n | n in m && m[n] >= now :: m[n]
  }

  ghost predicate Tracks(ts: seq<Timeout>, m: map<NodeId, int>) {
    && (forall x :: x in ts ==> x.node in m && m[x.node] == x.deadline)
    && (forall n :: n in m ==> Timeout(m[n], n) in ts)
  }

  lemma SeenTracks(t: Tracker, m: map<NodeId, int>, n: NodeId, ttl: int, now: int)
    requires Sorted(t.timeouts) && Tracks(t.timeouts, m)
    ensures Tracks(Update(t, n, ttl, now).timeouts, m[n := now + ttl])
  {
    UpdatedEntries(t, n, ttl, now);
    ReplacementTracks(t.timeouts, Update(t, n, ttl, now).timeouts, m, Timeout(now + ttl, n));
  }

  lemma ReplacementTracks(ts: seq<Timeout>, r: seq<Timeout>, m: map<NodeId, int>, x: Timeout)
    requires Tracks(ts, m) && Replaces(r, ts, x)
    ensures Tracks(r, m[x.node := x.deadline])
  {
  }

  lemma LateEntriesStay(ts: seq<Timeout>, now: int)
    requires Sorted(ts)
    ensures forall x :: x in ts[UpperBound(ts, now - 1)..] <==> x in ts && x.deadline >= now
  {
    var k := UpperBound(ts, now - 1);
    forall x | x in ts && x.deadline >= now
      ensures x in ts[k..]
    {
      var i :| 0 <= i < |ts| && ts[i] == x;
      assert ts[k..][i - k] == x;
    }
  }

  lemma FireTracks(t: Tracker, m: map<NodeId, int>, now: int)
    requires Sorted(t.timeouts) && Tracks(t.timeouts, m)
    ensures Tracks(Pruned(t, now).timeouts, map n | n in m && m[n] >= now :: m[n])
  {
    LateEntriesStay(t.timeouts, now);
  }

  // The sorted vector always holds exactly the expected deadlines.
  lemma StepTracks(s: State, m: map<NodeId, int>, ev: Event)
    requires Armed(s) && Enabled(s, ev) && Tracks(s.tracker.timeouts, m)
    ensures Tracks(Next(s, ev).tracker.timeouts, Expected(m, s.now, ev))
  {
    match ev
    case Seen(n, ttl) => SeenTracks(s.tracker, m, n, ttl, s.now);
    case Fire => FireTracks(s.tracker, m, s.now);
    case _ =>
  }

  // When the timer fires it reports each overdue node once and no other, and no deadline is more
  // than a second past.
  lemma ReportsAreTimely(s: State, m: map<NodeId, int>, n: NodeId)
    requires Armed(s) && Tracks(s.tracker.timeouts, m)
    ensures n in Reported(s.tracker, s.now) <==> n in m && m[n] < s.now
    ensures Distinct(Reported(s.tracker, s.now))
    ensures n in m ==> s.now <= m[n] + 1 * SECOND
  {
    var ts, k := s.tracker.timeouts, Overdue(s.tracker, s.now);
    var r := Reported(s.tracker, s.now);
    if n in m {
      var i :| 0 <= i < |ts| && ts[i] == Timeout(m[n], n);
      if i < k { assert r[i] == n; }
    }
    if n in r {
      var i :| 0 <= i < |r| && r[i] == n;
      assert ts[i] in ts;
    }
  }

  // The reports come in the order of the deadlines.
  ghost predicate EarliestFirst(r: seq<NodeId>, m: map<NodeId, int>) {
    forall i, j :: 0 <= i < j < |r| ==> r[i] in m && r[j] in m && m[r[i]] <= m[r[j]]
  }

  lemma ReportsAreOrdered(s: State, m: map<NodeId, int>)
    requires Armed(s) && Tracks(s.tracker.timeouts, m)
    ensures EarliestFirst(Reported(s.tracker, s.now), m)
  {
    var ts := s.tracker.timeouts;
    assert forall i :: 0 <= i < |ts| ==> ts[i] in ts;
  }

  lemma InsertedBehind(ts: seq<Timeout>, x: Timeout, y: Timeout) returns (j: nat, k: nat)
    requires Sorted(ts) && y in ts && y.deadline <= x.deadline
    ensures j < k < |Inserted(ts, x)| && Inserted(ts, x)[j] == y && Inserted(ts, x)[k] == x
  {
    j :| 0 <= j < |ts| && ts[j] == y;
    k := UpperBound(ts, x.deadline);
  }

  // Of nodes with one deadline the one seen last comes last.
  lemma {:induction false} LastSeenComesLast(t: Tracker, n: NodeId, ttl: int, now: int, y: Timeout)
    returns (j: nat, k: nat)
    requires Sorted(t.timeouts) && y in t.timeouts && y.node != n && y.deadline <= now + ttl
    ensures var ts := Update(t, n, ttl, now).timeouts;
            j < k < |ts| && ts[j] == y && ts[k] == Timeout(now + ttl, n)
  {
    WithoutKeepsOrder(t.timeouts, n);
    j, k := InsertedBehind(Without(t.timeouts, n), Timeout(now + ttl, n), y);
  }

  /* Runs from the empty tracker */

  ghost predicate Legal(s: State, evs: seq<Event>)
    decreases |evs|
  {
    evs != [] ==> Enabled(s, evs[0]) && Legal(Next(s, evs[0]), evs[1..])
  }

  ghost function End(s: State, evs: seq<Event>): State
    requires Legal(s, evs)
    decreases |evs|
  {
    if evs == [] then s else End(Next(s, evs[0]), evs[1..])
  }

  function Tick(now: int, ev: Event): int {
    if ev.Wait? then ev.to else now
  }

  // The clock before the k-th event.
  function Clock(now: int, evs: seq<Event>, k: nat): int
    requires k <= |evs|
    decreases k
  {
    if k == 0 then now else Clock(Tick(now, evs[0]), evs[1..], k - 1)
  }

  function Awaited(m: map<NodeId, int>, now: int, evs: seq<Event>): map<NodeId, int>
    decreases |evs|
  {
    if evs == [] then m else Awaited(Expected(m, now, evs[0]), Tick(now, evs[0]), evs[1..])
  }

  lemma {:induction false} RunTracks(s: State, m: map<NodeId, int>, evs: seq<Event>)
    requires Armed(s) && Tracks(s.tracker.timeouts, m) && Legal(s, evs)
    ensures Armed(End(s, evs)) && Tracks(End(s, evs).tracker.timeouts, Awaited(m, s.now, evs))
    decreases |evs|
  {
    if evs != [] {
      StepKeepsArmed(s, evs[0]);
      StepTracks(s, m, evs[0]);
      RunTracks(Next(s, evs[0]), Expected(m, s.now, evs[0]), evs[1..]);
    }
  }

  // In every run with an ideal timer a node that stays silent is reported within a second after
  // its deadline and never before it, and exactly the overdue nodes are reported.
  lemma SilentNodesAreReportedInTime(start: int, evs: seq<Event>, n: NodeId)
    requires Legal(State(start, EMPTY), evs)
    ensures var s, m := End(State(start, EMPTY), evs), Awaited(map[], start, evs);
            && Armed(s)
            && (n in Reported(s.tracker, s.now) <==> n in m && m[n] < s.now)
            && Distinct(Reported(s.tracker, s.now)) && EarliestFirst(Reported(s.tracker, s.now), m)
            && (n in m ==> s.now <= m[n] + 1 * SECOND)
  {
    RunTracks(State(start, EMPTY), map[], evs);
    ReportsAreTimely(End(State(start, EMPTY), evs), Awaited(map[], start, evs), n);
    ReportsAreOrdered(End(State(start, EMPTY), evs), Awaited(map[], start, evs));
  }

  predicate Mentions(ev: Event, n: NodeId) {
    (ev.Seen? && ev.node == n) || (ev.Gone? && ev.node == n) || ev.Clear?
  }

  // A node is waited for only if the last word about it was that it was seen, so it is never
  // reported after it said goodbye; its deadline is the time to live after that word.
  lemma {:induction false} AwaitedWasSeenLast(m: map<NodeId, int>, now: int, evs: seq<Event>, n: NodeId)
    returns (k: int)
    requires n in Awaited(m, now, evs)
    ensures -1 <= k < |evs|
    ensures k == -1 ==> n in m && Awaited(m, now, evs)[n] == m[n]
    ensures k >= 0 ==> evs[k].Seen? && evs[k].node == n && Awaited(m, now, evs)[n] == Clock(now, evs, k) + evs[k].ttl
    ensures forall i :: k < i < |evs| ==> !Mentions(evs[i], n)
    decreases |evs|
  {
    if evs == [] {
      k := -1;
    } else {
      var ev := evs[0];
      k := AwaitedWasSeenLast(Expected(m, now, ev), Tick(now, ev), evs[1..], n);
      if k >= 0 || (ev.Seen? && ev.node == n) {
        k := k + 1;
      }
    }
  }
}
