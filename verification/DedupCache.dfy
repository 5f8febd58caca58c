// The bounded LRU filter that suppresses repeated broadcasts: first as a pure list, with the
// theorem that says exactly when a call is answered "duplicate", then as the list-plus-index class.
module Dedup {
  import opened LinkTypes
  import Fnv

  const WINDOW := 50
  const CAPACITY: nat := 256

  datatype Key = Key(typ: MessageType, node: NodeId, hash: nat)

  datatype Entry = Entry(key: Key, stamp: int)

  datatype Verdict = Verdict(entries: seq<Entry>, duplicate: bool)

  datatype Call = Call(key: Key, now: int)

  function KeyOf(typ: MessageType, node: NodeId, payload: seq<Byte>): Key {
    Key(typ, node, Fnv.Hash(Fnv.OFFSET_BASIS, payload))
  }

  // The index of the first occurrence of k, or |s|.
  function Find(s: seq<Key>, k: Key): (i: nat)
    ensures i <= |s|
    ensures i < |s| ==> s[i] == k
    ensures forall j :: 0 <= j < i ==> s[j] != k
  {
    if s == [] then 0 else if s[0] == k then 0 else 1 + Find(s[1..], k)
  }

  function Keys(entries: seq<Entry>): (ks: seq<Key>)
    ensures |ks| == |entries|
  {
    seq(|entries|, i requires 0 <= i < |entries| => entries[i].key)
  }

  // Moves position i of s to the front, putting x there.
  function ToFront<T>(s: seq<T>, i: nat, x: T): (r: seq<T>)
    requires i < |s|
    ensures |r| == |s| && r[0] == x
    ensures forall j :: 0 < j < |s| ==> r[j] == s[if j <= i then j - 1 else j]
  {
    seq(|s|, j requires 0 <= j < |s| => if j == 0 then x else s[if j <= i then j - 1 else j])
  }

  // One lookup in a cache whose entries are listed most recently used first.
  function Lookup(entries: seq<Entry>, capacity: nat, window: int, c: Call): Verdict {
    var i := Find(Keys(entries), c.key);
    if i < |entries| then
      var repeated := c.now - entries[i].stamp < window;
      Verdict(ToFront(entries, i, if repeated then entries[i] else Entry(c.key, c.now)), repeated)
    else
      var kept := if entries != [] && |entries| >= capacity then entries[..|entries| - 1] else entries;
      Verdict([Entry(c.key, c.now)] + kept, false)
  }

  /* Whole runs.  A history is the sequence of calls in the order the lock admits them; their
     clock readings need not be monotone, because the clock is read before the lock is taken. */

  function After(h: seq<Call>, capacity: nat, window: int): seq<Entry> {
    if h == [] then [] else
      Lookup(After(h[..|h| - 1], capacity, window), capacity, window, h[|h| - 1]).entries
  }

  // The answer to call c made after history h.
  predicate Duplicate(h: seq<Call>, capacity: nat, window: int, c: Call) {
    Lookup(After(h, capacity, window), capacity, window, c).duplicate
  }

  // The clock reading of the last call for k that was answered "not duplicate".
  function LastForward(h: seq<Call>, capacity: nat, window: int, k: Key): Option<int> {
    if h == [] then None
    else
      var front, c := h[..|h| - 1], h[|h| - 1];
      if c.key == k && !Duplicate(front, capacity, window, c) then Some(c.now)
      else LastForward(front, capacity, window, k)
  }

  // The distinct other keys asked about since the last call for k.
  function Since(h: seq<Call>, k: Key): set<Key> {
    if h == [] || h[|h| - 1].key == k then {} else {h[|h| - 1].key} + Since(h[..|h| - 1], k)
  }

  // Moves k to the front of r, or adds it there.
  ghost function Touch(r: seq<Key>, k: Key): seq<Key> {
    var i := Find(r, k);
    if i < |r| then ToFront(r, i, k) else [k] + r
  }

  // All keys ever asked about, most recently asked first.
  ghost function Recency(h: seq<Call>): seq<Key> {
    if h == [] then [] else Touch(Recency(h[..|h| - 1]), h[|h| - 1].key)
  }

  lemma FindInPrefix(s: seq<Key>, r: seq<Key>, k: Key)
    requires |s| <= |r| && forall j :: 0 <= j < |s| ==> s[j] == r[j]
    ensures Find(s, k) == if Find(r, k) < |s| then Find(r, k) else |s|
  {
    var i, p := Find(s, k), Find(r, k);
    if i < |s| {
      assert r[i] == k;
    }
    if p < |s| {
      assert s[p] == k;
    }
  }

  lemma TouchDistinct(q: seq<Key>, last: Key)
    requires Distinct(q)
    ensures Distinct(Touch(q, last))
  {
    var i, r := Find(q, last), Touch(q, last);
    forall a, b | 0 <= a < b < |r|
      ensures r[a] != r[b]
    {
      var b' := if i < |q| && b > i then b else b - 1;
      assert r[b] == q[b'];
      if a > 0 {
        var a' := if i < |q| && a > i then a else a - 1;
        assert r[a] == q[a'];
      }
    }
  }

  // Moving another key to the front shifts k back by at most one place ...
  lemma TouchShifts(q: seq<Key>, last: Key, k: Key)
    requires Distinct(q) && last != k
    ensures Find(Touch(q, last), k) == Find(q, k) + if Find(q, last) < Find(q, k) then 0 else 1
  {
    var i, p, r := Find(q, last), Find(q, k), Touch(q, last);
    TouchDistinct(q, last);
    if p < |q| {
      assert r[if i < p then p else p + 1] == k;
    }
  }

  // ... so the keys in front of k are those that were there before, and the one moved.
  lemma TouchMoves(q: seq<Key>, last: Key, k: Key)
    requires Distinct(q) && last != k && Find(q, k) < |q|
    ensures Elements(Touch(q, last)[..Find(Touch(q, last), k)]) == {last} + Elements(q[..Find(q, k)])
  {
    var i, p := Find(q, last), Find(q, k);
    TouchShifts(q, last, k);
    if i < p {
      MovedFromFront(q, i, p);
    } else {
      MovedToFront(q, Touch(q, last), p);
    }
  }

  lemma MovedFromFront<T>(q: seq<T>, i: nat, p: nat)
    requires i < p < |q|
    ensures Elements(ToFront(q, i, q[i])[..p]) == {q[i]} + Elements(q[..p])
  {
    assert q[..p] == q[..i] + [q[i]] + q[i + 1..p];
    assert ToFront(q, i, q[i])[..p] == [q[i]] + q[..i] + q[i + 1..p];
  }

  lemma MovedToFront<T>(q: seq<T>, r: seq<T>, p: nat)
    requires p < |q| && p + 1 <= |r| && forall j :: 0 < j <= p ==> r[j] == q[j - 1]
    ensures Elements(r[..p + 1]) == {r[0]} + Elements(q[..p])
  {
    assert r[..p + 1] == [r[0]] + q[..p];
  }

  lemma {:induction false} RecencyDistinct(h: seq<Call>)
    ensures Distinct(Recency(h))
  {
    if h != [] {
      RecencyDistinct(h[..|h| - 1]);
      TouchDistinct(Recency(h[..|h| - 1]), h[|h| - 1].key);
    }
  }

  ghost predicate Asked(h: seq<Call>, k: Key) {
    exists i :: 0 <= i < |h| && h[i].key == k
  }

  lemma AskedBefore(h: seq<Call>, k: Key)
    requires h != []
    ensures Asked(h, k) <==> h[|h| - 1].key == k || Asked(h[..|h| - 1], k)
  {
    var front := h[..|h| - 1];
    if i :| 0 <= i < |front| && front[i].key == k {
      assert h[i].key == k;
    }
  }

  lemma {:induction false} RecencyListsAsked(h: seq<Call>, k: Key)
    ensures Find(Recency(h), k) < |Recency(h)| <==> Asked(h, k)
  {
    if h != [] {
      var q, last := Recency(h[..|h| - 1]), h[|h| - 1].key;
      RecencyListsAsked(h[..|h| - 1], k);
      RecencyDistinct(h[..|h| - 1]);
      AskedBefore(h, k);
      if last == k {
        assert Touch(q, last)[0] == k;
      } else {
        TouchShifts(q, last, k);
      }
    }
  }

  lemma {:induction false} RecencyShape(h: seq<Call>, k: Key)
    requires Asked(h, k)
    ensures Find(Recency(h), k) < |Recency(h)|
    ensures Since(h, k) == Elements(Recency(h)[..Find(Recency(h), k)])
  {
    RecencyListsAsked(h, k);
    var front, last := h[..|h| - 1], h[|h| - 1].key;
    AskedBefore(h, k);
    if last == k {
      assert Recency(h)[0] == k;
    } else {
      RecencyShape(front, k);
      RecencyDistinct(front);
      TouchMoves(Recency(front), last, k);
    }
  }

  // The cache holds the most recently asked keys, as many as fit, each stamped with the time of
  // its last "not duplicate" answer.
  ghost predicate Represents(entries: seq<Entry>, h: seq<Call>, capacity: nat, window: int) {
    var r := Recency(h);
    && |entries| == (if |r| < capacity then |r| else capacity)
    && (forall i :: 0 <= i < |entries| ==>
          entries[i].key == r[i] && LastForward(h, capacity, window, r[i]) == Some(entries[i].stamp))
  }

  // A lookup keeps the listed keys a prefix of the recency order.
  lemma LookupKeys(e: seq<Entry>, r: seq<Key>, capacity: nat, window: int, c: Call)
    requires capacity >= 1 && |e| == if |r| < capacity then |r| else capacity
    requires forall i :: 0 <= i < |e| ==> e[i].key == r[i]
    ensures var e', r' := Lookup(e, capacity, window, c).entries, Touch(r, c.key);
            && |e'| == (if |r'| < capacity then |r'| else capacity)
            && forall j :: 0 <= j < |e'| ==> e'[j].key == r'[j]
  {
    FindInPrefix(Keys(e), r, c.key);
  }

  lemma {:induction false} CacheHoldsMostRecent(h: seq<Call>, capacity: nat, window: int)
    requires capacity >= 1
    ensures Represents(After(h, capacity, window), h, capacity, window)
  {
    if h != [] {
      var front, c := h[..|h| - 1], h[|h| - 1];
      CacheHoldsMostRecent(front, capacity, window);
      RecencyDistinct(front);
      var e, r := After(front, capacity, window), Recency(front);
      FindInPrefix(Keys(e), r, c.key);
      var e', r' := After(h, capacity, window), Recency(h);
      TouchDistinct(r, c.key);
      LookupKeys(e, r, capacity, window, c);
      forall j | 0 < j < |e'|
        ensures LastForward(h, capacity, window, r'[j]) == Some(e'[j].stamp)
      {
        assert r'[j] != r'[0];
      }
    }
  }

  // The filter is exact: a call is answered "duplicate" if and only if its key was last let
  // through less than a window ago and fewer than `capacity` other keys were asked about since
  // the key was last asked about.
  lemma ExactVerdict(h: seq<Call>, capacity: nat, window: int, c: Call)
    requires capacity >= 1
    ensures Duplicate(h, capacity, window, c) <==>
            && LastForward(h, capacity, window, c.key).Some?
            && c.now - LastForward(h, capacity, window, c.key).value < window
            && |Since(h, c.key)| < capacity
  {
    CacheHoldsMostRecent(h, capacity, window);
    RecencyDistinct(h);
    RecencyListsAsked(h, c.key);
    var e, r := After(h, capacity, window), Recency(h);
    FindInPrefix(Keys(e), r, c.key);
    var p := Find(r, c.key);
    if p < |r| {
      RecencyShape(h, c.key);
      PrefixSize(r, p);
    } else {
      NeverForwarded(h, capacity, window, c.key);
    }
  }

  // As the program sets it up: 50 milliseconds, 256 entries.
  lemma DefaultVerdict(h: seq<Call>, c: Call)
    ensures Duplicate(h, CAPACITY, WINDOW, c) <==>
            && LastForward(h, CAPACITY, WINDOW, c.key).Some?
            && c.now - LastForward(h, CAPACITY, WINDOW, c.key).value < 50
            && |Since(h, c.key)| < 256
  {
    ExactVerdict(h, CAPACITY, WINDOW, c);
  }

  lemma PrefixSize(r: seq<Key>, p: nat)
    requires Distinct(r) && p <= |r|
    ensures |Elements(r[..p])| == p
  {
    DistinctSize(r[..p]);
  }

  lemma {:induction false} DistinctSize(s: seq<Key>)
    requires Distinct(s)
    ensures |Elements(s)| == |s|
  {
    if s != [] {
      var front, last := s[..|s| - 1], s[|s| - 1];
      DistinctSize(front);
      assert last !in front;
      assert s == front + [last];
      assert Elements(s) == Elements(front) + {last};
    }
  }

  lemma {:induction false} NeverForwarded(h: seq<Call>, capacity: nat, window: int, k: Key)
    requires forall i :: 0 <= i < |h| ==> h[i].key != k
    ensures LastForward(h, capacity, window, k).None?
  {
    if h != [] {
      NeverForwarded(h[..|h| - 1], capacity, window, k);
    }
  }

  ghost function OtherKeys(calls: seq<Call>, k: Key): set<Key> {
    set i | 0 <= i < |calls| && calls[i].key != k :: calls[i].key
  }

  // A burst of copies is let through once: after a call that was let through, every further call for
  // its key within the window is a duplicate, as long as fewer than `capacity` other keys intervene.
  lemma {:induction false} BurstIsForwardedOnce(h: seq<Call>, c: Call, rest: seq<Call>, capacity: nat, window: int)
    requires capacity >= 1 && !Duplicate(h, capacity, window, c) && |OtherKeys(rest, c.key)| < capacity
    requires forall i :: 0 <= i < |rest| && rest[i].key == c.key ==> rest[i].now - c.now < window
    ensures LastForward(h + [c] + rest, capacity, window, c.key) == Some(c.now)
    ensures Since(h + [c] + rest, c.key) <= OtherKeys(rest, c.key)
    ensures rest != [] && rest[|rest| - 1].key == c.key ==>
              Duplicate(h + [c] + rest[..|rest| - 1], capacity, window, rest[|rest| - 1])
  {
    if rest == [] {
      assert h + [c] + rest == h + [c] && (h + [c])[..|h|] == h;
    } else {
      var front, last := rest[..|rest| - 1], rest[|rest| - 1];
      var all := h + [c] + front;
      assert h + [c] + rest == all + [last] && (all + [last])[..|all|] == all;
      OtherKeysGrow(front, last, c.key);
      assert front + [last] == rest;
      SubsetSize(OtherKeys(front, c.key), OtherKeys(rest, c.key));
      BurstIsForwardedOnce(h, c, front, capacity, window);
      if last.key == c.key {
        SubsetSize(Since(all, c.key), OtherKeys(front, c.key));
        ExactVerdict(all, capacity, window, last);
      }
    }
  }

  lemma OtherKeysGrow(front: seq<Call>, last: Call, k: Key)
    ensures OtherKeys(front, k) <= OtherKeys(front + [last], k)
    ensures last.key != k ==> last.key in OtherKeys(front + [last], k)
  {
    var all := front + [last];
    assert all[|front|] == last;
    assert forall i :: 0 <= i < |front| ==> all[i] == front[i];
  }

  lemma {:induction false} SubsetSize<T>(a: set<T>, b: set<T>)
    requires a <= b
    ensures |a| <= |b|
  {
    if a != {} {
      var x :| x in a;
      SubsetSize(a - {x}, b - {x});
    }
  }

  class Node {
    const key: Key
    var stamp: int

    constructor (key: Key, stamp: int)
      ensures this.key == key && this.stamp == stamp
    {
      this.key := key;
      this.stamp := stamp;
    }
  }

  // The list and the index describe the same nodes: the index maps exactly the listed keys, each
  // to its own node.  Keys never change, so this does not depend on the heap.
  ghost predicate Linked(entries: seq<Node>, index: map<Key, Node>) {
    && (forall i :: 0 <= i < |entries| ==> entries[i].key in index && index[entries[i].key] == entries[i])
    && (forall i, j :: 0 <= i < j < |entries| ==> entries[i] != entries[j])
    && (forall k :: k in index ==> index[k] in entries && index[k].key == k)
  }

  lemma SpliceKeepsLinked(entries: seq<Node>, index: map<Key, Node>, i: nat)
    requires Linked(entries, index) && i < |entries|
    ensures Linked(ToFront(entries, i, entries[i]), index)
  {
    var r := ToFront(entries, i, entries[i]);
    forall k | k in index
      ensures index[k] in r
    {
      var at :| 0 <= at < |entries| && entries[at] == index[k];
      assert r[if at < i then at + 1 else if at == i then 0 else at] == index[k];
    }
  }

  lemma SpliceKeepsElements<T>(s: seq<T>, i: nat)
    requires i < |s|
    ensures Elements(ToFront(s, i, s[i])) == Elements(s)
  {
    var r := ToFront(s, i, s[i]);
    forall x | x in s
      ensures x in r
    {
      var at :| 0 <= at < |s| && s[at] == x;
      assert r[if at < i then at + 1 else if at == i then 0 else at] == x;
    }
  }

  lemma EvictionKeepsLinked(entries: seq<Node>, index: map<Key, Node>)
    requires Linked(entries, index) && entries != []
    ensures Linked(entries[..|entries| - 1], index - {entries[|entries| - 1].key})
  {
    var last := entries[|entries| - 1];
    var r := entries[..|entries| - 1];
    forall k | k in index && k != last.key
      ensures index[k] in r
    {
      var at :| 0 <= at < |entries| && entries[at] == index[k];
      assert r[at] == index[k];
    }
  }

  lemma InsertionKeepsLinked(entries: seq<Node>, index: map<Key, Node>, n: Node)
    requires Linked(entries, index) && n.key !in index
    ensures Linked([n] + entries, index[n.key := n])
  {
    var r := [n] + entries;
    assert r[0] == n;
    assert forall i :: 0 <= i < |entries| ==> entries[i] in entries;
  }

  class DedupCache {
    const capacity: nat
    const window: int
    var entries: seq<Node>
    var index: map<Key, Node>

    ghost predicate Valid()
      reads this
    {
      1 <= capacity && |entries| <= capacity && Linked(entries, index)
    }

    ghost function View(): seq<Entry>
      reads this, entries
    {
      seq(|entries|, i requires 0 <= i < |entries| reads this, entries => Entry(entries[i].key, entries[i].stamp))
    }

    constructor (capacity: nat := CAPACITY, window: int := WINDOW)
      requires capacity >= 1
      ensures Valid() && View() == [] && entries == []
      ensures this.capacity == capacity && this.window == window
    {
      this.capacity := capacity;
      this.window := window;
      entries := [];
      index := map[];
    }

    lemma FoundAt(i: nat)
      requires Valid() && i < |entries|
      ensures Find(Keys(View()), entries[i].key) == i
    {
      var at := Find(Keys(View()), entries[i].key);
      assert Keys(View())[i] == entries[i].key;
      assert entries[at].key == entries[i].key;
    }

    lemma NotListed(key: Key)
      requires Valid() && key !in index
      ensures Find(Keys(View()), key) == |entries|
    {
      forall i | 0 <= i < |entries|
        ensures Keys(View())[i] != key
      {
        assert entries[i].key in index;
      }
    }

    method IsDuplicate(typ: MessageType, node: NodeId, payload: seq<Byte>, now: int) returns (duplicate: bool)
      requires Valid()
      modifies this, entries
      ensures Valid() && (forall n :: n in entries ==> n in old(entries) || fresh(n))
      ensures Verdict(View(), duplicate)
           == Lookup(old(View()), capacity, window, Call(KeyOf(typ, node, payload), now))
    {
      var hash := Fnv.Fnv1a64(payload);
      var key := Key(typ, node, hash);
      if key in index {
        duplicate := Refresh(key, now);
      } else {
        NotListed(key);
        Insert(key, now);
        duplicate := false;
      }
    }

    // Splices a listed entry to the front, renewing its time stamp unless it is still recent.
    method Refresh(key: Key, now: int) returns (duplicate: bool)
      requires Valid() && key in index
      modifies this`entries, entries
      ensures Valid() && Elements(entries) == Elements(old(entries))
      ensures var at := Find(Keys(old(View())), key);
              && at < |old(entries)|
              && duplicate == (now - old(View())[at].stamp < window)
              && View() == ToFront(old(View()), at, if duplicate then old(View())[at] else Entry(key, now))
    {
      var entry := index[key];
      duplicate := now - entry.stamp < window;
      var i :| 0 <= i < |entries| && entries[i] == entry;
      FoundAt(i);
      Splice(i);
      if !duplicate {
        Restamp(now);
      }
    }

    method Splice(i: nat)
      requires Valid() && i < |entries|
      modifies this`entries
      ensures Valid() && Elements(entries) == Elements(old(entries))
      ensures |entries| == |old(entries)| && entries[0] == old(entries)[i]
      ensures View() == ToFront(old(View()), i, old(View())[i])
    {
      SpliceKeepsLinked(entries, index, i);
      SpliceKeepsElements(entries, i);
      entries := ToFront(entries, i, entries[i]);
    }

    // Writes the time stamp of the entry in front.
    method Restamp(now: int)
      requires Valid() && entries != []
      modifies entries[0]
      ensures Valid() && View() == old(View())[0 := Entry(entries[0].key, now)]
    {
      entries[0].stamp := now;
    }

    // Adds a new entry in front, evicting the least recently used one when the list is full.
    method Insert(key: Key, now: int)
      requires Valid() && key !in index
      modifies this`entries, this`index
      ensures Valid() && (forall n :: n in entries ==> n in old(entries) || fresh(n))
      ensures View() == [Entry(key, now)]
                        + if |old(entries)| >= capacity then old(View())[..|old(entries)| - 1] else old(View())
    {
      if |entries| >= capacity {
        EvictLast();
      }
      PushFront(key, now);
    }

    method PushFront(key: Key, now: int)
      requires Valid() && key !in index && |entries| < capacity
      modifies this`entries, this`index
      ensures Valid() && (forall n :: n in entries ==> n in old(entries) || fresh(n))
      ensures View() == [Entry(key, now)] + old(View())
    {
      var entry := new Node(key, now);
      InsertionKeepsLinked(entries, index, entry);
      entries := [entry] + entries;
      index := index[key := entry];
    }

    method EvictLast()
      requires Valid() && entries != []
      modifies this`entries, this`index
      ensures Valid() && entries == old(entries)[..|old(entries)| - 1] && index.Keys <= old(index.Keys)
      ensures View() == old(View())[..|old(entries)| - 1]
    {
      EvictionKeepsLinked(entries, index);
      var last := entries[|entries| - 1];
      index := index - {last.key};
      entries := entries[..|entries| - 1];
    }
  }
}
