/** Threads, mutexes and blockers as heap objects, and the intrusive doubly linked list. */
module Threads {
  import opened Options
  import opened SchedModel

  class Thread {
    const tid: Tid
    const join: Mutex
    var prev: Thread?
    var next: Thread?
    ghost var home: DList?        // the list this node is chained on
    var state: ThreadState
    var remaining: int
    var critical: bool
    var ip: int
    var depth: int
    var pendingLock: Mutex?
    ghost var wait: Wait
    ghost var stamp: nat

    /** A new thread, not chained anywhere, together with its free join mutex. */
    constructor (t: Tid, start: int)
      ensures tid == t && prev == null && next == null && home == null && state == Starting && remaining == 0
      ensures !critical && ip == start && depth == 0 && pendingLock == null && wait == Nowhere && stamp == 0
      ensures fresh(join) && fresh(join.pending) && join.mid == JoinOf(t) && join.owner == null && join.count == 0
      ensures join.pending.Valid() && join.pending.nodes == []
    {
      tid := t;
      var m := new Mutex(JoinOf(t));
      join := m;
      prev, next, home := null, null, null;
      state, remaining, critical, ip, depth := Starting, 0, false, start, 0;
      pendingLock, wait, stamp := null, Nowhere, 0;
    }
  }

  class Mutex {
    const mid: Mid
    const pending: DList
    var owner: Thread?
    var count: int

    constructor (m: Mid)
      ensures mid == m && owner == null && count == 0 && fresh(pending) && pending.Valid() && pending.nodes == []
    {
      mid := m;
      var l := new DList();
      pending := l;
      owner, count := null, 0;
    }
  }

  class Blocker {
    const bid: Bid
    var stack: seq<Thread>

    constructor (b: Bid)
      ensures bid == b && stack == []
    {
      bid, stack := b, [];
    }
  }

  ghost function IdsOf(nodes: seq<Thread>): seq<Tid> {
    seq(|nodes|, i requires 0 <= i < |nodes| => nodes[i].tid)
  }

  /** Priorities never increase along the list. */
  ghost predicate Descending(l: seq<Tid>) {
    forall i, j :: 0 <= i < j < |l| ==> l[i].prio >= l[j].prio
  }

  /** Where a sorted insertion goes. */
  lemma {:induction false} InsertAt(l: seq<Tid>, n: Tid, k: nat)
    requires k <= |l| && (forall i :: 0 <= i < k ==> l[i].prio >= n.prio) && (k < |l| ==> l[k].prio < n.prio)
    ensures InsertSorted(l, n) == l[..k] + [n] + l[k..]
  {
    if k > 0 {
      InsertAt(l[1..], n, k - 1);
      assert l[1..][..k - 1] == l[1..k] && l[1..][k - 1..] == l[k..];
      assert l[..k] == [l[0]] + l[1..k];
    }
  }

  lemma {:induction false} RemoveAt(l: seq<Tid>, t: Tid, k: nat)
    requires k < |l| && l[k] == t && forall i :: 0 <= i < k ==> l[i] != t
    ensures Remove(l, t) == l[..k] + l[k + 1..]
  {
    if k > 0 {
      RemoveAt(l[1..], t, k - 1);
      assert l[1..][..k - 1] == l[1..k] && l[1..][k..] == l[k + 1..];
      assert l[..k] == [l[0]] + l[1..k];
    }
  }

  lemma IdsSplice(l: seq<Thread>, n: Thread, k: nat)
    requires k <= |l| && Descending(IdsOf(l))
    requires (k > 0 ==> l[k - 1].tid.prio >= n.tid.prio) && (k < |l| ==> l[k].tid.prio < n.tid.prio)
    ensures IdsOf(l[..k] + [n] + l[k..]) == InsertSorted(IdsOf(l), n.tid)
  {
    var ids := IdsOf(l);
    forall i | 0 <= i < k ensures ids[i].prio >= n.tid.prio {
      assert ids[i].prio >= ids[k - 1].prio;
    }
    InsertAt(ids, n.tid, k);
    assert IdsOf(l[..k] + [n] + l[k..]) == ids[..k] + [n.tid] + ids[k..];
  }

  lemma IdsCut(l: seq<Thread>, k: nat)
    requires k < |l| && NoDup(IdsOf(l))
    ensures IdsOf(l[..k] + l[k + 1..]) == Remove(IdsOf(l), l[k].tid)
  {
    RemoveAt(IdsOf(l), l[k].tid, k);
    assert IdsOf(l[..k] + l[k + 1..]) == IdsOf(l)[..k] + IdsOf(l)[k + 1..];
  }

  lemma CutMembers(l: seq<Thread>, k: nat)
    requires k < |l|
    ensures forall x | x in l[..k] + l[k + 1..] :: x in l
    ensures forall x | x in l && x != l[k] :: x in l[..k] + l[k + 1..]
  {
    var r := l[..k] + l[k + 1..];
    forall x | x in l && x != l[k] ensures x in r {
      var j :| 0 <= j < |l| && l[j] == x;
      assert x == r[if j < k then j else j - 1];
    }
  }

  lemma SpliceMembers(l: seq<Thread>, n: Thread, k: nat)
    requires k <= |l|
    ensures n in l[..k] + [n] + l[k..] && forall x | x in l[..k] + [n] + l[k..] :: x in l || x == n
    ensures forall x | x in l :: x in l[..k] + [n] + l[k..]
  {
    var r := l[..k] + [n] + l[k..];
    assert r[k] == n;
    forall x | x in l ensures x in r {
      var j :| 0 <= j < |l| && l[j] == x;
      assert x == r[if j < k then j else j + 1];
    }
  }

  /** The chain that the list macros build: head and tail pointers, nodes linked both ways. */
  class DList {
    var head: Thread?
    var tail: Thread?
    ghost var nodes: seq<Thread>

    constructor ()
      ensures Valid() && nodes == []
    {
      head, tail, nodes := null, null, [];
    }

    ghost predicate Valid()
      reads this, nodes`prev, nodes`next, nodes`home
    {
      && (head == if nodes == [] then null else nodes[0])
      && (tail == if nodes == [] then null else nodes[|nodes| - 1])
      && (forall i :: 0 <= i < |nodes| ==> Linked(i))
      && (forall i, j :: 0 <= i < j < |nodes| ==> nodes[i] != nodes[j])
    }

    /** Node number `i` belongs here and points at its neighbours. */
    ghost predicate Linked(i: nat)
      requires i < |nodes|
      reads this, nodes`prev, nodes`next, nodes`home
    {
      && nodes[i].home == this
      && nodes[i].prev == (if i == 0 then null else nodes[i - 1])
      && nodes[i].next == (if i == |nodes| - 1 then null else nodes[i + 1])
    }

    /** A node that is chained nowhere is not in this list. */
    lemma NotHere(n: Thread)
      requires Valid() && n.home != this
      ensures n !in nodes
    {
      forall i | 0 <= i < |nodes| ensures nodes[i] != n {
        assert Linked(i);
      }
    }

    /** Chain `n` at the tail. */
    method InsertTail(n: Thread)
      requires Valid() && n.home == null
      modifies this, nodes`next, n`prev, n`next, n`home
      ensures Valid() && nodes == old(nodes) + [n]
    {
      NotHere(n);
      n.next := null;
      n.prev := tail;
      if head == null {
        head := n;
      } else {
        tail.next := n;
      }
      tail := n;
      nodes := nodes + [n];
      n.home := this;
      forall i | 0 <= i < |nodes| ensures Linked(i) {
        if i < |old(nodes)| { assert old(Linked(i)); }
      }
    }

    /** Chain `n` at the head. */
    method InsertHead(n: Thread)
      requires Valid() && n.home == null
      modifies this, nodes`prev, n`prev, n`next, n`home
      ensures Valid() && nodes == [n] + old(nodes)
    {
      NotHere(n);
      n.next := head;
      n.prev := null;
      if tail == null {
        tail := n;
      } else {
        head.prev := n;
      }
      head := n;
      nodes := [n] + nodes;
      n.home := this;
      forall i | 0 <= i < |nodes| ensures Linked(i) {
        if i > 0 { assert old(Linked(i - 1)); }
      }
    }

    /** Chain `n` between `r`, which is node number `p`, and its successor. */
    method InsertAfter(r: Thread, n: Thread, ghost p: nat)
      requires Valid() && n.home == null && p + 1 < |nodes| && r == nodes[p]
      modifies this, nodes`prev, nodes`next, n`prev, n`next, n`home
      ensures Valid() && nodes == old(nodes)[..p + 1] + [n] + old(nodes)[p + 1..]
    {
      NotHere(n);
      assert Linked(p) && Linked(p + 1);
      n.next := r.next;
      r.next.prev := n;
      r.next := n;
      n.prev := r;
      nodes := nodes[..p + 1] + [n] + nodes[p + 1..];
      n.home := this;
      forall i | 0 <= i < |nodes| ensures Linked(i) {
        if i <= p { assert old(Linked(i)); } else if i > p + 1 { assert old(Linked(i - 1)); }
      }
    }

    /** Chain `n` before the first node of lower priority. */
    method InsertByPriority(n: Thread)
      requires Valid() && n.home == null && Descending(IdsOf(nodes))
      modifies this, nodes`prev, nodes`next, n`prev, n`next, n`home
      ensures Valid() && IdsOf(nodes) == InsertSorted(old(IdsOf(nodes)), n.tid)
      ensures n in nodes && (forall x | x in nodes :: x in old(nodes) || x == n) && forall x | x in old(nodes) :: x in nodes
    {
      ghost var k := 0;
      ghost var l := nodes;
      var r := head;
      if r == null {
        InsertTail(n);
      } else if n.tid.prio > r.tid.prio {
        InsertHead(n);
      } else if n.tid.prio <= tail.tid.prio {
        k := |nodes|;
        InsertTail(n);
      } else {
        assert Linked(0);
        while r.next.tid.prio >= n.tid.prio
          invariant 0 <= k < |nodes| - 1 && r == nodes[k] && r.next == nodes[k + 1]
          invariant r.tid.prio >= n.tid.prio
          decreases |nodes| - k
        {
          assert Linked(k + 1);
          r := r.next;
          k := k + 1;
        }
        InsertAfter(r, n, k);
        k := k + 1;
      }
      assert nodes == l[..k] + [n] + l[k..];
      IdsSplice(l, n, k);
      SpliceMembers(l, n, k);
    }

    /** Unchain the head. */
    method RemoveHead()
      requires Valid() && nodes != []
      modifies this, nodes`prev, nodes`home
      ensures Valid() && nodes == old(nodes)[1..] && old(nodes)[0].home == null
    {
      assert Linked(0);
      assert |nodes| > 1 ==> Linked(1);
      nodes[0].home := null;
      if tail == head {
        head, tail := null, null;
      } else {
        head := head.next;
        head.prev := null;
      }
      nodes := nodes[1..];
      forall i | 0 <= i < |nodes| ensures Linked(i) {
        assert old(Linked(i + 1));
      }
    }

    /** Unchain the tail. */
    method RemoveTail()
      requires Valid() && nodes != []
      modifies this, nodes`next, nodes`home
      ensures Valid() && nodes == old(nodes)[..|old(nodes)| - 1] && old(nodes)[|old(nodes)| - 1].home == null
    {
      ghost var last := |nodes| - 1;
      assert Linked(last);
      assert last > 0 ==> Linked(last - 1);
      nodes[last].home := null;
      if tail == head {
        head, tail := null, null;
      } else {
        tail := tail.prev;
        tail.next := null;
      }
      nodes := nodes[..last];
      forall i | 0 <= i < |nodes| ensures Linked(i) {
        assert old(Linked(i));
      }
    }

    /** Unchain node number `k`, which is neither head nor tail. */
    method RemoveMiddle(n: Thread, ghost k: nat)
      requires Valid() && 0 < k < |nodes| - 1 && nodes[k] == n
      modifies this, nodes`prev, nodes`next, n`home
      ensures Valid() && nodes == old(nodes)[..k] + old(nodes)[k + 1..] && n.home == null
    {
      assert Linked(k - 1) && Linked(k) && Linked(k + 1);
      n.next.prev := n.prev;
      n.prev.next := n.next;
      nodes := nodes[..k] + nodes[k + 1..];
      n.home := null;
      forall i | 0 <= i < |nodes| ensures Linked(i) {
        assert old(Linked(if i < k then i else i + 1));
      }
    }

    /** Unchain node number `k`, wherever it stands. */
    method UnchainAt(n: Thread, ghost k: nat)
      requires Valid() && k < |nodes| && nodes[k] == n
      modifies this, nodes`prev, nodes`next, nodes`home
      ensures Valid() && n.home == null && nodes == old(nodes)[..k] + old(nodes)[k + 1..]
    {
      assert Linked(k);
      if n == head {
        RemoveHead();
      } else if n == tail {
        RemoveTail();
      } else {
        RemoveMiddle(n, k);
      }
    }

    /** Unchain `n`; its own pointers are left as they are. */
    method Unchain(n: Thread)
      requires Valid() && n in nodes && NoDup(IdsOf(nodes))
      modifies this, nodes`prev, nodes`next, nodes`home
      ensures Valid() && n.home == null
      ensures IdsOf(nodes) == Remove(old(IdsOf(nodes)), n.tid)
      ensures (forall x | x in nodes :: x in old(nodes)) && forall x | x in old(nodes) && x != n :: x in nodes
    {
      hide Valid;
      ghost var k :| 0 <= k < |nodes| && nodes[k] == n;
      ghost var l := nodes;
      UnchainAt(n, k);
      IdsCut(l, k);
      CutMembers(l, k);
    }
  }
}
