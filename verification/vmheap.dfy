/** The scheduling operations on the heap, each proved to be its function on snapshots. */
module VmHeap {
  import opened Options
  import opened SchedModel
  import opened Threads

  ghost function IdOf(t: Thread?): Option<Tid> {
    if t == null then None else Some(t.tid)
  }

  ghost function InfoOf(t: Thread): TInfo
    reads t
  {
    TInfo(t.state, t.remaining, t.critical, t.ip, t.depth,
          if t.pendingLock == null then None else Some(t.pendingLock.mid), t.wait, t.stamp)
  }

  ghost function MInfoOf(m: Mutex): MInfo
    reads m, m.pending
  {
    MInfo(IdOf(m.owner), m.count, IdsOf(m.pending.nodes))
  }

  /** All live objects by name: what a program's own pointers lead to. */
  class Registry {
    var threads: map<Tid, Thread>
    var mutexes: map<Mid, Mutex>
    var blockers: map<Bid, Blocker>
    ghost var pool: set<Thread>       // all threads
    ghost var chains: set<DList>      // all lists
    ghost var locks: set<Mutex>       // all mutexes
    ghost var queues: set<Blocker>    // all blockers

    constructor (ghost lists: set<DList>)
      ensures threads == map[] && mutexes == map[] && blockers == map[]
      ensures pool == {} && chains == lists && locks == {} && queues == {}
    {
      threads, mutexes, blockers := map[], map[], map[];
      pool, chains, locks, queues := {}, lists, {}, {};
    }

    /** Register a mutex and its waiting list. */
    method EnterMutex(m: Mutex)
      modifies this
      ensures mutexes == old(mutexes)[m.mid := m] && locks == old(locks) + {m} && chains == old(chains) + {m.pending}
      ensures threads == old(threads) && blockers == old(blockers) && pool == old(pool) && queues == old(queues)
    {
      mutexes := mutexes[m.mid := m];
      locks, chains := locks + {m}, chains + {m.pending};
    }

    method EnterThread(t: Thread)
      modifies this
      ensures threads == old(threads)[t.tid := t] && pool == old(pool) + {t}
      ensures mutexes == old(mutexes) && blockers == old(blockers) && chains == old(chains) && locks == old(locks) && queues == old(queues)
    {
      threads := threads[t.tid := t];
      pool := pool + {t};
    }

    method EnterBlocker(b: Blocker)
      modifies this
      ensures blockers == old(blockers)[b.bid := b] && queues == old(queues) + {b}
      ensures threads == old(threads) && mutexes == old(mutexes) && pool == old(pool) && chains == old(chains) && locks == old(locks)
    {
      blockers := blockers[b.bid := b];
      queues := queues + {b};
    }

    /** Every registered object goes by its own name, and no two lists are the same object.
        (Compared with `true`, here and below, so that the verifier checks it as one fact at each use.) */
    ghost predicate Consistent(ready: DList, running: DList, zombie: DList)
      reads this
    {
      true == (
        && (forall t | t in threads :: threads[t].tid == t && threads[t] in pool)
        && (forall t | t in pool :: t.tid in threads && threads[t.tid] == t)
        && (forall m | m in mutexes :: mutexes[m].mid == m && mutexes[m] in locks)
        && (forall m | m in locks :: m.mid in mutexes && mutexes[m.mid] == m && m.pending in chains)
        && (forall b | b in blockers :: blockers[b].bid == b && blockers[b] in queues)
        && (forall b | b in queues :: b.bid in blockers && blockers[b.bid] == b)
        && (forall l | l in chains :: l == ready || l == running || l == zombie || exists m :: m in locks && m.pending == l)
        && ready in chains && running in chains && zombie in chains
        && ready != running && ready != zombie && running != zombie
        && (forall m | m in locks :: m.pending != ready && m.pending != running && m.pending != zombie)
        && (forall m, n | m in locks && n in locks :: m.pending == n.pending ==> m == n)
        && (forall t | t in pool :: t.join in locks && t.join.mid == JoinOf(t.tid)))
    }

    /** A well-linked list of registered threads that belong to it. */
    ghost predicate ListOk(l: DList)
      reads this, l, l.nodes`prev, l.nodes`next, l.nodes`home
    {
      l.Valid() && forall n | n in l.nodes :: n in pool && n.home == l
    }

    /** All lists are well linked, and each thread is on the list where it belongs. */
    ghost predicate ListsOk()
      reads this, chains, pool`prev, pool`next, pool`home
    {
      true == (
        && (forall l | l in chains :: (forall n | n in l.nodes :: n in pool) && ListOk(l))
        && (forall n | n in pool && n.home != null :: n.home in chains && n in n.home.nodes))
    }

    /** The threads are as the table says. */
    ghost predicate InfosAre(th: map<Tid, TInfo>)
      reads this, pool
    {
      true == (th.Keys == threads.Keys && forall t | t in pool ::
                 t.tid in th && th[t.tid] == InfoOf(t) && (t.pendingLock != null ==> t.pendingLock in locks))
    }

    ghost predicate LocksAre(mx: map<Mid, MInfo>)
      reads this, locks, chains
    {
      true == (mx.Keys == mutexes.Keys && forall m | m in locks ::
                 m.pending in chains && m.mid in mx && mx[m.mid] == MInfoOf(m) && (m.owner != null ==> m.owner in pool))
    }

    ghost predicate QueuesAre(bl: map<Bid, seq<Tid>>)
      reads this, queues
    {
      true == (bl.Keys == blockers.Keys &&
               forall b | b in queues :: b.bid in bl && bl[b.bid] == IdsOf(b.stack) && forall t | t in b.stack :: t in pool)
    }

    /** What the invariant says about one list. */
    lemma KnownList(l: DList)
      requires ListsOk() && l in chains
      ensures ListOk(l) && forall n | n in l.nodes :: n in pool
    {
    }

    /** Three empty lists and nothing else. */
    lemma NothingYet(ready: DList, running: DList, zombie: DList)
      requires threads == map[] && mutexes == map[] && blockers == map[] && pool == {} && locks == {} && queues == {}
      requires chains == {ready, running, zombie} && ready != running && ready != zombie && running != zombie
      requires forall l | l in chains :: l.Valid() && l.nodes == []
      ensures Consistent(ready, running, zombie) && ListsOk() && InfosAre(map[]) && LocksAre(map[]) && QueuesAre(map[])
    {
    }

    lemma AllLists(a: DList)
      requires ListOk(a) && forall n | n in a.nodes :: n in pool
      requires forall l | l in chains && l != a :: (forall n | n in l.nodes :: n in pool) && ListOk(l)
      requires forall n | n in pool && n.home != null :: n.home in chains && n in n.home.nodes
      ensures ListsOk()
    {
    }

    lemma NodesNoDup(l: DList)
      requires ListOk(l) && forall t | t in pool :: t.tid in threads && threads[t.tid] == t
      ensures NoDup(IdsOf(l.nodes))
    {
      forall i, j | 0 <= i < j < |l.nodes| ensures l.nodes[i].tid != l.nodes[j].tid {
        assert l.nodes[i] in pool && l.nodes[j] in pool;
      }
    }

    /** Relinking only nodes that were on list `a`, or on none, leaves the other lists well linked. */
    twostate lemma OthersOk(a: DList)
      requires old(ListsOk()) && a in chains && pool == old(pool) && chains == old(chains)
      requires forall l | l in chains && l != a :: unchanged(l)
      requires forall n | n in pool && old(n.home) != null && old(n.home) != a ::
                 n.prev == old(n.prev) && n.next == old(n.next) && n.home == old(n.home)
      ensures forall l | l in chains && l != a :: (forall n | n in l.nodes :: n in pool) && ListOk(l)
    {
      forall l | l in chains && l != a
        ensures (forall n | n in l.nodes :: n in pool) && ListOk(l)
      {
        assert old(ListOk(l));
        forall i | 0 <= i < |l.nodes| ensures l.Linked(i) && l.nodes[i].home == l {
          assert old(l.Linked(i));
          var n := l.nodes[i];
          assert n in l.nodes;
        }
      }
    }

    /** A well-linked list with registered nodes. */
    lemma StillKnown(l: DList, before: seq<Thread>)
      requires l.Valid()
      requires (forall n | n in l.nodes :: n in before) && (forall n | n in before :: n in pool)
      ensures ListOk(l) && forall n | n in l.nodes :: n in pool
    {
      forall i | 0 <= i < |l.nodes| ensures l.nodes[i].home == l { assert l.Linked(i); }
    }

    /** Since then, nothing changed but the list `a` and the links of threads. */
    twostate predicate OnlyLinks(a: DList)
      reads this, chains, pool, locks, queues
    {
      true == (
        && unchanged(this)
        && (forall l | l in chains && l != a :: unchanged(l))
        && (forall m | m in locks :: unchanged(m))
        && (forall b | b in queues :: unchanged(b))
        && (forall n | n in pool :: SameInfo(n)))
    }

    /** No mutex or blocker changed, nor any list but `a`, which is no mutex's. */
    twostate lemma LocksKept(a: DList)
      requires unchanged(this)
      requires forall m | m in locks :: m.pending != a
      requires forall l | l in chains && l != a :: unchanged(l)
      requires forall m | m in locks :: unchanged(m)
      ensures forall mx :: old(LocksAre(mx)) ==> LocksAre(mx)
    {
    }

    /** Nothing but links changed in the threads. */
    twostate lemma InfosKept()
      requires unchanged(this) && forall n | n in pool :: SameInfo(n)
      ensures forall th :: old(InfosAre(th)) ==> InfosAre(th)
    {
    }

    /** No list and no link changed. */
    twostate lemma ListsKept()
      requires old(ListsOk()) && unchanged(this)
      requires forall l | l in chains :: unchanged(l)
      requires forall n | n in pool :: n.prev == old(n.prev) && n.next == old(n.next) && n.home == old(n.home)
      ensures ListsOk()
    {
    }

    /** No blocker changed. */
    twostate lemma QueuesKept()
      requires unchanged(this) && forall b | b in queues :: unchanged(b)
      ensures forall bl :: old(QueuesAre(bl)) ==> QueuesAre(bl)
    {
    }

    twostate predicate SameInfo(n: Thread)
      reads n
    {
      && n.state == old(n.state) && n.remaining == old(n.remaining) && n.critical == old(n.critical) && n.ip == old(n.ip)
      && n.depth == old(n.depth) && n.pendingLock == old(n.pendingLock) && n.wait == old(n.wait) && n.stamp == old(n.stamp)
    }

    /** Nothing but links changed in the threads other than `t`. */
    twostate lemma InfoSet(t: Thread)
      requires unchanged(this) && t in pool && forall n | n in pool && n != t :: SameInfo(n)
      requires t.pendingLock == old(t.pendingLock) || (t.pendingLock != null ==> t.pendingLock in locks)
      requires forall n | n in pool :: n.tid in threads && threads[n.tid] == n
      ensures forall th :: old(InfosAre(th)) ==> InfosAre(th[t.tid := InfoOf(t)]) && t.tid in th && th[t.tid] == old(InfoOf(t))
    {
      forall th | old(InfosAre(th)) ensures InfosAre(th[t.tid := InfoOf(t)]) {
        assert th[t.tid := InfoOf(t)].Keys == th.Keys;
        forall n | n in pool ensures th[t.tid := InfoOf(t)][n.tid] == InfoOf(n) {
          if n != t { assert n.tid != t.tid; }
        }
      }
    }

    /** No mutex but `m` changed, nor any list but that of `m`. */
    twostate lemma LockSet(m: Mutex)
      requires unchanged(this) && m in locks && (m.owner != null ==> m.owner in pool)
      requires forall n | n in locks :: n.mid in mutexes && mutexes[n.mid] == n && (n.pending == m.pending ==> n == m)
      requires forall l | l in chains && l != m.pending :: unchanged(l)
      requires forall n | n in locks && n != m :: unchanged(n)
      ensures forall mx :: old(LocksAre(mx)) ==> LocksAre(mx[m.mid := MInfoOf(m)]) && m.mid in mx && mx[m.mid] == old(MInfoOf(m))
    {
      forall mx | old(LocksAre(mx)) ensures LocksAre(mx[m.mid := MInfoOf(m)]) {
        assert mx[m.mid := MInfoOf(m)].Keys == mx.Keys;
        forall n | n in locks ensures n.pending in chains && mx[m.mid := MInfoOf(m)][n.mid] == MInfoOf(n) {
          if n != m { assert n.mid != m.mid && n.pending != m.pending; }
        }
      }
    }

    /** No blocker but `b` changed. */
    twostate lemma QueueSet(b: Blocker)
      requires unchanged(this) && b in queues && forall t | t in b.stack :: t in pool
      requires forall n | n in queues :: n.bid in blockers && blockers[n.bid] == n
      requires forall n | n in queues && n != b :: unchanged(n)
      ensures forall bl :: old(QueuesAre(bl)) ==> QueuesAre(bl[b.bid := IdsOf(b.stack)]) && b.bid in bl && bl[b.bid] == old(IdsOf(b.stack))
    {
      forall bl: map<Bid, seq<Tid>> | old(QueuesAre(bl)) ensures QueuesAre(bl[b.bid := IdsOf(b.stack)]) {
        assert bl[b.bid := IdsOf(b.stack)].Keys == bl.Keys;
        forall n | n in queues ensures bl[b.bid := IdsOf(b.stack)][n.bid] == IdsOf(n.stack) && forall t | t in n.stack :: t in pool {
          if n != b { assert n.bid != b.bid; }
        }
      }
    }

    /** All objects that were registered are as they were. */
    twostate predicate Untouched()
      reads this, chains, pool, locks, queues
    {
      true == (
        && old(chains) <= chains && old(pool) <= pool && old(locks) <= locks && old(queues) <= queues
        && (forall l | l in old(chains) :: unchanged(l))
        && (forall n | n in old(pool) :: unchanged(n))
        && (forall m | m in old(locks) :: unchanged(m))
        && (forall b | b in old(queues) :: unchanged(b)))
    }

    /** Only the mutex `m` entered, free and with nobody waiting. */
    twostate predicate MutexEntered(m: Mutex)
      reads this, chains, pool, locks, queues, m, m.pending, m.pending.nodes
    {
      true == (
        && mutexes == old(mutexes)[m.mid := m] && locks == old(locks) + {m} && chains == old(chains) + {m.pending}
        && threads == old(threads) && blockers == old(blockers) && pool == old(pool) && queues == old(queues)
        && m !in old(locks) && m.pending !in old(chains) && m.mid !in old(mutexes)
        && m.owner == null && m.pending.Valid() && m.pending.nodes == [])
    }

    twostate lemma MutexEnteredLocks(m: Mutex)
      requires Untouched() && MutexEntered(m)
      requires forall n | n in old(locks) :: n.mid in old(mutexes)
      ensures forall mx :: old(LocksAre(mx)) ==> LocksAre(mx[m.mid := MInfoOf(m)])
    {
      forall mx | old(LocksAre(mx)) ensures LocksAre(mx[m.mid := MInfoOf(m)]) {
        var mx' := mx[m.mid := MInfoOf(m)];
        assert mx'.Keys == mutexes.Keys;
        forall n | n in locks ensures n.pending in chains && n.mid in mx' && mx'[n.mid] == MInfoOf(n) && (n.owner != null ==> n.owner in pool) {
          if n != m { assert n in old(locks) && n.mid != m.mid; }
        }
      }
    }

    twostate lemma MutexEnteredLists(m: Mutex)
      requires old(ListsOk()) && Untouched() && MutexEntered(m)
      ensures ListsOk()
    {
      forall l | l in chains ensures (forall n | n in l.nodes :: n in pool) && ListOk(l) {
        if l in old(chains) { OldListOk(l); }
      }
    }

    twostate lemma OldListOk(l: DList)
      requires old(ListsOk()) && Untouched() && l in old(chains)
      ensures (forall n | n in l.nodes :: n in pool) && ListOk(l)
    {
      assert old(ListOk(l));
      forall i | 0 <= i < |l.nodes| ensures l.Linked(i) {
        assert old(l.Linked(i));
        assert l.nodes[i] in old(pool);
      }
    }

    /** Only the thread `t` entered, chained nowhere. */
    twostate predicate ThreadEntered(t: Thread)
      reads this, chains, pool, locks, queues, t
    {
      true == (
        && threads == old(threads)[t.tid := t] && pool == old(pool) + {t}
        && mutexes == old(mutexes) && blockers == old(blockers) && chains == old(chains) && locks == old(locks) && queues == old(queues)
        && t !in old(pool) && t.tid !in old(threads) && t.home == null && t.pendingLock == null
        && t.join in locks && t.join.mid == JoinOf(t.tid))
    }

    twostate lemma ThreadEnteredInfos(t: Thread)
      requires Untouched() && ThreadEntered(t)
      requires forall n | n in old(pool) :: n.tid in old(threads)
      ensures forall th :: old(InfosAre(th)) ==> InfosAre(th[t.tid := InfoOf(t)])
    {
      forall th | old(InfosAre(th)) ensures InfosAre(th[t.tid := InfoOf(t)]) {
        assert th[t.tid := InfoOf(t)].Keys == threads.Keys;
        forall n | n in pool
          ensures th[t.tid := InfoOf(t)][n.tid] == InfoOf(n) && (n.pendingLock != null ==> n.pendingLock in locks)
        {
          if n != t { assert n in old(pool) && n.tid != t.tid; }
        }
      }
    }

    twostate lemma ThreadEnteredLists(t: Thread)
      requires old(ListsOk()) && Untouched() && ThreadEntered(t)
      ensures ListsOk()
    {
      forall l | l in chains ensures (forall n | n in l.nodes :: n in pool) && ListOk(l) {
        OldListOk(l);
      }
    }

    /** Only the blocker `b` entered, with nobody suspended on it. */
    twostate predicate BlockerEntered(b: Blocker)
      reads this, chains, pool, locks, queues, b
    {
      true == (
        && blockers == old(blockers)[b.bid := b] && queues == old(queues) + {b}
        && threads == old(threads) && mutexes == old(mutexes) && pool == old(pool) && chains == old(chains) && locks == old(locks)
        && b !in old(queues) && b.bid !in old(blockers) && b.stack == [])
    }

    twostate lemma BlockerEnteredQueues(b: Blocker)
      requires Untouched() && BlockerEntered(b)
      requires forall n | n in old(queues) :: n.bid in old(blockers)
      ensures forall bl :: old(QueuesAre(bl)) ==> QueuesAre(bl[b.bid := IdsOf(b.stack)])
    {
      forall bl: map<Bid, seq<Tid>> | old(QueuesAre(bl)) ensures QueuesAre(bl[b.bid := IdsOf(b.stack)]) {
        assert bl[b.bid := IdsOf(b.stack)].Keys == blockers.Keys;
        forall n | n in queues
          ensures n.bid in bl[b.bid := IdsOf(b.stack)] && bl[b.bid := IdsOf(b.stack)][n.bid] == IdsOf(n.stack)
               && forall t | t in n.stack :: t in pool
        {
          if n != b { assert n in old(queues) && n.bid != b.bid; }
        }
      }
    }

    twostate lemma SameLists()
      requires old(ListsOk()) && Untouched() && pool == old(pool) && chains == old(chains)
      ensures ListsOk()
    {
      forall l | l in chains ensures (forall n | n in l.nodes :: n in pool) && ListOk(l) {
        OldListOk(l);
      }
    }

    /** Everything that was registered is as it was, and what the tables of other kinds say still holds. */
    twostate lemma OthersStill()
      requires Untouched()
      ensures pool == old(pool) && threads == old(threads) ==> forall th :: old(InfosAre(th)) ==> InfosAre(th)
      ensures locks == old(locks) && mutexes == old(mutexes) ==> forall mx :: old(LocksAre(mx)) ==> LocksAre(mx)
      ensures queues == old(queues) && blockers == old(blockers) ==> forall bl :: old(QueuesAre(bl)) ==> QueuesAre(bl)
    {
    }

    /** Every thread is on the list where it belongs, if only `a` gained or lost threads. */
    twostate lemma HomesOk(a: DList)
      requires old(ListsOk()) && a in chains && pool == old(pool) && chains == old(chains)
      requires forall l | l in chains && l != a :: l.nodes == old(l.nodes)
      requires forall n | n in pool && n.home != a :: n.home == old(n.home) || n.home == null
      requires forall n | n in pool && n.home == a && old(n.home) != a :: n in a.nodes
      requires forall n | n in old(a.nodes) && n.home == a :: n in a.nodes
      ensures forall n | n in pool && n.home != null :: n.home in chains && n in n.home.nodes
    {
    }
  }

  /** Take `t` off the list `l`. */
  method Drop(l: DList, t: Thread, ghost reg: Registry)
    requires reg.ListsOk() && l in reg.chains && t in l.nodes && t in reg.pool
    requires forall t | t in reg.pool :: t.tid in reg.threads && reg.threads[t.tid] == t
    modifies l, reg.pool`prev, reg.pool`next, reg.pool`home
    ensures reg.ListsOk() && t.home == null && reg.OnlyLinks(l)
    ensures IdsOf(l.nodes) == Remove(old(IdsOf(l.nodes)), t.tid)
  {
    hide Registry.ListsOk;
    reg.KnownList(l);
    reg.NodesNoDup(l);
    ghost var before := l.nodes;
    l.Unchain(t);
    reg.OthersOk(l);
    reg.StillKnown(l, before);
    reg.HomesOk(l);
    reg.AllLists(l);
  }

  /** Take the head off the list `l`. */
  method DropHead(l: DList, ghost reg: Registry)
    requires reg.ListsOk() && l in reg.chains && l.nodes != []
    modifies l, reg.pool`prev, reg.pool`next, reg.pool`home
    ensures reg.ListsOk() && old(l.nodes)[0].home == null && reg.OnlyLinks(l)
    ensures l.nodes == old(l.nodes)[1..]
  {
    hide Registry.ListsOk;
    reg.KnownList(l);
    ghost var before := l.nodes;
    assert forall n | n in l.nodes && n != l.nodes[0] :: n in l.nodes[1..];
    l.RemoveHead();
    reg.OthersOk(l);
    reg.StillKnown(l, before);
    reg.HomesOk(l);
    reg.AllLists(l);
  }

  /** Chain `t`, so far on no list, at the tail of `l`. */
  method Append(l: DList, t: Thread, ghost reg: Registry)
    requires reg.ListsOk() && l in reg.chains && t in reg.pool && t.home == null
    modifies l, reg.pool`prev, reg.pool`next, reg.pool`home
    ensures reg.ListsOk() && reg.OnlyLinks(l)
    ensures IdsOf(l.nodes) == old(IdsOf(l.nodes)) + [t.tid]
  {
    hide Registry.ListsOk;
    reg.KnownList(l);
    ghost var before := l.nodes;
    l.InsertTail(t);
    reg.OthersOk(l);
    reg.StillKnown(l, before + [t]);
    reg.HomesOk(l);
    reg.AllLists(l);
  }

  /** Chain `t`, so far on no list, into the priority queue `l`. */
  method Enqueue(l: DList, t: Thread, ghost reg: Registry)
    requires reg.ListsOk() && l in reg.chains && t in reg.pool && t.home == null && Descending(IdsOf(l.nodes))
    modifies l, reg.pool`prev, reg.pool`next, reg.pool`home
    ensures reg.ListsOk() && reg.OnlyLinks(l)
    ensures IdsOf(l.nodes) == InsertSorted(old(IdsOf(l.nodes)), t.tid)
  {
    hide Registry.ListsOk;
    reg.KnownList(l);
    ghost var before := l.nodes;
    l.InsertByPriority(t);
    reg.OthersOk(l);
    reg.StillKnown(l, before + [t]);
    reg.HomesOk(l);
    reg.AllLists(l);
  }

  class Vm {
    const ready: DList
    const running: DList
    const zombie: DList
    const reg: Registry
    var current: Thread?
    var timeslice: int
    var threadsCount: int
    var mode: Mode
    ghost var clock: nat
    ghost var s: Sys      // the snapshot of all this

    /** The machine as it boots: no thread, no mutex, a slice of 100 cycles. */
    constructor ()
      ensures Valid() && s == Boot && fresh(reg) && fresh(Objects())
    {
      hide Registry.Consistent, Registry.ListsOk, Registry.InfosAre, Registry.LocksAre, Registry.QueuesAre;
      var a := new DList();
      var b := new DList();
      var c := new DList();
      ready, running, zombie := a, b, c;
      reg := new Registry({a, b, c});
      current, timeslice, threadsCount, mode := null, 100, 0, Idle;
      clock := 1;
      s := Boot;
      new;
      reg.NothingYet(ready, running, zombie);
      assert ShownBy(s);
    }

    /** All objects are registered and linked, and `v` shows them as they are. */
    ghost predicate ShownBy(v: Sys)
      reads this`current, this`timeslice, this`threadsCount, this`mode, this`clock, reg, reg.chains, reg.pool, reg.locks, reg.queues
    {
      true == (
        && reg.Consistent(ready, running, zombie)
        && reg.ListsOk()
        && reg.InfosAre(v.th) && reg.LocksAre(v.mx) && reg.QueuesAre(v.bl)
        && v.ready == IdsOf(ready.nodes) && v.running == IdsOf(running.nodes) && v.zombie == IdsOf(zombie.nodes)
        && v.current == IdOf(current) && (current != null ==> current in reg.pool)
        && v.timeslice == timeslice && v.count == threadsCount && v.mode == mode && v.clock == clock)
    }

    /** Everything that the operations may touch, besides the machine itself. */
    ghost function Objects(): set<object>
      reads reg
    {
      reg.pool + reg.chains + reg.locks + reg.queues
    }

    ghost predicate Valid()
      reads this, reg, reg.chains, reg.pool, reg.locks, reg.queues
    {
      ShownBy(s)
    }

    // ---------------------------------------------------- fields of a thread

    /** Only fields of `t` other than its links changed, and its lock is a registered one. */
    twostate predicate OnlyThread(t: Thread)
      reads this, reg, reg.chains, reg.pool, reg.locks, reg.queues
    {
      true == (
        && unchanged(reg) && unchanged(this)
        && (forall l | l in reg.chains :: unchanged(l))
        && (forall m | m in reg.locks :: unchanged(m))
        && (forall b | b in reg.queues :: unchanged(b))
        && (forall n | n in reg.pool :: n.prev == old(n.prev) && n.next == old(n.next) && n.home == old(n.home))
        && (forall n | n in reg.pool && n != t :: reg.SameInfo(n))
        && (t in reg.pool ==> t.pendingLock == old(t.pendingLock) || (t.pendingLock != null ==> t.pendingLock in reg.locks)))
    }

    twostate lemma ThreadSet(t: Thread)
      requires old(Valid()) && t in reg.pool && OnlyThread(t)
      ensures t.tid in s.th && s.th[t.tid] == old(InfoOf(t)) && ShownBy(s.(th := s.th[t.tid := InfoOf(t)]))
    {
      hide Registry.InfosAre, Registry.LocksAre, Registry.QueuesAre, Registry.ListsOk, InfoOf, MInfoOf;
      reg.ListsKept();
      reg.QueuesKept();
      reg.LocksKept(ready);
      reg.InfoSet(t);
    }

    method WriteState(t: Thread, st: ThreadState)
      requires t in reg.pool
      modifies t`state
      ensures OnlyThread(t) && InfoOf(t) == old(InfoOf(t)).(state := st)
    {
      t.state := st;
    }

    method SetState(t: Thread, st: ThreadState)
      requires Valid() && t in reg.pool
      modifies this`s, t`state
      ensures t.tid in old(s).th && Valid() && s == old(s).(th := old(s).th[t.tid := old(s).th[t.tid].(state := st)])
    {
      hide ShownBy, OnlyThread, InfoOf;
      WriteState(t, st);
      ThreadSet(t);
      s := s.(th := s.th[t.tid := InfoOf(t)]);
    }

    method WriteRemaining(t: Thread, n: int)
      requires t in reg.pool
      modifies t`remaining
      ensures OnlyThread(t) && InfoOf(t) == old(InfoOf(t)).(remaining := n)
    {
      t.remaining := n;
    }

    method SetRemaining(t: Thread, n: int)
      requires Valid() && t in reg.pool
      modifies this`s, t`remaining
      ensures t.tid in old(s).th && Valid() && s == old(s).(th := old(s).th[t.tid := old(s).th[t.tid].(remaining := n)])
    {
      hide ShownBy, OnlyThread, InfoOf;
      WriteRemaining(t, n);
      ThreadSet(t);
      s := s.(th := s.th[t.tid := InfoOf(t)]);
    }

    method WriteCritical(t: Thread, enter: bool)
      requires t in reg.pool
      modifies t`critical
      ensures OnlyThread(t) && InfoOf(t) == old(InfoOf(t)).(critical := enter)
    {
      t.critical := enter;
    }

    method SetCritical(t: Thread, enter: bool)
      requires Valid() && t in reg.pool
      modifies this`s, t`critical
      ensures t.tid in old(s).th && Valid() && s == old(s).(th := old(s).th[t.tid := old(s).th[t.tid].(critical := enter)])
    {
      hide ShownBy, OnlyThread, InfoOf;
      WriteCritical(t, enter);
      ThreadSet(t);
      s := s.(th := s.th[t.tid := InfoOf(t)]);
    }

    method WriteIp(t: Thread, ip: int)
      requires t in reg.pool
      modifies t`ip
      ensures OnlyThread(t) && InfoOf(t) == old(InfoOf(t)).(ip := ip)
    {
      t.ip := ip;
    }

    method SetIp(t: Thread, ip: int)
      requires Valid() && t in reg.pool
      modifies this`s, t`ip
      ensures t.tid in old(s).th && Valid() && s == old(s).(th := old(s).th[t.tid := old(s).th[t.tid].(ip := ip)])
    {
      hide ShownBy, OnlyThread, InfoOf;
      WriteIp(t, ip);
      ThreadSet(t);
      s := s.(th := s.th[t.tid := InfoOf(t)]);
    }

    method WriteDepth(t: Thread, n: int)
      requires t in reg.pool
      modifies t`depth
      ensures OnlyThread(t) && InfoOf(t) == old(InfoOf(t)).(depth := n)
    {
      t.depth := n;
    }

    method SetDepth(t: Thread, n: int)
      requires Valid() && t in reg.pool
      modifies this`s, t`depth
      ensures t.tid in old(s).th && Valid() && s == old(s).(th := old(s).th[t.tid := old(s).th[t.tid].(depth := n)])
    {
      hide ShownBy, OnlyThread, InfoOf;
      WriteDepth(t, n);
      ThreadSet(t);
      s := s.(th := s.th[t.tid := InfoOf(t)]);
    }

    method WritePendingLock(t: Thread, m: Mutex?)
      requires t in reg.pool && (m != null ==> m in reg.locks)
      modifies t`pendingLock
      ensures OnlyThread(t) && InfoOf(t) == old(InfoOf(t)).(pendingLock := if m == null then None else Some(m.mid))
      ensures t.pendingLock == m
    {
      t.pendingLock := m;
    }

    method SetPendingLock(t: Thread, m: Mutex?)
      requires Valid() && t in reg.pool && (m != null ==> m in reg.locks)
      modifies this`s, t`pendingLock
      ensures t.tid in old(s).th && Valid() && t.pendingLock == m
      ensures s == old(s).(th := old(s).th[t.tid := old(s).th[t.tid].(pendingLock := if m == null then None else Some(m.mid))])
    {
      hide ShownBy, OnlyThread, InfoOf;
      WritePendingLock(t, m);
      ThreadSet(t);
      s := s.(th := s.th[t.tid := InfoOf(t)]);
    }

    ghost method WriteWait(t: Thread, w: Wait)
      requires t in reg.pool
      modifies t`wait
      ensures OnlyThread(t) && InfoOf(t) == old(InfoOf(t)).(wait := w)
    {
      t.wait := w;
    }

    ghost method WaitFor(t: Thread, w: Wait)
      requires Valid() && t in reg.pool
      modifies this`s, t`wait
      ensures t.tid in old(s).th && Valid() && s == old(s).(th := old(s).th[t.tid := old(s).th[t.tid].(wait := w)])
    {
      hide ShownBy, OnlyThread, InfoOf;
      WriteWait(t, w);
      ThreadSet(t);
      s := s.(th := s.th[t.tid := InfoOf(t)]);
    }

    ghost method WriteStamp(t: Thread, n: nat)
      requires t in reg.pool
      modifies t`stamp
      ensures OnlyThread(t) && InfoOf(t) == old(InfoOf(t)).(stamp := n)
    {
      t.stamp := n;
    }

    lemma ClockShown()
      requires Valid()
      ensures s.clock == clock
    {
    }

    ghost method Tick(v: Sys)
      requires ShownBy(v)
      modifies this`clock
      ensures ShownBy(v.(clock := v.clock + 1))
    {
      hide Registry.Consistent, Registry.InfosAre, Registry.LocksAre, Registry.QueuesAre, Registry.ListsOk;
      clock := clock + 1;
    }

    /** `t` takes the next arrival number. */
    ghost method Arrive(t: Thread)
      requires Valid() && t in reg.pool
      modifies this`s, this`clock, t`stamp
      ensures t.tid in old(s).th && Valid()
      ensures s == old(s).(th := old(s).th[t.tid := old(s).th[t.tid].(stamp := old(s).clock)], clock := old(s).clock + 1)
    {
      hide ShownBy, OnlyThread, InfoOf;
      ClockShown();
      WriteStamp(t, clock);
      ThreadSet(t);
      Tick(s.(th := s.th[t.tid := InfoOf(t)]));
      s := s.(th := s.th[t.tid := InfoOf(t)], clock := s.clock + 1);
    }

    // ------------------------------------------------------------- chaining

    /** The three lists of the machine as they are now. */
    ghost function Relisted(v: Sys): Sys
      reads ready, running, zombie
    {
      v.(ready := IdsOf(ready.nodes), running := IdsOf(running.nodes), zombie := IdsOf(zombie.nodes))
    }

    /** Only links and the list `l`, one of the machine's own, changed. */
    twostate lemma ListSet(l: DList)
      requires old(Valid()) && (l == ready || l == running || l == zombie) && reg.ListsOk() && reg.OnlyLinks(l) && unchanged(this)
      ensures ShownBy(Relisted(old(s))) && old(Relisted(s)) == old(s)
      ensures (l != ready ==> ready.nodes == old(ready.nodes)) && (l != running ==> running.nodes == old(running.nodes))
      ensures l != zombie ==> zombie.nodes == old(zombie.nodes)
    {
      hide InfoOf, MInfoOf, IdsOf, Registry.InfosAre, Registry.LocksAre, Registry.QueuesAre, Registry.ListsOk;
      reg.LocksKept(l);
      reg.InfosKept();
      reg.QueuesKept();
    }

    /** Take `t` off the list `l`, the ready or the running list. */
    method DetachFrom(l: DList, t: Thread)
      requires Valid() && t in reg.pool && t in l.nodes && (l == ready || l == running)
      modifies this`s, l, reg.pool`prev, reg.pool`next, reg.pool`home
      ensures Valid() && t.home == null
      ensures s == if l == ready then old(s).(ready := Remove(old(s).ready, t.tid)) else old(s).(running := Remove(old(s).running, t.tid))
    {
      hide ShownBy, IdsOf, Registry.ListsOk, Registry.OnlyLinks;
      ListFacts();
      Drop(l, t, reg);
      ListSet(l);
      s := Relisted(s);
    }

    method ChainReady(t: Thread)
      requires Valid() && t in reg.pool && t.home == null && Descending(s.ready)
      modifies this`s, ready, reg.pool`prev, reg.pool`next, reg.pool`home
      ensures Valid() && s == old(s).(ready := InsertSorted(old(s).ready, t.tid))
    {
      hide ShownBy, IdsOf, Registry.ListsOk, Registry.OnlyLinks;
      ListFacts();
      Enqueue(ready, t, reg);
      ListSet(ready);
      s := Relisted(s);
    }

    method ChainRunning(t: Thread)
      requires Valid() && t in reg.pool && t.home == null
      modifies this`s, running, reg.pool`prev, reg.pool`next, reg.pool`home
      ensures Valid() && s == old(s).(running := old(s).running + [t.tid])
    {
      hide ShownBy, IdsOf, Registry.ListsOk, Registry.OnlyLinks;
      ListFacts();
      Append(running, t, reg);
      ListSet(running);
      s := Relisted(s);
    }

    method ChainZombie(t: Thread)
      requires Valid() && t in reg.pool && t.home == null
      modifies this`s, zombie, reg.pool`prev, reg.pool`next, reg.pool`home
      ensures Valid() && s == old(s).(zombie := old(s).zombie + [t.tid])
    {
      hide ShownBy, IdsOf, Registry.ListsOk, Registry.OnlyLinks;
      ListFacts();
      Append(zombie, t, reg);
      ListSet(zombie);
      s := Relisted(s);
    }

    /** What the snapshot says of a mutex. */
    lemma LockFacts(m: Mutex)
      requires Valid() && m in reg.locks
      ensures m.mid in s.mx && s.mx[m.mid] == MInfoOf(m) && m.pending in reg.chains && (m.owner != null ==> m.owner in reg.pool)
      ensures m.pending != ready && m.pending != running && m.pending != zombie
    {
    }

    /** What the list operations ask for. */
    lemma ListFacts()
      requires Valid()
      ensures reg.ListsOk() && ready in reg.chains && running in reg.chains && zombie in reg.chains
      ensures forall t | t in reg.pool :: t.tid in reg.threads && reg.threads[t.tid] == t
      ensures s.ready == IdsOf(ready.nodes) && s.running == IdsOf(running.nodes) && s.zombie == IdsOf(zombie.nodes)
      ensures ready != running && ready != zombie && running != zombie
    {
    }

    /** The first waiter is the head of the waiting list. */
    lemma HeadFacts(m: Mutex)
      requires Valid() && m in reg.locks && m.mid in s.mx && s.mx[m.mid].pending != []
      ensures m.pending.nodes != [] && m.pending.head == m.pending.nodes[0] && m.pending.nodes[0] in reg.pool
      ensures m.pending.nodes[0].tid == s.mx[m.mid].pending[0] && IdsOf(m.pending.nodes[1..]) == s.mx[m.mid].pending[1..]
    {
      hide ShownBy, Registry.ListsOk;
      LockFacts(m);
      ListFacts();
      reg.KnownList(m.pending);
      assert IdsOf(m.pending.nodes)[0] == m.pending.nodes[0].tid;
      assert IdsOf(m.pending.nodes)[1..] == IdsOf(m.pending.nodes[1..]);
    }

    /** Only links and the waiting list of `m` changed. */
    twostate lemma PendingSet(m: Mutex)
      requires old(Valid()) && m in reg.locks && reg.ListsOk() && reg.OnlyLinks(m.pending) && (m.owner != null ==> m.owner in reg.pool)
      requires unchanged(`current) && unchanged(`timeslice) && unchanged(`threadsCount) && unchanged(`mode) && unchanged(`clock)
      ensures m.mid in old(s).mx && ShownBy(old(s).(mx := old(s).mx[m.mid := MInfoOf(m)]))
    {
      hide InfoOf, MInfoOf, Registry.InfosAre, Registry.LocksAre, Registry.ListsOk;
      reg.LockSet(m);
      reg.InfosKept();
      reg.QueuesKept();
    }

    method LinkPending(m: Mutex, t: Thread)
      requires Valid() && m in reg.locks && t in reg.pool && t.home == null && m.mid in s.mx && Descending(s.mx[m.mid].pending)
      modifies m.pending, reg.pool`prev, reg.pool`next, reg.pool`home
      ensures m.mid in s.mx && ShownBy(s.(mx := s.mx[m.mid := MInfoOf(m)]))
      ensures MInfoOf(m) == s.mx[m.mid].(pending := InsertSorted(s.mx[m.mid].pending, t.tid))
    {
      hide ShownBy, Registry.ListsOk, Registry.OnlyLinks;
      LockFacts(m);
      ListFacts();
      Enqueue(m.pending, t, reg);
      PendingSet(m);
    }

    /** Chain `t` on the waiting list of `m`. */
    method ChainPending(m: Mutex, t: Thread)
      requires Valid() && m in reg.locks && t in reg.pool && t.home == null && m.mid in s.mx && Descending(s.mx[m.mid].pending)
      modifies this`s, m.pending, reg.pool`prev, reg.pool`next, reg.pool`home
      ensures m.mid in old(s).mx && Valid()
      ensures var i := old(s).mx[m.mid]; s == old(s).(mx := old(s).mx[m.mid := i.(pending := InsertSorted(i.pending, t.tid))])
    {
      hide ShownBy, MInfoOf;
      LinkPending(m, t);
      s := s.(mx := s.mx[m.mid := MInfoOf(m)]);
    }

    method UnlinkPending(m: Mutex) returns (t: Thread)
      requires Valid() && m in reg.locks && m.mid in s.mx && s.mx[m.mid].pending != []
      modifies m.pending, reg.pool`prev, reg.pool`next, reg.pool`home
      ensures m.mid in s.mx && s.mx[m.mid].pending != [] && ShownBy(s.(mx := s.mx[m.mid := MInfoOf(m)]))
      ensures t in reg.pool && t.home == null && t.tid == s.mx[m.mid].pending[0]
      ensures MInfoOf(m) == s.mx[m.mid].(pending := s.mx[m.mid].pending[1..])
    {
      hide ShownBy, IdsOf, Registry.ListsOk, Registry.OnlyLinks;
      LockFacts(m);
      HeadFacts(m);
      ListFacts();
      t := m.pending.head;
      DropHead(m.pending, reg);
      PendingSet(m);
    }

    /** Take the first waiter off the waiting list of `m`. */
    method UnchainPending(m: Mutex) returns (t: Thread)
      requires Valid() && m in reg.locks && m.mid in s.mx && s.mx[m.mid].pending != []
      modifies this`s, m.pending, reg.pool`prev, reg.pool`next, reg.pool`home
      ensures m.mid in old(s).mx && old(s).mx[m.mid].pending != [] && Valid() && t in reg.pool && t.home == null
      ensures var i := old(s).mx[m.mid]; t.tid == i.pending[0] && s == old(s).(mx := old(s).mx[m.mid := i.(pending := i.pending[1..])])
    {
      hide ShownBy, MInfoOf;
      t := UnlinkPending(m);
      s := s.(mx := s.mx[m.mid := MInfoOf(m)]);
    }

    // --------------------------------------------- mutexes, blockers, scalars

    /** Only the owner and the count of `m` changed. */
    twostate predicate OnlyMutex(m: Mutex)
      reads this, reg, reg.chains, reg.pool, reg.locks, reg.queues
    {
      true == (
        && unchanged(reg)
        && (forall l | l in reg.chains :: unchanged(l))
        && (forall n | n in reg.locks && n != m :: unchanged(n))
        && (forall b | b in reg.queues :: unchanged(b))
        && (forall t | t in reg.pool :: unchanged(t))
        && unchanged(this))
    }

    twostate lemma MutexSet(m: Mutex)
      requires old(Valid()) && m in reg.locks && OnlyMutex(m) && (m.owner != null ==> m.owner in reg.pool)
      ensures m.mid in s.mx && ShownBy(s.(mx := s.mx[m.mid := MInfoOf(m)])) && s.mx[m.mid] == old(MInfoOf(m))
    {
      hide Registry.InfosAre, Registry.LocksAre, Registry.QueuesAre, Registry.ListsOk, InfoOf, MInfoOf;
      reg.ListsKept();
      reg.QueuesKept();
      reg.InfosKept();
      reg.LockSet(m);
    }

    method WriteMutex(m: Mutex, t: Thread?, n: int)
      requires m in reg.locks
      modifies m`owner, m`count
      ensures OnlyMutex(m) && m.owner == t && m.count == n
    {
      m.owner, m.count := t, n;
    }

    method SetMutex(m: Mutex, t: Thread?, n: int)
      requires Valid() && m in reg.locks && (t != null ==> t in reg.pool)
      modifies this`s, m`owner, m`count
      ensures m.mid in old(s).mx && Valid()
      ensures s == old(s).(mx := old(s).mx[m.mid := old(s).mx[m.mid].(owner := IdOf(t), count := n)])
    {
      hide ShownBy, OnlyMutex;
      WriteMutex(m, t, n);
      MutexSet(m);
      s := s.(mx := s.mx[m.mid := MInfoOf(m)]);
    }

    method SetCurrent(t: Thread?)
      requires Valid() && (t != null ==> t in reg.pool)
      modifies this`s, this`current
      ensures Valid() && s == old(s).(current := IdOf(t))
    {
      hide Registry.InfosAre, Registry.LocksAre, Registry.QueuesAre, Registry.ListsOk, Registry.Consistent;
      current := t;
      s := s.(current := IdOf(t));
    }

    method SetThreadsCount(n: int)
      requires Valid()
      modifies this`s, this`threadsCount
      ensures Valid() && s == old(s).(count := n)
    {
      hide Registry.InfosAre, Registry.LocksAre, Registry.QueuesAre, Registry.ListsOk, Registry.Consistent;
      threadsCount := n;
      s := s.(count := n);
    }

    method SetMode(m: Mode)
      requires Valid()
      modifies this`s, this`mode
      ensures Valid() && s == old(s).(mode := m)
    {
      hide Registry.InfosAre, Registry.LocksAre, Registry.QueuesAre, Registry.ListsOk, Registry.Consistent;
      mode := m;
      s := s.(mode := m);
    }

    /** What the snapshot says of a blocker. */
    lemma QueueFacts(b: Blocker)
      requires Valid() && b in reg.queues
      ensures b.bid in s.bl && s.bl[b.bid] == IdsOf(b.stack) && forall t | t in b.stack :: t in reg.pool
    {
    }

    /** Only the stack of `b` changed. */
    twostate predicate OnlyQueue(b: Blocker)
      reads this, reg, reg.chains, reg.pool, reg.locks, reg.queues
    {
      true == (
        && unchanged(reg)
        && (forall l | l in reg.chains :: unchanged(l))
        && (forall n | n in reg.locks :: unchanged(n))
        && (forall n | n in reg.queues && n != b :: unchanged(n))
        && (forall t | t in reg.pool :: unchanged(t))
        && unchanged(this))
    }

    twostate lemma StackSet(b: Blocker)
      requires old(Valid()) && b in reg.queues && OnlyQueue(b) && forall t | t in b.stack :: t in reg.pool
      ensures b.bid in s.bl && ShownBy(s.(bl := s.bl[b.bid := IdsOf(b.stack)])) && s.bl[b.bid] == old(IdsOf(b.stack))
    {
      hide Registry.InfosAre, Registry.LocksAre, Registry.QueuesAre, Registry.ListsOk, InfoOf, MInfoOf;
      reg.ListsKept();
      reg.InfosKept();
      reg.LocksKept(ready);
      reg.QueueSet(b);
    }

    method WriteStack(b: Blocker, l: seq<Thread>)
      requires b in reg.queues
      modifies b`stack
      ensures OnlyQueue(b) && b.stack == l
    {
      b.stack := l;
    }

    method SetStack(b: Blocker, l: seq<Thread>)
      requires Valid() && b in reg.queues && forall t | t in l :: t in reg.pool
      modifies this`s, b`stack
      ensures b.bid in old(s).bl && Valid() && s == old(s).(bl := old(s).bl[b.bid := IdsOf(l)])
    {
      hide ShownBy, OnlyQueue, IdsOf;
      WriteStack(b, l);
      StackSet(b);
      s := s.(bl := s.bl[b.bid := IdsOf(l)]);
    }

    method PushBlocked(b: Blocker, t: Thread)
      requires Valid() && b in reg.queues && t in reg.pool
      modifies this`s, b`stack
      ensures b.bid in old(s).bl && Valid()
      ensures s == old(s).(bl := old(s).bl[b.bid := old(s).bl[b.bid] + [t.tid]])
    {
      hide ShownBy, IdsOf;
      QueueFacts(b);
      IdsAppend(b.stack, t);
      SetStack(b, b.stack + [t]);
    }

    method PopBlocked(b: Blocker) returns (t: Thread)
      requires Valid() && b in reg.queues && b.bid in s.bl && s.bl[b.bid] != []
      modifies this`s, b`stack
      ensures b.bid in old(s).bl && old(s).bl[b.bid] != [] && Valid() && t in reg.pool && t.tid == Last(old(s).bl[b.bid])
      ensures s == old(s).(bl := old(s).bl[b.bid := old(s).bl[b.bid][..|old(s).bl[b.bid]| - 1]])
    {
      hide ShownBy;
      QueueFacts(b);
      IdsInit(b.stack);
      var n := |b.stack| - 1;
      t := b.stack[n];
      SetStack(b, b.stack[..n]);
    }

    lemma KnownNames()
      requires Valid()
      ensures (forall n | n in reg.pool :: n.tid in reg.threads) && (forall m | m in reg.locks :: m.mid in reg.mutexes)
      ensures forall b | b in reg.queues :: b.bid in reg.blockers
      ensures reg.threads.Keys == s.th.Keys && reg.mutexes.Keys == s.mx.Keys && reg.blockers.Keys == s.bl.Keys
    {
    }

    /** The object that a name of the snapshot stands for. */
    lemma ThreadNamed(u: Tid)
      requires Valid() && u in s.th
      ensures u in reg.threads && reg.threads[u] in reg.pool && reg.threads[u].tid == u
      ensures reg.threads[u].join in reg.locks && reg.threads[u].join.mid == JoinOf(u)
    {
    }

    lemma MutexNamed(m: Mid)
      requires Valid() && m in s.mx
      ensures m in reg.mutexes && reg.mutexes[m] in reg.locks && reg.mutexes[m].mid == m
    {
    }

    lemma BlockerNamed(b: Bid)
      requires Valid() && b in s.bl
      ensures b in reg.blockers && reg.blockers[b] in reg.queues && reg.blockers[b].bid == b
    {
    }

    /** New objects only join the registered ones. */
    twostate predicate Grown()
      reads reg
    {
      fresh(Objects() - old(Objects())) && old(reg.pool) <= reg.pool
    }

    twostate lemma MutexShown(m: Mutex)
      requires old(Valid()) && reg.Untouched() && reg.MutexEntered(m) && unchanged(this)
      ensures ShownBy(old(s).(mx := old(s).mx[m.mid := MInfoOf(m)]))
    {
      hide Registry.InfosAre, Registry.LocksAre, Registry.QueuesAre, Registry.ListsOk, InfoOf, MInfoOf;
      reg.MutexEnteredLocks(m);
      reg.MutexEnteredLists(m);
      reg.OthersStill();
      assert reg.Consistent(ready, running, zombie) by { MutexConsistent(m); }
    }

    twostate lemma MutexConsistent(m: Mutex)
      requires old(reg.Consistent(ready, running, zombie)) && reg.Untouched() && reg.MutexEntered(m)
      ensures reg.Consistent(ready, running, zombie)
    {
      forall l | l in reg.chains ensures l == ready || l == running || l == zombie || exists n :: n in reg.locks && n.pending == l {
        if l in old(reg.chains) && l != ready && l != running && l != zombie {
          var n :| n in old(reg.locks) && n.pending == l;
          assert n in reg.locks;
        }
      }
    }

    /** Register the free mutex `m`. */
    method AddMutex(m: Mutex)
      requires Valid() && m !in reg.locks && m.pending !in reg.chains && m.mid !in s.mx
      requires m.owner == null && m.count == 0 && m.pending.Valid() && m.pending.nodes == []
      modifies this`s, reg
      ensures Valid() && s == old(s).(mx := old(s).mx[m.mid := FreeMutex])
      ensures reg.locks == old(reg.locks) + {m} && reg.chains == old(reg.chains) + {m.pending}
      ensures reg.pool == old(reg.pool) && reg.queues == old(reg.queues)
    {
      hide ShownBy;
      KnownNames();
      reg.EnterMutex(m);
      MutexShown(m);
      assert MInfoOf(m) == FreeMutex;
      s := s.(mx := s.mx[m.mid := FreeMutex]);
    }

    twostate lemma ThreadShown(t: Thread)
      requires old(Valid()) && reg.Untouched() && reg.ThreadEntered(t) && unchanged(this)
      ensures ShownBy(old(s).(th := old(s).th[t.tid := InfoOf(t)]))
    {
      hide Registry.Consistent, Registry.InfosAre, Registry.LocksAre, Registry.QueuesAre, Registry.ListsOk, InfoOf, MInfoOf;
      ThreadConsistent(t);
      reg.ThreadEnteredInfos(t);
      reg.ThreadEnteredLists(t);
      reg.OthersStill();
    }

    twostate lemma ThreadConsistent(t: Thread)
      requires old(reg.Consistent(ready, running, zombie)) && reg.Untouched() && reg.ThreadEntered(t)
      ensures reg.Consistent(ready, running, zombie)
      ensures (forall n | n in old(reg.pool) :: n.tid in old(reg.threads)) && old(reg.pool) <= reg.pool
      ensures ready.nodes == old(ready.nodes) && running.nodes == old(running.nodes) && zombie.nodes == old(zombie.nodes)
    {
    }

    /** Register the thread `t`, whose join mutex is registered. */
    method AddThread(t: Thread)
      requires Valid() && t !in reg.pool && t.tid !in s.th && t.join in reg.locks && t.join.mid == JoinOf(t.tid)
      requires t.home == null && t.pendingLock == null
      modifies this`s, reg
      ensures Valid() && s == old(s).(th := old(s).th[t.tid := InfoOf(t)])
      ensures reg.pool == old(reg.pool) + {t}
      ensures reg.locks == old(reg.locks) && reg.chains == old(reg.chains) && reg.queues == old(reg.queues)
    {
      hide ShownBy;
      KnownNames();
      reg.EnterThread(t);
      ThreadShown(t);
      s := s.(th := s.th[t.tid := InfoOf(t)]);
    }

    twostate lemma BlockerShown(b: Blocker)
      requires old(Valid()) && reg.Untouched() && reg.BlockerEntered(b) && unchanged(this)
      ensures ShownBy(old(s).(bl := old(s).bl[b.bid := IdsOf(b.stack)]))
    {
      hide Registry.InfosAre, Registry.LocksAre, Registry.QueuesAre, Registry.ListsOk, InfoOf, MInfoOf;
      reg.BlockerEnteredQueues(b);
      reg.SameLists();
      reg.OthersStill();
    }

    method AddBlocker(b: Blocker)
      requires Valid() && b !in reg.queues && b.bid !in s.bl && b.stack == []
      modifies this`s, reg
      ensures Valid() && s == old(s).(bl := old(s).bl[b.bid := []])
      ensures reg.queues == old(reg.queues) + {b}
      ensures reg.pool == old(reg.pool) && reg.locks == old(reg.locks) && reg.chains == old(reg.chains)
    {
      hide ShownBy;
      KnownNames();
      reg.EnterBlocker(b);
      BlockerShown(b);
      assert IdsOf(b.stack) == [];
      s := s.(bl := s.bl[b.bid := []]);
    }

    /** Make a new thread with its join mutex, chained nowhere. */
    method NewThread(tid: Tid, ip: int) returns (t: Thread)
      requires Valid() && tid !in s.th && JoinOf(tid) !in s.mx
      modifies this`s, reg
      ensures Valid() && fresh(t) && fresh(t.join) && fresh(t.join.pending) && t.tid == tid && t.join.mid == JoinOf(tid)
      ensures t in reg.pool && t.join in reg.locks && Grown()
      ensures s == old(s).(th := old(s).th[tid := Fresh(ip)], mx := old(s).mx[JoinOf(tid) := FreeMutex])
    {
      hide ShownBy;
      t := new Thread(tid, ip);
      AddMutex(t.join);
      assert InfoOf(t) == Fresh(ip);
      AddThread(t);
    }

    method NewMutex(m: Mid)
      requires Valid() && m !in s.mx
      modifies this`s, reg
      ensures Valid() && Grown() && s == old(s).(mx := old(s).mx[m := FreeMutex])
    {
      hide ShownBy;
      var n := new Mutex(m);
      AddMutex(n);
    }

    method NewBlocker(b: Bid)
      requires Valid() && b !in s.bl
      modifies this`s, reg
      ensures Valid() && Grown() && s == old(s).(bl := old(s).bl[b := []])
    {
      hide ShownBy;
      var n := new Blocker(b);
      AddBlocker(n);
    }

    method SetTimeslice(n: int)
      requires Valid()
      modifies this`s, this`timeslice
      ensures Valid() && s == old(s).(timeslice := n)
    {
      hide Registry.InfosAre, Registry.LocksAre, Registry.QueuesAre, Registry.ListsOk, Registry.Consistent;
      timeslice := n;
      s := s.(timeslice := n);
    }
  }

  lemma IdsAppend(l: seq<Thread>, t: Thread)
    ensures IdsOf(l + [t]) == IdsOf(l) + [t.tid]
  {
  }

  lemma IdsInit(l: seq<Thread>)
    ensures l != [] ==> IdsOf(l[..|l| - 1]) == IdsOf(l)[..|l| - 1]
  {
  }
}
