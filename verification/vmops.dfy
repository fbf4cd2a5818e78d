/** The scheduling operations of the machine, step by step on its objects. */
module VmOps {
  import opened Options
  import opened SchedModel
  import opened SchedInv
  import opened Threads
  import opened VmHeap

  /** The thread named by a list of the snapshot is on the list itself. */
  lemma ListHas(vm: Vm, l: DList, t: Thread)
    requires vm.Valid() && t in vm.reg.pool && l in vm.reg.chains && t.tid in IdsOf(l.nodes)
    ensures t in l.nodes
  {
    hide Registry.InfosAre, Registry.LocksAre, Registry.QueuesAre;
    var i :| 0 <= i < |l.nodes| && IdsOf(l.nodes)[i] == t.tid;
    assert l.nodes[i] in vm.reg.pool;
  }

  /** The snapshot shows a chained thread on a list. */
  lemma HomeListed(vm: Vm, t: Thread)
    requires vm.Valid() && t in vm.reg.pool && t.home != null
    ensures t.tid in vm.s.ready || t.tid in vm.s.running || t.tid in vm.s.zombie
            || exists m :: m in vm.s.mx && t.tid in vm.s.mx[m].pending
  {
    hide Registry.InfosAre, Registry.QueuesAre;
    var l := t.home;
    var i :| 0 <= i < |l.nodes| && l.nodes[i] == t;
    assert IdsOf(l.nodes)[i] == t.tid;
    if l != vm.ready && l != vm.running && l != vm.zombie {
      var m :| m in vm.reg.locks && m.pending == l;
      vm.LockFacts(m);
      assert m.mid in vm.s.mx && t.tid in vm.s.mx[m.mid].pending;
    }
  }

  lemma NotListed(s: Sys, t: Tid)
    requires Placed(s, Some(t))
    ensures t !in s.ready && t !in s.running && t !in s.zombie && forall m | m in s.mx :: t !in s.mx[m].pending
  {
    forall m | m in s.mx ensures t !in s.mx[m].pending {
      assert WaitList(s.mx[m].pending, s.th, OnMutex(m), Some(t));
    }
  }

  /** A thread on no list of the snapshot is on no list. */
  lemma Unchained(vm: Vm, t: Thread)
    requires vm.Valid() && t in vm.reg.pool && Placed(vm.s, Some(t.tid))
    ensures t.home == null
  {
    hide Vm.Valid, Placed;
    NotListed(vm.s, t.tid);
    if t.home != null {
      HomeListed(vm, t);
    }
  }

  /** What the snapshot says of a thread. */
  lemma ThreadFacts(vm: Vm, t: Thread)
    requires vm.Valid() && t in vm.reg.pool
    ensures t.tid in vm.s.th && vm.s.th[t.tid] == InfoOf(t)
  {
  }

  lemma ScalarFacts(vm: Vm)
    requires vm.Valid()
    ensures vm.s.timeslice == vm.timeslice && vm.s.count == vm.threadsCount && vm.s.mode == vm.mode && vm.s.current == IdOf(vm.current)
    ensures vm.current != null ==> vm.current in vm.reg.pool
  {
  }

  lemma SortedDescending(l: seq<Tid>, th: map<Tid, TInfo>)
    requires Sorted(l, th)
    ensures Descending(l)
  {
    forall i, j | 0 <= i < j < |l| ensures l[i].prio >= l[j].prio {
      assert Precedes(th, l[i], l[j]);
    }
  }

  lemma ReadyDescending(s: Sys, x: Option<Tid>)
    requires Placed(s, x)
    ensures Descending(s.ready) && forall m | m in s.mx :: Descending(s.mx[m].pending)
  {
    SortedDescending(s.ready, s.th);
    forall m | m in s.mx ensures Descending(s.mx[m].pending) { SortedDescending(s.mx[m].pending, s.th); }
  }

  // ------------------------------------------------------- thread states

  /** Take `t` off the list that its state names. */
  method UnlinkThread(vm: Vm, t: Thread)
    requires vm.Valid() && t in vm.reg.pool
    requires t.state == Ready ==> t.tid in vm.s.ready
    requires t.state == Running ==> t.tid in vm.s.running
    modifies vm`s, vm.ready, vm.running, vm.reg.pool`prev, vm.reg.pool`next, vm.reg.pool`home
    ensures vm.Valid() && t.tid in old(vm.s).th && vm.s == Unlink(old(vm.s), t.tid)
  {
    ThreadFacts(vm, t);
    if t.state == Ready {
      ReadyList(vm, t);
      vm.DetachFrom(vm.ready, t);
    } else if t.state == Running {
      RunningList(vm, t);
      vm.DetachFrom(vm.running, t);
    }
  }

  lemma ReadyList(vm: Vm, t: Thread)
    requires vm.Valid() && t in vm.reg.pool && t.tid in vm.s.ready
    ensures t in vm.ready.nodes
  {
    vm.ListFacts();
    ListHas(vm, vm.ready, t);
  }

  lemma RunningList(vm: Vm, t: Thread)
    requires vm.Valid() && t in vm.reg.pool && t.tid in vm.s.running
    ensures t in vm.running.nodes
  {
    vm.ListFacts();
    ListHas(vm, vm.running, t);
  }

  lemma TwoUpdates(th: map<Tid, TInfo>, t: Tid, st: ThreadState, n: int)
    requires t in th
    ensures th[t := th[t].(state := st)][t := th[t].(state := st).(remaining := n)] == th[t := th[t].(state := st).(remaining := n)]
  {
  }

  method AttachReady(vm: Vm, t: Thread)
    requires vm.Valid() && t in vm.reg.pool && t.home == null && Descending(vm.s.ready)
    modifies vm`s, vm`clock, vm.ready, vm.reg.pool`prev, vm.reg.pool`next, vm.reg.pool`home, t`state, t`stamp
    ensures t.tid in old(vm.s).th && vm.Valid() && vm.s == Attach(old(vm.s), t.tid, Ready)
  {
    hide Vm.Valid;
    ghost var s := vm.s;
    vm.SetState(t, Ready);
    vm.Arrive(t);
    vm.ChainReady(t);
    assert vm.s.th == Attach(s, t.tid, Ready).th;
  }

  method AttachRunning(vm: Vm, t: Thread)
    requires vm.Valid() && t in vm.reg.pool && t.home == null
    modifies vm`s, vm.running, vm.reg.pool`prev, vm.reg.pool`next, vm.reg.pool`home, t`state, t`remaining
    ensures t.tid in old(vm.s).th && vm.Valid() && vm.s == Attach(old(vm.s), t.tid, Running)
  {
    hide Vm.Valid, IdOf;
    ScalarFacts(vm);
    ghost var s := vm.s;
    vm.SetState(t, Running);
    vm.SetRemaining(t, vm.timeslice);
    TwoUpdates(s.th, t.tid, Running, s.timeslice);
    vm.ChainRunning(t);
  }

  /** Give `t`, which is on no list, the state `st` and chain it where that state belongs. */
  method AttachThread(vm: Vm, t: Thread, st: ThreadState)
    requires vm.Valid() && t in vm.reg.pool
    requires st !in {Blocked, Dying, Starting} ==> t.home == null && Descending(vm.s.ready)
    modifies vm`s, vm`clock, vm.ready, vm.running, vm.zombie, vm.reg.pool`prev, vm.reg.pool`next, vm.reg.pool`home,
             t`state, t`stamp, t`remaining
    ensures t.tid in old(vm.s).th && vm.Valid() && vm.s == Attach(old(vm.s), t.tid, st)
    ensures st == Blocked ==> t.home == old(t.home)
  {
    hide Vm.Valid;
    match st {
      case Ready => AttachReady(vm, t);
      case Running => AttachRunning(vm, t);
      case Zombie =>
        vm.SetState(t, st);
        vm.ChainZombie(t);
      case _ =>
        vm.SetState(t, st);
    }
  }

  /** Move `t` from the list of its state to that of the state `st`. */
  method SetThreadState(vm: Vm, t: Thread, st: ThreadState)
    requires vm.Valid() && t in vm.reg.pool && Movable(vm.s, t.tid)
    modifies vm, vm.Objects()
    ensures t.tid in old(vm.s).th && vm.Valid() && vm.s == SetState(old(vm.s), t.tid, st)
    ensures st == Blocked ==> t.home == null
  {
    hide Vm.Valid, Unlink, Attach, Placed;
    vm.ListFacts();
    ThreadFacts(vm, t);
    MovableFacts(vm.s, t.tid);
    UnlinkThread(vm, t);
    Unchained(vm, t);
    ReadyDescending(vm.s, Some(t.tid));
    AttachThread(vm, t, st);
  }

  /** `t` is where its state says, or is just off the list that it waited on. */
  ghost predicate Movable(s: Sys, t: Tid) {
    t in s.th && if s.th[t].state in {Blocked, Zombie} then s.th[t].state == Blocked && Placed(s, Some(t)) else Placed(s, None)
  }

  lemma MovableFacts(s: Sys, t: Tid)
    requires Movable(s, t)
    ensures Placed(Unlink(s, t), Some(t))
    ensures (s.th[t].state == Ready ==> t in s.ready) && (s.th[t].state == Running ==> t in s.running)
  {
    if s.th[t].state !in {Blocked, Zombie} { UnlinkPlaced(s, t); }
  }

  // ------------------------------------------------------------- mutexes

  /** Lock `m`, or put `t` on its waiting list. */
  method LockMutex(vm: Vm, m: Mutex, t: Thread) returns (ok: bool)
    requires vm.Valid() && m in vm.reg.locks && t in vm.reg.pool && m.mid in vm.s.mx && t.tid in vm.s.th
    requires Placed(vm.s, None) && vm.s.th[t.tid].state !in {Blocked, Zombie}
    modifies vm, vm.Objects()
    ensures vm.Valid() && m.mid in old(vm.s).mx && t.tid in old(vm.s).th && ok == Granted(old(vm.s), m.mid, t.tid)
    ensures vm.s == MutexLock(old(vm.s), m.mid, t.tid)
  {
    hide Vm.Valid, Placed, SetState, MutexLock, Park, MInfoOf, Descending;
    LockSteps(vm.s, m.mid, t.tid);
    OwnerNamed(vm, m, t);
    ok := m.owner == null || m.owner == t;
    if ok {
      vm.SetMutex(m, t, m.count + 1);
    } else {
      BlockThread(vm, t);
      AddWaiter(vm, m, t);
    }
  }

  /** Take `t` out of the running, and nobody is current. */
  method BlockThread(vm: Vm, t: Thread)
    requires vm.Valid() && t in vm.reg.pool && t.tid in vm.s.th
    requires Placed(vm.s, None) && vm.s.th[t.tid].state !in {Blocked, Zombie}
    modifies vm, vm.Objects()
    ensures vm.Valid() && t.tid in old(vm.s).th && t.home == null
    ensures vm.s == SetState(old(vm.s), t.tid, Blocked).(current := None)
    ensures forall m | m in vm.s.mx :: Descending(vm.s.mx[m].pending)
  {
    hide Vm.Valid, Placed, SetState, Descending;
    vm.ListFacts();
    ReadyDescending(vm.s, None);
    StateKeepsMutexes(vm.s, t.tid, Blocked);
    SetThreadState(vm, t, Blocked);
    vm.SetCurrent(null);
  }

  /** Put the blocked thread `t` on the waiting list of `m`. */
  method AddWaiter(vm: Vm, m: Mutex, t: Thread)
    requires vm.Valid() && m in vm.reg.locks && t in vm.reg.pool && m.mid in vm.s.mx && t.tid in vm.s.th
    requires t.home == null && Descending(vm.s.mx[m.mid].pending)
    modifies vm, vm.Objects()
    ensures vm.Valid() && m.mid in old(vm.s).mx && t.tid in old(vm.s).th && vm.s == Park(old(vm.s), m.mid, t.tid)
  {
    hide Vm.Valid, Park, Descending, InsertSorted;
    vm.LockFacts(m);
    ParkSteps(vm.s, m.mid, t.tid);
    vm.ChainPending(m, t);
    vm.WaitFor(t, OnMutex(m.mid));
    vm.Arrive(t);
  }

  lemma LockSteps(s: Sys, m: Mid, t: Tid)
    requires m in s.mx && t in s.th
    ensures SetState(s, t, Blocked).mx == s.mx && t in SetState(s, t, Blocked).th
    ensures MutexLock(s, m, t) ==
            if Granted(s, m, t) then s.(mx := s.mx[m := s.mx[m].(owner := Some(t), count := s.mx[m].count + 1)])
            else Park(SetState(s, t, Blocked).(current := None), m, t)
  {
    hide Park;
  }

  lemma ParkSteps(s: Sys, m: Mid, t: Tid)
    requires m in s.mx && t in s.th
    ensures var i := s.th[t].(wait := OnMutex(m));
            Park(s, m, t) == s.(mx := s.mx[m := s.mx[m].(pending := InsertSorted(s.mx[m].pending, t))],
                                th := s.th[t := i][t := i.(stamp := s.clock)], clock := s.clock + 1)
  {
    var i := s.th[t].(wait := OnMutex(m));
    assert s.th[t := i][t := i.(stamp := s.clock)] == s.th[t := i.(stamp := s.clock)];
  }

  lemma StateKeepsMutexes(s: Sys, t: Tid, st: ThreadState)
    requires t in s.th
    ensures SetState(s, t, st).mx == s.mx && SetState(s, t, st).th.Keys == s.th.Keys
  {
  }

  /** Only `t` itself goes by its name. */
  lemma OwnerNamed(vm: Vm, m: Mutex, t: Thread)
    requires vm.Valid() && m in vm.reg.locks && t in vm.reg.pool && m.mid in vm.s.mx
    ensures m.owner == null <==> vm.s.mx[m.mid].owner == None
    ensures m.count == vm.s.mx[m.mid].count
    ensures m.owner == t ==> vm.s.mx[m.mid].owner == Some(t.tid)
    ensures vm.s.mx[m.mid].owner == Some(t.tid) ==> m.owner == t
  {
  }

  /** Unlock `m`, which `t` owns; the last unlock wakes everyone who waits. */
  method UnlockMutex(vm: Vm, m: Mutex, t: Thread) returns (n: int)
    requires vm.Valid() && m in vm.reg.locks && t in vm.reg.pool && m.mid in vm.s.mx && t.tid in vm.s.th
    requires Placed(vm.s, None) && m.owner == t && vm.s.mx[m.mid].owner == Some(t.tid)
    requires forall p | p in vm.s.mx[m.mid].pending :: p in vm.s.th
    modifies vm, vm.Objects()
    ensures vm.Valid() && m.mid in old(vm.s).mx && t.tid in old(vm.s).th && old(vm.s).mx[m.mid].owner == Some(t.tid)
    ensures forall p | p in old(vm.s).mx[m.mid].pending :: p in old(vm.s).th
    ensures vm.s == MutexUnlock(old(vm.s), m.mid, t.tid)
  {
    hide Vm.Valid, Placed, Drain;
    ghost var s := vm.s;
    OwnerNamed(vm, m, t);
    n := if m.count > 0 then m.count - 1 else m.count;
    vm.SetMutex(m, t, n);
    SamePlaced(s, vm.s, None);
    if n == 0 {
      ghost var s1 := vm.s;
      vm.SetMutex(m, null, 0);
      SamePlaced(s1, vm.s, None);
      WakeAll(vm, m, t);
    }
  }

  method WakeAll(vm: Vm, m: Mutex, t: Thread)
    requires vm.Valid() && m in vm.reg.locks && t in vm.reg.pool && m.mid in vm.s.mx && t.tid in vm.s.th && Placed(vm.s, None)
    requires forall p | p in vm.s.mx[m.mid].pending :: p in vm.s.th
    modifies vm, vm.Objects()
    ensures vm.Valid() && m.mid in old(vm.s).mx && t.tid in old(vm.s).th
    ensures forall p | p in old(vm.s).mx[m.mid].pending :: p in old(vm.s).th
    ensures vm.s == Drain(old(vm.s), m.mid, t.tid) && Placed(vm.s, None)
  {
    hide Vm.Valid, Placed, WakeHead;
    ghost var s := vm.s;
    HeadNull(vm, m);
    while m.pending.head != null
      invariant vm.Valid() && m.mid in vm.s.mx && t.tid in vm.s.th && Placed(vm.s, None)
      invariant forall p | p in vm.s.mx[m.mid].pending :: p in vm.s.th
      invariant Drain(vm.s, m.mid, t.tid) == Drain(s, m.mid, t.tid)
      invariant m.pending.head == null <==> vm.s.mx[m.mid].pending == []
      decreases |vm.s.mx[m.mid].pending|
    {
      DrainUnfolds(vm.s, m.mid, t.tid);
      WakeOne(vm, m, t);
      HeadNull(vm, m);
    }
  }

  lemma HeadNull(vm: Vm, m: Mutex)
    requires vm.Valid() && m in vm.reg.locks && m.mid in vm.s.mx
    ensures m.pending.head == null <==> vm.s.mx[m.mid].pending == []
  {
    vm.LockFacts(m);
    assert vm.reg.ListOk(m.pending);
  }

  lemma DrainUnfolds(s: Sys, m: Mid, t: Tid)
    requires m in s.mx && t in s.th && s.mx[m].pending != [] && Placed(s, None)
    requires forall p | p in s.mx[m].pending :: p in s.th
    ensures s.mx[m].pending[0] in s.th && s.th[s.mx[m].pending[0]].state == Blocked
    ensures var w := WakeHead(s, m, t);
            && m in w.mx && t in w.th && |w.mx[m].pending| == |s.mx[m].pending| - 1 && Placed(w, None)
            && (forall p | p in w.mx[m].pending :: p in w.th) && Drain(s, m, t) == Drain(w, m, t)
  {
    hide Placed;
    WakeHeadPlaced(s, m, t);
    assert forall x :: x in s.mx[m].pending[1..] ==> x in s.mx[m].pending;
  }

  /** Wake the first thread that waits for `m`; `t` gives up its slice if that one has at least its priority. */
  method WakeOne(vm: Vm, m: Mutex, t: Thread)
    requires vm.Valid() && m in vm.reg.locks && t in vm.reg.pool && m.mid in vm.s.mx && t.tid in vm.s.th && Placed(vm.s, None)
    requires vm.s.mx[m.mid].pending != [] && vm.s.mx[m.mid].pending[0] in vm.s.th
    modifies vm, vm.Objects()
    ensures vm.Valid() && m.mid in old(vm.s).mx && t.tid in old(vm.s).th
    ensures old(vm.s).mx[m.mid].pending != [] && old(vm.s).mx[m.mid].pending[0] in old(vm.s).th
    ensures vm.s == WakeHead(old(vm.s), m.mid, t.tid)
  {
    hide Vm.Valid, Placed, SetState;
    vm.LockFacts(m);
    UnparkPlaced(vm.s, m.mid);
    ghost var s := vm.s;
    var p := vm.UnchainPending(m);
    StateKeepsMutexes(vm.s, p.tid, Ready);
    SetThreadState(vm, p, Ready);
    if p.tid.prio >= t.tid.prio {
      vm.SetRemaining(t, 0);
    }
  }

  // ------------------------------------------------------------ blockers

  /** Suspend `t` on the blocker `b`. */
  method Suspend(vm: Vm, b: Blocker, t: Thread)
    requires vm.Valid() && b in vm.reg.queues && t in vm.reg.pool && b.bid in vm.s.bl && t.tid in vm.s.th
    requires Placed(vm.s, None) && vm.s.th[t.tid].state !in {Blocked, Zombie}
    modifies vm, vm.Objects()
    ensures vm.Valid() && b.bid in old(vm.s).bl && t.tid in old(vm.s).th && vm.s == BlockerSuspend(old(vm.s), b.bid, t.tid)
  {
    hide Vm.Valid, Placed, Unlink, Attach;
    ghost var s := vm.s;
    MovableFacts(s, t.tid);
    PushKeeps(s, b.bid, t.tid);
    vm.ListFacts();
    vm.PushBlocked(b, t);
    ThreadFacts(vm, t);
    UnlinkThread(vm, t);
    AttachThread(vm, t, Blocked);
    vm.WaitFor(t, OnBlocker(b.bid));
  }

  lemma PushKeeps(s: Sys, b: Bid, t: Tid)
    requires b in s.bl && t in s.th
    ensures var s1 := s.(bl := s.bl[b := s.bl[b] + [t]]);
            t in Unlink(s1, t).th && t in Attach(Unlink(s1, t), t, Blocked).th
  {
  }

  /** Resume everyone that is suspended on `b`, the last one first. */
  method Resume(vm: Vm, b: Blocker)
    requires vm.Valid() && b in vm.reg.queues && b.bid in vm.s.bl && Placed(vm.s, None)
    requires (forall t | t in vm.s.bl[b.bid] :: t in vm.s.th) && (vm.s.current.Some? ==> vm.s.current.value in vm.s.th)
    modifies vm, vm.Objects()
    ensures vm.Valid() && b.bid in old(vm.s).bl && (forall t | t in old(vm.s).bl[b.bid] :: t in old(vm.s).th)
    ensures old(vm.s).current.Some? ==> old(vm.s).current.value in old(vm.s).th
    ensures vm.s == BlockerResume(old(vm.s), b.bid)
  {
    hide Vm.Valid, Placed, ResumeTop;
    ghost var s := vm.s;
    StackNull(vm, b);
    while b.stack != []
      invariant vm.Valid() && b.bid in vm.s.bl && Placed(vm.s, None)
      invariant (forall t | t in vm.s.bl[b.bid] :: t in vm.s.th) && (vm.s.current.Some? ==> vm.s.current.value in vm.s.th)
      invariant BlockerResume(vm.s, b.bid) == BlockerResume(s, b.bid)
      invariant b.stack == [] <==> vm.s.bl[b.bid] == []
      decreases |vm.s.bl[b.bid]|
    {
      ResumeUnfolds(vm.s, b.bid);
      ResumeOne(vm, b);
      StackNull(vm, b);
    }
  }

  lemma StackNull(vm: Vm, b: Blocker)
    requires vm.Valid() && b in vm.reg.queues && b.bid in vm.s.bl
    ensures b.stack == [] <==> vm.s.bl[b.bid] == []
  {
    vm.QueueFacts(b);
  }

  lemma ResumeUnfolds(s: Sys, b: Bid)
    requires b in s.bl && s.bl[b] != [] && Placed(s, None)
    requires (forall t | t in s.bl[b] :: t in s.th) && (s.current.Some? ==> s.current.value in s.th)
    ensures Last(s.bl[b]) in s.th && s.th[Last(s.bl[b])].state == Blocked
    ensures var w := ResumeTop(s, b);
            && b in w.bl && |w.bl[b]| == |s.bl[b]| - 1 && Placed(w, None)
            && (forall t | t in w.bl[b] :: t in w.th) && (w.current.Some? ==> w.current.value in w.th)
            && BlockerResume(s, b) == BlockerResume(w, b)
  {
    hide Placed;
    ResumeTopPlaced(s, b);
    ResumeTopKeys(s, b);
    assert forall x :: x in s.bl[b][..|s.bl[b]| - 1] ==> x in s.bl[b];
  }

  lemma ResumeTopKeys(s: Sys, b: Bid)
    requires b in s.bl && s.bl[b] != [] && Last(s.bl[b]) in s.th && (s.current.Some? ==> s.current.value in s.th)
    ensures var w := ResumeTop(s, b);
            w.th.Keys == s.th.Keys && w.bl == s.bl[b := s.bl[b][..|s.bl[b]| - 1]] && w.current == s.current
  {
  }

  /** Resume the thread that was suspended last; the current thread gives up its slice to one of at least its priority. */
  method ResumeOne(vm: Vm, b: Blocker)
    requires vm.Valid() && b in vm.reg.queues && b.bid in vm.s.bl && Placed(vm.s, None) && vm.s.bl[b.bid] != []
    requires Last(vm.s.bl[b.bid]) in vm.s.th && (vm.s.current.Some? ==> vm.s.current.value in vm.s.th)
    modifies vm, vm.Objects()
    ensures vm.Valid() && b.bid in old(vm.s).bl && old(vm.s).bl[b.bid] != [] && Last(old(vm.s).bl[b.bid]) in old(vm.s).th
    ensures old(vm.s).current.Some? ==> old(vm.s).current.value in old(vm.s).th
    ensures vm.s == ResumeTop(old(vm.s), b.bid)
  {
    hide Vm.Valid, Placed, SetState;
    PopSuspendedPlaced(vm.s, b.bid);
    ghost var s := vm.s;
    ScalarFacts(vm);
    var t := vm.PopBlocked(b);
    ThreadFacts(vm, t);
    vm.SetIp(t, t.ip - 2);
    StateKeepsMutexes(vm.s, t.tid, Ready);
    StateKeepsCurrent(vm.s, t.tid, Ready);
    SetThreadState(vm, t, Ready);
    ScalarFacts(vm);
    if vm.current != null && t.tid.prio >= vm.current.tid.prio {
      vm.SetRemaining(vm.current, 0);
    }
  }

  lemma StateKeepsCurrent(s: Sys, t: Tid, st: ThreadState)
    requires t in s.th
    ensures SetState(s, t, st).current == s.current
  {
  }

  // ---------------------------------------------------------- scheduling

  lemma {:induction false} AfterAt(l: seq<Tid>, c: Tid, k: nat)
    requires k < |l| && l[k] == c && forall i | 0 <= i < k :: l[i] != c
    ensures After(l, c) == if k + 1 < |l| then Some(l[k + 1]) else None
  {
    if k > 0 { AfterAt(l[1..], c, k - 1); }
  }

  /** The link of a running thread leads to the thread chained after it. */
  lemma NextFacts(vm: Vm, c: Thread)
    requires vm.Valid() && Placed(vm.s, None) && c in vm.reg.pool && c.tid in vm.s.running
    ensures After(vm.s.running, c.tid) == IdOf(c.next) && (c.next != null ==> c.next in vm.reg.pool)
  {
    hide Registry.Consistent, Registry.InfosAre, Registry.LocksAre, Registry.QueuesAre, Placed, Vm.ShownBy;
    RunningList(vm, c);
    vm.ListFacts();
    var n := vm.running.nodes;
    var i :| 0 <= i < |n| && n[i] == c;
    assert vm.reg.ListOk(vm.running) && vm.running.Linked(i);
    RunningNoDup(vm.s);
    assert IdsOf(n)[i] == c.tid;
    AfterAt(vm.s.running, c.tid, i);
    if i + 1 < |n| { assert n[i + 1] in n; }
  }

  lemma RunningNoDup(s: Sys)
    requires Placed(s, None)
    ensures NoDup(s.running)
  {
  }

  /** The head of a list is the first thread of the list that the snapshot shows. */
  lemma HeadIs(vm: Vm, l: DList, ids: seq<Tid>)
    requires vm.Valid() && l in vm.reg.chains && ids == IdsOf(l.nodes)
    ensures l.head == null <==> ids == []
    ensures l.head != null ==> l.head in vm.reg.pool && l.head.tid == ids[0]
  {
    hide Registry.InfosAre, Registry.LocksAre, Registry.QueuesAre;
    assert vm.reg.ListOk(l);
    if l.nodes != [] { assert l.nodes[0] in l.nodes; }
  }

  lemma ListShown(vm: Vm)
    requires vm.Valid()
    ensures vm.s.ready == IdsOf(vm.ready.nodes) && vm.s.running == IdsOf(vm.running.nodes)
    ensures vm.ready in vm.reg.chains && vm.running in vm.reg.chains
  {
  }

  /** Make the next running thread current. */
  method NextInLine(vm: Vm)
    requires vm.Valid() && Placed(vm.s, None) && (vm.s.current.Some? ==> vm.s.current.value in vm.s.th)
    modifies vm, vm.Objects()
    ensures vm.Valid() && (old(vm.s).current.Some? ==> old(vm.s).current.value in old(vm.s).th)
    ensures vm.s == old(vm.s).(current := NextRunning(old(vm.s)))
  {
    hide Vm.Valid, Placed, IdsOf, After;
    ScalarFacts(vm);
    ListShown(vm);
    ListsKnown(vm.s);
    HeadIs(vm, vm.running, vm.s.running);
    var c := vm.current;
    var next: Thread? := null;
    if c != null {
      ThreadFacts(vm, c);
      if c.state == Running {
        RunningListed(vm.s, c.tid);
        NextFacts(vm, c);
        next := c.next;
      }
    }
    if next == null {
      next := vm.running.head;
    }
    vm.SetCurrent(next);
  }

  lemma RunningListed(s: Sys, t: Tid)
    requires Placed(s, None) && t in s.th && s.th[t].state == Running
    ensures t in s.running
  {
  }

  /** Promote the head of the ready list if it has at least the priority of the current thread. */
  method Promote(vm: Vm)
    requires vm.Valid() && Placed(vm.s, None)
    modifies vm, vm.Objects()
    ensures vm.Valid() && forall t | t in old(vm.s).ready :: t in old(vm.s).th
    ensures vm.s == var s := old(vm.s);
                    if s.ready != [] && (s.current == None || s.current.value.prio <= s.ready[0].prio)
                    then assert s.ready[0] in s.ready; SetState(s.(current := Some(s.ready[0])), s.ready[0], Running) else s
  {
    hide Vm.Valid, Placed, IdsOf, SetState;
    ScalarFacts(vm);
    ListShown(vm);
    ListsKnown(vm.s);
    HeadIs(vm, vm.ready, vm.s.ready);
    var tb := vm.ready.head;
    if tb != null && (vm.current == null || vm.current.tid.prio <= tb.tid.prio) {
      ghost var s := vm.s;
      assert s.ready[0] in s.ready;
      vm.SetCurrent(tb);
      SamePlaced(s, vm.s, None);
      SetThreadState(vm, tb, Running);
    }
  }

  /** The round-robin choice of the thread to run. */
  method ChooseThread(vm: Vm) returns (chosen: Thread?)
    requires vm.Valid() && Placed(vm.s, None) && (vm.s.current.Some? ==> vm.s.current.value in vm.s.th)
    modifies vm, vm.Objects()
    ensures vm.Valid() && (old(vm.s).current.Some? ==> old(vm.s).current.value in old(vm.s).th)
    ensures (forall t | t in old(vm.s).ready :: t in old(vm.s).th) && (forall t | t in old(vm.s).running :: t in old(vm.s).th)
    ensures vm.s == Schedule(old(vm.s)) && chosen == vm.current
  {
    hide Vm.Valid, Placed, SetState, NextRunning;
    ghost var s := vm.s;
    ScalarFacts(vm);
    ListsKnown(s);
    if vm.current != null {
      ThreadFacts(vm, vm.current);
      if vm.current.state == Running && (vm.current.remaining > 0 || vm.current.critical) {
        return vm.current;
      }
    }
    NextInLine(vm);
    SamePlaced(s, vm.s, None);
    Promote(vm);
    assert vm.s == Pick(s);
    ScalarFacts(vm);
    ScheduleShape(s);
    if vm.current != null {
      vm.SetRemaining(vm.current, vm.timeslice);
    }
    ScalarFacts(vm);
    return vm.current;
  }

  // ---------------------------------------------- starting and killing

  /** Make a thread that holds its own join mutex. */
  method Admit(vm: Vm, tid: Tid, ip: int) returns (t: Thread)
    requires vm.Valid() && Startable(vm.s, tid)
    modifies vm`s, vm.reg
    ensures vm.Valid() && fresh(t) && t.tid == tid && t in vm.reg.pool && t.join in vm.reg.locks
    ensures vm.Grown()
    ensures vm.s == old(vm.s).(th := old(vm.s).th[tid := Fresh(ip)], mx := old(vm.s).mx[JoinOf(tid) := MInfo(Some(tid), 1, [])])
  {
    hide Vm.Valid, IdsOf, InfoOf, Registry.Consistent, Registry.InfosAre, Registry.LocksAre, Registry.QueuesAre, Registry.ListsOk;
    ghost var s := vm.s;
    t := vm.NewThread(tid, ip);
    vm.LockFacts(t.join);
    vm.SetMutex(t.join, t, t.join.count + 1);
    TwoEntries(s.mx, JoinOf(tid), FreeMutex, MInfo(Some(tid), 1, []));
  }

  lemma TwoEntries(mx: map<Mid, MInfo>, m: Mid, i: MInfo, j: MInfo)
    ensures mx[m := i][m := j] == mx[m := j]
  {
  }

  /** One more thread; the count fixes the scheduler. */
  method CountIn(vm: Vm)
    requires vm.Valid()
    modifies vm
    ensures vm.Valid()
    ensures var s := old(vm.s); vm.s == s.(count := s.count + 1, mode := ModeAfterAdd(s.mode, s.count + 1))
  {
    hide Vm.Valid;
    ScalarFacts(vm);
    vm.SetThreadsCount(vm.threadsCount + 1);
    ScalarFacts(vm);
    if vm.threadsCount == 1 {
      vm.SetMode(Mono);
    } else if vm.threadsCount == 2 {
      vm.SetMode(RoundRobin);
    }
  }

  /** Start a thread: it holds its own join mutex, is counted, has its argument count pushed, and becomes ready. */
  method StartThread(vm: Vm, tid: Tid, ip: int) returns (t: Thread)
    requires vm.Valid() && Placed(vm.s, None) && Startable(vm.s, tid)
    modifies vm, vm.reg, vm.Objects()
    ensures vm.Valid() && vm.Grown() && fresh(t) && t.tid == tid && t in vm.reg.pool && vm.s == AddThread(old(vm.s), tid, ip)
  {
    hide Vm.Valid, Placed, SetState, Enrolled;
    ghost var s := vm.s;
    EnrolledIs(s, tid, ip);
    EnrolledPlaced(s, tid, ip);
    t := Admit(vm, tid, ip);
    CountIn(vm);
    ThreadFacts(vm, t);
    vm.SetDepth(t, t.depth + 1);
    assert vm.s.th == Enrolled(s, tid, ip).th;
    SetThreadState(vm, t, Ready);
  }

  /** Only `t` itself is current under its name. */
  lemma CurrentNamed(vm: Vm, t: Thread)
    requires vm.Valid() && t in vm.reg.pool
    ensures vm.s.current == Some(t.tid) <==> vm.current == t
  {
  }

  lemma JoinFacts(vm: Vm, t: Thread)
    requires vm.Valid() && t in vm.reg.pool
    ensures t.join in vm.reg.locks && t.join.mid == JoinOf(t.tid)
  {
  }

  /** Kill a thread that waits for nothing: it becomes a zombie, and whoever joins it goes on. */
  method Kill(vm: Vm, t: Thread)
    requires vm.Valid() && Placed(vm.s, None) && Mutexes(vm.s) && t in vm.reg.pool && Killable(vm.s, t.tid)
    requires JoinOf(t.tid) in vm.s.mx && vm.s.mx[JoinOf(t.tid)].owner == Some(t.tid)
    modifies vm, vm.Objects()
    ensures JoinOf(t.tid) in old(vm.s).mx && forall p | p in old(vm.s).mx[JoinOf(t.tid)].pending :: p in old(vm.s).th
    ensures vm.Valid() && vm.s == KillThread(old(vm.s), t.tid)
  {
    hide Vm.Valid, Placed, SetState, MutexUnlock;
    ghost var s := vm.s;
    KillPlaced(s, t.tid);
    RetiredPlaced(s, t.tid);
    JoinFacts(vm, t);
    ScalarFacts(vm);
    vm.SetThreadsCount(vm.threadsCount - 1);
    CurrentNamed(vm, t);
    if vm.current == t {
      vm.SetCurrent(null);
    }
    assert vm.s == Retired(s, t.tid);
    SetThreadState(vm, t, Zombie);
    OwnerNamed(vm, t.join, t);
    var _ := UnlockMutex(vm, t.join, t);
    ScalarFacts(vm);
    if vm.threadsCount == 1 {
      vm.SetMode(Mono);
    } else if vm.threadsCount == 0 {
      vm.SetMode(Idle);
    }
  }
}
