/** Instructions, cycles and whole runs on the machine's objects. */
module VmRun {
  import opened Options
  import opened SchedModel
  import opened SchedInv
  import opened SchedRun
  import opened SchedTheorems
  import opened Threads
  import opened VmHeap
  import opened VmOps

  /** `c` is about to execute an instruction. */
  ghost predicate Turn(vm: Vm, c: Thread)
    reads vm, vm.reg, vm.reg.chains, vm.reg.pool, vm.reg.locks, vm.reg.queues
  {
    vm.Valid() && c in vm.reg.pool && Executing(vm.s, c.tid)
  }

  lemma ExecutingFacts(s: Sys, c: Tid)
    requires Executing(s, c)
    ensures Core(s) && Placed(s, None) && Mutexes(s) && s.current == Some(c) && c in s.th && s.th[c].state == Running
  {
  }

  /** A remembered lock is a registered mutex, and the only one of its name. */
  lemma PendingFacts(vm: Vm, t: Thread)
    requires vm.Valid() && t in vm.reg.pool
    ensures t.tid in vm.s.th
    ensures if t.pendingLock == null then vm.s.th[t.tid].pendingLock == None
            else t.pendingLock in vm.reg.locks && vm.s.th[t.tid].pendingLock == Some(t.pendingLock.mid)
    ensures forall m, n | m in vm.reg.locks && n in vm.reg.locks :: m.mid == n.mid ==> m == n
  {
    forall m, n | m in vm.reg.locks && n in vm.reg.locks && m.mid == n.mid ensures m == n {
      assert vm.reg.mutexes[m.mid] == m && vm.reg.mutexes[n.mid] == n;
    }
  }

  lemma TouchTwice(th: map<Tid, TInfo>, t: Tid, i: TInfo, j: TInfo)
    ensures th[t := i][t := j] == th[t := j]
  {
  }

  // ----------------------------------------------------- locks and joins

  /** Pop the lock operand at the first try, and remember it. */
  method PopOperand(vm: Vm, c: Thread, m: Mutex)
    requires vm.Valid() && c in vm.reg.pool && m in vm.reg.locks && c.tid in vm.s.th
    requires vm.s.th[c.tid].pendingLock in {None, Some(m.mid)}
    modifies vm, vm.Objects()
    ensures vm.Valid() && c.tid in old(vm.s).th && vm.s == TakeOperand(old(vm.s), c.tid, m.mid) && c.pendingLock == m
  {
    hide Vm.Valid;
    PendingFacts(vm, c);
    ThreadFacts(vm, c);
    if c.pendingLock == null {
      ghost var s := vm.s;
      vm.SetPendingLock(c, m);
      vm.SetDepth(c, c.depth - 1);
      TouchTwice(s.th, c.tid, s.th[c.tid].(pendingLock := Some(m.mid)), vm.s.th[c.tid]);
    }
  }

  method DropLock(vm: Vm, c: Thread)
    requires vm.Valid() && c in vm.reg.pool && c.tid in vm.s.th
    modifies vm, vm.Objects()
    ensures vm.Valid() && c.tid in old(vm.s).th && vm.s == DropOperand(old(vm.s), c.tid)
  {
    hide Vm.Valid;
    vm.SetPendingLock(c, null);
  }

  lemma OperandFacts(s: Sys, c: Tid, m: Mid)
    requires Executing(s, c) && m in s.mx
    ensures var s1 := TakeOperand(s, c, m);
            && Executing(s1, c) && m in s1.mx && Placed(s1, None) && s1.th[c].state == Running
            && (Granted(s1, m, c) ==> Placed(MutexLock(s1, m, c), None) && MutexLock(s1, m, c).th == s1.th
                                      && MutexLock(s1, m, c).mx[m].owner == Some(c) && m in MutexLock(s1, m, c).mx
                                      && forall p | p in MutexLock(s1, m, c).mx[m].pending :: p in s1.th)
  {
    hide Core, Placed;
    TakeOperandCore(s, c, m);
    var s1 := TakeOperand(s, c, m);
    ExecutingFacts(s1, c);
    CoreKnows(s1);
    if Granted(s1, m, c) { LockGrantedCore(s1, m, c); }
  }

  method LockMtxOp(vm: Vm, c: Thread, m: Mutex)
    requires Turn(vm, c) && m in vm.reg.locks && m.mid in vm.s.mx && vm.s.th[c.tid].pendingLock in {None, Some(m.mid)}
    modifies vm, vm.Objects()
    ensures Executing(old(vm.s), c.tid) && m.mid in old(vm.s).mx && old(vm.s).th[c.tid].pendingLock in {None, Some(m.mid)}
    ensures vm.Valid() && vm.s == ExecLock(old(vm.s), c.tid, m.mid)
  {
    hide Vm.Valid, Core, Placed, TakeOperand, MutexLock, DropOperand;
    OperandFacts(vm.s, c.tid, m.mid);
    PopOperand(vm, c, m);
    var ok := LockMutex(vm, c.pendingLock, c);
    if ok {
      DropLock(vm, c);
    }
  }

  method JoinOp(vm: Vm, c: Thread, u: Thread)
    requires Turn(vm, c) && u in vm.reg.pool && u.tid in vm.s.th && vm.s.th[c.tid].pendingLock in {None, Some(JoinOf(u.tid))}
    modifies vm, vm.Objects()
    ensures Executing(old(vm.s), c.tid) && u.tid in old(vm.s).th && vm.Valid() && vm.s == ExecJoin(old(vm.s), c.tid, u.tid)
  {
    hide Vm.Valid, Core, Placed, TakeOperand, MutexLock, MutexUnlock, DropOperand;
    JoinKnown(vm.s, u.tid);
    JoinFacts(vm, u);
    OperandFacts(vm.s, c.tid, JoinOf(u.tid));
    PopOperand(vm, c, u.join);
    var ok := LockMutex(vm, c.pendingLock, c);
    if ok {
      OwnerNamed(vm, u.join, c);
      var _ := UnlockMutex(vm, u.join, c);
      ThreadFacts(vm, c);
      DropLock(vm, c);
    }
  }

  /** A failed assertion kills the executing thread. */
  method FailOp(vm: Vm, c: Thread)
    requires Turn(vm, c)
    modifies vm, vm.Objects()
    ensures Executing(old(vm.s), c.tid) && vm.Valid() && vm.s == Fail(old(vm.s), c.tid)
  {
    hide Vm.Valid, Core, Placed, KillThread;
    FailReady(vm.s, c.tid);
    vm.SetCurrent(null);
    VmOps.Kill(vm, c);
  }

  lemma FailReady(s: Sys, c: Tid)
    requires Executing(s, c)
    ensures var s1 := s.(current := None);
            Placed(s1, None) && Mutexes(s1) && Killable(s1, c) && JoinOf(c) in s1.mx && s1.mx[JoinOf(c)].owner == Some(c)
  {
    CoreKnows(s);
    assert JoinOk(s, c);
    SamePlaced(s, s.(current := None), None);
  }

  method UnlockMtxOp(vm: Vm, c: Thread, m: Mutex)
    requires Turn(vm, c) && m in vm.reg.locks && m.mid in vm.s.mx
    modifies vm, vm.Objects()
    ensures Executing(old(vm.s), c.tid) && m.mid in old(vm.s).mx && vm.Valid() && vm.s == ExecUnlock(old(vm.s), c.tid, m.mid)
  {
    hide Vm.Valid, Core, Placed, MutexUnlock, Fail;
    ExecutingFacts(vm.s, c.tid);
    OwnerNamed(vm, m, c);
    if m.owner != c {
      FailOp(vm, c);
    } else {
      ghost var s := vm.s;
      CoreKnows(s);
      ThreadFacts(vm, c);
      vm.SetDepth(c, c.depth - 1);
      SamePlaced(s, vm.s, None);
      var _ := UnlockMutex(vm, m, c);
    }
  }

  // ------------------------------------------------- the other instructions

  method ShiftOp(vm: Vm, c: Thread, delta: int)
    requires vm.Valid() && c in vm.reg.pool && c.tid in vm.s.th
    modifies vm, vm.Objects()
    ensures c.tid in old(vm.s).th && vm.Valid() && vm.s == Shift(old(vm.s), c.tid, delta)
  {
    hide Vm.Valid;
    ThreadFacts(vm, c);
    vm.SetDepth(c, c.depth + delta);
  }

  lemma ShiftKillable(s: Sys, c: Tid, u: Tid)
    requires c in s.th && Killable(s, u)
    ensures Killable(Shift(s, c, -1), u)
  {
  }

  method KillOp(vm: Vm, u: Thread)
    requires vm.Valid() && Core(vm.s) && u in vm.reg.pool && Killable(vm.s, u.tid)
    modifies vm, vm.Objects()
    ensures Core(old(vm.s)) && Killable(old(vm.s), u.tid) && vm.Valid() && vm.s == ExecKill(old(vm.s), u.tid)
  {
    hide Vm.Valid, Core, Placed, KillThread;
    KillReady(vm.s, u.tid);
    VmOps.Kill(vm, u);
  }

  lemma KillReady(s: Sys, u: Tid)
    requires Core(s) && Killable(s, u)
    ensures Placed(s, None) && Mutexes(s) && JoinOf(u) in s.mx && s.mx[JoinOf(u)].owner == Some(u)
  {
    assert JoinOk(s, u);
  }

  method CriticalOp(vm: Vm, c: Thread, enter: bool)
    requires Turn(vm, c)
    modifies vm, vm.Objects()
    ensures Executing(old(vm.s), c.tid) && vm.Valid() && vm.s == ExecCritical(old(vm.s), c.tid, enter)
  {
    hide Vm.Valid, Core, Fail;
    ExecutingFacts(vm.s, c.tid);
    ThreadFacts(vm, c);
    if c.critical == enter {
      FailOp(vm, c);
    } else {
      vm.SetCritical(c, enter);
    }
  }

  /** Step past the yield, and go back to the ready list. */
  method YieldOp(vm: Vm, c: Thread)
    requires Turn(vm, c)
    modifies vm, vm.Objects()
    ensures c.tid in old(vm.s).th && vm.Valid() && vm.s == ExecYield(old(vm.s), c.tid)
  {
    hide Vm.Valid, Core, Placed, SetState;
    ghost var s := vm.s;
    ExecutingFacts(s, c.tid);
    ThreadFacts(vm, c);
    vm.SetIp(c, c.ip + 2);
    SamePlaced(s, vm.s, None);
    SetThreadState(vm, c, Ready);
    vm.SetCurrent(null);
  }

  method ResumeOp(vm: Vm, b: Blocker)
    requires vm.Valid() && Core(vm.s) && b in vm.reg.queues && b.bid in vm.s.bl
    modifies vm, vm.Objects()
    ensures Core(old(vm.s)) && b.bid in old(vm.s).bl && vm.Valid() && vm.s == ExecResume(old(vm.s), b.bid)
  {
    hide Vm.Valid, Core, Placed, BlockerResume;
    CoreKnows(vm.s);
    CorePlaced(vm.s);
    VmOps.Resume(vm, b);
  }

  method ExitOp(vm: Vm, c: Thread)
    requires Turn(vm, c)
    modifies vm, vm.Objects()
    ensures c.tid in old(vm.s).th && vm.Valid() && vm.s == SetState(old(vm.s), c.tid, Dying)
  {
    hide Vm.Valid, Core, Placed, SetState;
    ExecutingFacts(vm.s, c.tid);
    SetThreadState(vm, c, Dying);
  }

  method ExecuteMutexOp(vm: Vm, c: Thread, op: Op)
    requires Turn(vm, c) && OpOk(vm.s, c.tid, op) && OnMutexes(op)
    modifies vm, vm.Objects()
    ensures Executing(old(vm.s), c.tid) && OpOk(old(vm.s), c.tid, op)
    ensures vm.Valid() && vm.s == ExecMutex(old(vm.s), c.tid, op)
  {
    hide Vm.Valid, Core, ExecLock, ExecJoin, ExecUnlock, MutexLock;
    ExecutingFacts(vm.s, c.tid);
    match op {
      case LockMtx(m) =>
        vm.MutexNamed(m);
        LockMtxOp(vm, c, vm.reg.mutexes[m]);
      case LockMem(m) =>
        vm.MutexNamed(m);
        var _ := LockMutex(vm, vm.reg.mutexes[m], c);
      case UnlockMtx(m) =>
        vm.MutexNamed(m);
        UnlockMtxOp(vm, c, vm.reg.mutexes[m]);
      case Join(u) =>
        vm.ThreadNamed(u);
        JoinOp(vm, c, vm.reg.threads[u]);
    }
  }

  method ExecuteMakeOp(vm: Vm, c: Thread, op: Op)
    requires Turn(vm, c) && OpOk(vm.s, c.tid, op) && Makes(op)
    modifies vm, vm.reg, vm.Objects()
    ensures Executing(old(vm.s), c.tid) && OpOk(old(vm.s), c.tid, op)
    ensures vm.Valid() && vm.Grown() && vm.s == ExecMake(old(vm.s), c.tid, op)
  {
    hide Vm.Valid, Core, AddThread;
    ExecutingFacts(vm.s, c.tid);
    match op {
      case NewMutex(m) =>
        vm.NewMutex(m);
        ShiftOp(vm, c, 1);
      case NewBlocker(b) =>
        vm.NewBlocker(b);
        ShiftOp(vm, c, 1);
      case Spawn(u, ip) =>
        var _ := StartThread(vm, u, ip);
    }
  }

  /** Execute one instruction of the current thread `c`. */
  method Execute(vm: Vm, c: Thread, op: Op)
    requires Turn(vm, c) && OpOk(vm.s, c.tid, op)
    modifies vm, vm.reg, vm.Objects()
    ensures Executing(old(vm.s), c.tid) && OpOk(old(vm.s), c.tid, op)
    ensures vm.Valid() && vm.Grown() && vm.s == Exec(old(vm.s), c.tid, op)
  {
    hide Vm.Valid, Core, Placed, ExecMutex, ExecMake, ExecKill, ExecYield, ExecCritical, ExecResume, BlockerSuspend, SetState, Shift;
    ExecutingFacts(vm.s, c.tid);
    if OnMutexes(op) {
      ExecuteMutexOp(vm, c, op);
    } else if Makes(op) {
      ExecuteMakeOp(vm, c, op);
    } else {
      match op {
        case Plain(d) => ShiftOp(vm, c, d);
        case Kill(u) =>
          vm.ThreadNamed(u);
          ShiftExecuting(vm.s, c.tid, -1);
          ShiftKillable(vm.s, c.tid, u);
          ShiftOp(vm, c, -1);
          ExecutingFacts(vm.s, c.tid);
          KillOp(vm, vm.reg.threads[u]);
        case Yield => YieldOp(vm, c);
        case CritBegin => CriticalOp(vm, c, true);
        case CritEnd => CriticalOp(vm, c, false);
        case Suspend(b) =>
          vm.BlockerNamed(b);
          VmOps.Suspend(vm, vm.reg.blockers[b], c);
        case Resume(b) =>
          vm.BlockerNamed(b);
          ResumeOp(vm, vm.reg.blockers[b]);
        case SetTimeslice(n) =>
          if n > 0 { vm.SetTimeslice(n); }
        case Exit => ExitOp(vm, c);
      }
    }
  }

  // ------------------------------------------------------- cycles and runs

  /** Go to an address, if it is a legal one. */
  method LandOp(vm: Vm, c: Thread, ip: int)
    requires vm.Valid() && c in vm.reg.pool && c.tid in vm.s.th && Placed(vm.s, None)
    requires vm.s.th[c.tid].state != Zombie && (Faulty(ip) ==> vm.s.th[c.tid].state != Blocked)
    modifies vm, vm.Objects()
    ensures c.tid in old(vm.s).th && vm.Valid() && vm.s == Land(old(vm.s), c.tid, ip)
  {
    hide Vm.Valid, Placed, SetState;
    ghost var s := vm.s;
    vm.SetIp(c, ip);
    ThreadFacts(vm, c);
    SamePlaced(s, vm.s, None);
    if Faulty(ip) && c.state != Dying {
      SetThreadState(vm, c, Dying);
    }
  }

  /** Move on after the instruction. */
  method AdvanceOp(vm: Vm, c: Thread, next: Next)
    requires vm.Valid() && c in vm.reg.pool && Executed(vm.s, c.tid, next)
    modifies vm, vm.Objects()
    ensures c.tid in old(vm.s).th && vm.Valid() && vm.s == Advance(old(vm.s), c.tid, next)
  {
    hide Vm.Valid, Core, Placed, SetState, Land;
    CorePlaced(vm.s);
    ScalarFacts(vm);
    ThreadFacts(vm, c);
    if vm.current != null {
      match next {
        case Jump(ip) => LandOp(vm, c, ip);
        case EndOfSegment =>
          if c.state != Dying { SetThreadState(vm, c, Dying); }
        case Hop => LandOp(vm, c, c.ip + 2);
      }
    }
  }

  /** Kill the thread if it ended dying while still current. */
  method BuryOp(vm: Vm, c: Thread)
    requires vm.Valid() && c in vm.reg.pool && Core(vm.s) && c.tid in vm.s.th
    modifies vm, vm.Objects()
    ensures Core(old(vm.s)) && c.tid in old(vm.s).th && vm.Valid() && vm.s == Bury(old(vm.s), c.tid)
  {
    hide Vm.Valid, Core, KillThread;
    ScalarFacts(vm);
    ThreadFacts(vm, c);
    if vm.current != null && c.state == Dying {
      KillOp(vm, c);
    }
  }

  method CycleOp(vm: Vm, c: Thread, op: Op, next: Next)
    requires Turn(vm, c) && Settled(vm.s) && OpOk(vm.s, c.tid, op) && (op.Suspend? ==> !Ends(vm.s.th[c.tid].ip, next))
    modifies vm, vm.reg, vm.Objects()
    ensures Executing(old(vm.s), c.tid) && Settled(old(vm.s)) && OpOk(old(vm.s), c.tid, op)
    ensures vm.Valid() && vm.Grown() && vm.s == CycleOf(old(vm.s), c.tid, op, next)
  {
    hide Vm.Valid, Core, Exec, Advance, Bury, OpOk, Settled;
    ghost var s := vm.s;
    ExecExecuted(s, c.tid, op, next);
    Execute(vm, c, op);
    AdvanceExecuted(vm.s, c.tid, next);
    AdvanceOp(vm, c, next);
    BuryOp(vm, c);
  }

  /** Without threads there is nothing to choose. */
  lemma IdleSchedule(s: Sys)
    requires Inv(s) && s.mode == Idle
    ensures s.current == None && s.ready == [] && s.running == []
  {
    CoreKnows(s);
    assert Alive(s.th) == {};
    assert forall t | t in s.th :: t in Alive(s.th) || s.th[t].state == Zombie;
    if s.ready != [] { SomebodyIn(s.ready); }
    if s.running != [] { SomebodyIn(s.running); }
  }

  lemma SomebodyIn(l: seq<Tid>)
    requires l != []
    ensures exists t :: t in l
  {
    assert l[0] in l;
  }

  /** Choose a thread by the scheduler of the current mode, and use up one unit of its slice. */
  method DispatchOp(vm: Vm) returns (c: Thread?)
    requires vm.Valid() && Inv(vm.s)
    modifies vm, vm.Objects()
    ensures Inv(old(vm.s)) && vm.Valid() && vm.s == Dispatch(old(vm.s)) && c == vm.current
    ensures c != null ==> Turn(vm, c) && vm.s.current == Some(c.tid)
    ensures c == null ==> vm.s.current == None
  {
    hide Vm.Valid, Core, Settled, Schedule, Executing;
    ghost var s := vm.s;
    ScheduleKept(s);
    ScalarFacts(vm);
    if vm.mode == Idle {
      IdleKeeps(s);
      c := null;
    } else {
      CorePlaced(s);
      c := ChooseThread(vm);
      ScalarFacts(vm);
      if c != null {
        ThreadFacts(vm, c);
        vm.SetRemaining(c, c.remaining - 1);
        ScalarFacts(vm);
      }
    }
  }

  lemma IdleKeeps(s: Sys)
    requires Inv(s) && s.mode == Idle
    ensures s.current == None && Dispatch(s) == s
  {
    hide Core, Settled;
    IdleSchedule(s);
  }

  /** One event. */
  method StepOp(vm: Vm, e: Event)
    requires vm.Valid() && Inv(vm.s) && Enabled(vm.s, e)
    modifies vm, vm.reg, vm.Objects()
    ensures Inv(old(vm.s)) && Enabled(old(vm.s), e) && vm.Valid() && vm.Grown() && vm.s == Step(old(vm.s), e)
  {
    hide Vm.Valid, Core, Settled, Dispatch, CycleOf, OpOk, AddThread, ExecResume;
    match e {
      case Cycle(op, next) =>
        var c := DispatchOp(vm);
        if c != null {
          CycleOp(vm, c, op, next);
        }
      case Start(t, ip) =>
        CorePlaced(vm.s);
        var _ := StartThread(vm, t, ip);
      case Arrive(b) =>
        vm.BlockerNamed(b);
        ResumeOp(vm, vm.reg.blockers[b]);
    }
  }

  /** A whole run: at the end, and so after every prefix, all lists and links of the heap agree with the
      snapshot, which is the one that the run leads to and satisfies the invariant. */
  method RunAll(vm: Vm, es: seq<Event>)
    requires vm.Valid() && Inv(vm.s) && EnabledRun(vm.s, es)
    modifies vm, vm.reg, vm.Objects()
    ensures Inv(old(vm.s)) && vm.Valid() && vm.Grown() && Inv(vm.s) && Runs(old(vm.s), es, vm.s)
  {
    hide Vm.Valid, Core, Settled, Enabled, Step;
    var i := 0;
    assert es[0..] == es;
    while i < |es|
      invariant 0 <= i <= |es| && vm.Valid() && vm.Grown() && Inv(vm.s) && EnabledRun(vm.s, es[i..])
      invariant forall v :: Runs(vm.s, es[i..], v) ==> Runs(old(vm.s), es, v)
    {
      assert es[i..][0] == es[i] && es[i..][1..] == es[i + 1..];
      StepOp(vm, es[i]);
      i := i + 1;
    }
    assert Runs(vm.s, es[|es|..], vm.s);
  }

  /** A run from the start of the machine. */
  method RunFromBoot(es: seq<Event>) returns (vm: Vm)
    requires (BootInv(); EnabledRun(SchedModel.Boot, es))
    ensures fresh(vm) && vm.Valid() && Inv(vm.s) && FromBoot(es, vm.s)
  {
    hide Vm.Valid, Core, Settled, Enabled, Step;
    vm := new Vm();
    BootInv();
    RunAll(vm, es);
  }
}
