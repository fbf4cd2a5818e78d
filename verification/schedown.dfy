/** What one cycle does to the thread that it executes. */
module SchedOwn {
  import opened Options
  import opened SchedModel
  import opened SchedInv
  import opened SchedRun
  import opened SchedTheorems

  /** A blocked thread became ready. */
  ghost predicate SomebodyWoke(s: Sys, s': Sys) {
    exists p :: p in s.th && s.th[p].state == Blocked && p in s'.th && s'.th[p].state == Ready
  }

  /** From `s` to `s'`, thread `c` was killed, or has this lock pending, this critical flag, this address and this depth
      of its data stack, and what was left of its slice unless a thread was woken; new threads have no lock pending. */
  ghost predicate Own(s: Sys, s': Sys, c: Tid, lock: Option<Mid>, crit: bool, ip: int, depth: int) {
    true == (
      && c in s.th && c in s'.th
      && (s'.th[c].state == Zombie
          || (&& s'.th[c].pendingLock == lock && s'.th[c].critical == crit && s'.th[c].ip == ip && s'.th[c].depth == depth
              && (s'.th[c].remaining == s.th[c].remaining || SomebodyWoke(s, s'))))
      && (forall t | t in s'.th && t !in s.th :: s'.th[t].pendingLock == None))
  }

  /** The lock that an instruction tries to take. */
  function Target(op: Op): Option<Mid> {
    match op
    case LockMtx(m) => Some(m)
    case LockMem(m) => Some(m)
    case Join(u) => Some(JoinOf(u))
    case _ => None
  }

  /** The lock that stays pending after one instruction. */
  ghost function PendingAfter(s: Sys, c: Tid, op: Op): Option<Mid>
    requires c in s.th && (op.LockMtx? || op.Join? ==> Target(op).value in s.mx)
  {
    if op.LockMtx? || op.Join? then if Granted(s, Target(op).value, c) then None else Target(op) else s.th[c].pendingLock
  }

  ghost function CriticalAfter(s: Sys, c: Tid, op: Op): bool
    requires c in s.th
  {
    if op.CritBegin? then true else if op.CritEnd? then false else s.th[c].critical
  }

  /** Only a yield moves the address itself. */
  ghost function AddressAfter(s: Sys, c: Tid, op: Op): int
    requires c in s.th
  {
    if op.Yield? then s.th[c].ip + 2 else s.th[c].ip
  }

  /** Locks and joins pop their operand at the first try only; releases and kills pop theirs; what is made is pushed. */
  ghost function DepthAfter(s: Sys, c: Tid, op: Op): int
    requires c in s.th
  {
    match op
    case Plain(d) => s.th[c].depth + d
    case LockMtx(_) => if s.th[c].pendingLock == None then s.th[c].depth - 1 else s.th[c].depth
    case Join(_) => if s.th[c].pendingLock == None then s.th[c].depth - 1 else s.th[c].depth
    case UnlockMtx(_) => s.th[c].depth - 1
    case Kill(_) => s.th[c].depth - 1
    case NewMutex(_) => s.th[c].depth + 1
    case NewBlocker(_) => s.th[c].depth + 1
    case _ => s.th[c].depth
  }

  // ------------------------------------------------------ one instruction

  lemma LockOwn(s: Sys, c: Tid, m: Mid)
    requires c in s.th && m in s.mx
    ensures Own(s, MutexLock(s, m, c), c, s.th[c].pendingLock, s.th[c].critical, s.th[c].ip, s.th[c].depth)
  {
  }

  lemma LockMtxOwn(s: Sys, c: Tid, m: Mid)
    requires Executing(s, c) && m in s.mx && s.th[c].pendingLock in {None, Some(m)}
    ensures Own(s, ExecLock(s, c, m), c, if Granted(s, m, c) then None else Some(m), s.th[c].critical, s.th[c].ip, DepthAfter(s, c, LockMtx(m)))
  {
    hide Core;
  }

  lemma JoinOwn(s: Sys, c: Tid, u: Tid)
    requires Executing(s, c) && u in s.th && JoinOf(u) in s.mx && s.th[c].pendingLock in {None, Some(JoinOf(u))}
    ensures Own(s, ExecJoin(s, c, u), c, if Granted(s, JoinOf(u), c) then None else Some(JoinOf(u)), s.th[c].critical, s.th[c].ip, DepthAfter(s, c, Join(u)))
  {
    hide Core, ExecJoin;
    if Granted(s, JoinOf(u), c) {
      ExecJoinGranted(s, c, u);
    } else {
      ExecJoinRefused(s, c, u);
    }
  }

  /** A kill reaches `c` itself, or leaves its fields alone. */
  lemma KilledOwn(s: Sys, s': Sys, c: Tid, u: Tid)
    requires c in s.th && s.th[c].state == Running && Killed(s, s', u)
    ensures Own(s, s', c, s.th[c].pendingLock, s.th[c].critical, s.th[c].ip, s.th[c].depth)
  {
  }

  lemma KillOwn(s: Sys, c: Tid, u: Tid)
    requires Executing(s, c) && Killable(s, u)
    ensures Own(s, ExecKillOp(s, c, u), c, s.th[c].pendingLock, s.th[c].critical, s.th[c].ip, s.th[c].depth - 1)
  {
    hide Core, Own, Killed, ExecKill;
    ShiftExecuting(s, c, -1);
    var s1 := Shift(s, c, -1);
    ExecKillKept(s1, u);
    KilledOwn(s1, ExecKill(s1, u), c, u);
    ShiftedOwn(s, ExecKill(s1, u), c, -1);
  }

  lemma FailOwn(s: Sys, c: Tid, lock: Option<Mid>, crit: bool, ip: int, depth: int)
    requires Executing(s, c)
    ensures Own(s, Fail(s, c), c, lock, crit, ip, depth)
  {
    JoinKnown(s, c);
    CoreKnows(s);
    hide Core;
    SetCurrentCore(s, None);
    KillCore(s.(current := None), c);
  }

  lemma UnlockedOwn(s: Sys, s': Sys, m: Mid, c: Tid)
    requires m in s.mx && c in s.th && Unlocked(s, s', m, c)
    requires forall p | p in s.mx[m].pending :: p in s.th && p != c && s.th[p].state == Blocked
    ensures Own(s, s', c, s.th[c].pendingLock, s.th[c].critical, s.th[c].ip, s.th[c].depth)
  {
    if s.mx[m].count <= 1 && WakesPeer(s.mx[m].pending, c) {
      var p :| p in s.mx[m].pending;
      assert s'.th[p].state == Ready;
    }
  }

  lemma UnlockOwn(s: Sys, c: Tid, m: Mid)
    requires Executing(s, c) && m in s.mx && m.Managed?
    ensures Own(s, ExecUnlock(s, c, m), c, s.th[c].pendingLock, s.th[c].critical, s.th[c].ip, s.th[c].depth - 1)
  {
    hide Core, Own, Unlocked;
    if s.mx[m].owner != Some(c) {
      FailOwn(s, c, s.th[c].pendingLock, s.th[c].critical, s.th[c].ip, s.th[c].depth - 1);
    } else {
      var s1 := Shift(s, c, -1);
      ShiftKept(s, c, -1);
      CoreKnows(s1);
      UnlockCore(s1, m, c);
      UnlockedOwn(s1, MutexUnlock(s1, m, c), m, c);
      ShiftedOwn(s, MutexUnlock(s1, m, c), c, -1);
    }
  }

  lemma ShiftedOwn(s: Sys, s': Sys, c: Tid, delta: int)
    requires c in s.th && s.th[c].state == Running
    requires Own(Shift(s, c, delta), s', c, s.th[c].pendingLock, s.th[c].critical, s.th[c].ip, s.th[c].depth + delta)
    ensures Own(s, s', c, s.th[c].pendingLock, s.th[c].critical, s.th[c].ip, s.th[c].depth + delta)
  {
    var s1 := Shift(s, c, delta);
    if SomebodyWoke(s1, s') {
      var p :| p in s1.th && s1.th[p].state == Blocked && p in s'.th && s'.th[p].state == Ready;
      assert p in s.th && s.th[p].state == Blocked;
    }
  }

  lemma ResumedOwn(s: Sys, s': Sys, c: Tid, l: seq<Tid>)
    requires c in s.th && s.th[c].state == Running && Resumed(s, s', l) && l != []
    requires forall p | p in l :: p in s.th && s.th[p].state == Blocked
    ensures Own(s, s', c, s.th[c].pendingLock, s.th[c].critical, s.th[c].ip, s.th[c].depth)
  {
    assert l[0] in l && s'.th[l[0]].state == Ready;
  }

  lemma ResumeOwn(s: Sys, c: Tid, b: Bid)
    requires Executing(s, c) && b in s.bl
    ensures Own(s, ExecResume(s, b), c, s.th[c].pendingLock, s.th[c].critical, s.th[c].ip, s.th[c].depth)
  {
    hide Core, Own, Resumed;
    CoreKnows(s);
    if s.bl[b] == [] {
      SameOwn(s, c);
    } else {
      ResumeFacts(s, b);
      ResumedOwn(s, ExecResume(s, b), c, s.bl[b]);
    }
  }

  lemma SameOwn(s: Sys, c: Tid)
    requires c in s.th
    ensures Own(s, s, c, s.th[c].pendingLock, s.th[c].critical, s.th[c].ip, s.th[c].depth)
  {
  }

  lemma SpawnOwn(s: Sys, c: Tid, u: Tid, ip: int)
    requires Executing(s, c) && Startable(s, u)
    ensures Own(s, AddThread(s, u, ip), c, s.th[c].pendingLock, s.th[c].critical, s.th[c].ip, s.th[c].depth)
  {
    hide Core;
  }

  lemma CriticalOwn(s: Sys, c: Tid, enter: bool)
    requires Executing(s, c)
    ensures Own(s, ExecCritical(s, c, enter), c, s.th[c].pendingLock, enter, s.th[c].ip, s.th[c].depth)
  {
    hide Core, Fail;
    if s.th[c].critical == enter { FailOwn(s, c, s.th[c].pendingLock, enter, s.th[c].ip, s.th[c].depth); }
  }

  lemma SuspendOwn(s: Sys, c: Tid, b: Bid)
    requires c in s.th && b in s.bl
    ensures Own(s, BlockerSuspend(s, b, c), c, s.th[c].pendingLock, s.th[c].critical, s.th[c].ip, s.th[c].depth)
  {
  }

  lemma SimpleOwn(s: Sys, c: Tid, op: Op)
    requires Executing(s, c) && OpOk(s, c, op)
    requires op.Plain? || op.NewMutex? || op.NewBlocker? || op.Yield? || op.SetTimeslice? || op.Exit?
    ensures Own(s, Exec(s, c, op), c, s.th[c].pendingLock, s.th[c].critical, AddressAfter(s, c, op), DepthAfter(s, c, op))
  {
    hide Core;
  }

  lemma TargetKnown(s: Sys, c: Tid, op: Op)
    requires Executing(s, c) && OpOk(s, c, op) && Target(op).Some?
    ensures Target(op).value in s.mx
  {
    hide Core;
    if op.Join? { JoinKnown(s, op.u); }
  }

  lemma ExecOwn(s: Sys, c: Tid, op: Op)
    requires Executing(s, c) && OpOk(s, c, op)
    ensures Target(op).Some? ==> Target(op).value in s.mx
    ensures Own(s, Exec(s, c, op), c, PendingAfter(s, c, op), CriticalAfter(s, c, op), AddressAfter(s, c, op), DepthAfter(s, c, op))
  {
    hide Core, Own, ExecLock, ExecJoin, ExecUnlock, ExecKillOp, ExecCritical, ExecResume, AddThread, BlockerSuspend, MutexLock, SetState;
    if Target(op).Some? { TargetKnown(s, c, op); }
    match op {
      case LockMtx(m) => LockMtxOwn(s, c, m);
      case LockMem(m) => LockOwn(s, c, m);
      case UnlockMtx(m) => UnlockOwn(s, c, m);
      case Join(u) => JoinOwn(s, c, u);
      case Spawn(u, ip) => SpawnOwn(s, c, u, ip);
      case Kill(u) => KillOwn(s, c, u);
      case CritBegin => CriticalOwn(s, c, true);
      case CritEnd => CriticalOwn(s, c, false);
      case Suspend(b) => SuspendOwn(s, c, b);
      case Resume(b) => ResumeOwn(s, c, b);
      case _ => SimpleOwn(s, c, op);
    }
  }

  // ------------------------------------------------------------ one cycle

  /** The rest of the cycle: `c` is killed, or keeps its fields and wakes nobody. */
  ghost predicate Rest(s: Sys, s': Sys, c: Tid) {
    true == (
      && s'.th.Keys == s.th.Keys && c in s.th
      && (s.th[c].state == Zombie ==> s'.th[c].state == Zombie)
      && (forall t | t in s.th && t != c :: s'.th[t].pendingLock == s.th[t].pendingLock)
      && (s'.th[c].state == Zombie
          || (s'.th[c] == s.th[c].(ip := s'.th[c].ip, state := s'.th[c].state)
              && forall t | t in s.th && t != c :: s'.th[t] == s.th[t])))
  }

  lemma AdvanceRest(s: Sys, c: Tid, next: Next)
    requires Executed(s, c, next)
    ensures Rest(s, Advance(s, c, next), c)
  {
    hide Core, Rest, Land, SetState;
    if s.current == None {
      RestOfNothing(s, c);
    } else {
      match next
      case Jump(ip) => LandRest(s, c, ip);
      case Hop => LandRest(s, c, s.th[c].ip + 2);
      case EndOfSegment =>
        if s.th[c].state == Dying {
          RestOfNothing(s, c);
        } else {
          assert s.th[c := s.th[c].(ip := s.th[c].ip)] == s.th;
          DyingRest(s, c, s.th[c].ip);
        }
    }
  }

  lemma LandRest(s: Sys, c: Tid, ip: int)
    requires c in s.th && s.th[c].state != Zombie
    ensures Rest(s, Land(s, c, ip), c)
  {
    if Faulty(ip) && s.th[c].state != Dying { DyingRest(s, c, ip); }
  }

  lemma DyingRest(s: Sys, c: Tid, ip: int)
    requires c in s.th && s.th[c].state != Zombie
    ensures Rest(s, SetState(Touch(s, c, s.th[c].(ip := ip)), c, Dying), c)
  {
  }

  lemma BuryRest(s: Sys, c: Tid)
    requires Core(s) && c in s.th
    ensures Rest(s, Bury(s, c), c)
  {
    hide Core, Kept, Killed, Rest, KillThread;
    if s.current.Some? && s.th[c].state == Dying {
      ExecKillKept(s, c);
      KilledRest(s, Bury(s, c), c);
    } else {
      RestOfNothing(s, c);
    }
  }

  lemma KilledRest(s: Sys, s': Sys, c: Tid)
    requires Killed(s, s', c)
    ensures Rest(s, s', c)
  {
  }

  lemma RestOfNothing(s: Sys, c: Tid)
    requires c in s.th
    ensures Rest(s, s, c)
  {
  }

  lemma OwnThenRest(s: Sys, s1: Sys, s2: Sys, c: Tid, lock: Option<Mid>, crit: bool, ip: int, depth: int)
    requires Own(s, s1, c, lock, crit, ip, depth) && Rest(s1, s2, c) && s.th[c].state != Blocked
    ensures c in s2.th && Own(s, s2, c, lock, crit, s2.th[c].ip, depth)
  {
    if SomebodyWoke(s, s1) && s2.th[c].state != Zombie {
      var p :| p in s.th && s.th[p].state == Blocked && p in s1.th && s1.th[p].state == Ready;
      assert p != c && s2.th[p] == s1.th[p];
    }
  }

  lemma CycleOwn(s: Sys, c: Tid, op: Op, next: Next)
    requires Executing(s, c) && Settled(s) && OpOk(s, c, op) && (op.Suspend? ==> !Ends(s.th[c].ip, next))
    ensures Target(op).Some? ==> Target(op).value in s.mx
    ensures var s' := CycleOf(s, c, op, next);
            c in s'.th && Own(s, s', c, PendingAfter(s, c, op), CriticalAfter(s, c, op), s'.th[c].ip, DepthAfter(s, c, op))
  {
    hide Core, Own, Rest, Exec, Advance, Bury, OpOk;
    ExecOwn(s, c, op);
    ExecExecuted(s, c, op, next);
    var s1 := Exec(s, c, op);
    AdvanceExecuted(s1, c, next);
    AdvanceRest(s1, c, next);
    BuryRest(Advance(s1, c, next), c);
    OwnThenRest(s, s1, Advance(s1, c, next), c, PendingAfter(s, c, op), CriticalAfter(s, c, op), AddressAfter(s, c, op), DepthAfter(s, c, op));
    OwnThenRest(s, Advance(s1, c, next), CycleOf(s, c, op, next), c, PendingAfter(s, c, op), CriticalAfter(s, c, op), Advance(s1, c, next).th[c].ip, DepthAfter(s, c, op));
  }
}
