/** Instruction cycles and whole runs of the scheduler, and what holds over every run. */
module SchedRun {
  import opened Options
  import opened SchedModel
  import opened SchedInv

  /** What one instruction asks of the scheduler; `Plain` is any instruction that asks nothing. */
  datatype Op =
    | Plain(delta: int) | LockMtx(m: Mid) | LockMem(m: Mid) | UnlockMtx(m: Mid) | Join(u: Tid)
    | NewMutex(m: Mid) | NewBlocker(b: Bid) | Spawn(u: Tid, ip: int) | Kill(u: Tid) | Yield
    | CritBegin | CritEnd | Suspend(b: Bid) | Resume(b: Bid) | SetTimeslice(n: int) | Exit

  /** How the instruction pointer moves when the instruction leaves a current thread. */
  datatype Next = Hop | Jump(ip: int) | EndOfSegment

  /** The sign bit of the lower half of an address is illegal. */
  predicate Faulty(ip: int) {
    (ip / 0x8000_0000) % 2 == 1
  }

  /** Moving on from address `ip` ends the thread: at the end of the segment, or at a faulty address. */
  predicate Ends(ip: int, next: Next) {
    match next
    case Hop => Faulty(ip + 2)
    case Jump(a) => Faulty(a)
    case EndOfSegment => true
  }

  datatype Event = Cycle(op: Op, next: Next) | Start(t: Tid, ip: int) | Arrive(b: Bid)

  /** Thread `t` with other bookkeeping but the same scheduling state. */
  function Touch(s: Sys, t: Tid, i: TInfo): Sys {
    s.(th := s.th[t := i])
  }

  ghost predicate SameSched(i: TInfo, j: TInfo) {
    i.state == j.state && i.wait == j.wait && i.stamp == j.stamp
  }

  lemma TouchCore(s: Sys, t: Tid, i: TInfo)
    requires Core(s) && t in s.th && SameSched(s.th[t], i)
    ensures Core(Touch(s, t, i))
    ensures Settled(s) ==> Settled(Touch(s, t, i))
  {
    var s' := Touch(s, t, i);
    hide Placed;
    assert Placed(s', None) by { SamePlaced(s, s', None); }
    hide Mutexes, Joins;
    assert Mutexes(s') && Joins(s') by { SameMutexes(s, s'); }
    SameAlive(s.th, s'.th);
  }

  /** `c` is the thread being executed. */
  ghost predicate Executing(s: Sys, c: Tid) {
    true == (Core(s) && s.current == Some(c) && c in s.th && s.th[c].state == Running)
  }

  /** What the source demands of a program about to execute `op`: operands of the right kind, fresh
      names for new objects, no kill of a blocked or dead thread. A lock that is remembered from an
      earlier try is the operand of the next one. */
  ghost predicate OpOk(s: Sys, c: Tid, op: Op)
    requires c in s.th
  {
    match op
    case LockMtx(m) => m in s.mx && m.Managed? && s.th[c].pendingLock in {None, Some(m)}
    case LockMem(m) => m in s.mx && m.Managed?
    case UnlockMtx(m) => m in s.mx && m.Managed?
    case Join(u) => u in s.th && s.th[c].pendingLock in {None, Some(JoinOf(u))}
    case NewMutex(m) => m !in s.mx && m.Managed?
    case NewBlocker(b) => b !in s.bl
    case Spawn(u, _) => Startable(s, u)
    case Kill(u) => Killable(s, u)
    case Suspend(b) => b in s.bl
    case Resume(b) => b in s.bl
    case _ => true
  }

  lemma CoreKnows(s: Sys)
    requires Core(s)
    ensures s.current.Some? ==> s.current.value in s.th
    ensures forall t | t in s.ready :: t in s.th && s.th[t].state == Ready
    ensures forall t | t in s.running :: t in s.th && s.th[t].state == Running
    ensures forall m | m in s.mx :: forall p | p in s.mx[m].pending :: p in s.th && s.th[p].state == Blocked
    ensures forall b | b in s.bl :: forall p | p in s.bl[b] :: p in s.th && s.th[p].state == Blocked
    ensures forall t | t in s.th :: JoinOk(s, t)
    ensures forall m | m in s.mx :: MutexOk(s.mx[m], s.th)
  {
    forall m | m in s.mx ensures forall p | p in s.mx[m].pending :: p in s.th && s.th[p].state == Blocked {
      PendingKnown(s, m);
    }
    forall b | b in s.bl ensures forall p | p in s.bl[b] :: p in s.th && s.th[p].state == Blocked {
      BlockedKnown(s, b);
    }
  }

  /** A failed assertion kills the executing thread. */
  function Fail(s: Sys, c: Tid): Sys
    requires Executing(s, c)
  {
    CoreKnows(s);
    assert JoinOk(s, c);
    KillThread(s.(current := None), c)
  }

  /** The lock operand: popped at the first try, remembered over the retries. */
  function TakeOperand(s: Sys, c: Tid, m: Mid): Sys
    requires c in s.th
  {
    if s.th[c].pendingLock == None
    then Touch(s, c, s.th[c].(pendingLock := Some(m), depth := s.th[c].depth - 1))
    else s
  }

  function DropOperand(s: Sys, c: Tid): Sys
    requires c in s.th
  {
    Touch(s, c, s.th[c].(pendingLock := None))
  }

  function ExecLock(s: Sys, c: Tid, m: Mid): Sys
    requires Executing(s, c) && m in s.mx && s.th[c].pendingLock in {None, Some(m)}
  {
    var s1 := TakeOperand(s, c, m);
    if Granted(s1, m, c) then DropOperand(MutexLock(s1, m, c), c) else MutexLock(s1, m, c)
  }

  function ExecJoin(s: Sys, c: Tid, u: Tid): Sys
    requires Executing(s, c) && u in s.th
  {
    CoreKnows(s);
    assert JoinOk(s, u);
    var s1 := TakeOperand(s, c, JoinOf(u));
    if Granted(s1, JoinOf(u), c) then DropOperand(MutexUnlock(MutexLock(s1, JoinOf(u), c), JoinOf(u), c), c)
    else MutexLock(s1, JoinOf(u), c)
  }

  function ExecUnlock(s: Sys, c: Tid, m: Mid): Sys
    requires Executing(s, c) && m in s.mx
  {
    if s.mx[m].owner != Some(c) then Fail(s, c)
    else
      CoreKnows(s);
      MutexUnlock(Shift(s, c, -1), m, c)
  }

  /** Kill `u`, which waits for nothing. */
  function ExecKill(s: Sys, u: Tid): Sys
    requires Core(s) && Killable(s, u)
  {
    CoreKnows(s);
    assert JoinOk(s, u);
    KillThread(s, u)
  }

  function ExecResume(s: Sys, b: Bid): Sys
    requires Core(s) && b in s.bl
  {
    CoreKnows(s);
    BlockerResume(s, b)
  }

  function ExecCritical(s: Sys, c: Tid, enter: bool): Sys
    requires Executing(s, c)
  {
    if s.th[c].critical == enter then Fail(s, c) else Touch(s, c, s.th[c].(critical := enter))
  }

  /** Move the data stack by `delta` entries. */
  function Shift(s: Sys, c: Tid, delta: int): Sys
    requires c in s.th
  {
    Touch(s, c, s.th[c].(depth := s.th[c].depth + delta))
  }

  lemma ShiftExecuting(s: Sys, c: Tid, delta: int)
    requires Executing(s, c)
    ensures Executing(Shift(s, c, delta), c)
  {
    hide Core;
    TouchCore(s, c, s.th[c].(depth := s.th[c].depth + delta));
  }

  /** Pop the victim and kill it. */
  function ExecKillOp(s: Sys, c: Tid, u: Tid): Sys
    requires Executing(s, c) && Killable(s, u)
  {
    ShiftExecuting(s, c, -1);
    ExecKill(Shift(s, c, -1), u)
  }

  /** The instruction pointer skips the yield before the thread goes back to the ready list. */
  function ExecYield(s: Sys, c: Tid): Sys
    requires c in s.th
  {
    SetState(Touch(s, c, s.th[c].(ip := s.th[c].ip + 2)), c, Ready).(current := None)
  }

  function ExecSlice(s: Sys, n: int): Sys {
    if n > 0 then s.(timeslice := n) else s
  }

  /** The instructions on mutexes. */
  predicate OnMutexes(op: Op) {
    op.LockMtx? || op.LockMem? || op.UnlockMtx? || op.Join?
  }

  /** The instructions that make things. */
  predicate Makes(op: Op) {
    op.NewMutex? || op.NewBlocker? || op.Spawn?
  }

  function ExecMutex(s: Sys, c: Tid, op: Op): Sys
    requires Executing(s, c) && OpOk(s, c, op) && OnMutexes(op)
  {
    match op
    case LockMtx(m) =>
      assert s.th[c].pendingLock == None || s.th[c].pendingLock == Some(m);
      ExecLock(s, c, m)
    case LockMem(m) => MutexLock(s, m, c)
    case UnlockMtx(m) => ExecUnlock(s, c, m)
    case Join(u) => ExecJoin(s, c, u)
  }

  function ExecMake(s: Sys, c: Tid, op: Op): Sys
    requires Executing(s, c) && OpOk(s, c, op) && Makes(op)
  {
    match op
    case NewMutex(m) => Shift(s.(mx := s.mx[m := FreeMutex]), c, 1)
    case NewBlocker(b) => Shift(s.(bl := s.bl[b := []]), c, 1)
    case Spawn(u, ip) => AddThread(s, u, ip)
  }

  function Exec(s: Sys, c: Tid, op: Op): Sys
    requires Executing(s, c) && OpOk(s, c, op)
  {
    if OnMutexes(op) then ExecMutex(s, c, op)
    else if Makes(op) then ExecMake(s, c, op)
    else
      match op
      case Plain(d) => Shift(s, c, d)
      case Kill(u) => ExecKillOp(s, c, u)
      case Yield => ExecYield(s, c)
      case CritBegin => ExecCritical(s, c, true)
      case CritEnd => ExecCritical(s, c, false)
      case Suspend(b) => BlockerSuspend(s, b, c)
      case Resume(b) => ExecResume(s, b)
      case SetTimeslice(n) => ExecSlice(s, n)
      case Exit => SetState(s, c, Dying)
  }

  // ---------------------------------------- every instruction keeps Core

  /** Nobody but `c` is starting or dying. */
  ghost predicate SettledBut(s: Sys, c: Tid) {
    forall t | t in s.th && t != c :: s.th[t].state != Dying && s.th[t].state != Starting
  }

  /** From one table to the next, every thread but `c` keeps its state or goes to one at rest. */
  ghost predicate Calm(th: map<Tid, TInfo>, th': map<Tid, TInfo>) {
    && th.Keys <= th'.Keys
    && (forall t | t in th' :: (t in th && th'[t].state == th[t].state) || th'[t].state in {Blocked, Ready, Running, Zombie})
  }

  lemma KilledCalm(s: Sys, s': Sys, t: Tid)
    requires Killed(s, s', t)
    ensures Calm(s.th, s'.th)
  {
  }

  lemma FailCore(s: Sys, c: Tid)
    requires Executing(s, c)
    ensures Core(Fail(s, c)) && Calm(s.th, Fail(s, c).th) && Fail(s, c).current == None
  {
    CoreKnows(s);
    assert JoinOk(s, c);
    hide Core, Calm;
    SetCurrentCore(s, None);
    KillCore(s.(current := None), c);
    KilledCalm(s.(current := None), Fail(s, c), c);
  }

  /** An instruction keeps the core invariant and leaves every thread but `c` at rest. */
  ghost predicate Kept(s: Sys, s': Sys) {
    true == (Core(s') && Calm(s.th, s'.th))
  }

  lemma TakeOperandCore(s: Sys, c: Tid, m: Mid)
    requires Executing(s, c) && m in s.mx
    ensures var s1 := TakeOperand(s, c, m);
            && Executing(s1, c) && s1.mx == s.mx && (forall t | t in s.th :: s1.th[t].state == s.th[t].state)
            && s1.th.Keys == s.th.Keys
  {
    hide Core;
    if s.th[c].pendingLock == None {
      TouchCore(s, c, s.th[c].(pendingLock := Some(m), depth := s.th[c].depth - 1));
    }
  }

  lemma LockKept(s: Sys, c: Tid, m: Mid)
    requires Executing(s, c) && m in s.mx && (m.Managed? || !Granted(s, m, c))
    ensures Kept(s, MutexLock(s, m, c))
    ensures Granted(s, m, c) ==> c in MutexLock(s, m, c).th && MutexLock(s, m, c).th == s.th
  {
    hide Core;
    if Granted(s, m, c) {
      LockGrantedCore(s, m, c);
    } else {
      LockBlockedCore(s, m, c);
      assert OnlyState(s.th, MutexLock(s, m, c).th, c);
    }
  }

  lemma ExecLockKept(s: Sys, c: Tid, m: Mid)
    requires Executing(s, c) && m in s.mx && m.Managed? && s.th[c].pendingLock in {None, Some(m)}
    ensures Kept(s, ExecLock(s, c, m))
  {
    hide Core;
    TakeOperandCore(s, c, m);
    var s1 := TakeOperand(s, c, m);
    LockKept(s1, c, m);
    var s2 := MutexLock(s1, m, c);
    if Granted(s1, m, c) {
      TouchCore(s2, c, s2.th[c].(pendingLock := None));
    }
  }

  /** A join that gets through only uses up its operand. */
  lemma ExecJoinGranted(s: Sys, c: Tid, u: Tid)
    requires Executing(s, c) && u in s.th && JoinOf(u) in s.mx && Granted(s, JoinOf(u), c)
    ensures ExecJoin(s, c, u) == DropOperand(TakeOperand(s, c, JoinOf(u)), c)
  {
    var m := JoinOf(u);
    var s1 := TakeOperand(s, c, m);
    CoreKnows(s);
    assert MutexOk(s.mx[m], s.th);
    hide Core;
    LockUnlockSame(s1, m, c);
  }

  lemma JoinKnown(s: Sys, u: Tid)
    requires Core(s) && u in s.th
    ensures JoinOf(u) in s.mx
  {
    assert JoinOk(s, u);
  }

  /** A join that does not get through blocks on the lock. */
  lemma ExecJoinRefused(s: Sys, c: Tid, u: Tid)
    requires Executing(s, c) && u in s.th && JoinOf(u) in s.mx && !Granted(s, JoinOf(u), c)
    ensures ExecJoin(s, c, u) == MutexLock(TakeOperand(s, c, JoinOf(u)), JoinOf(u), c)
  {
    hide Core, MutexLock;
    TakeOperandCore(s, c, JoinOf(u));
  }

  lemma ExecJoinKept(s: Sys, c: Tid, u: Tid)
    requires Executing(s, c) && u in s.th
    ensures Kept(s, ExecJoin(s, c, u))
  {
    hide Core, ExecJoin, TakeOperand, MutexLock, Kept;
    var m := JoinOf(u);
    JoinKnown(s, u);
    TakeOperandCore(s, c, m);
    var s1 := TakeOperand(s, c, m);
    if Granted(s, m, c) {
      JoinDropKept(s, c, u);
    } else {
      ExecJoinRefused(s, c, u);
      LockKept(s1, c, m);
      KeptFrom(s, s1, MutexLock(s1, m, c));
    }
  }

  lemma KeptFrom(s: Sys, s1: Sys, s2: Sys)
    requires Kept(s1, s2) && s1.th.Keys == s.th.Keys && forall t | t in s.th :: s1.th[t].state == s.th[t].state
    ensures Kept(s, s2)
  {
    hide Core;
  }

  lemma JoinDropKept(s: Sys, c: Tid, u: Tid)
    requires Executing(s, c) && u in s.th && JoinOf(u) in s.mx && Granted(s, JoinOf(u), c)
    ensures Kept(s, ExecJoin(s, c, u))
  {
    hide Core, ExecJoin, TakeOperand;
    ExecJoinGranted(s, c, u);
    TakeOperandCore(s, c, JoinOf(u));
    var s1 := TakeOperand(s, c, JoinOf(u));
    TouchCore(s1, c, s1.th[c].(pendingLock := None));
  }

  lemma ShiftKept(s: Sys, c: Tid, delta: int)
    requires Core(s) && c in s.th
    ensures Kept(s, Shift(s, c, delta))
    ensures Settled(s) ==> Settled(Shift(s, c, delta))
  {
    hide Core;
    TouchCore(s, c, s.th[c].(depth := s.th[c].depth + delta));
  }

  lemma ExecUnlockKept(s: Sys, c: Tid, m: Mid)
    requires Executing(s, c) && m in s.mx && m.Managed?
    ensures Kept(s, ExecUnlock(s, c, m))
  {
    hide Core;
    if s.mx[m].owner != Some(c) {
      FailCore(s, c);
    } else {
      var s1 := Shift(s, c, -1);
      ShiftKept(s, c, -1);
      CoreKnows(s1);
      UnlockCore(s1, m, c);
      UnlockedCalm(s1, MutexUnlock(s1, m, c), m, c);
    }
  }

  lemma UnlockedCalm(s: Sys, s': Sys, m: Mid, t: Tid)
    requires m in s.mx && t in s.th && Unlocked(s, s', m, t)
    requires forall p | p in s.mx[m].pending :: p in s.th
    ensures Calm(s.th, s'.th)
  {
  }

  lemma NewMutexPlaced(s: Sys, m: Mid)
    requires Placed(s, None) && m !in s.mx
    ensures Placed(s.(mx := s.mx[m := FreeMutex]), None)
  {
    var s1 := s.(mx := s.mx[m := FreeMutex]);
    forall n | n in s1.mx
      ensures WaitList(s1.mx[n].pending, s1.th, OnMutex(n), None) && Sorted(s1.mx[n].pending, s1.th)
    {
      if n != m { assert WaitList(s.mx[n].pending, s.th, OnMutex(n), None) && Sorted(s.mx[n].pending, s.th); }
    }
    forall u | u in s.th && s.th[u].state == Blocked ensures Parked(s1, u) { assert Parked(s, u); }
    assert Waiting(s1, None) && Queues(s1);
  }

  lemma NewBlockerPlaced(s: Sys, b: Bid)
    requires Placed(s, None) && b !in s.bl
    ensures Placed(s.(bl := s.bl[b := []]), None)
  {
    var s1 := s.(bl := s.bl[b := []]);
    forall c | c in s1.bl ensures WaitList(s1.bl[c], s1.th, OnBlocker(c), None) {
      if c != b { assert WaitList(s.bl[c], s.th, OnBlocker(c), None); }
    }
    forall u | u in s.th && s.th[u].state == Blocked ensures Parked(s1, u) { assert Parked(s, u); }
    assert Waiting(s1, None) && Queues(s1);
  }

  lemma NewMutexLive(s: Sys, m: Mid)
    requires Mutexes(s) && Joins(s) && m !in s.mx && m.Managed?
    ensures var s1 := s.(mx := s.mx[m := FreeMutex]); Mutexes(s1) && Joins(s1)
  {
    var s1 := s.(mx := s.mx[m := FreeMutex]);
    forall n | n in s1.mx ensures MutexOk(s1.mx[n], s1.th) { assert n != m ==> MutexOk(s.mx[n], s.th); }
    forall u | u in s1.th ensures JoinOk(s1, u) { assert JoinOk(s, u); }
  }

  lemma ExecNewMutexKept(s: Sys, c: Tid, m: Mid)
    requires Core(s) && c in s.th && m !in s.mx && m.Managed?
    ensures Kept(s, Shift(s.(mx := s.mx[m := FreeMutex]), c, 1))
  {
    hide Placed, Mutexes, Joins;
    NewMutexPlaced(s, m);
    NewMutexLive(s, m);
    ShiftKept(s.(mx := s.mx[m := FreeMutex]), c, 1);
  }

  lemma ExecNewBlockerKept(s: Sys, c: Tid, b: Bid)
    requires Core(s) && c in s.th && b !in s.bl
    ensures Kept(s, Shift(s.(bl := s.bl[b := []]), c, 1))
  {
    var s1 := s.(bl := s.bl[b := []]);
    NewBlockerPlaced(s, b);
    SameMutexes(s, s1);
    assert Core(s1);
    hide Core;
    ShiftKept(s1, c, 1);
  }

  /** From `s` to `s'`, exactly the threads of `l` were resumed: ready, and two words back. */
  ghost predicate Resumed(s: Sys, s': Sys, l: seq<Tid>) {
    && s'.th.Keys == s.th.Keys && s'.mx == s.mx
    && (forall t | t in s.th ::
          if t in l then s'.th[t] == s.th[t].(state := Ready, ip := s.th[t].ip - 2, stamp := s'.th[t].stamp, remaining := s'.th[t].remaining)
          else s'.th[t] == s.th[t].(remaining := s'.th[t].remaining))
  }

  lemma ResumedTrans(s: Sys, s1: Sys, s2: Sys, l: seq<Tid>, t: Tid)
    requires Resumed(s, s1, [t]) && Resumed(s1, s2, l) && t !in l
    ensures Resumed(s, s2, l + [t])
  {
    assert forall x :: x in l + [t] <==> x in l || x == t;
  }

  lemma ResumeTopIs(s: Sys, b: Bid)
    requires b in s.bl && s.bl[b] != [] && Last(s.bl[b]) in s.th && s.th[Last(s.bl[b])].state == Blocked
    requires s.current.Some? ==> s.current.value in s.th
    ensures Resumed(s, ResumeTop(s, b), [Last(s.bl[b])])
  {
  }

  lemma ResumeTopPops(s: Sys, b: Bid)
    requires b in s.bl && s.bl[b] != [] && Last(s.bl[b]) in s.th
    requires s.current.Some? ==> s.current.value in s.th
    ensures var s1 := ResumeTop(s, b);
            s1.bl == s.bl[b := s.bl[b][..|s.bl[b]| - 1]] && s1.th.Keys == s.th.Keys && s1.current == s.current
  {
  }

  lemma {:induction false} ResumeEmpties(s: Sys, b: Bid)
    requires b in s.bl && (forall t | t in s.bl[b] :: t in s.th) && (s.current.Some? ==> s.current.value in s.th)
    ensures BlockerResume(s, b).bl == s.bl[b := []]
    decreases |s.bl[b]|
  {
    hide ResumeTop;
    if s.bl[b] == [] {
      assert s.bl[b := []] == s.bl;
    } else {
      ResumeTopPops(s, b);
      ResumeEmpties(ResumeTop(s, b), b);
    }
  }

  lemma NobodyResumed(s: Sys)
    ensures Resumed(s, s, [])
  {
  }

  /** Resuming makes exactly the suspended threads ready, and empties the blocker. */
  lemma {:induction false} ResumeFacts(s: Sys, b: Bid)
    requires Core(s) && b in s.bl && (forall t | t in s.bl[b] :: t in s.th)
    requires s.current.Some? ==> s.current.value in s.th
    ensures Resumed(s, BlockerResume(s, b), s.bl[b]) && BlockerResume(s, b).bl == s.bl[b := []]
    decreases |s.bl[b]|
  {
    hide Core, ResumeTop, Resumed;
    ResumeEmpties(s, b);
    if s.bl[b] == [] {
      NobodyResumed(s);
    } else {
      var l := s.bl[b][..|s.bl[b]| - 1];
      var t := Last(s.bl[b]);
      SuspendedOnce(s, b);
      ResumeTopCore(s, b);
      ResumeTopIs(s, b);
      ResumeTopPops(s, b);
      var s1 := ResumeTop(s, b);
      CoreKnows(s1);
      ResumeFacts(s1, b);
      ResumedTrans(s, s1, BlockerResume(s1, b), l, t);
    }
  }

  lemma SuspendedOnce(s: Sys, b: Bid)
    requires Core(s) && b in s.bl && s.bl[b] != []
    ensures var l := s.bl[b][..|s.bl[b]| - 1]; s.bl[b] == l + [Last(s.bl[b])] && Last(s.bl[b]) !in l
    ensures Last(s.bl[b]) in s.th && s.th[Last(s.bl[b])].state == Blocked
  {
    assert WaitList(s.bl[b], s.th, OnBlocker(b), None);
    assert Last(s.bl[b]) in s.bl[b];
  }

  lemma ExecResumeKept(s: Sys, b: Bid)
    requires Core(s) && b in s.bl
    ensures Kept(s, ExecResume(s, b)) && ExecResume(s, b).current == s.current
  {
    hide Core;
    CoreKnows(s);
    ResumeCore(s, b);
    ResumeFacts(s, b);
  }

  lemma ExecYieldKept(s: Sys, c: Tid)
    requires Executing(s, c)
    ensures Kept(s, ExecYield(s, c))
  {
    hide Core;
    var i := s.th[c].(ip := s.th[c].ip + 2);
    var s1 := Touch(s, c, i);
    TouchCore(s, c, i);
    SetStateCore(s1, c, Ready);
    SetCurrentCore(SetState(s1, c, Ready), None);
  }

  lemma ExecSliceKept(s: Sys, n: int)
    requires Core(s)
    ensures Kept(s, ExecSlice(s, n))
  {
    hide Placed;
    var s' := ExecSlice(s, n);
    assert Placed(s', None) by { SamePlaced(s, s', None); }
    SameMutexes(s, s');
  }

  lemma ExecCriticalKept(s: Sys, c: Tid, enter: bool)
    requires Executing(s, c)
    ensures Kept(s, ExecCritical(s, c, enter))
  {
    hide Core;
    if s.th[c].critical == enter { FailCore(s, c); }
    else { TouchCore(s, c, s.th[c].(critical := enter)); }
  }

  lemma ExecKillKept(s: Sys, u: Tid)
    requires Core(s) && Killable(s, u)
    ensures Kept(s, ExecKill(s, u)) && Killed(s, ExecKill(s, u), u)
  {
    CoreKnows(s);
    assert JoinOk(s, u);
    hide Core, Killed;
    KillCore(s, u);
    KilledCalm(s, KillThread(s, u), u);
  }

  lemma ExecKillOpKept(s: Sys, c: Tid, u: Tid)
    requires Executing(s, c) && Killable(s, u)
    ensures Kept(s, ExecKillOp(s, c, u))
  {
    hide Core, Kept, ExecKill;
    ShiftExecuting(s, c, -1);
    ExecKillKept(Shift(s, c, -1), u);
    KeptFrom(s, Shift(s, c, -1), ExecKillOp(s, c, u));
  }

  lemma AddKept(s: Sys, u: Tid, ip: int)
    requires Core(s) && Startable(s, u)
    ensures Kept(s, AddThread(s, u, ip))
  {
    hide Core;
    AddCore(s, u, ip);
  }

  lemma SuspendKept(s: Sys, b: Bid, c: Tid)
    requires Executing(s, c) && b in s.bl
    ensures Kept(s, BlockerSuspend(s, b, c))
  {
    hide Core;
    SuspendCore(s, b, c);
  }

  ghost predicate Locking(op: Op) {
    op.LockMtx? || op.LockMem? || op.UnlockMtx? || op.Join? || op.Kill? || op.Yield? || op.CritBegin?
  }

  lemma ExecLockingKept(s: Sys, c: Tid, op: Op)
    requires Executing(s, c) && OpOk(s, c, op) && Locking(op)
    ensures Kept(s, Exec(s, c, op))
  {
    hide Core, Kept, ExecLock, ExecJoin, ExecUnlock, ExecKillOp, ExecYield, ExecCritical, MutexLock;
    match op {
      case LockMtx(m) =>
        assert s.th[c].pendingLock == None || s.th[c].pendingLock == Some(m);
        ExecLockKept(s, c, m);
      case LockMem(m) => LockKept(s, c, m);
      case UnlockMtx(m) => ExecUnlockKept(s, c, m);
      case Join(u) => ExecJoinKept(s, c, u);
      case Kill(u) => ExecKillOpKept(s, c, u);
      case Yield => ExecYieldKept(s, c);
      case CritBegin => ExecCriticalKept(s, c, true);
    }
  }

  /** Every instruction but the last return keeps the core invariant and leaves all threads at rest. */
  lemma ExecKept(s: Sys, c: Tid, op: Op)
    requires Executing(s, c) && OpOk(s, c, op) && op != Exit
    ensures Kept(s, Exec(s, c, op))
  {
    hide Core, Kept, ExecCritical, ExecResume, ExecSlice, AddThread, BlockerSuspend, Shift;
    if Locking(op) {
      hide Exec;
      ExecLockingKept(s, c, op);
    } else {
      match op {
        case Plain(d) => ShiftKept(s, c, d);
        case NewMutex(m) => ExecNewMutexKept(s, c, m);
        case NewBlocker(b) => ExecNewBlockerKept(s, c, b);
        case Spawn(u, ip) => AddKept(s, u, ip);
        case CritEnd => ExecCriticalKept(s, c, false);
        case Suspend(b) => SuspendKept(s, b, c);
        case Resume(b) => ExecResumeKept(s, b);
        case SetTimeslice(n) => ExecSliceKept(s, n);
      }
    }
  }

  /** `c` is no longer current, or is still the running current thread. */
  ghost predicate StillRuns(s: Sys, c: Tid) {
    s.current == None || (s.current == Some(c) && c in s.th && s.th[c].state == Running)
  }

  lemma LockStillRuns(s: Sys, c: Tid, m: Mid)
    requires s.current == Some(c) && c in s.th && s.th[c].state == Running && m in s.mx
    ensures StillRuns(MutexLock(s, m, c), c)
  {
  }

  lemma ExecLockStillRuns(s: Sys, c: Tid, m: Mid)
    requires Executing(s, c) && m in s.mx && s.th[c].pendingLock in {None, Some(m)}
    ensures StillRuns(ExecLock(s, c, m), c)
  {
    hide Core;
    LockStillRuns(TakeOperand(s, c, m), c, m);
  }

  lemma ExecJoinStillRuns(s: Sys, c: Tid, u: Tid)
    requires Executing(s, c) && u in s.th
    ensures StillRuns(ExecJoin(s, c, u), c)
  {
    assert JoinOf(u) in s.mx by { CoreKnows(s); assert JoinOk(s, u); }
    hide Core;
    if Granted(s, JoinOf(u), c) { ExecJoinGranted(s, c, u); }
  }

  lemma UnlockedStillRuns(s: Sys, s': Sys, m: Mid, c: Tid)
    requires m in s.mx && c in s.th && Unlocked(s, s', m, c) && StillRuns(s, c)
    ensures StillRuns(s', c)
  {
  }

  lemma ExecUnlockStillRuns(s: Sys, c: Tid, m: Mid)
    requires Executing(s, c) && m in s.mx && m.Managed?
    ensures StillRuns(ExecUnlock(s, c, m), c)
  {
    hide Core, Unlocked;
    if s.mx[m].owner != Some(c) {
      FailCore(s, c);
    } else {
      var s1 := Shift(s, c, -1);
      ShiftKept(s, c, -1);
      CoreKnows(s1);
      UnlockCore(s1, m, c);
      UnlockedStillRuns(s1, MutexUnlock(s1, m, c), m, c);
    }
  }

  lemma ExecKillStillRuns(s: Sys, c: Tid, u: Tid)
    requires Executing(s, c) && Killable(s, u)
    ensures StillRuns(ExecKill(s, u), c)
  {
    hide Core;
    ExecKillKept(s, u);
  }

  lemma ExecKillOpStillRuns(s: Sys, c: Tid, u: Tid)
    requires Executing(s, c) && Killable(s, u)
    ensures StillRuns(ExecKillOp(s, c, u), c)
  {
    hide Core, StillRuns, ExecKill;
    ShiftExecuting(s, c, -1);
    ExecKillStillRuns(Shift(s, c, -1), c, u);
  }

  lemma AddStillRuns(s: Sys, c: Tid, u: Tid, ip: int)
    requires StillRuns(s, c) && u != c
    ensures StillRuns(AddThread(s, u, ip), c)
  {
  }

  lemma ExecResumeStillRuns(s: Sys, c: Tid, b: Bid)
    requires Executing(s, c) && b in s.bl
    ensures StillRuns(ExecResume(s, b), c)
  {
    CoreKnows(s);
    hide Core;
    ExecResumeKept(s, b);
    ResumeFacts(s, b);
  }

  lemma ExecCriticalStillRuns(s: Sys, c: Tid, enter: bool)
    requires Executing(s, c)
    ensures StillRuns(ExecCritical(s, c, enter), c)
  {
    hide Core;
    if s.th[c].critical == enter { FailCore(s, c); }
  }

  /** Only suspension leaves a current thread that does not run. */
  lemma ExecStillRuns(s: Sys, c: Tid, op: Op)
    requires Executing(s, c) && OpOk(s, c, op) && op != Exit && !op.Suspend?
    ensures StillRuns(Exec(s, c, op), c)
  {
    hide Core, StillRuns, ExecLock, ExecJoin, ExecUnlock, ExecKillOp, ExecCritical, ExecResume, AddThread, MutexLock;
    match op {
      case LockMtx(m) =>
        assert s.th[c].pendingLock == None || s.th[c].pendingLock == Some(m);
        ExecLockStillRuns(s, c, m);
      case LockMem(m) => LockStillRuns(s, c, m);
      case UnlockMtx(m) => ExecUnlockStillRuns(s, c, m);
      case Join(u) => ExecJoinStillRuns(s, c, u);
      case Spawn(u, ip) => SpawnStillRuns(s, c, u, ip);
      case Kill(u) => ExecKillOpStillRuns(s, c, u);
      case CritBegin => ExecCriticalStillRuns(s, c, true);
      case CritEnd => ExecCriticalStillRuns(s, c, false);
      case Resume(b) => ExecResumeStillRuns(s, c, b);
      case _ => SimpleStillRuns(s, c, op);
    }
  }

  lemma SpawnStillRuns(s: Sys, c: Tid, u: Tid, ip: int)
    requires Executing(s, c) && Startable(s, u)
    ensures StillRuns(AddThread(s, u, ip), c)
  {
    hide Core;
    AddStillRuns(s, c, u, ip);
  }

  lemma SimpleStillRuns(s: Sys, c: Tid, op: Op)
    requires Executing(s, c) && OpOk(s, c, op)
    requires op.Plain? || op.NewMutex? || op.NewBlocker? || op.Yield? || op.SetTimeslice?
    ensures StillRuns(Exec(s, c, op), c)
  {
    hide Core;
  }

  // ------------------------------------------------------------- cycles

  lemma CorePlaced(s: Sys)
    requires Core(s)
    ensures Placed(s, None)
  {
  }

  lemma ScheduleSettled(s: Sys)
    requires Settled(s)
    requires s.current.Some? ==> s.current.value in s.th
    requires forall t | t in s.ready :: t in s.th && s.th[t].state == Ready
    requires forall t | t in s.running :: t in s.th
    ensures Settled(Schedule(s)) && Schedule(s).th.Keys == s.th.Keys
  {
    ScheduleShape(s);
    hide Schedule;
  }

  lemma ScheduleKept(s: Sys)
    requires Inv(s)
    ensures s.current.Some? ==> s.current.value in s.th
    ensures (forall t | t in s.ready :: t in s.th) && (forall t | t in s.running :: t in s.th)
    ensures Inv(Schedule(s))
    ensures var s1 := Schedule(s); s1.current.Some? ==> s1.current.value in s1.th && s1.th[s1.current.value].state == Running
  {
    CoreKnows(s);
    CorePlaced(s);
    hide Core, Settled, Placed;
    ScheduleCore(s);
    ScheduleChooses(s);
    ScheduleSettled(s);
  }

  /** The state in which the chosen thread, if any, executes, one unit of its slice used up. */
  function Dispatch(s: Sys): (s1: Sys)
    requires Inv(s)
    ensures Inv(s1) && (s1.current.Some? ==> Executing(s1, s1.current.value))
  {
    ScheduleKept(s);
    hide Core, Settled, Schedule;
    var s1 := Schedule(s);
    if s1.current == None then s1
    else
      var c := s1.current.value;
      TouchCore(s1, c, s1.th[c].(remaining := s1.th[c].remaining - 1));
      SetRemaining(s1, c, s1.th[c].remaining - 1)
  }

  /** The event can happen: its operands are what the source demands, and a blocking
      instruction is not the last of its segment. */
  ghost predicate Enabled(s: Sys, e: Event)
    requires Inv(s)
  {
    match e
    case Cycle(op, next) =>
      var s1 := Dispatch(s);
      s1.current.Some? ==> OpOk(s1, s1.current.value, op) && (op.Suspend? ==> !Ends(s1.th[s1.current.value].ip, next))
    case Start(t, _) => Startable(s, t)
    case Arrive(b) => b in s.bl
  }

  /** Go to address `ip`; a faulty one ends the thread. */
  function Land(s: Sys, c: Tid, ip: int): Sys
    requires c in s.th
  {
    var s1 := Touch(s, c, s.th[c].(ip := ip));
    if Faulty(ip) && s.th[c].state != Dying then SetState(s1, c, Dying) else s1
  }

  /** After the instruction: jump, stop at the end of the segment, or hop to the next one. */
  function Advance(s: Sys, c: Tid, next: Next): Sys
    requires c in s.th
  {
    if s.current == None then s
    else match next
      case Jump(ip) => Land(s, c, ip)
      case EndOfSegment => if s.th[c].state == Dying then s else SetState(s, c, Dying)
      case Hop => Land(s, c, s.th[c].ip + 2)
  }

  /** What executing an instruction leaves: only a thread `c` that is still current may be dying. */
  ghost predicate Executed(s: Sys, c: Tid, next: Next) {
    && Core(s) && c in s.th && SettledBut(s, c)
    && (s.current == None ==> Settled(s))
    && (s.current.Some? ==> s.current == Some(c) && s.th[c].state != Zombie && s.th[c].state != Starting)
    && (s.current.Some? && Ends(s.th[c].ip, next) ==> s.th[c].state != Blocked)
  }

  lemma ExitExecuted(s: Sys, c: Tid, next: Next)
    requires Executing(s, c) && Settled(s) && OpOk(s, c, Exit)
    ensures Executed(Exec(s, c, Exit), c, next)
  {
    hide Core;
    SetStateCore(s, c, Dying);
  }

  lemma SuspendCurrent(s: Sys, c: Tid, b: Bid)
    requires Executing(s, c) && OpOk(s, c, Suspend(b))
    ensures var s' := Exec(s, c, Suspend(b)); c in s'.th && s'.current == Some(c) && s'.th[c].state == Blocked && s'.th[c].ip == s.th[c].ip
  {
    hide Core;
  }

  lemma ExecExecuted(s: Sys, c: Tid, op: Op, next: Next)
    requires Executing(s, c) && Settled(s) && OpOk(s, c, op) && (op.Suspend? ==> !Ends(s.th[c].ip, next))
    ensures Executed(Exec(s, c, op), c, next)
  {
    hide Core, Exec, OpOk;
    if op == Exit {
      ExitExecuted(s, c, next);
    } else {
      ExecKept(s, c, op);
      if op.Suspend? {
        SuspendCurrent(s, c, op.b);
      } else {
        ExecStillRuns(s, c, op);
      }
    }
  }

  lemma AdvanceExecuted(s: Sys, c: Tid, next: Next)
    requires Executed(s, c, next)
    ensures var s' := Advance(s, c, next);
            && Core(s') && c in s'.th && SettledBut(s', c) && s'.current == s.current
            && (s.current == None ==> Settled(s'))
            && (s.current.Some? ==> s'.th[c].state != Zombie && s'.th[c].state != Starting)
  {
    hide Core;
    hide Land, SetState;
    if s.current.Some? {
      match next
      case Jump(ip) => LandExecuted(s, c, ip);
      case Hop => LandExecuted(s, c, s.th[c].ip + 2);
      case EndOfSegment =>
        if s.th[c].state != Dying { SetStateCore(s, c, Dying); SetStateOnly(s, c, Dying); }
    }
  }

  lemma LandExecuted(s: Sys, c: Tid, ip: int)
    requires Core(s) && c in s.th && SettledBut(s, c) && s.th[c].state != Zombie && s.th[c].state != Starting
    requires Faulty(ip) ==> s.th[c].state != Blocked
    ensures var s' := Land(s, c, ip);
            && Core(s') && c in s'.th && SettledBut(s', c) && s'.current == s.current
            && s'.th[c].state != Zombie && s'.th[c].state != Starting
  {
    hide Core, SetState;
    TouchCore(s, c, s.th[c].(ip := ip));
    if Faulty(ip) && s.th[c].state != Dying {
      var s1 := Touch(s, c, s.th[c].(ip := ip));
      SetStateCore(s1, c, Dying);
      SetStateOnly(s1, c, Dying);
    }
  }

  lemma SetStateOnly(s: Sys, t: Tid, st: ThreadState)
    requires t in s.th && s.th[t].state != Blocked
    ensures var s' := SetState(s, t, st);
            OnlyState(s.th, s'.th, t) && s'.th[t].state == st && s'.current == s.current && s'.mx == s.mx
  {
  }

  /** A thread that ended dying while still current is killed at once. */
  function Bury(s: Sys, c: Tid): Sys
    requires Core(s) && c in s.th
  {
    CoreKnows(s);
    assert JoinOk(s, c);
    if s.current.Some? && s.th[c].state == Dying then KillThread(s, c) else s
  }

  lemma BuryInv(s: Sys, c: Tid)
    requires Core(s) && c in s.th && SettledBut(s, c)
    requires s.th[c].state == Starting ==> false
    requires s.current == None ==> Settled(s)
    ensures Inv(Bury(s, c))
  {
    CoreKnows(s);
    assert JoinOk(s, c);
    hide Core, Killed, Settled, KillThread;
    if s.current.Some? && s.th[c].state == Dying {
      KillCore(s, c);
      KilledSettled(s, KillThread(s, c), c);
    } else {
      assert Settled(s) by { AllSettled(s, c); }
    }
  }

  lemma KilledSettled(s: Sys, s': Sys, c: Tid)
    requires Killed(s, s', c) && SettledBut(s, c)
    ensures Settled(s')
  {
  }

  lemma AllSettled(s: Sys, c: Tid)
    requires c in s.th && SettledBut(s, c) && (s.current == None ==> Settled(s))
    requires s.current.Some? ==> s.th[c].state != Dying && s.th[c].state != Starting
    ensures Settled(s)
  {
  }

  /** Executing one instruction of thread `c`, to the end of its cycle. */
  function CycleOf(s: Sys, c: Tid, op: Op, next: Next): (s': Sys)
    requires Executing(s, c) && Settled(s) && OpOk(s, c, op) && (op.Suspend? ==> !Ends(s.th[c].ip, next))
    ensures Inv(s')
  {
    hide Core;
    ExecExecuted(s, c, op, next);
    var s1 := Exec(s, c, op);
    AdvanceExecuted(s1, c, next);
    hide Exec;
    var s2 := Advance(s1, c, next);
    BuryInv(s2, c);
    Bury(s2, c)
  }

  /** One scheduler event. */
  function Step(s: Sys, e: Event): (s': Sys)
    requires Inv(s) && Enabled(s, e)
    ensures Inv(s')
  {
    hide Core;
    match e
    case Cycle(op, next) =>
      var s1 := Dispatch(s);
      if s1.current == None then s1 else CycleOf(s1, s1.current.value, op, next)
    case Start(t, ip) => AddCore(s, t, ip); AddThread(s, t, ip)
    case Arrive(b) => ExecResumeKept(s, b); ExecResume(s, b)
  }

  /** The state after the first `n` events of a run, all of them enabled when they happen. */
  ghost predicate Runs(s: Sys, es: seq<Event>, s': Sys)
    requires Inv(s)
    decreases |es|
  {
    if es == [] then s' == s else Enabled(s, es[0]) && Runs(Step(s, es[0]), es[1..], s')
  }

  lemma BootInv()
    ensures Inv(Boot)
  {
  }

  /** `s` is the machine after the run `es` from its start. */
  ghost predicate FromBoot(es: seq<Event>, s: Sys): (r: bool)
    ensures Inv(Boot)
  {
    BootInv();
    Runs(Boot, es, s)
  }

  /** The invariant holds over every run. */
  lemma {:induction false} RunInv(s: Sys, es: seq<Event>, s': Sys)
    requires Inv(s) && Runs(s, es, s')
    ensures Inv(s')
    decreases |es|
  {
    if es != [] { RunInv(Step(s, es[0]), es[1..], s'); }
  }
}
