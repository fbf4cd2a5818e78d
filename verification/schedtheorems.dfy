/** What the scheduler promises: consequences of the invariant, and statements about whole runs. */
module SchedTheorems {
  import opened Options
  import opened SchedModel
  import opened SchedInv
  import opened SchedRun

  // ------------------------------------------------ reading the invariant

  /** Every thread is in one of four states, and sits on exactly the one list its state names. */
  lemma OnExactlyOneList(s: Sys, t: Tid)
    requires Inv(s) && t in s.th
    ensures s.th[t].state in {Blocked, Ready, Running, Zombie}
    ensures multiset(s.ready)[t] == (if s.th[t].state == Ready then 1 else 0)
    ensures multiset(s.running)[t] == (if s.th[t].state == Running then 1 else 0)
    ensures multiset(s.zombie)[t] == (if s.th[t].state == Zombie then 1 else 0)
    ensures forall m | m in s.mx ::
              multiset(s.mx[m].pending)[t] == if s.th[t].state == Blocked && s.th[t].wait == OnMutex(m) then 1 else 0
    ensures forall b | b in s.bl ::
              multiset(s.bl[b])[t] == if s.th[t].state == Blocked && s.th[t].wait == OnBlocker(b) then 1 else 0
    ensures s.th[t].state == Blocked ==> Parked(s, t)
  {
    CorePlaced(s);
    hide Core;
    CountOnce(s.ready, t); CountOnce(s.running, t); CountOnce(s.zombie, t);
    forall m | m in s.mx
      ensures multiset(s.mx[m].pending)[t] == if s.th[t].state == Blocked && s.th[t].wait == OnMutex(m) then 1 else 0
    {
      assert WaitList(s.mx[m].pending, s.th, OnMutex(m), None);
      CountOnce(s.mx[m].pending, t);
    }
    forall b | b in s.bl
      ensures multiset(s.bl[b])[t] == if s.th[t].state == Blocked && s.th[t].wait == OnBlocker(b) then 1 else 0
    {
      assert WaitList(s.bl[b], s.th, OnBlocker(b), None);
      CountOnce(s.bl[b], t);
    }
  }

  lemma {:induction false} CountOnce(l: seq<Tid>, t: Tid)
    requires NoDup(l)
    ensures multiset(l)[t] == if t in l then 1 else 0
  {
    if l != [] {
      CountOnce(l[1..], t);
      assert l == [l[0]] + l[1..];
      assert l[0] !in l[1..];
    }
  }

  /** A mutex is owned exactly when it is locked, and whoever waits for it waits for somebody else. */
  lemma WaitersWaitForAnother(s: Sys, m: Mid, t: Tid)
    requires Inv(s) && m in s.mx && t in s.mx[m].pending
    ensures s.mx[m].owner.Some? && s.mx[m].owner != Some(t) && s.mx[m].count > 0
  {
    assert MutexOk(s.mx[m], s.th);
  }

  // --------------------------------------------------------- join safety

  /** A thread gets past joining another exactly when that other one is a zombie. */
  lemma JoinSafety(s: Sys, c: Tid, u: Tid)
    requires Executing(s, c) && u in s.th && u != c
    ensures ExecJoin(s, c, u).current == Some(c) <==> s.th[u].state == Zombie
  {
    CoreKnows(s);
    assert JoinOk(s, u);
    hide Core;
    if Granted(s, JoinOf(u), c) { ExecJoinGranted(s, c, u); }
  }

  // ------------------------------------------- what others can do to you

  /** From `i` to `j`, a thread that is not executing is left alone, is woken at the same instruction
      by a mutex, is resumed two words back by a blocker, or is killed off a list. */
  ghost predicate Bystander(i: TInfo, j: TInfo) {
    && j.depth == i.depth && j.pendingLock == i.pendingLock && j.critical == i.critical && j.wait == i.wait
    && (|| (j.state == i.state && j.ip == i.ip)
        || (i.state == Blocked && i.wait.OnMutex? && j.state == Ready && j.ip == i.ip)
        || (i.state == Blocked && i.wait.OnBlocker? && j.state == Ready && j.ip == i.ip - 2)
        || (i.state != Blocked && j.state == Zombie && j.ip == i.ip))
  }

  ghost predicate Bystanders(s: Sys, s': Sys, c: Tid) {
    forall t | t in s.th && t != c :: t in s'.th && Bystander(s.th[t], s'.th[t])
  }

  lemma LockBystanders(s: Sys, c: Tid, m: Mid)
    requires c in s.th && m in s.mx
    ensures Bystanders(s, MutexLock(s, m, c), c)
  {
  }

  lemma ExecLockBystanders(s: Sys, c: Tid, m: Mid)
    requires Executing(s, c) && m in s.mx && s.th[c].pendingLock in {None, Some(m)}
    ensures Bystanders(s, ExecLock(s, c, m), c)
  {
    hide Core;
    LockBystanders(TakeOperand(s, c, m), c, m);
  }

  lemma ExecJoinBystanders(s: Sys, c: Tid, u: Tid)
    requires Executing(s, c) && u in s.th
    ensures Bystanders(s, ExecJoin(s, c, u), c)
  {
    hide Core, ExecJoin, MutexLock, Bystanders;
    JoinKnown(s, u);
    var s1 := TakeOperand(s, c, JoinOf(u));
    if Granted(s, JoinOf(u), c) {
      ExecJoinGranted(s, c, u);
      OnlyItself(s, DropOperand(s1, c), c);
    } else {
      ExecJoinRefused(s, c, u);
      LockBystanders(s1, c, JoinOf(u));
      BystandersAfter(s, s1, MutexLock(s1, JoinOf(u), c), c);
    }
  }

  lemma OnlyItself(s: Sys, s': Sys, c: Tid)
    requires forall t | t in s.th && t != c :: t in s'.th && s'.th[t] == s.th[t]
    ensures Bystanders(s, s', c)
  {
  }

  lemma BystandersAfter(s: Sys, s1: Sys, s': Sys, c: Tid)
    requires forall t | t in s.th && t != c :: t in s1.th && s1.th[t] == s.th[t]
    requires Bystanders(s1, s', c)
    ensures Bystanders(s, s', c)
  {
  }

  /** Everybody on a waiting list is blocked on it. */
  lemma WaitersBlocked(s: Sys, m: Mid)
    requires Core(s) && m in s.mx
    ensures forall p | p in s.mx[m].pending :: p in s.th && s.th[p].state == Blocked && s.th[p].wait == OnMutex(m)
  {
    CorePlaced(s);
    assert WaitList(s.mx[m].pending, s.th, OnMutex(m), None);
  }

  lemma SuspendedBlocked(s: Sys, b: Bid)
    requires Core(s) && b in s.bl
    ensures forall p | p in s.bl[b] :: p in s.th && s.th[p].state == Blocked && s.th[p].wait == OnBlocker(b)
  {
    CorePlaced(s);
    assert WaitList(s.bl[b], s.th, OnBlocker(b), None);
  }

  lemma UnlockedBystanders(s: Sys, s': Sys, m: Mid, c: Tid)
    requires m in s.mx && c in s.th && Unlocked(s, s', m, c)
    requires forall p | p in s.mx[m].pending :: p in s.th && s.th[p].state == Blocked && s.th[p].wait == OnMutex(m)
    ensures Bystanders(s, s', c)
  {
  }

  /** The join mutex of a killed thread wakes only threads that were blocked on it. */
  lemma KillBystanders(s: Sys, u: Tid, c: Tid)
    requires Core(s) && Killable(s, u)
    ensures Bystanders(s, ExecKill(s, u), c)
  {
    hide Core, Placed, SetState, KillThread, Unlocked, MutexOk, Bystanders;
    OwnJoin(s, u);
    WaitersBlocked(s, JoinOf(u));
    KillPlaced(s, u);
    KillFacts(s, u);
    ZombieInfo(s, u);
    KilledBystanders(s, SetState(Retired(s, u), u, Zombie), KillThread(s, u), u, c);
  }

  lemma ZombieInfo(s: Sys, u: Tid)
    requires u in s.th
    ensures var s1 := SetState(Retired(s, u), u, Zombie);
            s1.mx == s.mx && u in s1.th && s1.th[u] == s.th[u].(state := Zombie)
  {
  }

  lemma KilledBystanders(s: Sys, s1: Sys, s': Sys, u: Tid, c: Tid)
    requires u in s.th && s.th[u].state != Blocked && JoinOf(u) in s1.mx
    requires s1.mx == s.mx && OnlyState(s.th, s1.th, u) && s1.th[u] == s.th[u].(state := Zombie)
    requires Unlocked(s1, s'.(mode := s.mode), JoinOf(u), u)
    requires forall p | p in s1.mx[JoinOf(u)].pending :: p in s.th && s.th[p].state == Blocked && s.th[p].wait == OnMutex(JoinOf(u)) && p != u
    ensures Bystanders(s, s', c)
  {
  }

  lemma ExecKillBystanders(s: Sys, c: Tid, u: Tid)
    requires Executing(s, c) && Killable(s, u)
    ensures Bystanders(s, ExecKillOp(s, c, u), c)
  {
    hide Core, Bystanders, ExecKill;
    ShiftExecuting(s, c, -1);
    KillBystanders(Shift(s, c, -1), u, c);
    BystandersAfter(s, Shift(s, c, -1), ExecKillOp(s, c, u), c);
  }

  lemma FailBystanders(s: Sys, c: Tid)
    requires Executing(s, c)
    ensures Bystanders(s, Fail(s, c), c)
  {
    hide Core;
    SetCurrentCore(s, None);
    KillBystanders(s.(current := None), c, c);
  }

  lemma ExecUnlockBystanders(s: Sys, c: Tid, m: Mid)
    requires Executing(s, c) && m in s.mx && m.Managed?
    ensures Bystanders(s, ExecUnlock(s, c, m), c)
  {
    hide Core, Unlocked;
    if s.mx[m].owner != Some(c) {
      FailBystanders(s, c);
    } else {
      var s1 := Shift(s, c, -1);
      ShiftKept(s, c, -1);
      WaitersBlocked(s1, m);
      UnlockCore(s1, m, c);
      UnlockedBystanders(s1, MutexUnlock(s1, m, c), m, c);
    }
  }

  lemma ExecResumeBystanders(s: Sys, c: Tid, b: Bid)
    requires Core(s) && b in s.bl
    ensures Bystanders(s, ExecResume(s, b), c)
  {
    hide Core, BlockerResume, Resumed, Bystanders;
    CoreKnows(s);
    SuspendedBlocked(s, b);
    ResumeFacts(s, b);
    ResumedBystanders(s, ExecResume(s, b), c, b);
  }

  lemma ResumedBystanders(s: Sys, s': Sys, c: Tid, b: Bid)
    requires b in s.bl && Resumed(s, s', s.bl[b])
    requires forall p | p in s.bl[b] :: p in s.th && s.th[p].state == Blocked && s.th[p].wait == OnBlocker(b)
    ensures Bystanders(s, s', c)
  {
    forall t | t in s.th && t != c ensures t in s'.th && Bystander(s.th[t], s'.th[t]) {
      assert t in s.bl[b] || t !in s.bl[b];
    }
  }

  lemma AddBystanders(s: Sys, c: Tid, u: Tid, ip: int)
    requires Startable(s, u)
    ensures Bystanders(s, AddThread(s, u, ip), c)
  {
  }

  lemma SuspendBystanders(s: Sys, c: Tid, b: Bid)
    requires c in s.th && b in s.bl
    ensures Bystanders(s, BlockerSuspend(s, b, c), c)
  {
  }

  lemma ExecCriticalBystanders(s: Sys, c: Tid, enter: bool)
    requires Executing(s, c)
    ensures Bystanders(s, ExecCritical(s, c, enter), c)
  {
    hide Core;
    if s.th[c].critical == enter { FailBystanders(s, c); }
  }

  lemma SetStateBystanders(s: Sys, c: Tid, st: ThreadState)
    requires c in s.th
    ensures Bystanders(s, SetState(s, c, st), c)
  {
  }

  lemma ExecBystanders(s: Sys, c: Tid, op: Op)
    requires Executing(s, c) && OpOk(s, c, op)
    ensures Bystanders(s, Exec(s, c, op), c)
  {
    hide Core, Bystanders, ExecLock, ExecJoin, ExecUnlock, ExecKillOp, ExecCritical, ExecResume, AddThread, BlockerSuspend, MutexLock, SetState;
    match op {
      case LockMtx(m) =>
        assert s.th[c].pendingLock == None || s.th[c].pendingLock == Some(m);
        ExecLockBystanders(s, c, m);
      case LockMem(m) => LockBystanders(s, c, m);
      case UnlockMtx(m) => ExecUnlockBystanders(s, c, m);
      case Join(u) => ExecJoinBystanders(s, c, u);
      case Spawn(u, ip) => AddBystanders(s, c, u, ip);
      case Kill(u) => ExecKillBystanders(s, c, u);
      case CritBegin => ExecCriticalBystanders(s, c, true);
      case CritEnd => ExecCriticalBystanders(s, c, false);
      case Suspend(b) => SuspendBystanders(s, c, b);
      case Resume(b) => ExecResumeBystanders(s, c, b);
      case Exit => SetStateBystanders(s, c, Dying);
      case _ => SimpleBystanders(s, c, op);
    }
  }

  lemma SimpleBystanders(s: Sys, c: Tid, op: Op)
    requires Executing(s, c) && OpOk(s, c, op)
    requires op.Plain? || op.NewMutex? || op.NewBlocker? || op.Yield? || op.SetTimeslice?
    ensures Bystanders(s, Exec(s, c, op), c)
  {
    hide Core;
    if op.Yield? { SetStateBystanders(Touch(s, c, s.th[c].(ip := s.th[c].ip + 2)), c, Ready); }
  }

  /** Nothing happens to others but being woken by a mutex. */
  ghost predicate OnlyWakes(s: Sys, s': Sys, c: Tid) {
    forall t | t in s.th && t != c :: t in s'.th
      && (|| s'.th[t] == s.th[t]
          || (s.th[t].state == Blocked && s.th[t].wait.OnMutex? && s'.th[t] == s.th[t].(state := Ready, stamp := s'.th[t].stamp)))
  }

  lemma BystandersTrans(s: Sys, s1: Sys, s2: Sys, c: Tid)
    requires Bystanders(s, s1, c) && OnlyWakes(s1, s2, c)
    ensures Bystanders(s, s2, c)
  {
  }

  lemma AdvanceBystanders(s: Sys, c: Tid, next: Next)
    requires c in s.th
    ensures OnlyWakes(s, Advance(s, c, next), c)
  {
  }

  lemma KilledOnlyWakes(s: Sys, s': Sys, c: Tid)
    requires Killed(s, s', c) && Bystanders(s, s', c)
    ensures OnlyWakes(s, s', c)
  {
  }

  lemma BuryBystanders(s: Sys, c: Tid)
    requires Core(s) && c in s.th
    ensures OnlyWakes(s, Bury(s, c), c)
  {
    hide Core, OnlyWakes, Killed, Bystanders;
    if s.current.Some? && s.th[c].state == Dying {
      KillBystanders(s, c, c);
      ExecKillKept(s, c);
      KilledOnlyWakes(s, ExecKill(s, c), c);
    } else {
      Unchanged(s, c);
    }
  }

  lemma Unchanged(s: Sys, c: Tid)
    ensures OnlyWakes(s, s, c)
  {
  }

  lemma CycleBystanders(s: Sys, c: Tid, op: Op, next: Next)
    requires Executing(s, c) && Settled(s) && OpOk(s, c, op) && (op.Suspend? ==> !Ends(s.th[c].ip, next))
    ensures Bystanders(s, CycleOf(s, c, op, next), c)
  {
    hide Core, Bystanders, OnlyWakes, Exec, Advance, Bury, OpOk;
    ExecExecuted(s, c, op, next);
    var s1 := Exec(s, c, op);
    AdvanceExecuted(s1, c, next);
    ExecBystanders(s, c, op);
    AdvanceBystanders(s1, c, next);
    BystandersTrans(s, s1, Advance(s1, c, next), c);
    BuryBystanders(Advance(s1, c, next), c);
    BystandersTrans(s, Advance(s1, c, next), Bury(Advance(s1, c, next), c), c);
  }

  /** The thread an event executes, if any. */
  ghost function Executed1(s: Sys, e: Event): Option<Tid>
    requires Inv(s)
  {
    if e.Cycle? then Dispatch(s).current else None
  }

  /** Each event is enabled when it happens. */
  ghost predicate EnabledRun(s: Sys, es: seq<Event>)
    requires Inv(s)
    decreases |es|
  {
    es == [] || (Enabled(s, es[0]) && EnabledRun(Step(s, es[0]), es[1..]))
  }

  /** The thread executed by event number `i` of a run, if any. */
  ghost function ExecutedAt(s: Sys, es: seq<Event>, i: nat): Option<Tid>
    requires Inv(s) && EnabledRun(s, es) && i < |es|
    decreases |es|
  {
    if i == 0 then Executed1(s, es[0]) else ExecutedAt(Step(s, es[0]), es[1..], i - 1)
  }

  /** Between two states, only thread `c` was chosen: it runs, with some slice; nothing else changed. */
  ghost predicate Chosen(s: Sys, s1: Sys) {
    && s1.mx == s.mx && s1.bl == s.bl && s1.th.Keys == s.th.Keys
    && (forall t | t in s.th :: Some(t) != s1.current ==> s1.th[t] == s.th[t])
    && (s1.current.Some? ==> s1.current.value in s.th && s.th[s1.current.value].state in {Ready, Running})
    && (s1.current.Some? && s1.current.value in s.th ==>
          s1.th[s1.current.value] == s.th[s1.current.value].(state := Running, remaining := s1.th[s1.current.value].remaining))
  }

  lemma ScheduleOthers(s: Sys)
    requires s.current.Some? ==> s.current.value in s.th
    requires forall t | t in s.ready :: t in s.th && s.th[t].state == Ready
    requires forall t | t in s.running :: t in s.th && s.th[t].state == Running
    requires Schedule(s).current.Some? ==> Schedule(s).current.value in s.th ==> Schedule(s).th[Schedule(s).current.value].state == Running
    ensures Chosen(s, Schedule(s))
  {
    ScheduleShape(s);
    hide Schedule, Pick;
  }

  /** Choosing a thread changes no other thread. */
  lemma DispatchChosen(s: Sys)
    requires Inv(s)
    ensures Chosen(s, Dispatch(s))
  {
    hide Core, Settled, Schedule, Chosen;
    CoreKnows(s);
    ScheduleKept(s);
    ScheduleOthers(s);
    var s1 := Schedule(s);
    if s1.current.Some? { SliceChosen(s, s1, s1.th[s1.current.value].remaining - 1); }
  }

  lemma SliceChosen(s: Sys, s1: Sys, n: int)
    requires Chosen(s, s1) && s1.current.Some? && s1.current.value in s1.th
    ensures Chosen(s, SetRemaining(s1, s1.current.value, n))
  {
  }

  /** Every event treats every thread it does not execute as a bystander. */
  lemma StepBystander(s: Sys, e: Event, t: Tid)
    requires Inv(s) && Enabled(s, e) && t in s.th && Executed1(s, e) != Some(t)
    ensures t in Step(s, e).th && Bystander(s.th[t], Step(s, e).th[t])
  {
    hide Core, Settled;
    match e
    case Cycle(op, next) =>
      DispatchChosen(s);
      var s1 := Dispatch(s);
      if s1.current.Some? {
        CycleBystanders(s1, s1.current.value, op, next);
      }
    case Start(u, ip) => AddBystanders(s, u, u, ip);
    case Arrive(b) => var c := Tid(t.id + 1, t.prio); ExecResumeBystanders(s, c, b);
  }

  // -------------------------------------------------- suspend and resume

  /** `t` is suspended on `b` by the instruction at `ip`, one instruction behind its pointer. */
  ghost predicate Suspended(s: Sys, t: Tid, b: Bid, ip: int) {
    t in s.th && s.th[t].state == Blocked && s.th[t].wait == OnBlocker(b) && s.th[t].ip == ip + 2
  }

  lemma SuspendHops(s: Sys, c: Tid, b: Bid)
    requires Executing(s, c) && Settled(s) && OpOk(s, c, Suspend(b)) && !Ends(s.th[c].ip, Hop)
    ensures Suspended(CycleOf(s, c, Suspend(b), Hop), c, b, s.th[c].ip)
  {
    hide Core, Settled;
  }

  lemma SuspendedNow(s: Sys, c: Tid, t: Tid, b: Bid)
    requires Executing(s, c) && t in s.th && s.th[t].state != Blocked && s.th[t].state != Zombie && b in s.bl
    ensures var s1 := BlockerSuspend(s, b, t);
            && c in s1.th && t in s1.th && s1.th[c].ip == s.th[c].ip && s1.th[t].ip == s.th[t].ip
            && b in s1.bl && s1.bl[b] == s.bl[b] + [t] && s1.current == Some(c) && s1.th[t].state == Blocked
  {
    hide Core;
  }

  lemma HopOnly(s: Sys, c: Tid)
    requires c in s.th && s.current == Some(c) && !Ends(s.th[c].ip, Hop)
    ensures Advance(s, c, Hop) == Touch(s, c, s.th[c].(ip := s.th[c].ip + 2))
  {
  }

  /** `c` suspends `t`, moves on, and later `t` is resumed: it is then at the address where it was when it was
      suspended if and only if it suspended itself. Any other thread is one instruction short of it. */
  lemma OwnerReturnsIff(s: Sys, c: Tid, t: Tid, b: Bid)
    requires Executing(s, c) && t in s.th && s.th[t].state != Blocked && s.th[t].state != Zombie
    requires b in s.bl && !Ends(s.th[c].ip, Hop)
    ensures var s1 := BlockerSuspend(s, b, t); c in s1.th
    ensures var s2 := Advance(BlockerSuspend(s, b, t), c, Hop); Core(s2) && b in s2.bl
    ensures var s3 := ExecResume(Advance(BlockerSuspend(s, b, t), c, Hop), b);
            && t in s3.th && s3.th[t].state == Ready
            && s3.th[t].ip == (if t == c then s.th[t].ip else s.th[t].ip - 2)
  {
    hide Core, BlockerSuspend, Advance, BlockerResume;
    SuspendCore(s, b, t);
    SuspendedNow(s, c, t, b);
    var s1 := BlockerSuspend(s, b, t);
    HopOnly(s1, c);
    TouchCore(s1, c, s1.th[c].(ip := s1.th[c].ip + 2));
    var s2 := Advance(s1, c, Hop);
    CoreKnows(s2);
    ResumeFacts(s2, b);
    assert s2.bl[b][|s.bl[b]|] == t;
  }

  /** A suspended thread stays suspended until it is resumed, and is then at its own instruction again. */
  lemma SuspendedStep(s: Sys, e: Event, t: Tid, b: Bid, ip: int)
    requires Inv(s) && Enabled(s, e) && Suspended(s, t, b, ip)
    ensures var s' := Step(s, e); Suspended(s', t, b, ip) || (t in s'.th && s'.th[t].state == Ready && s'.th[t].ip == ip)
  {
    hide Inv, Enabled, Step, Executed1;
    if Executed1(s, e) == Some(t) { ExecutedAwake(s, e, t); }
    StepBystander(s, e, t);
  }

  /** In the course of the run, `t` becomes ready at instruction `ip`. */
  ghost predicate WakesAt(s: Sys, es: seq<Event>, t: Tid, ip: int)
    requires Inv(s)
    decreases |es|
  {
    es != [] && Enabled(s, es[0])
    && ((t in Step(s, es[0]).th && Step(s, es[0]).th[t].state == Ready && Step(s, es[0]).th[t].ip == ip)
        || WakesAt(Step(s, es[0]), es[1..], t, ip))
  }

  /** Over any run, a suspended thread stays where it is or is resumed at the instruction that suspended it. */
  lemma {:induction false} SuspendedRun(s: Sys, es: seq<Event>, s': Sys, t: Tid, b: Bid, ip: int)
    requires Inv(s) && Runs(s, es, s') && Suspended(s, t, b, ip)
    ensures Suspended(s', t, b, ip) || WakesAt(s, es, t, ip)
    decreases |es|
  {
    hide Suspended, Core, Settled, Step, Enabled;
    if es != [] {
      SuspendedStep(s, es[0], t, b, ip);
      if Suspended(Step(s, es[0]), t, b, ip) { SuspendedRun(Step(s, es[0]), es[1..], s', t, b, ip); }
    }
  }

  /** Only a thread that was ready or running is executed. */
  lemma ExecutedAwake(s: Sys, e: Event, t: Tid)
    requires Inv(s) && t in s.th && Executed1(s, e) == Some(t)
    ensures s.th[t].state in {Ready, Running}
  {
    hide Inv, Dispatch;
    DispatchChosen(s);
  }
}
