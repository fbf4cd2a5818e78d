/** Mutual exclusion counted over runs, preemption on unlock, and when a kill is safe. */
module SchedLaws {
  import opened Options
  import opened SchedModel
  import opened SchedInv
  import opened SchedRun
  import opened SchedTheorems

  // ------------------------------------------------- the lock ledger

  /** How many times `t` holds `m`. */
  function Hold(s: Sys, t: Tid, m: Mid): int {
    if m in s.mx && s.mx[m].owner == Some(t) then s.mx[m].count else 0
  }

  ghost predicate Locks(op: Op, m: Mid) {
    op == LockMtx(m) || op == LockMem(m)
  }

  /** What an instruction of `c` adds to the locks of `m` held by `t`: one for a lock that is granted,
      minus one for an unlock of a mutex it owns. */
  ghost function GainOf(s: Sys, c: Tid, op: Op, t: Tid, m: Mid): int {
    if c != t || m !in s.mx then 0
    else if Locks(op, m) && Granted(s, m, t) then 1
    else if op == UnlockMtx(m) && s.mx[m].owner == Some(t) then -1
    else 0
  }

  ghost function Gain(s: Sys, e: Event, t: Tid, m: Mid): int
    requires Inv(s)
  {
    var s1 := Dispatch(s);
    if e.Cycle? && s1.current.Some? then GainOf(s1, s1.current.value, e.op, t, m) else 0
  }

  /** Ownership and count of `m` are as before. */
  ghost predicate SameHold(s: Sys, s': Sys, m: Mid) {
    if m in s.mx then m in s'.mx && s'.mx[m].owner == s.mx[m].owner && s'.mx[m].count == s.mx[m].count
    else m in s'.mx ==> s'.mx[m] == FreeMutex
  }

  lemma LockElsewhere(s: Sys, c: Tid, l: Mid, m: Mid)
    requires c in s.th && l in s.mx && (l != m || !Granted(s, l, c))
    ensures SameHold(s, MutexLock(s, l, c), m)
  {
  }

  lemma KilledSameHold(s: Sys, s': Sys, u: Tid, m: Mid)
    requires Killed(s, s', u) && m.Managed?
    ensures SameHold(s, s', m)
  {
  }

  lemma KillSameHold(s: Sys, u: Tid, m: Mid)
    requires Core(s) && Killable(s, u) && m.Managed?
    ensures SameHold(s, ExecKill(s, u), m)
  {
    hide Core, SameHold, Killed;
    ExecKillKept(s, u);
    KilledSameHold(s, ExecKill(s, u), u, m);
  }

  lemma KillOpSameHold(s: Sys, c: Tid, u: Tid, m: Mid)
    requires Executing(s, c) && Killable(s, u) && m.Managed?
    ensures SameHold(s, ExecKillOp(s, c, u), m)
  {
    hide Core, ExecKill;
    ShiftExecuting(s, c, -1);
    KillSameHold(Shift(s, c, -1), u, m);
  }

  lemma FailSameHold(s: Sys, c: Tid, m: Mid)
    requires Executing(s, c) && m.Managed?
    ensures SameHold(s, Fail(s, c), m)
  {
    hide Core;
    SetCurrentCore(s, None);
    KillSameHold(s.(current := None), c, m);
    hide KillThread;
  }

  lemma AddSameHold(s: Sys, u: Tid, ip: int, m: Mid)
    requires m.Managed?
    ensures SameHold(s, AddThread(s, u, ip), m)
  {
  }

  lemma ResumeSameHold(s: Sys, b: Bid, m: Mid)
    requires Core(s) && b in s.bl
    ensures SameHold(s, ExecResume(s, b), m)
  {
    CoreKnows(s);
    hide Core;
    ResumeFacts(s, b);
    hide BlockerResume;
  }

  lemma UnlockHold(s: Sys, c: Tid, l: Mid, m: Mid)
    requires Executing(s, c) && l in s.mx && l.Managed? && m.Managed?
    ensures l != m || s.mx[l].owner != Some(c) ==> SameHold(s, ExecUnlock(s, c, l), m)
    ensures l == m && s.mx[l].owner == Some(c) ==>
              var s' := ExecUnlock(s, c, m);
              m in s'.mx && s'.mx[m].count == s.mx[m].count - 1
              && s'.mx[m].owner == (if s.mx[m].count == 1 then None else Some(c))
  {
    hide Core;
    if s.mx[l].owner != Some(c) {
      FailSameHold(s, c, m);
    } else {
      var s1 := Shift(s, c, -1);
      ShiftKept(s, c, -1);
      CoreKnows(s1);
      UnlockCore(s1, l, c);
      assert MutexOk(s1.mx[l], s1.th);
      hide MutexUnlock;
    }
  }

  /** The thread's own instruction changes its hold on `m` by exactly its gain, and nobody else's. */
  lemma ExecHold(s: Sys, c: Tid, op: Op, m: Mid)
    requires Executing(s, c) && OpOk(s, c, op) && m.Managed?
    requires !Locks(op, m) && op != UnlockMtx(m)
    ensures SameHold(s, Exec(s, c, op), m)
  {
    hide Core, SameHold, ExecUnlock, ExecKillOp, ExecCritical, ExecResume, AddThread, BlockerSuspend, MutexLock, SetState;
    match op {
      case LockMtx(l) =>
        assert s.th[c].pendingLock == None || s.th[c].pendingLock == Some(l);
        TryElsewhere(s, c, l, m);
      case LockMem(l) => LockElsewhere(s, c, l, m);
      case UnlockMtx(l) => UnlockHold(s, c, l, m);
      case Join(u) => JoinSameHold(s, c, u, m);
      case Spawn(u, ip) => AddSameHold(s, u, ip, m);
      case Kill(u) => KillOpSameHold(s, c, u, m);
      case CritBegin => CriticalSameHold(s, c, true, m);
      case CritEnd => CriticalSameHold(s, c, false, m);
      case Resume(b) => ResumeSameHold(s, b, m);
      case _ => SimpleSameHold(s, c, op, m);
    }
  }

  lemma TryElsewhere(s: Sys, c: Tid, l: Mid, m: Mid)
    requires Executing(s, c) && l in s.mx && s.th[c].pendingLock in {None, Some(l)} && l != m
    ensures SameHold(s, ExecLock(s, c, l), m)
  {
    hide Core;
  }

  lemma JoinSameHold(s: Sys, c: Tid, u: Tid, m: Mid)
    requires Executing(s, c) && u in s.th && m.Managed?
    ensures SameHold(s, ExecJoin(s, c, u), m)
  {
    assert JoinOf(u) in s.mx by { CoreKnows(s); assert JoinOk(s, u); }
    hide Core;
    if Granted(s, JoinOf(u), c) { ExecJoinGranted(s, c, u); }
    else { LockElsewhere(TakeOperand(s, c, JoinOf(u)), c, JoinOf(u), m); }
  }

  lemma CriticalSameHold(s: Sys, c: Tid, enter: bool, m: Mid)
    requires Executing(s, c) && m.Managed?
    ensures SameHold(s, ExecCritical(s, c, enter), m)
  {
    hide Core;
    if s.th[c].critical == enter { FailSameHold(s, c, m); }
  }

  lemma SimpleSameHold(s: Sys, c: Tid, op: Op, m: Mid)
    requires Executing(s, c) && OpOk(s, c, op)
    requires op.Plain? || op.NewMutex? || op.NewBlocker? || op.Yield? || op.SetTimeslice? || op.Suspend? || op.Exit?
    ensures SameHold(s, Exec(s, c, op), m)
  {
    hide Core;
  }

  lemma LockHold(s: Sys, c: Tid, op: Op, m: Mid)
    requires Executing(s, c) && OpOk(s, c, op) && Locks(op, m)
    ensures m in s.mx
    ensures !Granted(s, m, c) ==> SameHold(s, Exec(s, c, op), m)
    ensures Granted(s, m, c) ==>
              m in Exec(s, c, op).mx && Exec(s, c, op).mx[m].owner == Some(c) && Exec(s, c, op).mx[m].count == s.mx[m].count + 1
  {
    hide Core;
    if op.LockMtx? { assert s.th[c].pendingLock == None || s.th[c].pendingLock == Some(m); }
    var s1 := TakeOperand(s, c, m);
    if !Granted(s, m, c) { LockElsewhere(s1, c, m, m); LockElsewhere(s, c, m, m); }
  }

  lemma BurySameHold(s: Sys, c: Tid, next: Next, m: Mid)
    requires Core(s) && c in s.th && m.Managed?
    ensures SameHold(s, Bury(s, c), m)
  {
    hide Core;
    if s.current.Some? && s.th[c].state == Dying { KillSameHold(s, c, m); }
  }

  lemma AdvanceSameMx(s: Sys, c: Tid, next: Next)
    requires c in s.th
    ensures Advance(s, c, next).mx == s.mx
  {
  }

  /** The rest of the cycle after the instruction changes no hold. */
  lemma CycleSameHold(s: Sys, c: Tid, op: Op, next: Next, m: Mid)
    requires Executing(s, c) && Settled(s) && OpOk(s, c, op) && (op.Suspend? ==> !Ends(s.th[c].ip, next)) && m.Managed?
    ensures SameHold(Exec(s, c, op), CycleOf(s, c, op, next), m)
  {
    hide Core, Settled, Exec, OpOk, Advance, Bury;
    ExecExecuted(s, c, op, next);
    var s1 := Exec(s, c, op);
    AdvanceExecuted(s1, c, next);
    AdvanceSameMx(s1, c, next);
    BurySameHold(Advance(s1, c, next), c, next, m);
  }

  /** Every event changes every thread's hold on a managed mutex by exactly its gain. */
  lemma StepHold(s: Sys, e: Event, t: Tid, m: Mid)
    requires Inv(s) && Enabled(s, e) && m.Managed?
    ensures Hold(Step(s, e), t, m) == Hold(s, t, m) + Gain(s, e, t, m)
  {
    hide Core, Settled, Dispatch, CycleOf, GainOf, Hold, SameHold;
    match e
    case Cycle(op, next) =>
      DispatchSameHold(s, t, m);
      var s1 := Dispatch(s);
      if s1.current.Some? { CycleHold(s1, s1.current.value, op, next, t, m); }
    case Start(u, ip) =>
      AddSameHold(s, u, ip, m);
      SameHoldHold(s, AddThread(s, u, ip), t, m);
    case Arrive(b) =>
      ResumeSameHold(s, b, m);
      SameHoldHold(s, ExecResume(s, b), t, m);
  }

  lemma DispatchSameHold(s: Sys, t: Tid, m: Mid)
    requires Inv(s)
    ensures Hold(Dispatch(s), t, m) == Hold(s, t, m)
  {
    DispatchChosen(s);
    hide Core, Dispatch;
  }

  lemma SameHoldHold(s: Sys, s': Sys, t: Tid, m: Mid)
    requires SameHold(s, s', m)
    ensures Hold(s', t, m) == Hold(s, t, m)
  {
  }

  lemma CycleHold(s: Sys, c: Tid, op: Op, next: Next, t: Tid, m: Mid)
    requires Executing(s, c) && Settled(s) && OpOk(s, c, op) && (op.Suspend? ==> !Ends(s.th[c].ip, next)) && m.Managed?
    ensures Hold(CycleOf(s, c, op, next), t, m) == Hold(s, t, m) + GainOf(s, c, op, t, m)
  {
    hide Core, Settled, CycleOf, Exec, SameHold, Hold, GainOf, OpOk;
    CycleSameHold(s, c, op, next, m);
    SameHoldHold(Exec(s, c, op), CycleOf(s, c, op, next), t, m);
    if Locks(op, m) {
      LockGain(s, c, op, t, m);
    } else if op == UnlockMtx(m) {
      UnlockGain(s, c, t, m);
    } else {
      ExecHold(s, c, op, m);
      SameHoldHold(s, Exec(s, c, op), t, m);
      assert GainOf(s, c, op, t, m) == 0 by { NoGain(s, c, op, t, m); }
    }
  }

  lemma NoGain(s: Sys, c: Tid, op: Op, t: Tid, m: Mid)
    requires !Locks(op, m) && op != UnlockMtx(m)
    ensures GainOf(s, c, op, t, m) == 0
  {
  }

  lemma LockGain(s: Sys, c: Tid, op: Op, t: Tid, m: Mid)
    requires Executing(s, c) && OpOk(s, c, op) && Locks(op, m)
    ensures Hold(Exec(s, c, op), t, m) == Hold(s, t, m) + GainOf(s, c, op, t, m)
  {
    assert m in s.mx ==> MutexOk(s.mx[m], s.th);
    hide Core;
    LockHold(s, c, op, m);
    hide Exec, OpOk;
  }

  lemma UnlockGain(s: Sys, c: Tid, t: Tid, m: Mid)
    requires Executing(s, c) && OpOk(s, c, UnlockMtx(m))
    ensures Hold(Exec(s, c, UnlockMtx(m)), t, m) == Hold(s, t, m) + GainOf(s, c, UnlockMtx(m), t, m)
  {
    hide Core, Exec, ExecUnlock;
    MutexKnown(s, m);
    UnlockHold(s, c, m, m);
    ExecIsUnlock(s, c, m);
  }

  lemma MutexKnown(s: Sys, m: Mid)
    requires Core(s) && m in s.mx
    ensures MutexOk(s.mx[m], s.th)
  {
  }

  lemma ExecIsUnlock(s: Sys, c: Tid, m: Mid)
    requires Executing(s, c) && OpOk(s, c, UnlockMtx(m))
    ensures Exec(s, c, UnlockMtx(m)) == ExecUnlock(s, c, m)
  {
  }

  /** Locks granted to `t` on `m` minus unlocks by `t` of `m`, over the run. */
  ghost function Outstanding(s: Sys, es: seq<Event>, t: Tid, m: Mid): int
    requires Inv(s)
    decreases |es|
  {
    if es == [] || !Enabled(s, es[0]) then 0
    else Gain(s, es[0], t, m) + Outstanding(Step(s, es[0]), es[1..], t, m)
  }

  /** After any run from boot, the lock count of a managed mutex is its owner's number of outstanding
      locks, and nobody else has any. */
  lemma LedgerBalances(es: seq<Event>, s: Sys, t: Tid, m: Mid)
    requires FromBoot(es, s) && m.Managed?
    ensures Outstanding(Boot, es, t, m) == if m in s.mx && s.mx[m].owner == Some(t) then s.mx[m].count else 0
  {
    RunHold(Boot, es, s, t, m);
  }

  lemma {:induction false} RunHold(s: Sys, es: seq<Event>, s': Sys, t: Tid, m: Mid)
    requires Inv(s) && Runs(s, es, s') && m.Managed?
    ensures Hold(s', t, m) == Hold(s, t, m) + Outstanding(s, es, t, m)
    decreases |es|
  {
    if es != [] {
      StepHold(s, es[0], t, m);
      RunHold(Step(s, es[0]), es[1..], s', t, m);
    }
  }

  /** Mutual exclusion: over any run from boot, two threads never both have outstanding locks on a mutex. */
  lemma MutualExclusion(es: seq<Event>, s: Sys, t: Tid, u: Tid, m: Mid)
    requires FromBoot(es, s) && m.Managed?
    requires Outstanding(Boot, es, t, m) > 0 && Outstanding(Boot, es, u, m) > 0
    ensures t == u
  {
    LedgerBalances(es, s, t, m);
    LedgerBalances(es, s, u, m);
  }

  // ------------------------------------------------- preemption on unlock

  /** A thread outside critical sections with no slice left, or no current thread at all. */
  ghost predicate UpForChoice(s: Sys, c: Tid) {
    s.current == None || (s.current == Some(c) && c in s.th && s.th[c].remaining <= 0 && !s.th[c].critical)
  }

  lemma ReleaseOutcome(s: Sys, c: Tid, m: Mid, w: Tid)
    requires Executing(s, c) && OpOk(s, c, UnlockMtx(m)) && !s.th[c].critical
    requires s.mx[m].owner == Some(c) && s.mx[m].count == 1 && w in s.mx[m].pending && w.prio >= c.prio
    ensures var s1 := Exec(s, c, UnlockMtx(m));
            UpForChoice(s1, c) && w in s1.th && s1.th[w].state == Ready && w != c
  {
    ExecIsUnlock(s, c, m);
    WaitersBlocked(s, m);
    hide Core, Exec;
    var s1 := Shift(s, c, -1);
    ShiftKept(s, c, -1);
    CoreKnows(s1);
    UnlockCore(s1, m, c);
    hide MutexUnlock;
    assert WakesPeer(s1.mx[m].pending, c);
  }

  lemma AdvanceUpForChoice(s: Sys, c: Tid, next: Next)
    requires c in s.th && UpForChoice(s, c)
    ensures UpForChoice(Advance(s, c, next), c)
  {
  }

  lemma BuryUpForChoice(s: Sys, c: Tid)
    requires Core(s) && c in s.th && UpForChoice(s, c)
    ensures UpForChoice(Bury(s, c), c)
  {
    hide Core;
    if s.current.Some? && s.th[c].state == Dying { ExecKillKept(s, c); }
  }

  lemma ReleaseCycle(s: Sys, c: Tid, m: Mid, next: Next, w: Tid)
    requires Executing(s, c) && Settled(s) && OpOk(s, c, UnlockMtx(m)) && !s.th[c].critical
    requires s.mx[m].owner == Some(c) && s.mx[m].count == 1 && w in s.mx[m].pending && w.prio >= c.prio
    ensures var s' := CycleOf(s, c, UnlockMtx(m), next);
            UpForChoice(s', c) && w in s'.th && s'.th[w].state == Ready
  {
    hide Core, Settled, Exec, UpForChoice, CycleOf;
    ReleaseOutcome(s, c, m, w);
    StillForChoice(s, c, UnlockMtx(m), next, w);
  }

  /** What the instruction leaves up for choice is so at the end of the cycle. */
  lemma StillForChoice(s: Sys, c: Tid, op: Op, next: Next, w: Tid)
    requires Executing(s, c) && Settled(s) && OpOk(s, c, op) && !op.Suspend? && w != c
    requires UpForChoice(Exec(s, c, op), c) && w in Exec(s, c, op).th && Exec(s, c, op).th[w].state == Ready
    ensures var s' := CycleOf(s, c, op, next);
            UpForChoice(s', c) && w in s'.th && s'.th[w].state == Ready
  {
    hide Core, Settled, Exec, OpOk, UpForChoice, Advance, Bury;
    ExecExecuted(s, c, op, next);
    var s1 := Exec(s, c, op);
    AdvanceExecuted(s1, c, next);
    AdvanceUpForChoice(s1, c, next);
    AdvanceBystanders(s1, c, next);
    var s2 := Advance(s1, c, next);
    BuryUpForChoice(s2, c);
    BuryBystanders(s2, c);
  }

  /** When a thread outside critical sections releases a mutex that a thread of at least its priority
      waits for, the next thread to run has at least that waiter's priority. */
  lemma UnlockPreempts(s: Sys, c: Tid, m: Mid, next: Next, w: Tid)
    requires Executing(s, c) && Settled(s) && OpOk(s, c, UnlockMtx(m)) && !s.th[c].critical
    requires s.mx[m].owner == Some(c) && s.mx[m].count == 1 && w in s.mx[m].pending && w.prio >= c.prio
    ensures var s2 := Dispatch(CycleOf(s, c, UnlockMtx(m), next)); s2.current.Some? && s2.current.value.prio >= w.prio
  {
    ReleaseCycle(s, c, m, next, w);
    var s' := CycleOf(s, c, UnlockMtx(m), next);
    hide CycleOf;
    FreshChoice(s', c, w);
  }

  lemma FreshChoice(s: Sys, c: Tid, w: Tid)
    requires Inv(s) && UpForChoice(s, c) && w in s.th && s.th[w].state == Ready
    ensures Dispatch(s).current.Some? && Dispatch(s).current.value.prio >= w.prio
  {
    CoreKnows(s);
    CorePlaced(s);
    assert w in s.ready;
    hide Core, Settled;
    ScheduleChooses(s);
    ScheduleDominates(s, w);
  }

  // --------------------------------------------------- when a kill is safe

  /** Draining one mutex leaves every other waiting list, and every thread not waiting for it, in place. */
  lemma {:induction false} DrainFrame(s: Sys, m: Mid, t: Tid)
    requires m in s.mx && t in s.th && (forall p | p in s.mx[m].pending :: p in s.th)
    ensures var s' := Drain(s, m, t);
            && s'.mx.Keys == s.mx.Keys && s'.bl == s.bl && s'.th.Keys == s.th.Keys
            && (forall n | n in s.mx && n != m :: s'.mx[n] == s.mx[n])
            && (forall u | u in s.th && u !in s.mx[m].pending :: s'.th[u].state == s.th[u].state)
    decreases |s.mx[m].pending|
  {
    if s.mx[m].pending != [] {
      assert s.mx[m].pending[0] in s.mx[m].pending;
      WakeFrame(s, m, t);
      hide WakeHead;
      DrainFrame(WakeHead(s, m, t), m, t);
    }
  }

  lemma WakeFrame(s: Sys, m: Mid, t: Tid)
    requires m in s.mx && t in s.th && s.mx[m].pending != [] && s.mx[m].pending[0] in s.th
    ensures var s' := WakeHead(s, m, t);
            && s'.mx == s.mx[m := s.mx[m].(pending := s.mx[m].pending[1..])] && s'.bl == s.bl && s'.th.Keys == s.th.Keys
            && (forall u | u in s.th && u != s.mx[m].pending[0] :: s'.th[u].state == s.th[u].state)
  {
  }

  /** A thread that is chained as a zombie once more is on that list twice. */
  lemma ChainedTwice(s: Sys, t: Tid)
    requires Placed(s, None) && t in s.th && s.th[t].state == Zombie
    ensures !Placed(SetState(Retired(s, t), t, Zombie), None)
  {
    var i :| 0 <= i < |s.zombie| && s.zombie[i] == t;
    var z := s.zombie + [t];
    assert z[i] == t && z[|s.zombie|] == t;
  }

  /** A blocked thread that is chained as a zombie is still on the list it waits on. */
  lemma StillParked(s: Sys, t: Tid, s': Sys)
    requires Placed(s, None) && t in s.th && s.th[t].state == Blocked && t in s'.th && s'.th[t].state == Zombie
    requires s'.bl == s.bl && s'.mx.Keys == s.mx.Keys
    requires forall m | m in s.mx && t in s.mx[m].pending :: s'.mx[m] == s.mx[m]
    ensures !Placed(s', None)
  {
    assert Parked(s, t);
    match s.th[t].wait
    case OnMutex(m) => assert Placed(s', None) ==> WaitList(s'.mx[m].pending, s'.th, OnMutex(m), None);
    case OnBlocker(b) => assert Placed(s', None) ==> WaitList(s'.bl[b], s'.th, OnBlocker(b), None);
  }

  lemma ZombieOnly(s: Sys, t: Tid)
    requires t in s.th && s.th[t].state == Blocked
    ensures var s' := SetState(Retired(s, t), t, Zombie);
            s'.mx == s.mx && s'.bl == s.bl && t in s'.th && s'.th[t].state == Zombie
  {
  }

  /** Chaining the victim of a kill with the zombies keeps every thread on its one list if and only if the victim is
      neither blocked, which leaves it on the list it waits on, nor already dead. The kill of a live thread as a whole
      does so under the same condition. */
  lemma KillKeepsListsIff(s: Sys, t: Tid)
    requires Inv(s) && t in s.th
    ensures Placed(SetState(Retired(s, t), t, Zombie), None) <==> Killable(s, t)
    ensures s.th[t].state != Zombie ==>
              && JoinOf(t) in s.mx && s.mx[JoinOf(t)].owner == Some(t) && (forall p | p in s.mx[JoinOf(t)].pending :: p in s.th)
              && (Placed(KillThread(s, t), None) <==> Killable(s, t))
  {
    hide Core, Settled, Placed, KillThread, SetState;
    CorePlaced(s);
    if s.th[t].state == Zombie {
      ChainedTwice(s, t);
    } else {
      OwnJoin(s, t);
      if s.th[t].state == Blocked {
        ZombieOnly(s, t);
        StillParked(s, t, SetState(Retired(s, t), t, Zombie));
        KillBlockedFrame(s, t);
        StillParked(s, t, KillThread(s, t));
      } else {
        KillPlaced(s, t);
        KillFacts(s, t);
      }
    }
  }

  lemma KillBlockedFrame(s: Sys, t: Tid)
    requires t in s.th && s.th[t].state == Blocked && JoinOf(t) in s.mx && s.mx[JoinOf(t)].owner == Some(t)
    requires (forall p | p in s.mx[JoinOf(t)].pending :: p in s.th) && t !in s.mx[JoinOf(t)].pending
    ensures var s' := KillThread(s, t);
            && s'.bl == s.bl && s'.mx.Keys == s.mx.Keys && (forall m | m in s.mx && m != JoinOf(t) :: s'.mx[m] == s.mx[m])
            && t in s'.th && s'.th[t].state == Zombie
  {
    var s1 := SetState(Retired(s, t), t, Zombie);
    assert s1.mx == s.mx && s1.bl == s.bl;
    var n := if s.mx[JoinOf(t)].count > 0 then s.mx[JoinOf(t)].count - 1 else s.mx[JoinOf(t)].count;
    if n == 0 { DrainFrame(SetOwner(SetCount(s1, JoinOf(t), n), JoinOf(t), None), JoinOf(t), t); }
  }
}
