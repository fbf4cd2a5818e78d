/** Critical sections: while a thread is in one, no other thread is executed. */
module SchedCritical {
  import opened Options
  import opened SchedModel
  import opened SchedInv
  import opened SchedRun
  import opened SchedTheorems
  import opened SchedOwn
  import opened SchedRetry

  /** `c` is current and running, in a critical section. */
  ghost predicate InSection(s: Sys, c: Tid) {
    s.current == Some(c) && c in s.th && s.th[c].state == Running && s.th[c].critical
  }

  /** The instruction neither ends the critical section, nor gives up the processor, nor blocks, nor fails, nor kills its thread. */
  ghost predicate SteadyOp(s: Sys, c: Tid, op: Op) {
    match op
    case UnlockMtx(m) => m in s.mx && s.mx[m].owner == Some(c)
    case Kill(u) => u != c
    case LockMtx(m) => m in s.mx && Granted(s, m, c)
    case LockMem(m) => m in s.mx && Granted(s, m, c)
    case Join(u) => JoinOf(u) in s.mx && Granted(s, JoinOf(u), c)
    case _ => !op.CritBegin? && !op.CritEnd? && !op.Yield? && !op.Suspend? && !op.Exit?
  }

  ghost predicate Steady(s: Sys, e: Event, c: Tid)
    requires Inv(s)
  {
    e.Cycle? ==> c in s.th && SteadyOp(Dispatch(s), c, e.op) && !Ends(s.th[c].ip, e.next)
  }

  // ------------------------------------------------------ one instruction

  /** `c` goes on after the instruction. */
  ghost predicate GoesOn(s: Sys, c: Tid) {
    s.current == Some(c) && c in s.th && s.th[c].state == Running
  }

  lemma UnlockGoesOn(s: Sys, c: Tid, m: Mid)
    requires Executing(s, c) && m in s.mx && m.Managed?
    ensures GoesOn(ExecUnlock(s, c, m), c) <==> s.mx[m].owner == Some(c)
  {
    hide Core, Unlocked;
    if s.mx[m].owner != Some(c) {
      FailCore(s, c);
    } else {
      var s1 := Shift(s, c, -1);
      ShiftKept(s, c, -1);
      CoreKnows(s1);
      UnlockCore(s1, m, c);
      UnlockedGoesOn(s1, MutexUnlock(s1, m, c), m, c);
    }
  }

  lemma UnlockedGoesOn(s: Sys, s': Sys, m: Mid, c: Tid)
    requires GoesOn(s, c) && m in s.mx && Unlocked(s, s', m, c)
    ensures GoesOn(s', c)
  {
  }

  lemma KillGoesOn(s: Sys, c: Tid, u: Tid)
    requires Executing(s, c) && Killable(s, u)
    ensures GoesOn(ExecKillOp(s, c, u), c) <==> u != c
  {
    hide Core, ExecKill;
    ShiftExecuting(s, c, -1);
    ExecKillKept(Shift(s, c, -1), u);
  }

  lemma ResumeGoesOn(s: Sys, c: Tid, b: Bid)
    requires Core(s) && GoesOn(s, c) && b in s.bl
    ensures GoesOn(ExecResume(s, b), c) && ExecResume(s, b).th[c].critical == s.th[c].critical
  {
    hide Core, BlockerResume;
    CoreKnows(s);
    ExecResumeKept(s, b);
    ResumeFacts(s, b);
  }

  lemma CriticalGoesOn(s: Sys, c: Tid, enter: bool)
    requires Executing(s, c)
    ensures GoesOn(ExecCritical(s, c, enter), c) <==> s.th[c].critical != enter
  {
    hide Core, Fail;
    if s.th[c].critical == enter { FailCore(s, c); }
  }

  lemma SpawnGoesOn(s: Sys, c: Tid, u: Tid, ip: int)
    requires GoesOn(s, c) && Startable(s, u)
    ensures GoesOn(AddThread(s, u, ip), c) && AddThread(s, u, ip).th[c] == s.th[c]
  {
  }

  lemma TryGoesOn(s: Sys, c: Tid, op: Op)
    requires Executing(s, c) && OpOk(s, c, op) && Target(op).Some?
    ensures Target(op).value in s.mx && (GoesOn(Exec(s, c, op), c) <==> Granted(s, Target(op).value, c))
  {
    hide Core, Exec;
    TargetKnown(s, c, op);
    TryOutcome(s, c, op, Target(op).value);
    if !Granted(s, Target(op).value, c) { RefusedExec(s, c, Target(op).value, op); }
  }

  lemma SimpleGoesOn(s: Sys, c: Tid, op: Op)
    requires Executing(s, c) && OpOk(s, c, op)
    requires op.Plain? || op.NewMutex? || op.NewBlocker? || op.Yield? || op.SetTimeslice? || op.Exit? || op.Suspend?
    ensures GoesOn(Exec(s, c, op), c) <==> !op.Yield? && !op.Suspend? && !op.Exit?
  {
    hide Core;
  }

  lemma ExecGoesOn(s: Sys, c: Tid, op: Op)
    requires Executing(s, c) && OpOk(s, c, op) && s.th[c].critical
    ensures InSection(Exec(s, c, op), c) <==> SteadyOp(s, c, op)
    ensures InSection(Exec(s, c, op), c) ==> Exec(s, c, op).th[c].ip == s.th[c].ip
  {
    hide Core, Own, ExecUnlock, ExecKillOp, ExecCritical, ExecResume, AddThread;
    OwnCritical(s, c, op);
    if Target(op).Some? {
      hide Exec, OpOk;
      TryGoesOn(s, c, op);
    } else {
      match op {
        case UnlockMtx(m) => UnlockGoesOn(s, c, m);
        case Spawn(u, ip) => SpawnGoesOn(s, c, u, ip);
        case Kill(u) => KillGoesOn(s, c, u);
        case CritBegin => CriticalGoesOn(s, c, true);
        case CritEnd => CriticalGoesOn(s, c, false);
        case Resume(b) => ResumeGoesOn(s, c, b);
        case _ => SimpleGoesOn(s, c, op);
      }
    }
  }

  lemma OwnCritical(s: Sys, c: Tid, op: Op)
    requires Executing(s, c) && OpOk(s, c, op)
    ensures c in Exec(s, c, op).th
    ensures Exec(s, c, op).th[c].state != Zombie ==>
              Exec(s, c, op).th[c].critical == CriticalAfter(s, c, op) && Exec(s, c, op).th[c].ip == AddressAfter(s, c, op)
  {
    hide Core, Exec, OpOk;
    ExecOwn(s, c, op);
  }

  // ------------------------------------------------------- cycles and runs

  lemma CycleInSection(s: Sys, c: Tid, op: Op, next: Next)
    requires Executing(s, c) && Settled(s) && OpOk(s, c, op) && (op.Suspend? ==> !Ends(s.th[c].ip, next))
    ensures InSection(CycleOf(s, c, op, next), c) <==> InSection(Exec(s, c, op), c) && !Ends(Exec(s, c, op).th[c].ip, next)
  {
    hide Core, Exec, OpOk, KillThread;
    ExecExecuted(s, c, op, next);
    AdvanceExecuted(Exec(s, c, op), c, next);
    BuryInSection(Advance(Exec(s, c, op), c, next), c);
  }

  lemma BuryInSection(s: Sys, c: Tid)
    requires Core(s) && c in s.th
    ensures s.current.Some? && s.th[c].state == Dying ==> !InSection(Bury(s, c), c)
    ensures !(s.current.Some? && s.th[c].state == Dying) ==> Bury(s, c) == s
  {
    if s.current.Some? && s.th[c].state == Dying {
      ExecKillKept(s, c);
      assert ExecKill(s, c) == Bury(s, c);
    }
  }

  lemma SectionDispatch(s: Sys, c: Tid)
    requires Inv(s) && InSection(s, c)
    ensures Dispatch(s).current == Some(c) && c in Dispatch(s).th && Dispatch(s).th[c].critical && Dispatch(s).th[c].ip == s.th[c].ip
  {
    hide Core, Settled;
    CoreKnows(s);
  }

  /** The thread in the critical section is the one that the next cycle executes, and stays in the section
      exactly as long as its instructions are steady. */
  lemma StepInSection(s: Sys, e: Event, c: Tid)
    requires Inv(s) && Enabled(s, e) && InSection(s, c)
    ensures e.Cycle? ==> Executed1(s, e) == Some(c)
    ensures InSection(Step(s, e), c) <==> Steady(s, e, c)
  {
    hide Core, Settled, Dispatch, CycleOf, OpOk, AddThread, ExecResume, SteadyOp, Exec;
    SectionDispatch(s, c);
    match e
    case Cycle(op, next) =>
      ExecGoesOn(Dispatch(s), c, op);
      CycleInSection(Dispatch(s), c, op, next);
    case Start(u, ip) => SpawnGoesOn(s, c, u, ip);
    case Arrive(b) => ResumeGoesOn(s, c, b);
  }

  ghost predicate SteadyRun(s: Sys, es: seq<Event>, c: Tid)
    requires Inv(s)
    decreases |es|
  {
    es == [] || (Enabled(s, es[0]) && Steady(s, es[0], c) && SteadyRun(Step(s, es[0]), es[1..], c))
  }

  /** Over any run, whatever arrives, every cycle executes the thread in the critical section until one of
      its own instructions takes it out. */
  lemma {:induction false} NeverReplaced(s: Sys, es: seq<Event>, s': Sys, c: Tid, i: nat)
    requires Inv(s) && Runs(s, es, s') && EnabledRun(s, es) && InSection(s, c) && SteadyRun(s, es, c) && i < |es|
    ensures InSection(s', c)
    ensures es[i].Cycle? ==> ExecutedAt(s, es, i) == Some(c)
    decreases |es|
  {
    hide Core, Settled, InSection, Enabled, Step, Steady, Executed1;
    StepInSection(s, es[0], c);
    if |es| > 1 { NeverReplaced(Step(s, es[0]), es[1..], s', c, if i > 0 then i - 1 else 0); }
  }
}
