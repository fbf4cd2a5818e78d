/** Who runs after threads were resumed, and where a new thread starts. */
module SchedWake {
  import opened Options
  import opened SchedModel
  import opened SchedInv
  import opened SchedRun
  import opened SchedTheorems
  import opened SchedLaws

  // ------------------------------------------------------- slices on resume

  /** Every thread has its slice, but the current one has none left if some thread of `l` has at least its priority. */
  ghost predicate SliceGiven(s: Sys, s': Sys, l: seq<Tid>) {
    true == (
      forall t | t in s.th ::
        t in s'.th && s'.th[t].remaining == if s.current == Some(t) && WakesPeer(l, t) then 0 else s.th[t].remaining)
  }

  lemma TopSlice(s: Sys, b: Bid)
    requires b in s.bl && s.bl[b] != [] && Last(s.bl[b]) in s.th && s.th[Last(s.bl[b])].state == Blocked
    requires s.current.Some? ==> s.current.value in s.th
    ensures SliceGiven(s, ResumeTop(s, b), [Last(s.bl[b])])
  {
    var p := Last(s.bl[b]);
    forall t: Tid ensures WakesPeer([p], t) <==> p.prio >= t.prio {
      if p.prio >= t.prio { assert p in [p]; }
    }
  }

  lemma SliceTrans(s: Sys, s1: Sys, s2: Sys, l: seq<Tid>, p: Tid)
    requires SliceGiven(s, s1, [p]) && SliceGiven(s1, s2, l) && s1.current == s.current
    ensures SliceGiven(s, s2, l + [p])
  {
    forall t: Tid ensures WakesPeer(l + [p], t) <==> WakesPeer(l, t) || WakesPeer([p], t) {
      if WakesPeer(l, t) {
        var q :| q in l && q.prio >= t.prio;
        assert q in l + [p];
      }
      if WakesPeer([p], t) { assert p in l + [p]; }
    }
  }

  lemma NothingGiven(s: Sys)
    ensures SliceGiven(s, s, [])
  {
  }

  /** Resuming ends the slice of the current thread if and only if a resumed thread has at least its priority, and touches
      no other slice. */
  lemma {:induction false} ResumeSlice(s: Sys, b: Bid)
    requires Core(s) && b in s.bl && (forall t | t in s.bl[b] :: t in s.th)
    requires s.current.Some? ==> s.current.value in s.th
    ensures SliceGiven(s, BlockerResume(s, b), s.bl[b])
    decreases |s.bl[b]|
  {
    hide Core, ResumeTop, SliceGiven;
    if s.bl[b] == [] {
      NothingGiven(s);
    } else {
      SuspendedOnce(s, b);
      ResumeTopCore(s, b);
      TopSlice(s, b);
      var s1 := ResumeTop(s, b);
      CoreKnows(s1);
      ResumeSlice(s1, b);
      SliceTrans(s, s1, BlockerResume(s1, b), s.bl[b][..|s.bl[b]| - 1], Last(s.bl[b]));
    }
  }

  // ------------------------------------------------- preemption on resume

  /** `w`, which waited on `b`, is ready, and the current thread `c` has no slice left if `w` has at least its priority. */
  lemma ResumeOutcome(s: Sys, b: Bid, c: Tid, w: Tid)
    requires Core(s) && b in s.bl && w in s.bl[b] && (s.current.Some? ==> s.current == Some(c) && w.prio >= c.prio && !s.th[c].critical)
    requires s.current.Some? ==> c in s.th
    ensures var s1 := ExecResume(s, b);
            Core(s1) && s1.current == s.current && UpForChoice(s1, c) && w in s1.th && s1.th[w].state == Ready
  {
    hide Core, BlockerResume;
    CoreKnows(s);
    ExecResumeKept(s, b);
    ResumeFacts(s, b);
    ResumeSlice(s, b);
    if s.current.Some? { assert WakesPeer(s.bl[b], c); }
  }

  /** When a thread outside critical sections resumes a thread of at least its priority, the next thread to run has at least
      the resumed one's priority. */
  lemma ResumePreempts(s: Sys, c: Tid, b: Bid, next: Next, w: Tid)
    requires Executing(s, c) && Settled(s) && !s.th[c].critical
    requires b in s.bl && w in s.bl[b] && w.prio >= c.prio && OpOk(s, c, Resume(b))
    ensures var s2 := Dispatch(CycleOf(s, c, Resume(b), next)); s2.current.Some? && s2.current.value.prio >= w.prio
  {
    ResumeCycle(s, c, b, next, w);
    var s' := CycleOf(s, c, Resume(b), next);
    hide CycleOf;
    FreshChoice(s', c, w);
  }

  lemma ExecIsResume(s: Sys, c: Tid, b: Bid)
    requires Executing(s, c) && OpOk(s, c, Resume(b))
    ensures b in s.bl && Exec(s, c, Resume(b)) == ExecResume(s, b)
  {
  }

  lemma SuspendedOther(s: Sys, c: Tid, b: Bid, w: Tid)
    requires Executing(s, c) && b in s.bl && w in s.bl[b]
    ensures w != c
  {
    SuspendedBlocked(s, b);
  }

  lemma ResumeCycle(s: Sys, c: Tid, b: Bid, next: Next, w: Tid)
    requires Executing(s, c) && Settled(s) && !s.th[c].critical
    requires b in s.bl && w in s.bl[b] && w.prio >= c.prio && OpOk(s, c, Resume(b))
    ensures var s' := CycleOf(s, c, Resume(b), next);
            UpForChoice(s', c) && w in s'.th && s'.th[w].state == Ready
  {
    hide Core, Settled, Exec, ExecResume, UpForChoice, CycleOf, OpOk;
    ExecIsResume(s, c, b);
    ResumeOutcome(s, b, c, w);
    SuspendedOther(s, c, b, w);
    StillForChoice(s, c, Resume(b), next, w);
  }

  /** The same for a message or a timer from outside, with or without a current thread. */
  lemma ArrivalPreempts(s: Sys, b: Bid, w: Tid)
    requires Inv(s) && Enabled(s, Arrive(b)) && w in s.bl[b]
    requires s.current.Some? ==> s.current.value in s.th && !s.th[s.current.value].critical && w.prio >= s.current.value.prio
    ensures var s2 := Dispatch(Step(s, Arrive(b))); s2.current.Some? && s2.current.value.prio >= w.prio
  {
    var c := if s.current.Some? then s.current.value else w;
    ResumeOutcome(s, b, c, w);
    var s' := Step(s, Arrive(b));
    hide Core, ExecResume;
    assert s' == ExecResume(s, b);
    FreshChoice(s', c, w);
  }

  // ------------------------------------------------- in which order they run

  /** Of the resumed threads, the ones that were suspended later are ready earlier; with equal priority, they run earlier. */
  ghost predicate LaterFirst(th: map<Tid, TInfo>, l: seq<Tid>) {
    forall i, j | 0 <= i < j < |l| :: l[i] in th && l[j] in th && th[l[j]].stamp < th[l[i]].stamp
  }

  lemma TopStamp(s: Sys, b: Bid)
    requires b in s.bl && s.bl[b] != [] && Last(s.bl[b]) in s.th && (s.current.Some? ==> s.current.value in s.th)
    ensures var s1, p := ResumeTop(s, b), Last(s.bl[b]);
            && s1.clock == s.clock + 1 && s1.th.Keys == s.th.Keys && s1.th[p].stamp == s.clock
            && forall t | t in s.th && t != p :: s1.th[t].stamp == s.th[t].stamp
  {
  }

  lemma {:induction false} ResumeOrder(s: Sys, b: Bid)
    requires Core(s) && b in s.bl && (forall t | t in s.bl[b] :: t in s.th)
    requires s.current.Some? ==> s.current.value in s.th
    ensures var s' := BlockerResume(s, b);
            && s'.th.Keys == s.th.Keys && LaterFirst(s'.th, s.bl[b])
            && (forall t | t in s.bl[b] :: s'.th[t].stamp >= s.clock)
            && forall t | t in s.th && t !in s.bl[b] :: s'.th[t].stamp == s.th[t].stamp
    decreases |s.bl[b]|
  {
    hide Core, ResumeTop, LaterFirst;
    if s.bl[b] == [] {
      NoneLater(s.th);
    } else {
      SuspendedOnce(s, b);
      ResumeTopCore(s, b);
      TopStamp(s, b);
      var s1 := ResumeTop(s, b);
      CoreKnows(s1);
      ResumeOrder(s1, b);
      assert s.bl[b] == s1.bl[b] + [Last(s.bl[b])];
      OneEarlier(BlockerResume(s, b).th, s1.bl[b], Last(s.bl[b]), s.clock);
    }
  }

  lemma NoneLater(th: map<Tid, TInfo>)
    ensures LaterFirst(th, [])
  {
  }

  lemma OneEarlier(th: map<Tid, TInfo>, l: seq<Tid>, p: Tid, clock: nat)
    requires LaterFirst(th, l) && p in th && th[p].stamp == clock && forall t | t in l :: t in th && th[t].stamp > clock
    ensures LaterFirst(th, l + [p])
  {
  }

  /** The waiters of a released mutex become ready in the order in which they wait. */
  ghost predicate EarlierFirst(th: map<Tid, TInfo>, l: seq<Tid>) {
    forall i, j | 0 <= i < j < |l| :: l[i] in th && l[j] in th && th[l[i]].stamp < th[l[j]].stamp
  }

  lemma HeadStamp(s: Sys, m: Mid, t: Tid)
    requires m in s.mx && t in s.th && s.mx[m].pending != [] && s.mx[m].pending[0] in s.th
    ensures var s1, p := WakeHead(s, m, t), s.mx[m].pending[0];
            && s1.clock == s.clock + 1 && s1.th.Keys == s.th.Keys && s1.th[p].stamp == s.clock
            && m in s1.mx && s1.mx[m].pending == s.mx[m].pending[1..]
            && forall u | u in s.th && u != p :: s1.th[u].stamp == s.th[u].stamp
  {
  }

  lemma {:induction false} DrainOrder(s: Sys, m: Mid, t: Tid)
    requires m in s.mx && t in s.th && NoDup(s.mx[m].pending) && forall p | p in s.mx[m].pending :: p in s.th
    ensures var s' := Drain(s, m, t);
            && s'.th.Keys == s.th.Keys && EarlierFirst(s'.th, s.mx[m].pending)
            && (forall p | p in s.mx[m].pending :: s'.th[p].stamp >= s.clock)
            && forall u | u in s.th && u !in s.mx[m].pending :: s'.th[u].stamp == s.th[u].stamp
    decreases |s.mx[m].pending|
  {
    hide WakeHead;
    var l := s.mx[m].pending;
    if l != [] {
      assert l[0] in l && l[0] !in l[1..];
      HeadStamp(s, m, t);
      var s1 := WakeHead(s, m, t);
      DrainOrder(s1, m, t);
      var s' := Drain(s, m, t);
      assert s' == Drain(s1, m, t);
      forall i, j | 0 <= i < j < |l| ensures l[i] in s'.th && l[j] in s'.th && s'.th[l[i]].stamp < s'.th[l[j]].stamp {
        assert l[1..][j - 1] == l[j] && l[j] in l[1..];
        if i > 0 { assert l[1..][i - 1] == l[i]; }
      }
    }
  }

  /** A suspended thread is the last of its blocker. */
  lemma SuspendsLast(s: Sys, b: Bid, t: Tid)
    requires b in s.bl && t in s.th
    ensures BlockerSuspend(s, b, t).bl == s.bl[b := s.bl[b] + [t]]
  {
  }

  // --------------------------------------------------------------- slices

  /** A thread that keeps running has one cycle less; any other choice starts with a full slice. */
  lemma SliceAfterChoice(s: Sys)
    requires Inv(s) && Dispatch(s).current.Some?
    ensures var c, s1 := Dispatch(s).current.value, Dispatch(s);
            && (s.current.Some? ==> s.current.value in s.th) && c in s.th && c in s1.th
            && (KeepsRunning(s) ==> s.current == Some(c))
            && s1.th[c].remaining == (if KeepsRunning(s) then s.th[c].remaining else s.timeslice) - 1
  {
    hide Core, Settled, Schedule, KeepsRunning, Chosen;
    CoreKnows(s);
    CorePlaced(s);
    ScheduleKept(s);
    ScheduleChooses(s);
    ChoiceSlice(s);
  }

  lemma ChoiceSlice(s: Sys)
    requires s.current.Some? ==> s.current.value in s.th
    requires forall t | t in s.ready :: t in s.th && s.th[t].state == Ready
    requires forall t | t in s.running :: t in s.th && s.th[t].state == Running
    requires Schedule(s).current.Some?
    ensures var c, s1 := Schedule(s).current.value, Schedule(s);
            && c in s.th && c in s1.th && s1.timeslice == s.timeslice
            && (KeepsRunning(s) ==> s.current == Some(c))
            && s1.th[c].remaining == if KeepsRunning(s) then s.th[c].remaining else s.timeslice
  {
    hide Pick;
    if !KeepsRunning(s) {
      NextRunningIn(s);
      PickIs(s);
    }
  }

  lemma PickIs(s: Sys)
    requires s.current.Some? ==> s.current.value in s.th
    requires forall t | t in s.ready :: t in s.th && s.th[t].state == Ready
    requires forall t | t in s.running :: t in s.th
    ensures Pick(s).current.Some? ==> Pick(s).current.value in s.th && Pick(s).current.value in Pick(s).th
    ensures Pick(s).timeslice == s.timeslice
  {
    hide InsertSorted, Remove;
    NextRunningIn(s);
  }

  /** A fresh choice that goes on with a running thread is of a higher priority than every ready one: with equal
      priority, the ready thread goes first. */
  lemma ReadyGoesFirst(s: Sys, w: Tid)
    requires Inv(s) && Dispatch(s).current.Some? && w in s.ready
    ensures var c := Dispatch(s).current.value;
            && (s.current.Some? ==> s.current.value in s.th) && c in s.th
            && (!KeepsRunning(s) && s.th[c].state == Running ==> c.prio > w.prio)
            && (!KeepsRunning(s) && s.th[c].state == Ready ==> c == s.ready[0])
  {
    hide Core, Settled, Schedule, KeepsRunning;
    CoreKnows(s);
    CorePlaced(s);
    ScheduleKept(s);
    ScheduleChooses(s);
    ChoiceSlice(s);
    if !KeepsRunning(s) { FirstOfReady(s, w); }
  }

  lemma FirstOfReady(s: Sys, w: Tid)
    requires Placed(s, None) && w in s.ready && (s.current.Some? ==> s.current.value in s.th)
    requires forall t | t in s.ready :: t in s.th && s.th[t].state == Ready
    requires forall t | t in s.running :: t in s.th && s.th[t].state == Running
    requires Schedule(s).current.Some? && !KeepsRunning(s)
    ensures var c := Schedule(s).current.value;
            && c in s.th && (s.th[c].state == Running ==> c.prio > w.prio) && (s.th[c].state == Ready ==> c == s.ready[0])
  {
    NextRunningIn(s);
    HeadIsUrgent(s, w);
    hide Placed, Sorted;
  }

  lemma HeadIsUrgent(s: Sys, w: Tid)
    requires Placed(s, None) && w in s.ready
    ensures s.ready[0].prio >= w.prio
  {
    var i :| 0 <= i < |s.ready| && s.ready[i] == w;
    assert Sorted(s.ready, s.th);
  }

  lemma ResumeKeepsLength(s: Sys, b: Bid)
    requires Core(s) && b in s.bl && (forall t | t in s.bl[b] :: t in s.th) && (s.current.Some? ==> s.current.value in s.th)
    ensures BlockerResume(s, b).timeslice == s.timeslice
    decreases |s.bl[b]|
  {
    hide Core, ResumeTop;
    if s.bl[b] != [] {
      SuspendedOnce(s, b);
      ResumeTopCore(s, b);
      TopKeepsLength(s, b);
      CoreKnows(ResumeTop(s, b));
      ResumeKeepsLength(ResumeTop(s, b), b);
    }
  }

  lemma TopKeepsLength(s: Sys, b: Bid)
    requires b in s.bl && s.bl[b] != [] && Last(s.bl[b]) in s.th && (s.current.Some? ==> s.current.value in s.th)
    ensures ResumeTop(s, b).timeslice == s.timeslice
  {
  }

  lemma KillKeepsLength(s: Sys, t: Tid)
    requires Core(s) && Killable(s, t)
    ensures ExecKill(s, t).timeslice == s.timeslice
  {
    hide Core;
    ExecKillKept(s, t);
  }

  lemma MutexKeepsLength(s: Sys, c: Tid, op: Op)
    requires Executing(s, c) && OpOk(s, c, op) && OnMutexes(op)
    ensures ExecMutex(s, c, op).timeslice == s.timeslice
  {
    hide Core, MutexUnlock, KillThread;
    match op
    case Join(u) => JoinKeepsLength(s, c, u);
    case UnlockMtx(m) =>
      if s.mx[m].owner == Some(c) {
        ShiftKept(s, c, -1);
        CoreKnows(Shift(s, c, -1));
        UnlockCore(Shift(s, c, -1), m, c);
      } else {
        FailKeepsLength(s, c);
      }
    case _ =>
  }

  lemma JoinKeepsLength(s: Sys, c: Tid, u: Tid)
    requires Executing(s, c) && u in s.th && s.th[c].pendingLock in {None, Some(JoinOf(u))}
    ensures ExecJoin(s, c, u).timeslice == s.timeslice
  {
    hide Core, ExecJoin;
    JoinKnown(s, u);
    if Granted(s, JoinOf(u), c) { ExecJoinGranted(s, c, u); } else { ExecJoinRefused(s, c, u); }
  }

  lemma FailKeepsLength(s: Sys, c: Tid)
    requires Executing(s, c)
    ensures Fail(s, c).timeslice == s.timeslice
  {
    hide Core, KillThread;
    JoinKnown(s, c);
    CoreKnows(s);
    SetCurrentCore(s, None);
    KillCore(s.(current := None), c);
  }

  lemma ExecLength(s: Sys, c: Tid, op: Op)
    requires Executing(s, c) && OpOk(s, c, op)
    ensures Exec(s, c, op).timeslice == if op.SetTimeslice? && op.n > 0 then op.n else s.timeslice
  {
    hide Core, ExecMutex, KillThread, BlockerResume;
    if OnMutexes(op) {
      MutexKeepsLength(s, c, op);
    } else {
      match op
      case Kill(u) =>
        ShiftExecuting(s, c, -1);
        KillKeepsLength(Shift(s, c, -1), u);
      case CritBegin => if s.th[c].critical { FailKeepsLength(s, c); }
      case CritEnd => if !s.th[c].critical { FailKeepsLength(s, c); }
      case Resume(b) =>
        CoreKnows(s);
        ResumeKeepsLength(s, b);
      case _ =>
    }
  }

  /** The length of a slice changes only by the instruction that sets it, and only to a positive number. */
  lemma CycleLength(s: Sys, c: Tid, op: Op, next: Next)
    requires Executing(s, c) && Settled(s) && OpOk(s, c, op) && (op.Suspend? ==> !Ends(s.th[c].ip, next))
    ensures CycleOf(s, c, op, next).timeslice == if op.SetTimeslice? && op.n > 0 then op.n else s.timeslice
  {
    hide Core, Settled, Exec, OpOk, KillThread;
    ExecLength(s, c, op);
    ExecExecuted(s, c, op, next);
    var s1 := Exec(s, c, op);
    AdvanceExecuted(s1, c, next);
    var s2 := Advance(s1, c, next);
    if s2.current.Some? && s2.th[c].state == Dying { KillKeepsLength(s2, c); }
  }

  // ------------------------------------------------------- what is made

  /** A new mutex is free and nobody waits for it; a new blocker holds nobody; the handle is pushed, nothing else changes. */
  ghost predicate Made(s: Sys, s': Sys, c: Tid, op: Op) {
    && c in s.th && s'.th == s.th[c := s.th[c].(depth := s.th[c].depth + 1)] && s'.current == s.current
    && (op.NewMutex? ==> op.m !in s.mx && s' == s.(th := s'.th, mx := s.mx[op.m := MInfo(None, 0, [])]))
    && (op.NewBlocker? ==> op.b !in s.bl && s' == s.(th := s'.th, bl := s.bl[op.b := []]))
  }

  lemma MakesFresh(s: Sys, c: Tid, op: Op)
    requires Executing(s, c) && OpOk(s, c, op) && (op.NewMutex? || op.NewBlocker?)
    ensures Made(s, Exec(s, c, op), c, op)
  {
    hide Core;
  }

  // ------------------------------------------------------ how threads end

  ghost predicate DeadIn(s: Sys, c: Tid) {
    c in s.th && s.th[c].state == Zombie && s.current == None
  }

  /** A thread that exits, or moves on from the end of its segment or to a faulty address, is dead at the end of the cycle. */
  lemma EndsDead(s: Sys, c: Tid, op: Op, next: Next)
    requires Executing(s, c) && Settled(s) && OpOk(s, c, op)
    requires op == Exit || (op.Plain? && Ends(s.th[c].ip, next))
    ensures DeadIn(CycleOf(s, c, op, next), c)
  {
    hide Core, Settled, KillThread, Exec, Advance, OpOk, Ends;
    ExecExecuted(s, c, op, next);
    var s1 := Exec(s, c, op);
    AdvanceExecuted(s1, c, next);
    EndsDying(s, c, op, next);
    ExecKillKept(Advance(s1, c, next), c);
  }

  lemma EndsDying(s: Sys, c: Tid, op: Op, next: Next)
    requires Executing(s, c) && OpOk(s, c, op)
    requires op == Exit || (op.Plain? && Ends(s.th[c].ip, next))
    ensures var s1 := Exec(s, c, op);
            c in s1.th && var s2 := Advance(s1, c, next); c in s2.th && s2.current == Some(c) && s2.th[c].state == Dying
  {
    hide Core;
  }

  /** The instruction is misused: a release of a mutex that is not the thread's, or a change to the state of a critical
      section in which it already is. */
  predicate Misuse(s: Sys, c: Tid, op: Op)
    requires c in s.th
  {
    match op
    case UnlockMtx(m) => m in s.mx && s.mx[m].owner != Some(c)
    case CritBegin => s.th[c].critical
    case CritEnd => !s.th[c].critical
    case _ => false
  }

  /** Of these instructions, a misused one kills its thread, and no other does, unless it ends anyway. */
  lemma MisuseKillsIff(s: Sys, c: Tid, op: Op, next: Next)
    requires Executing(s, c) && Settled(s) && OpOk(s, c, op) && !Ends(s.th[c].ip, next)
    requires op.UnlockMtx? || op.CritBegin? || op.CritEnd?
    ensures var s' := CycleOf(s, c, op, next); c in s'.th && (s'.th[c].state == Zombie <==> Misuse(s, c, op))
  {
    hide Core, Settled, KillThread, MutexUnlock, Advance, Bury;
    ExecExecuted(s, c, op, next);
    var s1 := Exec(s, c, op);
    MisuseOutcome(s, c, op);
    AdvanceExecuted(s1, c, next);
    QuietAdvance(s1, c, next);
  }

  /** After the instruction: dead and no longer current, or as alive as before. */
  lemma MisuseOutcome(s: Sys, c: Tid, op: Op)
    requires Executing(s, c) && OpOk(s, c, op) && (op.UnlockMtx? || op.CritBegin? || op.CritEnd?)
    ensures var s1 := Exec(s, c, op);
            && c in s1.th && Core(s1)
            && (Misuse(s, c, op) ==> s1.current == None && s1.th[c].state == Zombie)
            && (!Misuse(s, c, op) ==> s1.current == Some(c) && s1.th[c].state == Running && s1.th[c].ip == s.th[c].ip)
  {
    hide Core, KillThread, MutexUnlock;
    if Misuse(s, c, op) {
      FailDead(s, c);
    } else {
      if op.UnlockMtx? {
        ShiftKept(s, c, -1);
        CoreKnows(Shift(s, c, -1));
        UnlockCore(Shift(s, c, -1), op.m, c);
      } else {
        TouchCore(s, c, s.th[c].(critical := op.CritBegin?));
      }
    }
  }

  lemma FailDead(s: Sys, c: Tid)
    requires Executing(s, c)
    ensures var s1 := Fail(s, c); Core(s1) && c in s1.th && s1.current == None && s1.th[c].state == Zombie
  {
    hide Core, KillThread;
    JoinKnown(s, c);
    CoreKnows(s);
    SetCurrentCore(s, None);
    KillCore(s.(current := None), c);
  }

  /** Moving on within the segment neither kills a running thread nor wakes a dead one. */
  lemma QuietAdvance(s: Sys, c: Tid, next: Next)
    requires Core(s) && c in s.th && (s.current.Some? ==> !Ends(s.th[c].ip, next) && s.th[c].state == Running)
    requires Core(Advance(s, c, next)) && c in Advance(s, c, next).th
    ensures var s' := Bury(Advance(s, c, next), c); c in s'.th && s'.th[c].state == s.th[c].state
  {
    hide Core, KillThread;
  }

  /** An instruction that asks nothing of the scheduler, and does not end the thread, leaves it current and running at the
      address that is next, and changes nothing else. */
  lemma MovesOn(s: Sys, c: Tid, delta: int, next: Next)
    requires Executing(s, c) && Settled(s) && !Ends(s.th[c].ip, next)
    ensures var to := if next.Jump? then next.ip else s.th[c].ip + 2;
            CycleOf(s, c, Plain(delta), next) == s.(th := s.th[c := s.th[c].(ip := to, depth := s.th[c].depth + delta)])
  {
    hide Core, Settled, KillThread;
    ExecExecuted(s, c, Plain(delta), next);
    AdvanceExecuted(Exec(s, c, Plain(delta)), c, next);
    assert s.th[c := s.th[c].(depth := s.th[c].depth + delta)][c := s.th[c].(depth := s.th[c].depth + delta).(ip := if next.Jump? then next.ip else s.th[c].ip + 2)]
        == s.th[c := s.th[c].(ip := if next.Jump? then next.ip else s.th[c].ip + 2, depth := s.th[c].depth + delta)];
  }

  /** From `s` to `s'`, `c` gave up its slice: it is ready, behind those of its priority, at the next instruction, nobody is
      current, and no other thread changed. */
  ghost predicate GaveUp(s: Sys, s': Sys, c: Tid) {
    && s'.current == None && c in s.th && c in s'.th
    && s'.th[c] == s.th[c].(state := Ready, ip := s.th[c].ip + 2, stamp := s.clock)
    && forall t | t in s.th && t != c :: t in s'.th && s'.th[t] == s.th[t]
  }

  lemma YieldGivesUp(s: Sys, c: Tid, op: Op, next: Next)
    requires Executing(s, c) && Settled(s) && OpOk(s, c, op) && op.Yield?
    ensures GaveUp(s, CycleOf(s, c, op, next), c)
  {
    hide Core, Settled;
    ExecExecuted(s, c, op, next);
  }

  // ------------------------------------------------------- where threads start

  /** A thread that was just started: ready at `ip`, with its argument count on the stack, outside critical sections. */
  ghost predicate JustStarted(s: Sys, t: Tid, ip: int) {
    t in s.th && s.th[t] == TInfo(Ready, 0, false, ip, 1, None, Nowhere, s.th[t].stamp)
  }

  lemma AddStarts(s: Sys, t: Tid, ip: int)
    requires Startable(s, t)
    ensures JustStarted(AddThread(s, t, ip), t, ip)
  {
  }

  /** A spawned thread is at the address that the instruction names. */
  lemma SpawnStarts(s: Sys, c: Tid, u: Tid, ip: int, next: Next)
    requires Executing(s, c) && Settled(s) && OpOk(s, c, Spawn(u, ip))
    ensures JustStarted(CycleOf(s, c, Spawn(u, ip), next), u, ip) && u !in s.th
  {
    hide Core, Settled, Exec, Advance, Bury, AddThread;
    ExecExecuted(s, c, Spawn(u, ip), next);
    ExecIsSpawn(s, c, u, ip);
    AddStarts(s, u, ip);
    var s1 := Exec(s, c, Spawn(u, ip));
    AdvanceExecuted(s1, c, next);
    AdvanceBystanders(s1, c, next);
    BuryBystanders(Advance(s1, c, next), c);
  }

  lemma ExecIsSpawn(s: Sys, c: Tid, u: Tid, ip: int)
    requires Executing(s, c) && OpOk(s, c, Spawn(u, ip))
    ensures Startable(s, u) && u !in s.th && Exec(s, c, Spawn(u, ip)) == AddThread(s, u, ip)
  {
  }

  /** The events of the run execute other threads than `t`. */
  ghost predicate NotExecuted(s: Sys, es: seq<Event>, t: Tid)
    requires Inv(s)
    decreases |es|
  {
    es == [] || (Enabled(s, es[0]) && Executed1(s, es[0]) != Some(t) && NotExecuted(Step(s, es[0]), es[1..], t))
  }

  /** Until it is executed for the first time, over any run, a started thread is where it started, or killed there. */
  lemma {:induction false} WaitsAtStart(s: Sys, es: seq<Event>, s': Sys, t: Tid, ip: int)
    requires Inv(s) && t in s.th && s.th[t].state in {Ready, Zombie} && s.th[t].ip == ip
    requires Runs(s, es, s') && NotExecuted(s, es, t)
    ensures t in s'.th && s'.th[t].state in {Ready, Zombie} && s'.th[t].ip == ip
    decreases |es|
  {
    hide Core, Settled, Step, Enabled, Executed1;
    if es != [] {
      StepBystander(s, es[0], t);
      WaitsAtStart(Step(s, es[0]), es[1..], s', t, ip);
    }
  }

  /** So the first cycle of a thread that the host starts executes the instruction at the address it was started with. */
  lemma FirstCycleAtStart(s: Sys, t: Tid, ip: int, es: seq<Event>, s': Sys)
    requires Inv(s) && Enabled(s, Start(t, ip)) && Runs(Step(s, Start(t, ip)), es, s') && NotExecuted(Step(s, Start(t, ip)), es, t)
    requires Inv(s') && Dispatch(s').current == Some(t)
    ensures t in Dispatch(s').th && Dispatch(s').th[t].ip == ip
  {
    hide Core, Settled, Dispatch, AddThread;
    AddStarts(s, t, ip);
    StartIs(s, t, ip);
    WaitsAtStart(Step(s, Start(t, ip)), es, s', t, ip);
    DispatchChosen(s');
  }

  lemma StartIs(s: Sys, t: Tid, ip: int)
    requires Inv(s) && Enabled(s, Start(t, ip))
    ensures Startable(s, t) && Step(s, Start(t, ip)) == AddThread(s, t, ip)
  {
    hide Core, Settled;
  }
}
