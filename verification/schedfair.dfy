/** Bounded waiting: the round-robin order of quiet cycles, in closed form. */
module SchedFair {
  import opened Options
  import opened SchedModel
  import opened SchedInv
  import opened SchedRun
  import opened SchedTheorems
  import opened SchedOwn

  /** No running thread is in a critical section. */
  ghost predicate Quiet(s: Sys) {
    forall t | t in s.running :: t in s.th && !s.th[t].critical
  }

  /** A cycle, of whatever instruction, that leaves the ready and running lists and the length of a slice as
      they are, and the executed thread current, running and out of critical sections. */
  ghost predicate QuietEvent(s: Sys, e: Event)
    requires Inv(s) && Enabled(s, e)
  {
    e.Cycle? &&
    var s' := Step(s, e);
    && s'.running == s.running && s'.ready == s.ready && s'.timeslice == s.timeslice
    && s'.current == Dispatch(s).current
    && (s'.current.Some? ==> s'.current.value in s'.th && !s'.th[s'.current.value].critical)
  }

  /** The round robin stands at position `k` of the running list with `r` cycles of slice left. */
  ghost predicate At(s: Sys, k: nat, r: nat) {
    && k < |s.running|
    && (if s.current.Some? && s.current.value in s.th && s.th[s.current.value].state == Running
        then s.running[k] == s.current.value && r == (if s.th[s.current.value].remaining > 0 then s.th[s.current.value].remaining else 0)
        else k == |s.running| - 1 && r == 0)
  }

  /** Positions go round: `x` counted past the end of a list of `n` starts over. */
  function Wrap(x: nat, n: nat): nat {
    if x < n then x else x - n
  }

  /** The position of the thread the next cycle runs. */
  function NextAt(k: nat, r: nat, n: nat): nat {
    if r > 0 then k else Wrap(k + 1, n)
  }

  function NextLeft(r: nat, ts: nat): nat
    requires ts > 0
  {
    if r > 0 then r - 1 else ts - 1
  }

  lemma {:induction false} AfterAt(l: seq<Tid>, k: nat)
    requires NoDup(l) && k < |l|
    ensures After(l, l[k]) == if k + 1 < |l| then Some(l[k + 1]) else None
  {
    if k > 0 {
      assert l[0] != l[k];
      assert l[1..][k - 1] == l[k];
      AfterAt(l[1..], k - 1);
    }
  }

  lemma QuietNext(s: Sys, k: nat, r: nat)
    requires NoDup(s.running) && s.running != [] && At(s, k, r) && (s.current.Some? ==> s.current.value in s.th)
    requires s.current.Some? && s.th[s.current.value].state == Running ==> !s.th[s.current.value].critical
    ensures KeepsRunning(s) <==> r > 0
    ensures r == 0 ==> NextRunning(s) == Some(s.running[Wrap(k + 1, |s.running|)])
  {
    AfterAt(s.running, k);
  }

  lemma QuietPick(s: Sys, c: Tid)
    requires s.current.Some? ==> s.current.value in s.th
    requires forall t | t in s.ready :: t in s.th
    requires NextRunning(s) == Some(c) && (s.ready == [] || c.prio > s.ready[0].prio)
    ensures Pick(s) == s.(current := Some(c))
  {
  }

  /** `c` stands at the next position. */
  predicate StandsNext(s: Sys, k: nat, r: nat, c: Tid) {
    k < |s.running| && s.running[NextAt(k, r, |s.running|)] == c
  }

  /** In `s1` thread `c` runs, and only its slice differs from `s`. */
  ghost predicate RunsNext(s: Sys, s1: Sys, c: Tid, r: nat) {
    && c in s.th && s.th[c].state == Running && (r > 0 ==> s.th[c].remaining == r)
    && s1 == s.(current := Some(c), th := s.th[c := s.th[c].(remaining := if r > 0 then r - 1 else s.timeslice - 1)])
  }

  // ------------------------------------------ a quiet cycle promotes nobody

  lemma ExitNotReady(s: Sys, c: Tid)
    requires Executing(s, c)
    ensures var s' := SetState(s, c, Dying); c in s'.th && s'.th[c].state == Dying
  {
  }

  lemma ExecNotReady(s: Sys, c: Tid, op: Op)
    requires Executing(s, c) && OpOk(s, c, op)
    ensures var s' := Exec(s, c, op); s'.current == Some(c) && c in s'.th ==> s'.th[c].state != Ready
  {
    hide Core, OpOk, ExecMutex, ExecMake, ExecKillOp, ExecYield, ExecCritical, BlockerSuspend, ExecResume, SetState;
    if op == Exit {
      ExitNotReady(s, c);
    } else if op.Suspend? {
      SuspendCurrent(s, c, op.b);
    } else {
      ExecStillRuns(s, c, op);
    }
  }

  lemma RestNotReady(s: Sys, c: Tid, next: Next)
    requires Executed(s, c, next) && (s.current == Some(c) ==> s.th[c].state != Ready)
    ensures var s' := Advance(s, c, next); c in s'.th && s'.current == s.current && (s'.current == Some(c) ==> s'.th[c].state != Ready)
  {
    hide Core;
    AdvanceExecuted(s, c, next);
  }

  lemma BuryNotReady(s: Sys, c: Tid)
    requires Core(s) && c in s.th && (s.current == Some(c) ==> s.th[c].state != Ready)
    ensures var s' := Bury(s, c); c in s'.th && (s'.current == Some(c) ==> s'.th[c].state != Ready)
  {
    if s.current.Some? && s.th[c].state == Dying {
      ExecKillKept(s, c);
      assert ExecKill(s, c) == Bury(s, c);
    }
  }

  /** A thread that is still current after its cycle is not on the ready list. */
  lemma CycleNotReady(s: Sys, c: Tid, op: Op, next: Next)
    requires Executing(s, c) && Settled(s) && OpOk(s, c, op) && (op.Suspend? ==> !Ends(s.th[c].ip, next))
    ensures var s' := CycleOf(s, c, op, next); s'.current == Some(c) && c in s'.th ==> s'.th[c].state != Ready
  {
    hide Core, Exec, OpOk, Advance, Bury;
    ExecExecuted(s, c, op, next);
    ExecNotReady(s, c, op);
    AdvanceExecuted(Exec(s, c, op), c, next);
    RestNotReady(Exec(s, c, op), c, next);
    BuryNotReady(Advance(Exec(s, c, op), c, next), c);
  }

  /** The scheduler is about to promote the head of the ready list. */
  ghost predicate Promotes(s: Sys)
    requires s.current.Some? ==> s.current.value in s.th
  {
    !KeepsRunning(s) && s.ready != [] && (NextRunning(s) == None || NextRunning(s).value.prio <= s.ready[0].prio)
  }

  lemma PromotedDispatch(s: Sys)
    requires Inv(s) && (s.current.Some? ==> s.current.value in s.th) && Promotes(s)
    ensures Dispatch(s).current == Some(s.ready[0])
  {
    hide Core, Settled, NextRunning;
    CoreKnows(s);
    assert s.ready[0] in s.ready;
    StateKeeps(s.(current := Some(s.ready[0])), s.ready[0]);
  }

  lemma StateKeeps(s: Sys, t: Tid)
    requires t in s.th
    ensures SetState(s, t, Running).current == s.current && t in SetState(s, t, Running).th
  {
  }

  lemma OnReady(s: Sys, t: Tid)
    requires Core(s) && t in s.ready
    ensures t in s.th && s.th[t].state == Ready
  {
  }

  /** If it did, the cycle would not leave the ready list as it is. */
  lemma QuietNeverPromotes(s: Sys, e: Event)
    requires Inv(s) && Enabled(s, e) && QuietEvent(s, e)
    ensures (s.current.Some? ==> s.current.value in s.th) && !Promotes(s)
  {
    hide Core, Settled, Promotes, Dispatch, CycleOf, OpOk;
    CoreKnows(s);
    if Promotes(s) {
      PromotedHead(s);
      PromotedDispatch(s);
      CycleNotReady(Dispatch(s), s.ready[0], e.op, e.next);
      OnReady(Step(s, e), s.ready[0]);
      assert false;
    }
  }

  lemma PromotedHead(s: Sys)
    requires (s.current.Some? ==> s.current.value in s.th) && Promotes(s)
    ensures s.ready != [] && s.ready[0] in s.ready
  {
  }

  /** A quiet cycle runs the thread at the next position. */
  lemma QuietDispatch(s: Sys, e: Event, k: nat, r: nat, c: Tid)
    requires Inv(s) && Quiet(s) && At(s, k, r) && StandsNext(s, k, r, c) && Enabled(s, e) && QuietEvent(s, e)
    ensures RunsNext(s, Dispatch(s), c, r)
  {
    hide Core, Settled, Quiet, At, RunsNext, Dispatch, StandsNext, QuietEvent, Enabled, Promotes;
    QuietNeverPromotes(s, e);
    RunningKnown(s);
    NextStands(s, k, r, c);
    CoreKnows(s);
    QuietSchedule(s, k, r, c);
    DispatchRuns(s, c, r);
  }

  lemma NextStands(s: Sys, k: nat, r: nat, c: Tid)
    requires StandsNext(s, k, r, c)
    ensures c in s.running
  {
  }

  lemma DispatchRuns(s: Sys, c: Tid, r: nat)
    requires Inv(s) && c in s.th && s.th[c].state == Running && (r > 0 ==> s.th[c].remaining == r)
    requires (forall t | t in s.ready :: t in s.th) && (forall t | t in s.running :: t in s.th)
    requires s.current.Some? ==> s.current.value in s.th
    requires Schedule(s) == s.(current := Some(c), th := s.th[c := s.th[c].(remaining := if r > 0 then r else s.timeslice)])
    ensures RunsNext(s, Dispatch(s), c, r)
  {
    hide Core, Settled, Schedule;
  }

  lemma RunningKnown(s: Sys)
    requires Core(s)
    ensures NoDup(s.running)
  {
  }

  lemma QuietSchedule(s: Sys, k: nat, r: nat, c: Tid)
    requires NoDup(s.running) && Quiet(s) && At(s, k, r) && StandsNext(s, k, r, c) && c in s.running
    requires (s.current.Some? ==> s.current.value in s.th) && !Promotes(s)
    requires forall t | t in s.running :: t in s.th && s.th[t].state == Running
    requires forall t | t in s.ready :: t in s.th
    ensures Schedule(s) == s.(current := Some(c), th := s.th[c := s.th[c].(remaining := if r > 0 then r else s.timeslice)])
    ensures r > 0 ==> s.th[c].remaining == r
  {
    if s.current.Some? && s.th[s.current.value].state == Running { assert s.running[k] in s.running; }
    QuietNext(s, k, r);
    if r == 0 { QuietPick(s, c); }
    hide Pick, NextRunning;
  }

  /** The bundle that a quiet cycle turns over. */
  ghost predicate Standing(s: Sys, k: nat, r: nat, running: seq<Tid>, ts: nat) {
    true == (Quiet(s) && At(s, k, r) && s.running == running && s.timeslice == ts)
  }

  /** A thread that was woken is on the ready list, where it was not before. */
  lemma WokenShows(s: Sys, s': Sys)
    requires Core(s) && Core(s') && SomebodyWoke(s, s')
    ensures s'.ready != s.ready
  {
    var p :| p in s.th && s.th[p].state == Blocked && p in s'.th && s'.th[p].state == Ready;
    assert p in s'.ready && p !in s.ready;
  }

  /** A quiet cycle uses up one unit of the slice of the thread it executes. */
  lemma QuietSlice(s: Sys, e: Event, c: Tid)
    requires Inv(s) && Enabled(s, e) && QuietEvent(s, e) && Executed1(s, e) == Some(c)
    requires Dispatch(s).ready == s.ready && Dispatch(s).running == s.running
    ensures var s' := Step(s, e);
            c in Dispatch(s).th && c in s'.th && s'.th[c].state == Running && s'.th[c].remaining == Dispatch(s).th[c].remaining
  {
    hide Settled, Dispatch, CycleOf, OpOk, Placed, Mutexes, Joins, Counted;
    var s1 := Dispatch(s);
    CycleOwn(s1, c, e.op, e.next);
    OnRunning(s1, c);
    OnRunning(Step(s, e), c);
    if SomebodyWoke(s1, Step(s, e)) { WokenShows(s1, Step(s, e)); }
  }

  lemma OnRunning(s: Sys, c: Tid)
    requires Core(s)
    ensures c in s.running <==> c in s.th && s.th[c].state == Running
  {
  }

  /** A quiet cycle executes the thread whose turn it is, and moves the turn on. */
  lemma QuietStep(s: Sys, e: Event, k: nat, r: nat, running: seq<Tid>, ts: nat)
    requires Inv(s) && Standing(s, k, r, running, ts) && ts > 0
    requires Enabled(s, e) && QuietEvent(s, e)
    ensures NextAt(k, r, |running|) < |running| && Executed1(s, e) == Some(running[NextAt(k, r, |running|)])
    ensures Standing(Step(s, e), NextAt(k, r, |running|), NextLeft(r, ts), running, ts)
  {
    hide Core, Settled, Dispatch, Step, Enabled, Bystander, OpOk, QuietEvent;
    QuietShows(s, e);
    var c := running[NextAt(k, r, |running|)];
    QuietDispatch(s, e, k, r, c);
    QuietSlice(s, e, c);
    forall t | t in running && t != c ensures t in Step(s, e).th && !Step(s, e).th[t].critical {
      StepBystander(s, e, t);
      BystanderCritical(s.th[t], Step(s, e).th[t]);
    }
    StayQuiet(s, Step(s, e), c, k, r);
  }

  /** What a quiet cycle leaves. */
  lemma QuietShows(s: Sys, e: Event)
    requires Inv(s) && Enabled(s, e) && QuietEvent(s, e)
    ensures var s' := Step(s, e);
            && s'.running == s.running && s'.ready == s.ready && s'.timeslice == s.timeslice && s'.current == Dispatch(s).current
            && (s'.current.Some? ==> s'.current.value in s'.th && !s'.th[s'.current.value].critical)
            && Executed1(s, e) == Dispatch(s).current
  {
    hide Step, Dispatch, Enabled;
  }

  lemma BystanderCritical(i: TInfo, j: TInfo)
    requires Bystander(i, j)
    ensures j.critical == i.critical
  {
  }

  lemma StayQuiet(s: Sys, s': Sys, c: Tid, k: nat, r: nat)
    requires Quiet(s) && k < |s.running| && c == s.running[NextAt(k, r, |s.running|)] && s.timeslice > 0
    requires s'.running == s.running && s'.ready == s.ready && s'.timeslice == s.timeslice && s'.current == Some(c)
    requires forall t | t in s.running :: t in s'.th && !s'.th[t].critical
    requires c in s'.th && s'.th[c].state == Running && s'.th[c].remaining == if r > 0 then r - 1 else s.timeslice - 1
    ensures Quiet(s') && At(s', NextAt(k, r, |s.running|), NextLeft(r, s.timeslice))
  {
  }

  // ---------------------------------------------------------- many cycles

  ghost predicate QuietRun(s: Sys, es: seq<Event>)
    requires Inv(s)
    decreases |es|
  {
    es == [] || (Enabled(s, es[0]) && QuietEvent(s, es[0]) && QuietRun(Step(s, es[0]), es[1..]))
  }

  lemma {:induction false} QuietEnabled(s: Sys, es: seq<Event>)
    requires Inv(s) && QuietRun(s, es)
    ensures EnabledRun(s, es)
    decreases |es|
  {
    hide Inv, Enabled, Step, QuietEvent;
    if es != [] { QuietEnabled(Step(s, es[0]), es[1..]); }
  }

  /** The position that runs in cycle number `i`. */
  function TurnAt(k: nat, r: nat, n: nat, ts: nat, i: nat): nat
    requires ts > 0
    decreases i
  {
    if i == 0 then NextAt(k, r, n) else TurnAt(NextAt(k, r, n), NextLeft(r, ts), n, ts, i - 1)
  }

  lemma {:induction false} ExecutedIsTurn(s: Sys, es: seq<Event>, k: nat, r: nat, i: nat, running: seq<Tid>, ts: nat)
    requires Inv(s) && Standing(s, k, r, running, ts) && ts > 0 && QuietRun(s, es) && i < |es|
    ensures EnabledRun(s, es)
    ensures TurnAt(k, r, |running|, ts, i) < |running|
    ensures ExecutedAt(s, es, i) == Some(running[TurnAt(k, r, |running|, ts, i)])
    decreases i
  {
    hide Core, Settled, Standing, Enabled, Step, QuietEvent;
    QuietEnabled(s, es);
    QuietStep(s, es[0], k, r, running, ts);
    if i > 0 { ExecutedIsTurn(Step(s, es[0]), es[1..], NextAt(k, r, |running|), NextLeft(r, ts), i - 1, running, ts); }
  }

  /** Running out the current slice moves on to the next position. */
  lemma {:induction false} TurnSlice(k: nat, r: nat, n: nat, ts: nat, i: nat)
    requires n > 0 && ts > 0 && k < n
    ensures TurnAt(k, r, n, ts, r + i) == TurnAt(k, 0, n, ts, i)
    ensures r > 0 ==> TurnAt(k, r, n, ts, 0) == k
    decreases r
  {
    if r > 0 { TurnSlice(k, r - 1, n, ts, i); }
  }

  /** Each full slice moves on by one position. */
  lemma {:induction false} TurnRound(k: nat, n: nat, ts: nat, d: nat)
    requires ts > 0 && k < n && d < n
    ensures TurnAt(k, 0, n, ts, d * ts) == Wrap(k + 1 + d, n)
    decreases d
  {
    if d > 0 {
      var rest := (d - 1) * ts;
      assert d * ts == 1 + (ts - 1 + rest);
      TurnSlice(Wrap(k + 1, n), ts - 1, n, ts, rest);
      TurnRound(Wrap(k + 1, n), n, ts, d - 1);
    }
  }

  /** Every running thread is executed within as many cycles as there are running threads times the
      slice, whoever stands first, as long as no more than one slice is left to it. */
  lemma BoundedWaiting(s: Sys, es: seq<Event>, k: nat, r: nat, j: nat)
    requires Inv(s) && Quiet(s) && QuietRun(s, es) && At(s, k, r) && r <= s.timeslice
    requires |es| >= |s.running| * s.timeslice && j < |s.running|
    ensures EnabledRun(s, es)
    ensures exists i: nat :: i < |s.running| * s.timeslice && i < |es| && ExecutedAt(s, es, i) == Some(s.running[j])
  {
    assert s.timeslice > 0;
    hide Core, Settled, Quiet;
    var i := FirstTurn(k, r, |s.running|, s.timeslice, j);
    ExecutedIsTurn(s, es, k, r, i, s.running, s.timeslice);
  }

  lemma FirstTurn(k: nat, r: nat, n: nat, ts: nat, j: nat) returns (i: nat)
    requires ts > 0 && k < n && j < n && r <= ts
    ensures i < n * ts && TurnAt(k, r, n, ts, i) == j
  {
    if j == k && r > 0 {
      i := 0;
      TurnSlice(k, r, n, ts, 0);
      MulLe(1, n, ts);
    } else {
      var d := if j > k then j - k - 1 else n - 1 - (k - j);
      i := r + d * ts;
      TurnSlice(k, r, n, ts, d * ts);
      TurnRound(k, n, ts, d);
      MulLe(if r > 0 then d + 2 else d + 1, n, ts);
      assert (d + 1) * ts == d * ts + ts && (d + 2) * ts == d * ts + ts + ts;
    }
  }

  lemma MulLe(a: int, b: int, c: nat)
    requires a <= b
    ensures a * c <= b * c
  {
    assert (b - a) * c >= 0;
    assert b * c == a * c + (b - a) * c;
  }
}
