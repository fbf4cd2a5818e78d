/** Instructions that block and are tried again, in a program whose instructions stay where they are. */
module SchedRetry {
  import opened Options
  import opened SchedModel
  import opened SchedInv
  import opened SchedRun
  import opened SchedTheorems
  import opened SchedOwn

  /** What stands at an address: a lock with its operand on the stack, one with its operand in memory,
      a join, or anything else. */
  datatype Kind = LockMtxKind | LockMemKind | JoinKind | OtherKind

  /** The program: an address stands for a segment and an offset. */
  type Code = int -> Kind

  function KindOf(op: Op): Kind {
    match op
    case LockMtx(_) => LockMtxKind
    case LockMem(_) => LockMemKind
    case Join(_) => JoinKind
    case _ => OtherKind
  }

  /** The kind of instruction that leaves `lock` pending when it is refused. */
  function KindFor(lock: Option<Mid>): Kind {
    if lock == None then LockMemKind else if lock.value.Managed? then LockMtxKind else JoinKind
  }

  /** A cycle executes the instruction at the executed thread's address. */
  ghost predicate Fetched(code: Code, s: Sys, e: Event)
    requires Inv(s)
  {
    e.Cycle? && Dispatch(s).current.Some? ==> KindOf(e.op) == code(Dispatch(s).th[Dispatch(s).current.value].ip)
  }

  // ------------------------------------------------ the remembered lock

  /** A thread that remembers a lock stands at an instruction that takes it from the stack. */
  ghost predicate Remembers(code: Code, i: TInfo) {
    i.state != Zombie ==>
      && (i.pendingLock.Some? ==> code(i.ip) == KindFor(i.pendingLock))
      && (i.state == Blocked && i.wait.OnBlocker? ==> i.pendingLock == None)
  }

  ghost predicate AllRemember(code: Code, s: Sys) {
    forall t | t in s.th :: Remembers(code, s.th[t])
  }

  /** A try of a lock. */
  ghost predicate Tries(op: Op, m: Mid) {
    Target(op) == Some(m)
  }

  /** What a thread whose operand is popped has pending. */
  function Remembered(op: Op): Option<Mid> {
    if op.LockMem? then None else Target(op)
  }

  lemma RefusedLock(s: Sys, c: Tid, m: Mid)
    requires Executing(s, c) && m in s.mx && !Granted(s, m, c)
    ensures var s' := MutexLock(s, m, c);
            && s'.current == None && c in s'.th && s'.th[c].state == Blocked && s'.th[c].wait == OnMutex(m)
            && s'.th[c].pendingLock == s.th[c].pendingLock && s'.th[c].ip == s.th[c].ip && s'.th[c].depth == s.th[c].depth
  {
  }

  /** The state after the operand is there: a lock from memory pops nothing. */
  ghost function Operand(s: Sys, c: Tid, op: Op): Sys
    requires c in s.th && Target(op).Some?
  {
    if op.LockMem? then s else TakeOperand(s, c, Target(op).value)
  }

  /** The thread itself in that state. */
  ghost function OperandInfo(s: Sys, c: Tid, op: Op): TInfo
    requires c in s.th && Target(op).Some?
  {
    Operand(s, c, op).th[c]
  }

  /** `c` goes on as `i` says, with no lock pending if it was from the stack. */
  ghost predicate GrantedAs(s: Sys, c: Tid, op: Op, i: TInfo) {
    s.current == Some(c) && c in s.th && s.th[c] == i.(pendingLock := if op.LockMem? then i.pendingLock else None)
  }

  /** `c` is blocked on `m`, with address, stack and pending lock as `i` says. */
  ghost predicate RefusedAs(s: Sys, c: Tid, m: Mid, i: TInfo) {
    && c in s.th && s.th[c].state == Blocked && s.th[c].wait == OnMutex(m)
    && s.th[c].pendingLock == i.pendingLock && s.th[c].ip == i.ip && s.th[c].depth == i.depth
  }

  /** What a lock or join does to its own thread, refused or granted. */
  lemma TryOutcome(s: Sys, c: Tid, op: Op, m: Mid)
    requires Executing(s, c) && OpOk(s, c, op) && Tries(op, m)
    ensures m in s.mx
    ensures if Granted(s, m, c) then GrantedAs(Exec(s, c, op), c, op, OperandInfo(s, c, op))
            else Exec(s, c, op) == MutexLock(Operand(s, c, op), m, c)
  {
    hide Core;
    TargetKnown(s, c, op);
    if op.Join? {
      if Granted(s, m, c) { ExecJoinGranted(s, c, op.u); } else { ExecJoinRefused(s, c, op.u); }
    }
  }

  lemma CycleAfterRefusal(s: Sys, c: Tid, op: Op, next: Next)
    requires Executing(s, c) && Settled(s) && OpOk(s, c, op) && (op.Suspend? ==> !Ends(s.th[c].ip, next))
    requires Exec(s, c, op).current == None
    ensures CycleOf(s, c, op, next) == Exec(s, c, op)
  {
    hide Core, Settled, Exec, OpOk;
  }

  lemma CycleAfterGrant(s: Sys, c: Tid, op: Op)
    requires Executing(s, c) && Settled(s) && OpOk(s, c, op) && !op.Suspend?
    requires var s1 := Exec(s, c, op); s1.current == Some(c) && c in s1.th && s1.th[c].state == Running && !Ends(s1.th[c].ip, Hop)
    ensures var s1 := Exec(s, c, op); var s' := CycleOf(s, c, op, Hop); c in s'.th && s'.th[c] == s1.th[c].(ip := s1.th[c].ip + 2)
  {
    hide Core, Settled, Exec, OpOk;
  }

  lemma RefusedExec(s: Sys, c: Tid, m: Mid, op: Op)
    requires Executing(s, c) && OpOk(s, c, op) && Tries(op, m) && m in s.mx && !Granted(s, m, c)
    ensures Exec(s, c, op).current == None && RefusedAs(Exec(s, c, op), c, m, OperandInfo(s, c, op))
  {
    hide Core, Exec, OpOk, MutexLock;
    TryOutcome(s, c, op, m);
    if !op.LockMem? { TakeOperandCore(s, c, m); }
    RefusedLock(Operand(s, c, op), c, m);
  }

  /** A refused thread is blocked on the lock at the same instruction, its operand popped once. */
  lemma RefusedCycle(s: Sys, c: Tid, m: Mid, op: Op, next: Next)
    requires Executing(s, c) && Settled(s) && OpOk(s, c, op) && Tries(op, m) && m in s.mx && !Granted(s, m, c)
    ensures RefusedAs(CycleOf(s, c, op, next), c, m, OperandInfo(s, c, op))
  {
    hide Core, Settled, Exec, OpOk, CycleOf, Operand, RefusedAs;
    RefusedExec(s, c, m, op);
    CycleAfterRefusal(s, c, op, next);
  }

  /** The executed thread still stands at the instruction of the lock it remembers, if it remembers one. */
  lemma OwnRemembers(code: Code, s: Sys, c: Tid, op: Op, next: Next)
    requires Executing(s, c) && Settled(s) && OpOk(s, c, op) && (op.Suspend? ==> !Ends(s.th[c].ip, next))
    requires Remembers(code, s.th[c]) && KindOf(op) == code(s.th[c].ip)
    ensures c in CycleOf(s, c, op, next).th && Remembers(code, CycleOf(s, c, op, next).th[c])
  {
    hide Core, Settled, CycleOf, OpOk, Granted;
    CycleOwn(s, c, op, next);
    if Target(op).Some? && !Granted(s, Target(op).value, c) {
      RefusedCycle(s, c, Target(op).value, op, next);
      if op.LockMtx? { LockedManaged(s, c, op); }
    }
  }

  lemma LockedManaged(s: Sys, c: Tid, op: Op)
    requires c in s.th && OpOk(s, c, op) && op.LockMtx?
    ensures op.m.Managed?
  {
  }

  lemma BystanderRemembers(code: Code, i: TInfo, j: TInfo)
    requires Remembers(code, i) && Bystander(i, j)
    ensures Remembers(code, j)
  {
  }

  lemma FreshRemembers(s: Sys, t: Tid, ip: int)
    requires Startable(s, t)
    ensures var s' := AddThread(s, t, ip);
            s'.th.Keys == s.th.Keys + {t} && s'.th[t].pendingLock == None
  {
  }

  /** In a fixed program, every event keeps each thread with a remembered lock at the instruction of that lock. */
  lemma StepRemembers(code: Code, s: Sys, e: Event)
    requires Inv(s) && Enabled(s, e) && Fetched(code, s, e) && AllRemember(code, s)
    ensures AllRemember(code, Step(s, e))
  {
    hide Core, Settled, Remembers, Bystander;
    forall t | t in Step(s, e).th ensures Remembers(code, Step(s, e).th[t]) {
      if t in s.th && Executed1(s, e) != Some(t) {
        StepBystander(s, e, t);
        BystanderRemembers(code, s.th[t], Step(s, e).th[t]);
      } else if t in s.th {
        ExecutedRemembers(code, s, e, t);
      } else {
        NewRemembers(code, s, e, t);
      }
    }
  }

  lemma ExecutedRemembers(code: Code, s: Sys, e: Event, t: Tid)
    requires Inv(s) && Enabled(s, e) && Fetched(code, s, e) && t in s.th && Executed1(s, e) == Some(t) && Remembers(code, s.th[t])
    ensures t in Step(s, e).th && Remembers(code, Step(s, e).th[t])
  {
    hide Core, Settled, Dispatch, CycleOf, OpOk;
    DispatchChosen(s);
    OwnRemembers(code, Dispatch(s), t, e.op, e.next);
  }

  lemma NewRemembers(code: Code, s: Sys, e: Event, t: Tid)
    requires Inv(s) && Enabled(s, e) && t !in s.th && t in Step(s, e).th
    ensures Remembers(code, Step(s, e).th[t])
  {
    hide Core, Settled, Dispatch, CycleOf, OpOk, AddThread, ExecResume, Bystander;
    match e
    case Cycle(op, next) =>
      DispatchChosen(s);
      var s1 := Dispatch(s);
      CycleOwn(s1, s1.current.value, op, next);
    case Start(u, ip) =>
      FreshRemembers(s, u, ip);
    case Arrive(b) =>
      ResumeKeys(s, b);
  }

  lemma ResumeKeys(s: Sys, b: Bid)
    requires Core(s) && b in s.bl
    ensures ExecResume(s, b).th.Keys == s.th.Keys
  {
    CoreKnows(s);
    ResumeFacts(s, b);
  }

  ghost predicate FetchedRun(code: Code, s: Sys, es: seq<Event>)
    requires Inv(s)
    decreases |es|
  {
    es == [] || (Enabled(s, es[0]) && Fetched(code, s, es[0]) && FetchedRun(code, Step(s, es[0]), es[1..]))
  }

  /** Over every run of a fixed program, each thread with a remembered lock stands at the instruction of that lock. */
  lemma {:induction false} RunRemembers(code: Code, s: Sys, es: seq<Event>, s': Sys)
    requires Inv(s) && Runs(s, es, s') && FetchedRun(code, s, es) && AllRemember(code, s)
    ensures AllRemember(code, s')
    decreases |es|
  {
    if es != [] {
      StepRemembers(code, s, es[0]);
      RunRemembers(code, Step(s, es[0]), es[1..], s');
    }
  }

  /** So a thread that remembers a lock executes nothing but that lock, or that join, again. */
  lemma RetriesTheSame(code: Code, es: seq<Event>, s: Sys, e: Event, t: Tid)
    requires FromBoot(es, s) && FetchedRun(code, Boot, es)
    requires Inv(s) && Enabled(s, e) && Fetched(code, s, e)
    requires Executed1(s, e) == Some(t) && t in s.th && s.th[t].pendingLock.Some?
    ensures Target(e.op) == s.th[t].pendingLock && !e.op.LockMem?
  {
    hide Core, Settled, Dispatch;
    RunRemembers(code, Boot, es, s);
    DispatchChosen(s);
    assert Remembers(code, s.th[t]);
  }

  // --------------------------------------------------------- trying again

  /** `t` is between the first try and the success of a lock: still at instruction `ip`, which is the lock's,
      with `lock` pending (none if the operand is in memory), and a data stack of `d` entries. */
  ghost predicate MidLock(code: Code, s: Sys, t: Tid, lock: Option<Mid>, ip: int, d: int) {
    && t in s.th && s.th[t].pendingLock == lock && s.th[t].ip == ip && s.th[t].depth == d
    && (s.th[t].state == Blocked ==> s.th[t].wait.OnMutex?)
    && code(ip) == KindFor(lock)
  }

  /** In this event, `t` executes a lock or join and is granted it. */
  ghost predicate GetsThrough(s: Sys, e: Event, t: Tid)
    requires Inv(s)
  {
    && e.Cycle? && Executed1(s, e) == Some(t) && Target(e.op).Some?
    && Target(e.op).value in Dispatch(s).mx && Granted(Dispatch(s), Target(e.op).value, t)
  }

  lemma KindTries(s: Sys, c: Tid, op: Op, lock: Option<Mid>)
    requires c in s.th && OpOk(s, c, op) && KindOf(op) == KindFor(lock) && s.th[c].pendingLock == lock
    ensures Target(op).Some? && (lock.Some? ==> Target(op) == lock) && (lock == None <==> op.LockMem?)
  {
  }

  /** While it is refused, each retry leaves `t` at the same instruction with the same stack. */
  lemma RetryStep(code: Code, s: Sys, e: Event, t: Tid, lock: Option<Mid>, ip: int, d: int)
    requires Inv(s) && Enabled(s, e) && Fetched(code, s, e) && MidLock(code, s, t, lock, ip, d) && !GetsThrough(s, e, t)
    ensures MidLock(code, Step(s, e), t, lock, ip, d)
  {
    hide Core, Settled, Dispatch, CycleOf, OpOk;
    if Executed1(s, e) != Some(t) {
      StepBystander(s, e, t);
    } else {
      DispatchChosen(s);
      var s1 := Dispatch(s);
      KindTries(s1, t, e.op, lock);
      TargetKnown(s1, t, e.op);
      RefusedCycle(s1, t, Target(e.op).value, e.op, e.next);
    }
  }

  ghost predicate Refused(code: Code, s: Sys, es: seq<Event>, t: Tid)
    requires Inv(s)
    decreases |es|
  {
    es == [] || (Enabled(s, es[0]) && Fetched(code, s, es[0]) && !GetsThrough(s, es[0], t) && Refused(code, Step(s, es[0]), es[1..], t))
  }

  /** Over any run in which `t` does not get through, it pops its operand no second time and stays put. */
  lemma {:induction false} RetryRun(code: Code, s: Sys, es: seq<Event>, s': Sys, t: Tid, lock: Option<Mid>, ip: int, d: int)
    requires Inv(s) && Runs(s, es, s') && MidLock(code, s, t, lock, ip, d) && Refused(code, s, es, t)
    ensures MidLock(code, s', t, lock, ip, d)
    decreases |es|
  {
    if es != [] {
      RetryStep(code, s, es[0], t, lock, ip, d);
      RetryRun(code, Step(s, es[0]), es[1..], s', t, lock, ip, d);
    }
  }

  /** The first try pops the operand, if it is on the stack: either it gets through and hops, or it is mid-lock
      at the same instruction. */
  lemma FirstTry(code: Code, s: Sys, c: Tid, op: Op)
    requires Executing(s, c) && Settled(s) && OpOk(s, c, op) && s.th[c].pendingLock == None
    requires Target(op).Some? && KindOf(op) == code(s.th[c].ip)
    ensures Target(op).value in s.mx
    ensures var s' := CycleOf(s, c, op, Hop); var i := s.th[c]; var d := i.depth - if op.LockMem? then 0 else 1;
            if Granted(s, Target(op).value, c) then !Ends(i.ip, Hop) ==> c in s'.th && s'.th[c] == i.(depth := d, ip := i.ip + 2)
            else MidLock(code, s', c, Remembered(op), i.ip, d)
  {
    hide Core, Settled, CycleOf, Exec, OpOk;
    TargetKnown(s, c, op);
    var m := Target(op).value;
    TryOutcome(s, c, op, m);
    if Granted(s, m, c) {
      if !Ends(s.th[c].ip, Hop) { CycleAfterGrant(s, c, op); }
    } else {
      if op.LockMtx? { LockedManaged(s, c, op); }
      RefusedCycle(s, c, m, op, Hop);
    }
  }

  /** Getting through after any number of retries hops to the next instruction and pops nothing more. */
  lemma LastTry(code: Code, s: Sys, c: Tid, op: Op, lock: Option<Mid>, d: int)
    requires Executing(s, c) && Settled(s) && OpOk(s, c, op) && MidLock(code, s, c, lock, s.th[c].ip, d)
    requires KindOf(op) == code(s.th[c].ip)
    ensures Target(op).Some? && Target(op).value in s.mx
    ensures Granted(s, Target(op).value, c) && !Ends(s.th[c].ip, Hop) ==>
              var s' := CycleOf(s, c, op, Hop); var i := s.th[c];
              c in s'.th && s'.th[c] == i.(pendingLock := None, ip := i.ip + 2) && s'.th[c].depth == d
  {
    hide Core, Settled, Exec, OpOk, CycleOf;
    KindTries(s, c, op, lock);
    TargetKnown(s, c, op);
    TryOutcome(s, c, op, Target(op).value);
    if Granted(s, Target(op).value, c) && !Ends(s.th[c].ip, Hop) { CycleAfterGrant(s, c, op); }
  }
}
