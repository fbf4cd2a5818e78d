/** Calls, closures and exception catchers of one thread. */
module Unwinding {
  import opened Options

  /** A return address, with a flag that tells whether the callee runs in a closure. */
  datatype Frame = Frame(cs: nat, ip: nat, hasClosure: bool)

  /** A handler, with the height of the call stack when it was installed. */
  datatype Catcher = Catcher(cs: nat, ip: nat, height: nat)

  datatype Status = Alive | Dying | Fatal
  datatype State = State(cs: nat, ip: nat, jmpSeg: nat, jmpOfs: nat, calls: seq<Frame>, closures: seq<nat>,
                         catchers: seq<Catcher>, status: Status)

  /** The instructions that steer; every other one is `Plain`. */
  datatype Op =
    | Plain
    | Jump(ofs: nat)
    | CallLabel(ofs: nat)
    | CallFun(cs: nat, at: nat, closure: Option<nat>)
    | Ret
    | InstCatcher(ofs: nat)
    | UninstCatcher(ofs: nat)
    | Throw

  // ------------------------------------------------------- one instruction

  function PushCaller(s: State, flag: bool): State {
    s.(calls := s.calls + [Frame(s.cs, s.ip, flag)])
  }

  /** Pop a caller and its closure, if it has one. */
  function PopTop(s: State): State
    requires s.calls != []
  {
    var k := |s.calls| - 1;
    s.(calls := s.calls[..k],
       closures := if s.calls[k].hasClosure && s.closures != [] then s.closures[..|s.closures| - 1] else s.closures)
  }

  /** Pop `n` callers, with their closures. */
  function PopCallers(s: State, n: nat): State
    requires n <= |s.calls|
    decreases n
  {
    if n == 0 then s else PopCallers(PopTop(s), n - 1)
  }

  /** Take the last catcher: jump to its handler and pop the callers above its height. */
  function Raise(s: State): State {
    if s.catchers == [] then s.(status := Fatal)
    else
      var c := s.catchers[|s.catchers| - 1];
      PopCallers(s.(catchers := s.catchers[..|s.catchers| - 1], jmpSeg := c.cs, jmpOfs := c.ip),
                 if |s.calls| > c.height then |s.calls| - c.height else 0)
  }

  function Execute(s: State, op: Op): State {
    match op
    case Plain => s
    case Jump(ofs) => s.(jmpOfs := ofs)
    case CallLabel(ofs) => PushCaller(s, false).(jmpOfs := ofs)
    case CallFun(cs, at, closure) =>
      var s' := PushCaller(s, closure.Some?).(jmpSeg := cs, jmpOfs := at);
      if closure.Some? then s'.(closures := s.closures + [closure.value]) else s'
    case Ret =>
      if s.calls == [] then s.(status := Dying)
      else
        var f := s.calls[|s.calls| - 1];
        PopCallers(s, 1).(jmpSeg := f.cs, jmpOfs := f.ip + 2)
    case InstCatcher(ofs) => s.(catchers := s.catchers + [Catcher(s.cs, ofs, |s.calls|)])
    case UninstCatcher(ofs) =>
      if s.catchers == [] then s.(status := Fatal)
      else s.(catchers := s.catchers[..|s.catchers| - 1], jmpSeg := s.cs, jmpOfs := ofs)
    case Throw => Raise(s)
  }

  /** Jump if there is a jump, else go on. */
  function Advance(s: State): State {
    if s.jmpOfs != 0 then s.(cs := s.jmpSeg, ip := s.jmpOfs, jmpOfs := 0) else s.(ip := s.ip + 2)
  }

  function Step(s: State, op: Op): State {
    if s.status == Alive then Advance(Execute(s, op)) else s
  }

  // ----------------------------------------------------------- invariants

  /** How many frames have a closure. */
  ghost function Flagged(f: seq<Frame>): nat {
    if f == [] then 0 else Flagged(f[..|f| - 1]) + if f[|f| - 1].hasClosure then 1 else 0
  }

  /** The closure stack is as deep as there are frames with a closure. */
  ghost predicate Matched(s: State) {
    |s.closures| == Flagged(s.calls)
  }

  lemma {:induction false} FlaggedPrefix(f: seq<Frame>, k: nat)
    requires k <= |f|
    ensures Flagged(f[..k]) <= Flagged(f)
  {
    if k < |f| {
      FlaggedPrefix(f[..|f| - 1], k);
      assert f[..|f| - 1][..k] == f[..k];
    } else {
      assert f[..k] == f;
    }
  }

  lemma PopMatched(s: State)
    requires Matched(s) && s.calls != []
    ensures Matched(PopTop(s)) && Flagged(PopTop(s).calls) <= |s.closures|
    ensures PopTop(s).closures == s.closures[..Flagged(PopTop(s).calls)]
  {
  }

  /** Popping callers leaves the frames below and exactly their closures. */
  lemma {:induction false} PopCuts(s: State, n: nat)
    requires Matched(s) && n <= |s.calls|
    ensures var k := |s.calls| - n;
            && Flagged(s.calls[..k]) <= |s.closures|
            && PopCallers(s, n) == s.(calls := s.calls[..k], closures := s.closures[..Flagged(s.calls[..k])])
    decreases n
  {
    hide Flagged;
    if n == 0 {
      assert s.calls[..|s.calls|] == s.calls && s.closures[..|s.closures|] == s.closures;
    } else {
      var s', k := PopTop(s), |s.calls| - n;
      PopMatched(s);
      PopCuts(s', n - 1);
      assert s'.calls[..k] == s.calls[..k];
      FlaggedPrefix(s'.calls, k);
      assert s.closures[..Flagged(s'.calls)][..Flagged(s.calls[..k])] == s.closures[..Flagged(s.calls[..k])];
    }
  }

  lemma PushMatched(s: State, flag: bool, more: seq<nat>)
    requires Matched(s) && |more| == if flag then 1 else 0
    ensures Matched(PushCaller(s, flag).(closures := s.closures + more))
  {
    assert PushCaller(s, flag).calls[..|s.calls|] == s.calls;
  }

  lemma RaiseMatched(s: State)
    requires Matched(s)
    ensures Matched(Raise(s))
  {
    if s.catchers != [] {
      var c := s.catchers[|s.catchers| - 1];
      PopCuts(s.(catchers := s.catchers[..|s.catchers| - 1], jmpSeg := c.cs, jmpOfs := c.ip),
              if |s.calls| > c.height then |s.calls| - c.height else 0);
    }
  }

  /** Every instruction keeps the closure stack as deep as the frames say. */
  lemma StepMatched(s: State, op: Op)
    requires Matched(s)
    ensures Matched(Step(s, op))
  {
    hide Flagged, Raise, PopCallers;
    match op
    case CallLabel(_) =>
      PushMatched(s, false, []);
      assert s.closures + [] == s.closures;
    case CallFun(_, _, c) =>
      PushMatched(s, c.Some?, if c.Some? then [c.value] else []);
      assert s.closures + [] == s.closures;
    case Ret =>
      if s.calls != [] { PopCuts(s, 1); }
    case Throw => RaiseMatched(s);
    case _ =>
  }

  /** The lower part of the stacks is `calls`, `closures` and `catchers`. */
  ghost predicate Above(s: State, calls: seq<Frame>, closures: seq<nat>, catchers: seq<Catcher>) {
    calls <= s.calls && closures <= s.closures && catchers <= s.catchers && Flagged(calls) == |closures|
  }

  /** What one instruction does to the stacks: it pushes, or it cuts. */
  lemma StepShape(s: State, op: Op)
    requires Matched(s)
    ensures var t := Step(s, op);
            && ((s.calls <= t.calls && s.closures <= t.closures)
                || (t.calls <= s.calls && Flagged(t.calls) <= |s.closures| && t.closures == s.closures[..Flagged(t.calls)]))
            && (s.catchers <= t.catchers || t.catchers <= s.catchers)
  {
    hide Flagged, PopCallers;
    match op
    case Ret =>
      if s.calls != [] { PopCuts(s, 1); }
    case Throw =>
      if s.catchers != [] {
        var c := s.catchers[|s.catchers| - 1];
        PopCuts(s.(catchers := s.catchers[..|s.catchers| - 1], jmpSeg := c.cs, jmpOfs := c.ip),
                if |s.calls| > c.height then |s.calls| - c.height else 0);
      }
    case _ =>
  }

  /** Instructions that do not go below the marked heights leave the lower part alone. */
  lemma StepAbove(s: State, op: Op, calls: seq<Frame>, closures: seq<nat>, catchers: seq<Catcher>)
    requires Matched(s) && Above(s, calls, closures, catchers)
    requires |Step(s, op).calls| >= |calls| && |Step(s, op).catchers| >= |catchers|
    ensures Above(Step(s, op), calls, closures, catchers)
  {
    hide Step;
    StepShape(s, op);
    var t := Step(s, op);
    if t.calls <= s.calls {
      FlaggedPrefix(t.calls, |calls|);
      assert t.calls[..|calls|] == calls;
    }
  }

  function Run(s: State, ops: seq<Op>): State
    decreases ops
  {
    if ops == [] then s else Run(Step(s, ops[0]), ops[1..])
  }

  /** Nowhere along the run are the stacks lower than `h` and `k`. */
  ghost predicate StaysAbove(s: State, ops: seq<Op>, h: nat, k: nat)
    decreases ops
  {
    |s.calls| >= h && |s.catchers| >= k && (ops == [] || StaysAbove(Step(s, ops[0]), ops[1..], h, k))
  }

  lemma {:induction false} RunAbove(s: State, ops: seq<Op>, calls: seq<Frame>, closures: seq<nat>, catchers: seq<Catcher>)
    requires Matched(s) && Above(s, calls, closures, catchers) && StaysAbove(s, ops, |calls|, |catchers|)
    ensures Matched(Run(s, ops)) && Above(Run(s, ops), calls, closures, catchers)
    decreases ops
  {
    hide Step, Above, Matched;
    if ops != [] {
      assert StaysAbove(Step(s, ops[0]), ops[1..], |calls|, |catchers|);
      StepMatched(s, ops[0]);
      StepAbove(s, ops[0], calls, closures, catchers);
      RunAbove(Step(s, ops[0]), ops[1..], calls, closures, catchers);
    }
  }

  /** A throw restores the stacks `calls` and `closures` exactly when they are still below the current ones. */
  lemma RestoresIff(s: State, calls: seq<Frame>, closures: seq<nat>)
    requires Matched(s) && s.catchers != [] && s.catchers[|s.catchers| - 1].height == |calls| && Flagged(calls) == |closures|
    ensures (Raise(s).calls == calls && Raise(s).closures == closures) <==> (calls <= s.calls && closures <= s.closures)
  {
    hide Flagged, PopCallers;
    var c := s.catchers[|s.catchers| - 1];
    var n := if |s.calls| > c.height then |s.calls| - c.height else 0;
    PopCuts(s.(catchers := s.catchers[..|s.catchers| - 1], jmpSeg := c.cs, jmpOfs := c.ip), n);
    if calls <= s.calls && closures <= s.closures {
      assert s.calls[..|calls|] == calls && s.closures[..|closures|] == closures;
    }
    assert Raise(s).calls == s.calls[..|s.calls| - n] && Raise(s).closures <= s.closures;
  }

  /** If the call stack never drops below its height at the installation of a catcher, a throw that takes that
      catcher restores the call and closure stacks of the installation, and resumes at the handler. */
  lemma ThrowRestores(s: State, ofs: nat, ops: seq<Op>)
    requires s.status == Alive && Matched(s)
    requires StaysAbove(Step(s, InstCatcher(ofs)), ops, |s.calls|, |s.catchers| + 1)
    requires var t := Run(Step(s, InstCatcher(ofs)), ops); t.status == Alive && |t.catchers| == |s.catchers| + 1
    ensures var t := Step(Run(Step(s, InstCatcher(ofs)), ops), Throw);
            && t.calls == s.calls && t.closures == s.closures && t.catchers == s.catchers
            && (ofs != 0 ==> t.cs == s.cs && t.ip == ofs)
  {
    hide Flagged, PopCallers, Run;
    var s1 := Step(s, InstCatcher(ofs));
    var c := Catcher(s.cs, ofs, |s.calls|);
    RunAbove(s1, ops, s.calls, s.closures, s.catchers + [c]);
    var t := Run(s1, ops);
    assert t.catchers == s.catchers + [c];
    RestoresIff(t, s.calls, s.closures);
    PopCuts(t.(catchers := s.catchers, jmpSeg := c.cs, jmpOfs := c.ip), |t.calls| - |s.calls|);
    assert t.catchers[..|t.catchers| - 1] == s.catchers;
  }

  /** Returning from the frame of the installation and calling again leaves other frames behind the throw. */
  lemma DropAndRegrow(s: State, ofs: nat)
    requires s.status == Alive && s.calls == [Frame(0, 0, false)] && s.closures == [] && s.catchers == [] && s.jmpOfs == 0
    ensures var t := Step(Step(Step(Step(s, InstCatcher(ofs)), Ret), CallLabel(10)), Throw);
            t.calls == [Frame(0, 2, false)] != s.calls
  {
    hide Step, PopCallers, Flagged;
    var s1 := s.(catchers := [Catcher(s.cs, ofs, 1)], ip := s.ip + 2);
    Installs(s, ofs);
    DropsOne(s1);
    var s2 := s1.(calls := [], jmpSeg := 0, jmpOfs := 0, cs := 0, ip := 2);
    CallsTen(s2);
    var s3 := s2.(calls := [Frame(0, 2, false)], cs := 0, ip := 10);
    ThrowsLevel(s3);
  }

  lemma Installs(s: State, ofs: nat)
    requires s.status == Alive && s.jmpOfs == 0 && s.catchers == [] && |s.calls| == 1
    ensures Step(s, InstCatcher(ofs)) == s.(catchers := [Catcher(s.cs, ofs, 1)], ip := s.ip + 2)
  {
  }

  /** Returning from the only frame. */
  lemma DropsOne(s: State)
    requires s.status == Alive && s.calls == [Frame(0, 0, false)] && s.closures == []
    ensures Step(s, Ret) == s.(calls := [], jmpSeg := 0, jmpOfs := 0, cs := 0, ip := 2)
  {
    assert PopCallers(s, 1) == s.(calls := []);
  }

  lemma CallsTen(s: State)
    requires s.status == Alive && s.calls == [] && s.jmpSeg == s.cs == 0 && s.ip == 2
    ensures Step(s, CallLabel(10)) == s.(calls := [Frame(0, 2, false)], cs := 0, ip := 10, jmpOfs := 0)
  {
  }

  /** A throw to a catcher of the current height pops nothing. */
  lemma ThrowsLevel(s: State)
    requires s.status == Alive && s.catchers != [] && s.catchers[|s.catchers| - 1].height == |s.calls|
    ensures Step(s, Throw).calls == s.calls
  {
  }

  // ---------------------------------------------- where instructions lead

  /** No jump is pending, and the next one stays in the program. */
  ghost predicate Aligned(s: State) {
    s.jmpOfs == 0 && s.jmpSeg == s.cs
  }

  /** What the instruction leads to is at address 0 of another program, which reads as no jump. */
  ghost predicate Misses(s: State, op: Op) {
    match op
    case CallFun(cs, at, _) => at == 0 && cs != s.cs
    case Throw => s.catchers != [] && var c := s.catchers[|s.catchers| - 1]; c.ip == 0 && c.cs != s.cs
    case _ => false
  }

  /** An instruction leaves the thread where its next jump stays in its program if and only if it does not lead to address 0
      of another program. */
  lemma AlignedIff(s: State, op: Op)
    requires s.status == Alive && Aligned(s)
    ensures Aligned(Step(s, op)) <==> !Misses(s, op)
  {
    hide PopCallers;
    PopKeepsPlace(s, op);
  }

  /** Popping callers does not move the thread. */
  lemma {:induction false} PopsOnly(s: State, n: nat)
    requires n <= |s.calls|
    ensures PopCallers(s, n) == s.(calls := PopCallers(s, n).calls, closures := PopCallers(s, n).closures)
    decreases n
  {
    if n > 0 { PopsOnly(PopTop(s), n - 1); }
  }

  lemma PopKeepsPlace(s: State, op: Op)
    ensures op.Ret? && s.calls != [] ==>
              PopCallers(s, 1) == s.(calls := PopCallers(s, 1).calls, closures := PopCallers(s, 1).closures)
    ensures s.catchers != [] ==>
              var c := s.catchers[|s.catchers| - 1];
              var s1 := s.(catchers := s.catchers[..|s.catchers| - 1], jmpSeg := c.cs, jmpOfs := c.ip);
              var n := if |s.calls| > c.height then |s.calls| - c.height else 0;
              PopCallers(s1, n) == s1.(calls := PopCallers(s1, n).calls, closures := PopCallers(s1, n).closures)
  {
    hide PopTop;
    if s.calls != [] { PopsOnly(s, 1); }
    if s.catchers != [] {
      var c := s.catchers[|s.catchers| - 1];
      PopsOnly(s.(catchers := s.catchers[..|s.catchers| - 1], jmpSeg := c.cs, jmpOfs := c.ip),
               if |s.calls| > c.height then |s.calls| - c.height else 0);
    }
  }

  /** Nowhere along the run does an instruction lead to address 0 of another program. */
  ghost predicate NeverMisses(s: State, ops: seq<Op>)
    decreases ops
  {
    ops == [] || (!Misses(s, ops[0]) && NeverMisses(Step(s, ops[0]), ops[1..]))
  }

  /** Over such a run, jumps stay in the program of the thread. */
  lemma {:induction false} RunAligned(s: State, ops: seq<Op>)
    requires Aligned(s) && NeverMisses(s, ops)
    ensures Aligned(Run(s, ops))
    decreases ops
  {
    hide Aligned, Misses, Execute, Advance;
    if ops != [] {
      if s.status == Alive { AlignedIff(s, ops[0]); }
      RunAligned(Step(s, ops[0]), ops[1..]);
    }
  }

  /** A jump, a call within the program and the removal of a catcher go to their offset in the same program. */
  lemma OffsetTargets(s: State, ofs: nat)
    requires s.status == Alive && Aligned(s) && ofs != 0
    ensures Step(s, Jump(ofs)) == s.(ip := ofs)
    ensures Step(s, CallLabel(ofs)) == s.(ip := ofs, calls := s.calls + [Frame(s.cs, s.ip, false)])
    ensures s.catchers != [] ==> Step(s, UninstCatcher(ofs)) == s.(ip := ofs, catchers := s.catchers[..|s.catchers| - 1])
  {
  }

  /** A thread ends if and only if it returns without having been called; a throw or a removal without a catcher is fatal. */
  lemma EndsIff(s: State, op: Op)
    requires s.status == Alive
    ensures Step(s, op).status == (if op.Ret? && s.calls == [] then Dying
                                   else if (op.Throw? || op.UninstCatcher?) && s.catchers == [] then Fatal else Alive)
  {
    hide PopCallers;
    PopKeepsPlace(s, op);
  }

  /** The call of a function goes to its code, in its program, with its closure on top of the closures. */
  lemma FunctionTarget(s: State, cs: nat, at: nat, closure: Option<nat>)
    requires s.status == Alive && at != 0
    ensures var t := Step(s, CallFun(cs, at, closure));
            && t.cs == t.jmpSeg == cs && t.ip == at && t.jmpOfs == 0 && t.status == Alive && t.catchers == s.catchers
            && t.calls == s.calls + [Frame(s.cs, s.ip, closure.Some?)]
            && (closure == None ==> t.closures == s.closures)
            && (closure.Some? ==> |t.closures| == |s.closures| + 1 && t.closures[|s.closures|] == closure.value && s.closures < t.closures)
  {
  }

  /** A function at address 0 is not called: its frame is pushed, but the thread goes on behind the call, and its next jump
      goes to the function's program. */
  lemma FunctionAtZero(s: State, cs: nat, closure: Option<nat>, ofs: nat)
    requires s.status == Alive && ofs != 0
    ensures var t := Step(s, CallFun(cs, 0, closure));
            && t.cs == s.cs && t.ip == s.ip + 2 && |t.calls| == |s.calls| + 1
            && Step(t, Jump(ofs)).cs == cs && Step(t, Jump(ofs)).ip == ofs
  {
  }

  /** A call, with a closure or without, whatever the callee does above the height of its frame, and its return: the
      thread is one instruction past the call in the caller's program, with the old calls and closures. */
  lemma CallReturns(s: State, op: Op, ops: seq<Op>)
    requires s.status == Alive && Matched(s) && (op.CallLabel? || op.CallFun?)
    requires StaysAbove(Step(s, op), ops, |s.calls| + 1, 0)
    requires var t := Run(Step(s, op), ops); t.status == Alive && |t.calls| == |s.calls| + 1
    ensures var t := Run(Step(s, op), ops);
            var t' := Step(t, Ret);
            && t'.calls == s.calls && t'.closures == s.closures && t'.catchers == t.catchers && t'.status == Alive
            && t'.cs == s.cs && t'.ip == s.ip + 2 && Aligned(t')
  {
    hide Flagged, PopCallers, Run, Step;
    var f := Frame(s.cs, s.ip, op.CallFun? && op.closure.Some?);
    var s1 := Step(s, op);
    CallPushes(s, op);
    RunAbove(s1, ops, s1.calls, s1.closures, []);
    var t := Run(s1, ops);
    assert t.calls == s.calls + [f] && t.calls[..|s.calls|] == s.calls;
    Returned(t);
    assert t.closures[..|s.closures|] == s.closures by {
      assert s.closures <= s1.closures <= t.closures;
    }
  }

  /** What a call leaves on the stacks. */
  lemma CallPushes(s: State, op: Op)
    requires s.status == Alive && Matched(s) && (op.CallLabel? || op.CallFun?)
    ensures var s1 := Step(s, op);
            && s1.calls == s.calls + [Frame(s.cs, s.ip, op.CallFun? && op.closure.Some?)]
            && s.closures <= s1.closures && Matched(s1) && Above(s1, s1.calls, s1.closures, [])
  {
    hide Flagged;
    StepMatched(s, op);
  }

  lemma Returned(t: State)
    requires t.status == Alive && Matched(t) && t.calls != []
    ensures var t', k := Step(t, Ret), |t.calls| - 1;
            && Flagged(t.calls[..k]) <= |t.closures|
            && t'.calls == t.calls[..k] && t'.closures == t.closures[..Flagged(t.calls[..k])] && t'.catchers == t.catchers
            && t'.status == Alive && t'.cs == t.calls[k].cs && t'.ip == t.calls[k].ip + 2 && Aligned(t')
  {
    hide Flagged, PopCallers;
    PopCuts(t, 1);
  }

  // ------------------------------------------------------------ the thread

  class Thread {
    var cs: nat
    var ip: nat
    var jmpSeg: nat
    var jmpOfs: nat
    var calls: seq<Frame>
    var closures: seq<nat>
    var catchers: seq<Catcher>
    var status: Status

    constructor (program: nat, start: nat)
      ensures Value() == State(program, start, program, 0, [], [], [], Alive)
    {
      cs, ip, jmpSeg, jmpOfs := program, start, program, 0;
      calls, closures, catchers, status := [], [], [], Alive;
    }

    function Value(): State
      reads this
    {
      State(cs, ip, jmpSeg, jmpOfs, calls, closures, catchers, status)
    }

    method PopOneCaller()
      requires calls != []
      modifies this`calls, this`closures
      ensures old(Value()).calls != [] && Value() == PopTop(old(Value()))
    {
      var cse := calls[|calls| - 1];
      calls := calls[..|calls| - 1];
      if cse.hasClosure && closures != [] {
        closures := closures[..|closures| - 1];
      }
    }

    method PopCaller(count: nat)
      requires count <= |calls|
      modifies this`calls, this`closures
      ensures Value() == PopCallers(old(Value()), count)
    {
      hide PopTop;
      var n := count;
      while n > 0
        invariant 0 <= n <= |calls| && PopCallers(Value(), n) == PopCallers(old(Value()), count)
      {
        PopTopShorter(Value());
        PopOneCaller();
        n := n - 1;
      }
    }

    /** Pop callers while there are more than `height` of them. */
    method PopDownTo(height: nat)
      modifies this`calls, this`closures
      ensures Value() == PopCallers(old(Value()), if old(|calls|) > height then old(|calls|) - height else 0)
    {
      hide PopTop;
      ghost var n := if |calls| > height then |calls| - height else 0;
      while |calls| > height
        invariant PopCallers(Value(), if |calls| > height then |calls| - height else 0) == PopCallers(old(Value()), n)
        decreases |calls|
      {
        PopTopShorter(Value());
        PopOneCaller();
      }
    }

    method RaiseException()
      modifies this
      ensures Value() == Raise(old(Value()))
    {
      hide PopCallers, PopTop;
      if catchers == [] {
        status := Fatal;
        return;
      }
      var cse := catchers[|catchers| - 1];
      catchers := catchers[..|catchers| - 1];
      jmpSeg, jmpOfs := cse.cs, cse.ip;
      PopDownTo(cse.height);
    }

    /** One instruction. */
    method Perform(op: Op)
      modifies this
      ensures Value() == Execute(old(Value()), op)
    {
      match op {
        case Plain =>
        case Jump(ofs) => jmpOfs := ofs;
        case CallLabel(ofs) =>
          calls := calls + [Frame(cs, ip, false)];
          jmpOfs := ofs;
        case CallFun(seg, at, closure) =>
          calls := calls + [Frame(cs, ip, closure.Some?)];
          if closure.Some? {
            closures := closures + [closure.value];
          }
          jmpSeg, jmpOfs := seg, at;
        case Ret =>
          if calls != [] {
            var f := calls[|calls| - 1];
            PopCaller(1);
            jmpSeg, jmpOfs := f.cs, f.ip + 2;
          } else {
            status := Dying;
          }
        case InstCatcher(ofs) => catchers := catchers + [Catcher(cs, ofs, |calls|)];
        case UninstCatcher(ofs) =>
          if catchers == [] {
            status := Fatal;
          } else {
            catchers := catchers[..|catchers| - 1];
            jmpSeg, jmpOfs := cs, ofs;
          }
        case Throw => RaiseException();
      }
    }
  }

  lemma PopTopShorter(s: State)
    requires s.calls != []
    ensures |PopTop(s).calls| == |s.calls| - 1
  {
  }
}
