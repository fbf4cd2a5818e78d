/** What calls, returns, throws and code values do over whole runs of a chain. */
module ChainLaws {
  import opened Options
  import opened Words
  import Assembler
  import opened Simulation
  import opened AssemblerLaws

  type Tables = Assembler.Tables
  type Node = Assembler.Node

  function KindAt(isa: Isa, tb: Tables, chain: seq<Node>, i: nat): Kind
    requires i < |Program(chain)|
  {
    isa.kind(tb.stub(Program(chain)[i].ty, Program(chain)[i].op))
  }

  /** The thread is about to execute an instruction of kind `k`. */
  predicate Before(isa: Isa, tb: Tables, chain: seq<Node>, s: State, k: Kind) {
    s.status == Alive && s.ip < |Program(chain)| && KindAt(isa, tb, chain, s.ip) == k
  }

  // ------------------------------------------------------- one instruction

  /** `retval n` keeps the value on top, drops the `n` values under it, and goes to the instruction after the call. */
  lemma RetValKeepsTop(isa: Isa, tb: Tables, chain: seq<Node>, base: nat, s: State)
    requires Before(isa, tb, chain, s, RetVal) && s.calls != [] && Argument(tb, chain, base, s.ip) < |s.stack|
    ensures var s', n := Symbolic(isa, tb, chain, base, s), Argument(tb, chain, base, s.ip);
            && s' == s.(stack := s'.stack, calls := s.calls[..|s.calls| - 1], ip := s.calls[|s.calls| - 1] + 1)
            && |s'.stack| == |s.stack| - n && s'.stack[|s'.stack| - 1] == s.stack[|s.stack| - 1]
            && forall i | 0 <= i < |s'.stack| - 1 :: s'.stack[i] == s.stack[i]
  {
    hide Argument, Program;
  }

  /** `ret n` drops `n` values, and goes to the instruction after the call. */
  lemma RetDrops(isa: Isa, tb: Tables, chain: seq<Node>, base: nat, s: State)
    requires Before(isa, tb, chain, s, Ret) && s.calls != [] && Argument(tb, chain, base, s.ip) <= |s.stack|
    ensures var s', n := Symbolic(isa, tb, chain, base, s), Argument(tb, chain, base, s.ip);
            && s' == s.(stack := s'.stack, calls := s.calls[..|s.calls| - 1], ip := s.calls[|s.calls| - 1] + 1)
            && |s'.stack| == |s.stack| - n && forall i | 0 <= i < |s'.stack| :: s'.stack[i] == s.stack[i]
  {
    hide Argument, Program;
  }

  /** A thread that returns without having been called dies. */
  lemma LastReturnDies(isa: Isa, tb: Tables, chain: seq<Node>, base: nat, s: State)
    requires Before(isa, tb, chain, s, Ret) || Before(isa, tb, chain, s, RetVal)
    ensures s.calls == [] ==> Symbolic(isa, tb, chain, base, s).status == Dying
  {
    hide Argument, Program;
  }

  /** A jump and a call go to what their argument names; a call leaves its own place on the call stack. */
  lemma NamedTargets(isa: Isa, tb: Tables, chain: seq<Node>, base: nat, s: State)
    requires Before(isa, tb, chain, s, Jump) || Before(isa, tb, chain, s, Call)
    requires Named(chain, base, s.ip).Some?
    ensures var s', j := Symbolic(isa, tb, chain, base, s), Named(chain, base, s.ip).value;
            s' == s.(ip := j, calls := if Before(isa, tb, chain, s, Call) then s.calls + [s.ip] else s.calls)
  {
    hide Argument, Program, Named;
  }

  /** A computed jump pops a word, and goes as many words on as that says. */
  lemma PopTarget(isa: Isa, tb: Tables, chain: seq<Node>, base: nat, s: State)
    requires Before(isa, tb, chain, s, JumpPop) && s.stack != [] && Top(s).Word?
    requires Symbolic(isa, tb, chain, base, s).status != Strayed
    ensures var s' := Symbolic(isa, tb, chain, base, s);
            && s' == s.(stack := s.stack[..|s.stack| - 1], ip := s'.ip)
            && Address(base, s'.ip) as int == Address(base, s.ip) + Signed(Top(s).w % WORD)
  {
    hide Argument, Program;
  }

  /** A call of a function object pops it and goes where it leads; anything else on top of the stack is a fault. */
  lemma FunctionTarget(isa: Isa, tb: Tables, chain: seq<Node>, base: nat, s: State)
    requires Before(isa, tb, chain, s, CallFun)
    ensures var s' := Symbolic(isa, tb, chain, base, s);
            if s.stack != [] && Top(s).Code?
            then s' == s.(stack := s.stack[..|s.stack| - 1], calls := s.calls + [s.ip], ip := Top(s).at)
            else s' == s.(status := Aborted)
  {
    hide Argument, Program;
  }

  /** A throw pops a value, if there is one, takes the last catcher, cuts the call stack to the height at which that was
      installed, and goes to the handler. Without a catcher it is a fault. */
  lemma ThrowCuts(isa: Isa, tb: Tables, chain: seq<Node>, base: nat, s: State)
    requires Before(isa, tb, chain, s, Throw)
    ensures var s' := Symbolic(isa, tb, chain, base, s);
            && s'.stack == (if s.stack == [] then [] else s.stack[..|s.stack| - 1])
            && if s.catchers == [] then s'.status == Aborted && s'.calls == s.calls
               else var c := s.catchers[|s.catchers| - 1];
                    && s' == s.(stack := s'.stack, calls := s'.calls, catchers := s.catchers[..|s.catchers| - 1], ip := c.handler)
                    && s'.calls <= s.calls && |s'.calls| == if c.height <= |s.calls| then c.height else |s.calls|
  {
    hide Argument, Program;
  }

  /** The removal of a catcher jumps, and forgets the last catcher only. */
  lemma RemovalJumps(isa: Isa, tb: Tables, chain: seq<Node>, base: nat, s: State)
    requires Before(isa, tb, chain, s, UninstCatcher) && Named(chain, base, s.ip).Some?
    ensures var s' := Symbolic(isa, tb, chain, base, s);
            s' == if s.catchers == [] then s.(status := Aborted)
                  else s.(catchers := s.catchers[..|s.catchers| - 1], ip := Named(chain, base, s.ip).value)
  {
    hide Argument, Program, Named;
  }

  /** The installation of a catcher, a new function and a new thread store what the argument names, and go on. */
  lemma StoresNamed(isa: Isa, tb: Tables, chain: seq<Node>, base: nat, s: State)
    requires Before(isa, tb, chain, s, InstCatcher) || Before(isa, tb, chain, s, NewFun)
             || (Before(isa, tb, chain, s, NewThread) && s.stack != [] && Top(s).Word?)
    requires Named(chain, base, s.ip).Some? && s.ip + 1 < |Program(chain)|
    ensures var s', j := Symbolic(isa, tb, chain, base, s), Named(chain, base, s.ip).value;
            && s'.ip == s.ip + 1 && s'.status == Alive && s'.mem == s.mem && s'.calls == s.calls
            && (Before(isa, tb, chain, s, InstCatcher) ==>
                 s'.catchers == s.catchers + [Catcher(j, |s.calls|)] && s'.stack == s.stack && s'.spawned == s.spawned)
            && (Before(isa, tb, chain, s, NewFun) ==>
                 s'.stack == s.stack + [Code(j)] && s'.catchers == s.catchers && s'.spawned == s.spawned)
            && (Before(isa, tb, chain, s, NewThread) ==>
                 s'.spawned == s.spawned + [j] && s'.stack == s.stack[|s.stack| - 1 := Word(|s.spawned|)] && s'.catchers == s.catchers)
  {
    hide Argument, Program, Named;
  }

  /** Any other instruction goes on to the next one, leaves calls, catchers and threads alone, and leaves on the stack new
      words and values that were there; a code value comes only from the old stack. */
  lemma PlainGoesOn(isa: Isa, tb: Tables, chain: seq<Node>, base: nat, s: State)
    requires Before(isa, tb, chain, s, Plain) && s.ip + 1 < |Program(chain)|
    ensures var s' := Symbolic(isa, tb, chain, base, s);
            && s' == s.(ip := s.ip + 1, stack := s'.stack, mem := s'.mem)
            && forall i | 0 <= i < |s'.stack| :: s'.stack[i].Word? || s'.stack[i] in s.stack
    ensures var n, s' := Program(chain)[s.ip], Symbolic(isa, tb, chain, base, s);
            var e := isa.plain(tb.stub(n.ty, n.op), Argument(tb, chain, base, s.ip), Views(s.stack), s.mem);
            && s'.mem == e.mem && |s'.stack| == |e.stack|
            && forall i | 0 <= i < |e.stack| ::
                 && (e.stack[i].New? ==> s'.stack[i] == Word(e.stack[i].w))
                 && (e.stack[i].Kept? && e.stack[i].i < |s.stack| ==> s'.stack[i] == s.stack[e.stack[i].i])
  {
    hide Argument, Program;
  }

  /** What the instruction needs is not there. */
  predicate Lacks(k: Kind, arg: nat, s: State) {
    match k
    case SkipIfZero => !(0 <= |s.stack| - 1 + Signed(arg) < |s.stack|)
    case SkipUnlessZero => !(0 <= |s.stack| - 1 + Signed(arg) < |s.stack|)
    case JumpPop => s.stack == []
    case CallFun => s.stack == [] || !Top(s).Code?
    case Ret => s.calls != [] && arg > |s.stack|
    case RetVal => s.calls != [] && arg >= |s.stack|
    case UninstCatcher => s.catchers == []
    case Throw => s.catchers == []
    case NewThread => s.stack == [] || !Top(s).Word?
    case _ => false
  }

  /** An instruction that is led somewhere is a fault if and only if it lacks something on the stacks. */
  lemma FaultsIff(isa: Isa, tb: Tables, chain: seq<Node>, base: nat, s: State)
    requires s.status == Alive && s.ip < |Program(chain)| && Aim(isa, tb, chain, base, s.ip, s).Some?
    ensures Symbolic(isa, tb, chain, base, s).status == Aborted
            <==> Lacks(KindAt(isa, tb, chain, s.ip), Argument(tb, chain, base, s.ip), s)
  {
    hide Argument, Program, Aim;
  }

  /** After the last instruction, or behind it, the thread ends; in the middle, an instruction that does not steer goes on. */
  lemma EndsIff(isa: Isa, tb: Tables, chain: seq<Node>, base: nat, s: State)
    requires Before(isa, tb, chain, s, Plain)
    ensures Symbolic(isa, tb, chain, base, s).status == (if s.ip + 1 == |Program(chain)| then Dying else Alive)
  {
    hide Argument, Program;
  }

  // ------------------------------------------------------------ whole runs

  /** In `k` steps, there are never fewer than `h` callers and `c` catchers. */
  ghost predicate StaysHigh(isa: Isa, tb: Tables, chain: seq<Node>, base: nat, s: State, k: nat, h: nat, c: nat)
    decreases k
  {
    |s.calls| >= h && |s.catchers| >= c && (k == 0 || StaysHigh(isa, tb, chain, base, Symbolic(isa, tb, chain, base, s), k - 1, h, c))
  }

  /** An instruction pushes on the call stack and the catchers, or cuts them. */
  lemma StepShape(isa: Isa, tb: Tables, chain: seq<Node>, base: nat, s: State)
    ensures var t := Symbolic(isa, tb, chain, base, s);
            && (s.calls <= t.calls || t.calls <= s.calls) && (s.catchers <= t.catchers || t.catchers <= s.catchers)
  {
    hide Argument, Program, Aim;
    if s.status == Alive && s.ip < |Program(chain)| && Aim(isa, tb, chain, base, s.ip, s).Some? {
      var n := Program(chain)[s.ip];
      ExecuteShape(isa, tb.stub(n.ty, n.op), Argument(tb, chain, base, s.ip), Aim(isa, tb, chain, base, s.ip, s).value, s);
    }
  }

  lemma ExecuteShape(isa: Isa, stub: nat, arg: nat, target: nat, s: State)
    ensures var t := Execute(isa, 1, stub, arg, target, s).s;
            && (s.calls <= t.calls || t.calls <= s.calls) && (s.catchers <= t.catchers || t.catchers <= s.catchers)
  {
  }

  /** What is below the heights that a run does not go below is still there. */
  lemma {:induction false} RunKeeps(isa: Isa, tb: Tables, chain: seq<Node>, base: nat, s: State, k: nat, calls: seq<nat>, catchers: seq<Catcher>)
    requires StaysHigh(isa, tb, chain, base, s, k, |calls|, |catchers|) && calls <= s.calls && catchers <= s.catchers
    ensures var t := SymbolicRun(isa, tb, chain, base, s, k); calls <= t.calls && catchers <= t.catchers
    decreases k
  {
    hide Symbolic;
    if k > 0 {
      var s' := Symbolic(isa, tb, chain, base, s);
      StepShape(isa, tb, chain, base, s);
      assert |s'.calls| >= |calls| && |s'.catchers| >= |catchers| by {
        assert StaysHigh(isa, tb, chain, base, s', k - 1, |calls|, |catchers|);
      }
      RunKeeps(isa, tb, chain, base, s', k - 1, calls, catchers);
    }
  }

  /** A call, by name or of a function object, whatever the callee does above the frame of the call, and its return: the
      thread is one past the call, with the old call stack. `retval` brings the callee's last value. */
  lemma CallReturns(isa: Isa, tb: Tables, chain: seq<Node>, base: nat, s: State, k: nat)
    requires Before(isa, tb, chain, s, Call) || Before(isa, tb, chain, s, CallFun)
    requires StaysHigh(isa, tb, chain, base, Symbolic(isa, tb, chain, base, s), k, |s.calls| + 1, 0)
    requires var t := SymbolicRun(isa, tb, chain, base, Symbolic(isa, tb, chain, base, s), k);
             && |t.calls| == |s.calls| + 1
             && ((Before(isa, tb, chain, t, Ret) && Argument(tb, chain, base, t.ip) <= |t.stack|)
                 || (Before(isa, tb, chain, t, RetVal) && Argument(tb, chain, base, t.ip) < |t.stack|))
    ensures var t := SymbolicRun(isa, tb, chain, base, Symbolic(isa, tb, chain, base, s), k);
            var t' := Symbolic(isa, tb, chain, base, t);
            && t'.status == Alive && t'.ip == s.ip + 1 && t'.calls == s.calls && t'.catchers == t.catchers && t'.mem == t.mem
            && (Before(isa, tb, chain, t, RetVal) ==> t'.stack != [] && Top(t') == Top(t))
  {
    hide Argument, Program, Symbolic, SymbolicRun, StaysHigh, Named;
    var s1 := Symbolic(isa, tb, chain, base, s);
    var t := SymbolicRun(isa, tb, chain, base, s1, k);
    Called(isa, tb, chain, base, s, k);
    RunKeeps(isa, tb, chain, base, s1, k, s.calls + [s.ip], []);
    assert t.calls == s.calls + [s.ip];
    if Before(isa, tb, chain, t, Ret) {
      RetDrops(isa, tb, chain, base, t);
    } else {
      RetValKeepsTop(isa, tb, chain, base, t);
    }
  }

  /** A call that went anywhere has pushed its place. */
  lemma Called(isa: Isa, tb: Tables, chain: seq<Node>, base: nat, s: State, k: nat)
    requires Before(isa, tb, chain, s, Call) || Before(isa, tb, chain, s, CallFun)
    requires StaysHigh(isa, tb, chain, base, Symbolic(isa, tb, chain, base, s), k, |s.calls| + 1, 0)
    ensures Symbolic(isa, tb, chain, base, s).calls == s.calls + [s.ip]
  {
    hide Argument, Program, Named;
  }

  /** From the installation of a catcher, whatever happens above its height and it, to a throw that takes it: the thread
      is at the handler, with the call stack and the catchers as they were before the installation. */
  lemma ThrowReachesHandler(isa: Isa, tb: Tables, chain: seq<Node>, base: nat, s: State, k: nat)
    requires Before(isa, tb, chain, s, InstCatcher) && Named(chain, base, s.ip).Some? && s.ip + 1 < |Program(chain)|
    requires StaysHigh(isa, tb, chain, base, Symbolic(isa, tb, chain, base, s), k, |s.calls|, |s.catchers| + 1)
    requires var t := SymbolicRun(isa, tb, chain, base, Symbolic(isa, tb, chain, base, s), k);
             |t.catchers| == |s.catchers| + 1 && Before(isa, tb, chain, t, Throw)
    ensures var t' := Symbolic(isa, tb, chain, base, SymbolicRun(isa, tb, chain, base, Symbolic(isa, tb, chain, base, s), k));
            t'.status == Alive && t'.ip == Named(chain, base, s.ip).value && t'.calls == s.calls && t'.catchers == s.catchers
  {
    hide Argument, Program, Symbolic, SymbolicRun, StaysHigh, Named;
    var s1 := Symbolic(isa, tb, chain, base, s);
    var t := SymbolicRun(isa, tb, chain, base, s1, k);
    StoresNamed(isa, tb, chain, base, s);
    RunKeeps(isa, tb, chain, base, s1, k, s.calls, s1.catchers);
    assert t.catchers == s1.catchers;
    ThrowCuts(isa, tb, chain, base, t);
  }

  /** A function object that is made and then called leads to what its argument names. */
  lemma NewFunctionLeads(isa: Isa, tb: Tables, chain: seq<Node>, base: nat, s: State)
    requires Before(isa, tb, chain, s, NewFun) && Named(chain, base, s.ip).Some?
    requires s.ip + 1 < |Program(chain)| && KindAt(isa, tb, chain, s.ip + 1) == CallFun
    ensures SymbolicRun(isa, tb, chain, base, s, 2) == s.(calls := s.calls + [s.ip + 1], ip := Named(chain, base, s.ip).value)
  {
    hide Argument, Program, Symbolic, Named;
    var s1 := Symbolic(isa, tb, chain, base, s);
    StoresNamed(isa, tb, chain, base, s);
    FunctionTarget(isa, tb, chain, base, s1);
    TwoSteps(isa, tb, chain, base, s);
  }

  /** A jump by a signed number of words goes as many instructions on or back as half of that. */
  lemma OffsetCounts(isa: Isa, tb: Tables, chain: seq<Node>, base: nat, s: State, k: nat)
    requires Before(isa, tb, chain, s, Jump) && Program(chain)[s.ip].ty == Assembler.LabelArg
    requires Program(chain)[s.ip].arg in {"+" + Decimal(2 * k), "-" + Decimal(2 * k)}
    ensures var arg := Program(chain)[s.ip].arg;
            var j := if arg[0] == '+' then s.ip + k else s.ip - k;
            0 <= j <= |Program(chain)| && base + 2 * j != 0 ==> Symbolic(isa, tb, chain, base, s) == s.(ip := j)
  {
    hide Argument, Decimal;
    var arg := Program(chain)[s.ip].arg;
    AtoiReads(2 * k, []);
    assert Decimal(2 * k) + [] == Decimal(2 * k);
    assert Assembler.Atoi(arg) == if arg[0] == '+' then 2 * k else -2 * k;
  }

  lemma TwoSteps(isa: Isa, tb: Tables, chain: seq<Node>, base: nat, s: State)
    ensures SymbolicRun(isa, tb, chain, base, s, 2) == Symbolic(isa, tb, chain, base, Symbolic(isa, tb, chain, base, s))
  {
    hide Symbolic;
    var s1 := Symbolic(isa, tb, chain, base, s);
    assert SymbolicRun(isa, tb, chain, base, s1, 1) == SymbolicRun(isa, tb, chain, base, Symbolic(isa, tb, chain, base, s1), 0);
  }
}
