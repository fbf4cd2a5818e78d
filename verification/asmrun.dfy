/** Running the emitted wordcode simulates running the chain by label name. */
module Simulation {
  import opened Options
  import opened Words
  import opened Assembler

  // ------------------------------------------------- one thread's machine

  /** How an instruction steers the thread. Everything else it does is `Plain`. */
  datatype Kind = Plain | SkipIfZero | SkipUnlessZero | Jump | JumpPop | Call | CallFun | Ret | RetVal
                | InstCatcher | UninstCatcher | Throw | NewFun | NewThread

  /** A data word, or a function object that leads to code. */
  datatype Val = Word(w: nat) | Code(at: nat)
  datatype Catcher = Catcher(handler: nat, height: nat)
  datatype Status = Alive | Dying | Aborted | Strayed

  /** A thread. Code pointers count words in the machine, and instructions in the symbolic run. */
  datatype State = State(ip: nat, stack: seq<Val>, mem: seq<nat>, calls: seq<nat>,
                         catchers: seq<Catcher>, spawned: seq<nat>, status: Status)

  /** What a plain instruction leaves on the stack: new words, and values that were there. */
  datatype Pick = New(w: nat) | Kept(i: nat)
  datatype Effect = Effect(stack: seq<Pick>, mem: seq<nat>)

  /** The instruction set: the steering of each stub, and the effect of the plain ones,
      which see function objects only as opaque values. */
  datatype Isa = Isa(kind: nat -> Kind, plain: (nat, nat, seq<Option<nat>>, seq<nat>) -> Effect)

  function View(v: Val): Option<nat> {
    if v.Word? then Some(v.w) else None
  }

  function Views(s: seq<Val>): seq<Option<nat>> {
    seq(|s|, i requires 0 <= i < |s| => View(s[i]))
  }

  function Picked(s: seq<Val>, p: Pick): Val {
    match p
    case New(w) => Word(w)
    case Kept(i) => if i < |s| then s[i] else Word(0)
  }

  function Apply(s: seq<Val>, ps: seq<Pick>): seq<Val> {
    seq(|ps|, i requires 0 <= i < |ps| => Picked(s, ps[i]))
  }

  const HALF: nat := 0x8000_0000_0000_0000

  /** The word `w` read as a signed number. */
  function Signed(w: nat): int {
    if w < HALF then w else w - WORD
  }

  function NonZero(v: Val): bool {
    v.Code? || v.w != 0
  }

  /** The state after an instruction, and where it jumps to, if it does. */
  datatype Outcome = Outcome(s: State, jump: Option<nat>)

  function Fault(s: State): Outcome {
    Outcome(s.(status := Aborted), None)
  }

  function Top(s: State): Val
    requires s.stack != []
  {
    s.stack[|s.stack| - 1]
  }

  function Popped(s: State, n: nat): State
    requires n <= |s.stack|
  {
    s.(stack := s.stack[..|s.stack| - n])
  }

  /** Test the value `rel` below the top, pop, and skip one instruction of length `unit`, either if the value is zero
      or if it is not. */
  function Skip(s: State, unit: nat, rel: int, onZero: bool): Outcome {
    var i := |s.stack| - 1 + rel;
    if !(0 <= i < |s.stack|) then Fault(s)
    else
      var s' := Popped(s, 1);
      Outcome(if NonZero(s.stack[i]) == onZero then s' else s'.(ip := s.ip + unit), None)
  }

  function Return(s: State, unit: nat): Outcome
    requires s.calls != []
  {
    var r := s.calls[|s.calls| - 1];
    Outcome(s.(calls := s.calls[..|s.calls| - 1]), Some(r + unit))
  }

  /** Take the last catcher and cut the call stack back to its height when the catcher was installed. */
  function Raise(s: State): Outcome {
    if s.catchers == [] then Fault(s)
    else
      var c := s.catchers[|s.catchers| - 1];
      Outcome(s.(catchers := s.catchers[..|s.catchers| - 1],
                 calls := if |s.calls| > c.height then s.calls[..c.height] else s.calls), Some(c.handler))
  }

  /** One instruction. `target` is the code its argument leads to, `unit` the length of an instruction. */
  function Execute(isa: Isa, unit: nat, stub: nat, arg: nat, target: nat, s: State): Outcome {
    match isa.kind(stub)
    case Plain =>
      var e := isa.plain(stub, arg, Views(s.stack), s.mem);
      Outcome(s.(stack := Apply(s.stack, e.stack), mem := e.mem), None)
    case SkipIfZero => Skip(s, unit, Signed(arg), true)
    case SkipUnlessZero => Skip(s, unit, Signed(arg), false)
    case Jump => Outcome(s, Some(target))
    case JumpPop => if s.stack == [] then Fault(s) else Outcome(Popped(s, 1), Some(target))
    case Call => Outcome(s.(calls := s.calls + [s.ip]), Some(target))
    case CallFun =>
      if s.stack == [] || !Top(s).Code? then Fault(s)
      else Outcome(Popped(s, 1).(calls := s.calls + [s.ip]), Some(Top(s).at))
    case Ret =>
      if s.calls == [] then Outcome(s.(status := Dying), None)
      else if arg > |s.stack| then Fault(s)
      else Return(Popped(s, arg), unit)
    case RetVal =>
      if s.calls == [] then Outcome(s.(status := Dying), None)
      else if arg >= |s.stack| then Fault(s)
      else Return(s.(stack := s.stack[..|s.stack| - arg - 1] + [Top(s)]), unit)
    case InstCatcher => Outcome(s.(catchers := s.catchers + [Catcher(target, |s.calls|)]), None)
    case UninstCatcher =>
      if s.catchers == [] then Fault(s)
      else Outcome(s.(catchers := s.catchers[..|s.catchers| - 1]), Some(target))
    case Throw => Raise(if s.stack == [] then s else Popped(s, 1))
    case NewFun => Outcome(s.(stack := s.stack + [Code(target)]), None)
    case NewThread =>
      if s.stack == [] || !Top(s).Word? then Fault(s)
      else Outcome(Popped(s, 1).(stack := Popped(s, 1).stack + [Word(|s.spawned|)], spawned := s.spawned + [target]), None)
  }

  // ------------------------------------------------- the machine on words

  /** Where the argument of the instruction at `s.ip` leads. */
  function MachineTarget(isa: Isa, stub: nat, arg: nat, s: State): nat {
    if isa.kind(stub) == JumpPop then
      if s.stack != [] && Top(s).Word? then (s.ip + Top(s).w) % WORD else 0
    else (s.ip + arg) % WORD
  }

  /** Jump, stop at the end of the segment, or hop to the next instruction; a faulty address kills the thread. */
  function Advance(o: Outcome, size: nat): State {
    if o.s.status == Aborted then o.s
    else
      var s :=
        if o.jump != None && o.jump.value != 0 then o.s.(ip := o.jump.value)
        else if o.s.ip == size - 2 then o.s.(status := Dying)
        else o.s.(ip := o.s.ip + 2);
      if (s.ip / 0x8000_0000) % 2 == 1 then s.(status := Dying) else s
  }

  /** One cycle of the thread on the code segment `code`. */
  function Cycle(isa: Isa, code: seq<nat>, s: State): State {
    if s.status != Alive then s
    else if s.ip + 2 > |code| then s.(status := Aborted)
    else
      var stub, arg := code[s.ip], code[s.ip + 1];
      Advance(Execute(isa, 2, stub, arg, MachineTarget(isa, stub, arg, s), s), |code|)
  }

  // ------------------------------------------------ the chain, symbolically

  /** An instruction with the number of pseudo-opcodes before it. */
  datatype Instr = Instr(ty: ArgType, op: string, arg: string, lag: nat)

  /** The instructions of `rest`, which follows `lag` pseudo-opcodes. */
  function Instrs(rest: seq<Node>, lag: nat): seq<Instr> {
    if rest == [] then []
    else if Pseudo(rest[0]) then Instrs(rest[1..], lag + 1)
    else if rest[0].Op? then [Instr(rest[0].ty, rest[0].op, rest[0].arg, lag)] + Instrs(rest[1..], lag)
    else Instrs(rest[1..], lag)
  }

  /** The place of a label: the number of instructions, and of pseudo-opcodes, before it. */
  datatype Place = Place(at: nat, lag: nat)

  /** The place of the first declaration of `l` in `rest`, which starts at place `p`. */
  function Where(rest: seq<Node>, l: string, p: Place): Option<Place> {
    if rest == [] then None
    else if rest[0] == Label(l) then Some(p)
    else Where(rest[1..], l,
               if Pseudo(rest[0]) then p.(lag := p.lag + 1) else if rest[0].Op? then p.(at := p.at + 1) else p)
  }

  function PseudoCount(rest: seq<Node>): nat {
    if rest == [] then 0 else PseudoCount(rest[1..]) + if Pseudo(rest[0]) then 1 else 0
  }

  const Start: Place := Place(0, 0)

  function Program(chain: seq<Node>): seq<Instr> {
    Instrs(chain, 0)
  }

  function Find(chain: seq<Node>, l: string): Option<Place> {
    Where(chain, l, Start)
  }

  /** The instruction `d` words away from instruction `i`, in a program of `n`. */
  function Away(n: nat, i: nat, d: int): Option<nat> {
    var j := i + d / 2;
    if d % 2 == 0 && 0 <= j <= n then Some(j) else None
  }

  /** The same, unless it is at address 0 in a program at address `base`. */
  function Shift(base: nat, n: nat, i: nat, d: int): Option<nat> {
    var j := Away(n, i, d);
    if j.Some? && base + 2 * j.value != 0 then j else None
  }

  /** The instruction that the label argument of instruction `i` names. */
  function Named(chain: seq<Node>, base: nat, i: nat): Option<nat>
    requires i < |Program(chain)|
  {
    var n := Program(chain)[i];
    if n.ty != LabelArg then None
    else if IsOffset(n.arg) then Shift(base, |Program(chain)|, i, Atoi(n.arg))
    else if Find(chain, n.arg) == None then None else Some(Find(chain, n.arg).value.at)
  }

  /** The argument as a word: for a label, the distance to it. */
  function Argument(tb: Tables, chain: seq<Node>, base: nat, i: nat): nat
    requires i < |Program(chain)|
  {
    var n := Program(chain)[i];
    if n.ty == NoArg then 0
    else if n.ty == IntArg then Wrap(Atoi(n.arg))
    else if n.ty != LabelArg then tb.literal(n.ty, n.arg)
    else if IsOffset(n.arg) then Wrap(Atoi(n.arg))
    else if Named(chain, base, i) == None then 0
    else Wrap(2 * Named(chain, base, i).value - 2 * i)
  }

  predicate UsesTarget(k: Kind) {
    k in {Jump, JumpPop, Call, InstCatcher, UninstCatcher, NewFun, NewThread}
  }

  /** The instruction that instruction `i` steers to in state `s`. */
  function Aim(isa: Isa, tb: Tables, chain: seq<Node>, base: nat, i: nat, s: State): Option<nat>
    requires i < |Program(chain)|
  {
    var n := Program(chain)[i];
    var k := isa.kind(tb.stub(n.ty, n.op));
    if !UsesTarget(k) then Some(0)
    else if k == JumpPop then
      if s.stack != [] && Top(s).Word? then Shift(base, |Program(chain)|, i, Signed(Top(s).w % WORD)) else None
    else Named(chain, base, i)
  }

  /** Jump by name, stop after the last instruction, or go to the next one. */
  function Go(o: Outcome, n: nat): State {
    if o.s.status == Aborted then o.s
    else if o.jump != None then o.s.(ip := o.jump.value)
    else if o.s.ip == n - 1 then o.s.(status := Dying)
    else o.s.(ip := o.s.ip + 1)
  }

  /** One cycle of the chain. A jump that leads to no instruction of the chain has strayed. */
  function Symbolic(isa: Isa, tb: Tables, chain: seq<Node>, base: nat, s: State): State {
    if s.status != Alive then s
    else if s.ip >= |Program(chain)| then s.(status := Aborted)
    else
      var n := Program(chain)[s.ip];
      var aim := Aim(isa, tb, chain, base, s.ip, s);
      if aim == None then s.(status := Strayed)
      else Go(Execute(isa, 1, tb.stub(n.ty, n.op), Argument(tb, chain, base, s.ip), aim.value, s), |Program(chain)|)
  }

  // -------------------------------------------- what the assembler emits

  /** The argument word that the assembler writes for instruction `i`. */
  function Emitted(tb: Tables, chain: seq<Node>, base: nat, i: nat): nat
    requires i < |Program(chain)|
  {
    var n := Program(chain)[i];
    ArgWord(tb, chain, base, Op(n.ty, n.op, n.arg), base + 2 * (i + n.lag))
  }

  /** `code` holds the cells of the instructions `p`, the first of which is instruction `at`. */
  ghost predicate Cells(tb: Tables, chain: seq<Node>, base: nat, code: seq<nat>, p: seq<Instr>, at: nat) {
    true == (
      && |code| == 2 * |p|
      && forall j :: 0 <= j < |p| ==>
           && code[2 * j] == tb.stub(p[j].ty, p[j].op)
           && code[2 * j + 1] == ArgWord(tb, chain, base, Op(p[j].ty, p[j].op, p[j].arg), base + 2 * (at + j + p[j].lag)))
  }

  lemma ConsCells(tb: Tables, chain: seq<Node>, base: nat, cell: seq<nat>, code: seq<nat>, i: Instr, p: seq<Instr>, at: nat)
    requires Cells(tb, chain, base, cell, [i], at) && Cells(tb, chain, base, code, p, at + 1)
    ensures Cells(tb, chain, base, cell + code, [i] + p, at)
  {
    hide ArgWord;
    var c, q := cell + code, [i] + p;
    forall j | 0 <= j < |q|
      ensures c[2 * j] == tb.stub(q[j].ty, q[j].op)
      ensures c[2 * j + 1] == ArgWord(tb, chain, base, Op(q[j].ty, q[j].op, q[j].arg), base + 2 * (at + j + q[j].lag))
    {
      if j > 0 { assert q[j] == p[j - 1] && c[2 * j] == code[2 * (j - 1)] && c[2 * j + 1] == code[2 * (j - 1) + 1]; }
    }
  }

  lemma EmitStep(tb: Tables, chain: seq<Node>, base: nat, rest: seq<Node>, ip: nat)
    requires rest != []
    ensures var n, r := rest[0], Emit(tb, chain, base, rest[1..], Past(rest[0], ip));
            Emit(tb, chain, base, rest, ip) == if n.Op? && !Pseudo(n) then NodeCode(tb, chain, base, n, ip) + r else r
  {
    hide ArgWord;
  }

  lemma InstrsStep(rest: seq<Node>, lag: nat)
    requires rest != []
    ensures var n := rest[0];
            Instrs(rest, lag) == if Pseudo(n) then Instrs(rest[1..], lag + 1)
                                 else if n.Op? then [Instr(n.ty, n.op, n.arg, lag)] + Instrs(rest[1..], lag)
                                 else Instrs(rest[1..], lag)
  {
  }

  lemma {:induction false} EmitInstrs(tb: Tables, chain: seq<Node>, base: nat, rest: seq<Node>, at: nat, lag: nat)
    ensures Cells(tb, chain, base, Emit(tb, chain, base, rest, base + 2 * (at + lag)), Instrs(rest, lag), at)
  {
    hide Cells, Emit, Instrs, NodeCode;
    if rest == [] {
      NoCells(tb, chain, base, base + 2 * (at + lag), at, lag);
    } else {
      var n, ip := rest[0], base + 2 * (at + lag);
      EmitStep(tb, chain, base, rest, ip);
      InstrsStep(rest, lag);
      if Pseudo(n) {
        EmitInstrs(tb, chain, base, rest[1..], at, lag + 1);
      } else if n.Op? {
        EmitInstrs(tb, chain, base, rest[1..], at + 1, lag);
        EmitOne(tb, chain, base, n, at, lag);
        ConsCells(tb, chain, base, NodeCode(tb, chain, base, n, ip), Emit(tb, chain, base, rest[1..], ip + 2),
                  Instr(n.ty, n.op, n.arg, lag), Instrs(rest[1..], lag), at);
      } else {
        EmitInstrs(tb, chain, base, rest[1..], at, lag);
      }
    }
  }

  lemma NoCells(tb: Tables, chain: seq<Node>, base: nat, ip: nat, at: nat, lag: nat)
    ensures Cells(tb, chain, base, Emit(tb, chain, base, [], ip), Instrs([], lag), at)
  {
  }

  lemma EmitOne(tb: Tables, chain: seq<Node>, base: nat, n: Node, at: nat, lag: nat)
    requires n.Op? && !Pseudo(n)
    ensures Cells(tb, chain, base, NodeCode(tb, chain, base, n, base + 2 * (at + lag)), [Instr(n.ty, n.op, n.arg, lag)], at)
  {
    assert n == Op(n.ty, n.op, n.arg);
  }

  /** The first pass and the symbolic search find the same declaration. */
  lemma {:induction false} AddressOfPlace(rest: seq<Node>, l: string, base: nat, p: Place)
    ensures var a, w := LabelAddress(rest, l, base + 2 * (p.at + p.lag)), Where(rest, l, p);
            (a == None <==> w == None) && (w.Some? ==> a == Some(base + 2 * (w.value.at + w.value.lag)))
    ensures Where(rest, l, p).Some? ==> p.at <= Where(rest, l, p).value.at <= p.at + |Instrs(rest, p.lag)|
    ensures Where(rest, l, p).Some? ==> Where(rest, l, p).value.lag <= p.lag + PseudoCount(rest)
  {
    if rest != [] && rest[0] != Label(l) {
      AddressOfPlace(rest[1..], l, base,
                     if Pseudo(rest[0]) then p.(lag := p.lag + 1) else if rest[0].Op? then p.(at := p.at + 1) else p);
    }
  }

  lemma {:induction false} LagBound(rest: seq<Node>, lag: nat)
    ensures forall i | 0 <= i < |Instrs(rest, lag)| :: Instrs(rest, lag)[i].lag <= lag + PseudoCount(rest)
  {
    if rest != [] {
      LagBound(rest[1..], if Pseudo(rest[0]) then lag + 1 else lag);
    }
  }

  /** The chain is small enough for its addresses to keep the sign bit clear. */
  ghost predicate Fits(chain: seq<Node>, base: nat) {
    base + 2 * (|Program(chain)| + PseudoCount(chain) + 1) < 0x8000_0000
  }

  lemma WrapSmall(x: int)
    ensures -(WORD as int) < x < WORD ==> (Wrap(x) == 0 <==> x == 0)
    ensures 0 <= x < WORD ==> Wrap(x) == x
  {
  }

  /** A negative distance wraps to an address with the sign bit of its lower half set. */
  lemma NegativeFaulty(x: int)
    requires -0x8000_0000 <= x < 0
    ensures Wrap(x) == x + WORD && (Wrap(x) / 0x8000_0000) % 2 == 1
  {
    var y := x + WORD;
    assert y / 0x8000_0000 == 0x1_FFFF_FFFF;
  }

  lemma WrapSum(a: nat, x: int)
    ensures (a + Wrap(x)) % WORD == Wrap(a + x)
  {
  }

  ghost predicate UsesLabel(chain: seq<Node>, i: nat) {
    i < |Program(chain)| && Program(chain)[i].ty == LabelArg && !IsOffset(Program(chain)[i].arg)
  }

  /** A label argument leads to its label exactly when as many pseudo-opcodes precede the
      label as precede the instruction. */
  lemma LandsOnLabelIff(tb: Tables, chain: seq<Node>, base: nat, i: nat)
    requires Fits(chain, base) && UsesLabel(chain, i) && Find(chain, Program(chain)[i].arg).Some?
    ensures var l := Find(chain, Program(chain)[i].arg).value;
            (base + 2 * i + Emitted(tb, chain, base, i)) % WORD == base + 2 * l.at <==> l.lag == Program(chain)[i].lag
  {
    var n := Program(chain)[i];
    AddressOfPlace(chain, n.arg, base, Start);
    LagBound(chain, 0);
    var l := Find(chain, n.arg).value;
    WrapSum(base + 2 * i, base + 2 * (l.at + l.lag) - (base + 2 * (i + n.lag)));
    var x := base + 2 * l.at + 2 * (l.lag - n.lag);
    assert (base + 2 * i + Emitted(tb, chain, base, i)) % WORD == Wrap(x);
    if x < 0 { assert Wrap(x) == x + WORD; } else { WrapSmall(x); }
  }

  /** An undeclared label leads to address 0 or, behind pseudo-opcodes, to the top of the address space. */
  lemma UndeclaredLabel(tb: Tables, chain: seq<Node>, base: nat, i: nat)
    requires Fits(chain, base) && UsesLabel(chain, i) && Find(chain, Program(chain)[i].arg) == None
    ensures (base + 2 * i + Emitted(tb, chain, base, i)) % WORD == Wrap(-2 * Program(chain)[i].lag)
    ensures (base + 2 * i + Emitted(tb, chain, base, i)) % WORD == 0 <==> Program(chain)[i].lag == 0
  {
    var n := Program(chain)[i];
    AddressOfPlace(chain, n.arg, base, Start);
    LagBound(chain, 0);
    WrapSum(base + 2 * i, -(base + 2 * (i + n.lag)));
    WrapSmall(-2 * n.lag);
  }

  /** The first declaration of a label counts, and it names the first instruction after it. */
  lemma {:induction false} FirstDeclarationWins(rest: seq<Node>, l: string, p: Place, k: nat)
    requires k < |rest| && rest[k] == Label(l) && Label(l) !in rest[..k]
    ensures Where(rest, l, p).Some? && p.at <= Where(rest, l, p).value.at <= p.at + |Instrs(rest, p.lag)|
    ensures Instrs(rest, p.lag)[Where(rest, l, p).value.at - p.at..] == Instrs(rest[k + 1..], Where(rest, l, p).value.lag)
    ensures Instrs(rest, p.lag)[..Where(rest, l, p).value.at - p.at] == Instrs(rest[..k], p.lag)
    ensures Where(rest, l, p).value.lag == p.lag + PseudoCount(rest[..k])
  {
    AddressOfPlace(rest, l, 0, p);
    if k > 0 {
      assert rest[0] == rest[..k][0];
      assert rest[..k][1..] == rest[1..][..k - 1] && rest[1..][k..] == rest[k + 1..];
      FirstDeclarationWins(rest[1..], l,
                           if Pseudo(rest[0]) then p.(lag := p.lag + 1) else if rest[0].Op? then p.(at := p.at + 1) else p, k - 1);
    }
  }

  // --------------------------------------------------------- simulation

  function Address(base: nat, i: nat): nat {
    base + 2 * i
  }

  function EmbedVal(base: nat, v: Val): Val {
    if v.Code? then Code(Address(base, v.at)) else v
  }

  function EmbedStack(base: nat, s: seq<Val>): seq<Val> {
    seq(|s|, i requires 0 <= i < |s| => EmbedVal(base, s[i]))
  }

  function EmbedAll(base: nat, s: seq<nat>): seq<nat> {
    seq(|s|, i requires 0 <= i < |s| => Address(base, s[i]))
  }

  function EmbedCatchers(base: nat, s: seq<Catcher>): seq<Catcher> {
    seq(|s|, i requires 0 <= i < |s| => s[i].(handler := Address(base, s[i].handler)))
  }

  /** The machine's state for a symbolic state: every instruction becomes its address. */
  function Embed(base: nat, s: State): State {
    State(Address(base, s.ip), EmbedStack(base, s.stack), s.mem, EmbedAll(base, s.calls),
          EmbedCatchers(base, s.catchers), EmbedAll(base, s.spawned), s.status)
  }

  function EmbedOutcome(base: nat, o: Outcome): Outcome {
    Outcome(Embed(base, o.s), if o.jump == None then None else Some(Address(base, o.jump.value)))
  }

  lemma EmbedPlain(base: nat, s: seq<Val>, ps: seq<Pick>)
    ensures Views(EmbedStack(base, s)) == Views(s)
    ensures Apply(EmbedStack(base, s), ps) == EmbedStack(base, Apply(s, ps))
  {
    assert forall i :: 0 <= i < |s| ==> View(EmbedVal(base, s[i])) == View(s[i]);
  }

  lemma EmbedSkip(base: nat, s: State, rel: int, onZero: bool)
    ensures Skip(Embed(base, s), 2, rel, onZero) == EmbedOutcome(base, Skip(s, 1, rel, onZero))
  {
    if s.stack != [] { EmbedPopped(base, s, 1); }
  }

  lemma EmbedPopped(base: nat, s: State, n: nat)
    requires n <= |s.stack|
    ensures Popped(Embed(base, s), n) == Embed(base, Popped(s, n))
  {
    assert EmbedStack(base, s.stack)[..|s.stack| - n] == EmbedStack(base, s.stack[..|s.stack| - n]);
  }

  lemma EmbedReturn(base: nat, s: State)
    requires s.calls != []
    ensures Return(Embed(base, s), 2) == EmbedOutcome(base, Return(s, 1))
  {
    assert EmbedAll(base, s.calls)[..|s.calls| - 1] == EmbedAll(base, s.calls[..|s.calls| - 1]);
  }

  lemma EmbedRaise(base: nat, s: State)
    ensures Raise(Embed(base, s)) == EmbedOutcome(base, Raise(s))
  {
    if s.catchers != [] {
      var h := s.catchers[|s.catchers| - 1].height;
      assert EmbedCatchers(base, s.catchers)[..|s.catchers| - 1] == EmbedCatchers(base, s.catchers[..|s.catchers| - 1]);
      if h < |s.calls| { assert EmbedAll(base, s.calls)[..h] == EmbedAll(base, s.calls[..h]); }
    }
  }

  lemma EmbedRetVal(base: nat, s: State, n: nat)
    requires n < |s.stack| && s.calls != []
    ensures Return(Embed(base, s).(stack := EmbedStack(base, s.stack)[..|s.stack| - n - 1] + [Top(Embed(base, s))]), 2)
         == EmbedOutcome(base, Return(s.(stack := s.stack[..|s.stack| - n - 1] + [Top(s)]), 1))
  {
    var s' := s.(stack := s.stack[..|s.stack| - n - 1] + [Top(s)]);
    assert EmbedStack(base, s'.stack) == EmbedStack(base, s.stack)[..|s.stack| - n - 1] + [Top(Embed(base, s))];
    EmbedReturn(base, s');
  }

  /** Executing commutes with replacing instructions by addresses. */
  lemma EmbedExecute(isa: Isa, base: nat, stub: nat, arg: nat, target: nat, s: State)
    ensures Execute(isa, 2, stub, arg, Address(base, target), Embed(base, s))
         == EmbedOutcome(base, Execute(isa, 1, stub, arg, target, s))
  {
    hide Skip, Return, Raise;
    match isa.kind(stub)
    case Plain =>
      EmbedPlain(base, s.stack, isa.plain(stub, arg, Views(s.stack), s.mem).stack);
    case SkipIfZero => EmbedSkip(base, s, Signed(arg), true);
    case SkipUnlessZero => EmbedSkip(base, s, Signed(arg), false);
    case JumpPop =>
      if s.stack != [] { EmbedPopped(base, s, 1); }
    case CallFun =>
      if s.stack != [] { EmbedPopped(base, s, 1); }
      assert EmbedAll(base, s.calls + [s.ip]) == EmbedAll(base, s.calls) + [Address(base, s.ip)];
    case Call =>
      assert EmbedAll(base, s.calls + [s.ip]) == EmbedAll(base, s.calls) + [Address(base, s.ip)];
    case Ret =>
      if s.calls != [] && arg <= |s.stack| {
        EmbedPopped(base, s, arg);
        EmbedReturn(base, Popped(s, arg));
      }
    case RetVal =>
      if s.calls != [] && arg < |s.stack| { EmbedRetVal(base, s, arg); }
    case Throw =>
      if s.stack != [] { EmbedPopped(base, s, 1); }
      EmbedRaise(base, if s.stack == [] then s else Popped(s, 1));
    case InstCatcher =>
      assert EmbedCatchers(base, s.catchers + [Catcher(target, |s.calls|)])
          == EmbedCatchers(base, s.catchers) + [Catcher(Address(base, target), |s.calls|)];
    case UninstCatcher =>
      if s.catchers != [] {
        assert EmbedCatchers(base, s.catchers)[..|s.catchers| - 1] == EmbedCatchers(base, s.catchers[..|s.catchers| - 1]);
      }
    case NewFun =>
      assert EmbedStack(base, s.stack + [Code(target)]) == EmbedStack(base, s.stack) + [Code(Address(base, target))];
    case NewThread =>
      if s.stack != [] && Top(s).Word? {
        EmbedPopped(base, s, 1);
        var s' := Popped(s, 1);
        assert EmbedStack(base, s'.stack + [Word(|s.spawned|)]) == EmbedStack(base, s'.stack) + [Word(|s.spawned|)];
        assert EmbedAll(base, s.spawned + [target]) == EmbedAll(base, s.spawned) + [Address(base, target)];
      }
    case Jump =>
  }

  /** Every label that is used is declared, has as many pseudo-opcodes before it as its uses,
      and does not stand at address 0 unless it is only the start of threads. */
  ghost predicate Sound(isa: Isa, tb: Tables, chain: seq<Node>, base: nat) {
    forall i :: 0 <= i < |Program(chain)| && UsesLabel(chain, i) ==> SoundUse(isa, tb, chain, base, i)
  }

  ghost predicate SoundUse(isa: Isa, tb: Tables, chain: seq<Node>, base: nat, i: nat)
    requires i < |Program(chain)|
  {
    var n := Program(chain)[i];
    var l := Find(chain, n.arg);
    && l.Some?
    && l.value.lag == n.lag
    && (base + 2 * l.value.at != 0 || isa.kind(tb.stub(n.ty, n.op)) in {Plain, NewThread})
  }

  ghost predicate GoodTarget(n: nat, base: nat, i: nat) {
    i <= n && base + 2 * i != 0
  }

  /** All code pointers of a thread stay within a program of `n` instructions. */
  ghost predicate InRange(n: nat, base: nat, s: State) {
    && s.ip <= n + 1
    && (forall c | c in s.calls :: c < n)
    && (forall v | v in s.stack :: v.Code? ==> GoodTarget(n, base, v.at))
    && (forall c | c in s.catchers :: GoodTarget(n, base, c.handler))
  }

  lemma ApplyInRange(n: nat, base: nat, s: seq<Val>, ps: seq<Pick>)
    requires forall v | v in s :: v.Code? ==> GoodTarget(n, base, v.at)
    ensures forall v | v in Apply(s, ps) :: v.Code? ==> GoodTarget(n, base, v.at)
  {
    forall i | 0 <= i < |ps| ensures Apply(s, ps)[i].Code? ==> GoodTarget(n, base, Apply(s, ps)[i].at) {
      if ps[i].Kept? && ps[i].i < |s| { assert s[ps[i].i] in s; }
    }
  }

  lemma ReturnInRange(n: nat, base: nat, s: State)
    requires InRange(n, base, s) && s.calls != [] && base + 2 * n > 0
    ensures InRange(n, base, Return(s, 1).s) && Return(s, 1).s.ip == s.ip
    ensures GoodTarget(n, base, Return(s, 1).jump.value)
  {
    assert s.calls[|s.calls| - 1] in s.calls;
    forall c | c in Return(s, 1).s.calls ensures c < n { assert c in s.calls; }
  }

  lemma RaiseInRange(n: nat, base: nat, s: State)
    requires InRange(n, base, s)
    ensures InRange(n, base, Raise(s).s) && Raise(s).s.ip == s.ip
    ensures Raise(s).jump.Some? ==> GoodTarget(n, base, Raise(s).jump.value)
  {
    if s.catchers != [] {
      assert s.catchers[|s.catchers| - 1] in s.catchers;
      forall c | c in Raise(s).s.calls ensures c < n { assert c in s.calls; }
    }
  }

  /** Executing keeps the code pointers in range, and jumps only to proper targets. */
  lemma ExecuteInRange(isa: Isa, n: nat, base: nat, stub: nat, arg: nat, target: nat, s: State)
    requires InRange(n, base, s) && s.ip < n
    requires UsesTarget(isa.kind(stub)) && isa.kind(stub) != NewThread ==> GoodTarget(n, base, target)
    ensures var o := Execute(isa, 1, stub, arg, target, s);
            InRange(n, base, o.s) && o.s.ip <= n && (o.jump.Some? ==> GoodTarget(n, base, o.jump.value))
  {
    hide Raise, Return;
    match isa.kind(stub)
    case Plain =>
      ApplyInRange(n, base, s.stack, isa.plain(stub, arg, Views(s.stack), s.mem).stack);
    case CallFun =>
      if s.stack != [] { assert Top(s) in s.stack; }
    case Ret =>
      if s.calls != [] && arg <= |s.stack| { ReturnInRange(n, base, Popped(s, arg)); }
    case RetVal =>
      if s.calls != [] && arg < |s.stack| {
        assert Top(s) in s.stack;
        ReturnInRange(n, base, s.(stack := s.stack[..|s.stack| - arg - 1] + [Top(s)]));
      }
    case Throw =>
      RaiseInRange(n, base, if s.stack == [] then s else Popped(s, 1));
    case _ =>
  }

  /** What does not use its target does the same for any target. */
  lemma TargetUnused(isa: Isa, unit: nat, stub: nat, arg: nat, t1: nat, t2: nat, s: State)
    requires !UsesTarget(isa.kind(stub))
    ensures Execute(isa, unit, stub, arg, t1, s) == Execute(isa, unit, stub, arg, t2, s)
  {
  }

  lemma EmbedAdvance(base: nat, n: nat, o: Outcome)
    requires o.s.ip <= n && base + 2 * n + 2 < 0x8000_0000 && n > 0
    requires o.jump.Some? ==> GoodTarget(n, base, o.jump.value)
    ensures Advance(EmbedOutcome(base, o), base + 2 * n) == Embed(base, Go(o, n))
  {
  }

  /** The machine finds at address `i` what the chain names as instruction `i`. */
  lemma Fetched(tb: Tables, chain: seq<Node>, base: nat, before: seq<nat>, i: nat)
    requires |before| == base && i < |Program(chain)|
    ensures var code, n := before + Emit(tb, chain, base, chain, base), Program(chain)[i];
            && |code| == base + 2 * |Program(chain)|
            && code[Address(base, i)] == tb.stub(n.ty, n.op)
            && code[Address(base, i) + 1] == Emitted(tb, chain, base, i)
  {
    hide ArgWord;
    EmitInstrs(tb, chain, base, chain, 0, 0);
  }

  /** The word that leads from instruction `i` to instruction `j`, modulo the word size. */
  lemma AwayLands(base: nat, n: nat, i: nat, d: int, w: nat)
    requires base + 2 * n < WORD && Wrap(d) == w % WORD && Away(n, i, d).Some?
    ensures (base + 2 * i + w) % WORD == Address(base, Away(n, i, d).value)
  {
    var j := Away(n, i, d).value;
    assert base + 2 * i + d == base + 2 * j;
    WrapSum(base + 2 * i, d);
    WrapSum(base + 2 * i, w);
    WrapSmall(base + 2 * j);
  }

  lemma ShiftLands(base: nat, n: nat, i: nat, d: int, w: nat)
    requires base + 2 * n < WORD && Wrap(d) == w % WORD && Shift(base, n, i, d).Some?
    ensures (base + 2 * i + w) % WORD == Address(base, Shift(base, n, i, d).value)
    ensures GoodTarget(n, base, Shift(base, n, i, d).value)
  {
    AwayLands(base, n, i, d, w);
  }

  lemma SignedWraps(w: nat)
    ensures Wrap(Signed(w % WORD)) == w % WORD
  {
  }

  /** A computed jump leads where the popped word says. */
  lemma PopAim(isa: Isa, tb: Tables, chain: seq<Node>, base: nat, s: State, arg: nat)
    requires Fits(chain, base) && s.ip < |Program(chain)|
    requires isa.kind(tb.stub(Program(chain)[s.ip].ty, Program(chain)[s.ip].op)) == JumpPop
    requires Aim(isa, tb, chain, base, s.ip, s) != None
    ensures var n := Program(chain)[s.ip];
            var aim := Aim(isa, tb, chain, base, s.ip, s).value;
            && MachineTarget(isa, tb.stub(n.ty, n.op), arg, Embed(base, s)) == Address(base, aim)
            && GoodTarget(|Program(chain)|, base, aim)
  {
    hide Shift, Program, PseudoCount, GoodTarget, Signed, Wrap, Named;
    var e, w := Embed(base, s), Top(s).w;
    assert e.stack != [] && Top(e) == Top(s);
    SignedWraps(w);
    ShiftLands(base, |Program(chain)|, s.ip, Signed(w % WORD), w);
  }

  /** For a sound chain, the argument word is the distance to the instruction that the argument names. */
  lemma NamedAim(isa: Isa, tb: Tables, chain: seq<Node>, base: nat, i: nat)
    requires Fits(chain, base) && Sound(isa, tb, chain, base) && i < |Program(chain)|
    ensures var n := Program(chain)[i];
            var arg := Emitted(tb, chain, base, i);
            && arg == Argument(tb, chain, base, i)
            && (Named(chain, base, i).Some? ==>
                 && (base + 2 * i + arg) % WORD == Address(base, Named(chain, base, i).value)
                 && (isa.kind(tb.stub(n.ty, n.op)) in {Plain, NewThread} || GoodTarget(|Program(chain)|, base, Named(chain, base, i).value)))
  {
    var n := Program(chain)[i];
    if UsesLabel(chain, i) {
      assert SoundUse(isa, tb, chain, base, i);
      LandsOnLabelIff(tb, chain, base, i);
      AddressOfPlace(chain, n.arg, base, Start);
    } else if n.ty == LabelArg && Named(chain, base, i).Some? {
      WrapSmall(Wrap(Atoi(n.arg)));
      ShiftLands(base, |Program(chain)|, i, Atoi(n.arg), Wrap(Atoi(n.arg)));
    }
  }

  /** One machine cycle on the emitted code is one symbolic cycle. */
  lemma CycleSimulates(isa: Isa, tb: Tables, chain: seq<Node>, base: nat, before: seq<nat>, s: State)
    requires |before| == base && Fits(chain, base) && Sound(isa, tb, chain, base)
    requires InRange(|Program(chain)|, base, s)
    requires Symbolic(isa, tb, chain, base, s).status != Strayed
    ensures var code := before + Emit(tb, chain, base, chain, base);
            Cycle(isa, code, Embed(base, s)) == Embed(base, Symbolic(isa, tb, chain, base, s))
    ensures InRange(|Program(chain)|, base, Symbolic(isa, tb, chain, base, s))
  {
    hide Execute, Advance, Go, Emitted, Argument, Emit, Named, MachineTarget;
    var p := Program(chain);
    if s.status == Alive {
      if s.ip < |p| {
        Fetched(tb, chain, base, before, s.ip);
        CycleSteps(isa, tb, chain, base, s);
      } else {
        EmitInstrs(tb, chain, base, chain, 0, 0);
      }
    }
  }

  /** The execution of instruction `s.ip`, at its address and by its name. */
  lemma CycleSteps(isa: Isa, tb: Tables, chain: seq<Node>, base: nat, s: State)
    requires Fits(chain, base) && Sound(isa, tb, chain, base)
    requires InRange(|Program(chain)|, base, s) && s.status == Alive && s.ip < |Program(chain)|
    requires Aim(isa, tb, chain, base, s.ip, s) != None
    ensures var n := Program(chain)[s.ip];
            var stub, arg := tb.stub(n.ty, n.op), Emitted(tb, chain, base, s.ip);
            Advance(Execute(isa, 2, stub, arg, MachineTarget(isa, stub, arg, Embed(base, s)), Embed(base, s)),
                    base + 2 * |Program(chain)|) == Embed(base, Symbolic(isa, tb, chain, base, s))
    ensures InRange(|Program(chain)|, base, Symbolic(isa, tb, chain, base, s))
  {
    hide Execute, Advance, Argument, Emitted, Named;
    var p := Program(chain);
    var n := p[s.ip];
    var stub, arg := tb.stub(n.ty, n.op), Emitted(tb, chain, base, s.ip);
    var aim := Aim(isa, tb, chain, base, s.ip, s).value;
    var e := Embed(base, s);
    NamedAim(isa, tb, chain, base, s.ip);
    if isa.kind(stub) == JumpPop {
      PopAim(isa, tb, chain, base, s, arg);
    }
    var target := MachineTarget(isa, stub, arg, e);
    if !UsesTarget(isa.kind(stub)) {
      TargetUnused(isa, 2, stub, arg, target, Address(base, aim), e);
    } else {
      assert target == Address(base, aim);
    }
    EmbedExecute(isa, base, stub, arg, aim, s);
    ExecuteInRange(isa, |p|, base, stub, arg, aim, s);
    EmbedAdvance(base, |p|, Execute(isa, 1, stub, arg, aim, s));
  }

  function MachineRun(isa: Isa, code: seq<nat>, s: State, k: nat): State
    decreases k
  {
    if k == 0 then s else MachineRun(isa, code, Cycle(isa, code, s), k - 1)
  }

  function SymbolicRun(isa: Isa, tb: Tables, chain: seq<Node>, base: nat, s: State, k: nat): State
    decreases k
  {
    if k == 0 then s else SymbolicRun(isa, tb, chain, base, Symbolic(isa, tb, chain, base, s), k - 1)
  }

  lemma {:induction false} StrayedStays(isa: Isa, tb: Tables, chain: seq<Node>, base: nat, s: State, k: nat)
    requires s.status == Strayed
    ensures SymbolicRun(isa, tb, chain, base, s, k) == s
    decreases k
  {
    if k > 0 { StrayedStays(isa, tb, chain, base, s, k - 1); }
  }

  /** Running the emitted code simulates, cycle for cycle, running the chain by label name. */
  lemma {:induction false} RunSimulates(isa: Isa, tb: Tables, chain: seq<Node>, base: nat, before: seq<nat>, s: State, k: nat)
    requires |before| == base && Fits(chain, base) && Sound(isa, tb, chain, base)
    requires InRange(|Program(chain)|, base, s)
    requires SymbolicRun(isa, tb, chain, base, s, k).status != Strayed
    ensures MachineRun(isa, before + Emit(tb, chain, base, chain, base), Embed(base, s), k)
         == Embed(base, SymbolicRun(isa, tb, chain, base, s, k))
    decreases k
  {
    hide Cycle, Symbolic, Embed, InRange, Emit;
    if k > 0 {
      var s' := Symbolic(isa, tb, chain, base, s);
      if s'.status == Strayed {
        StrayedStays(isa, tb, chain, base, s', k - 1);
      }
      CycleSimulates(isa, tb, chain, base, before, s);
      RunSimulates(isa, tb, chain, base, before, s', k - 1);
    }
  }

  // ------------------------------- conditional skips, over whole instructions

  /** `SZ` passes over the next instruction exactly if the tested value is zero, `SNZ` exactly if it is not; both pop one
      value, and go on to the next instruction or the one after it. */
  lemma SkipTakenIff(isa: Isa, tb: Tables, chain: seq<Node>, base: nat, s: State)
    requires s.status == Alive && s.ip + 2 < |Program(chain)| && s.stack != []
    requires isa.kind(tb.stub(Program(chain)[s.ip].ty, Program(chain)[s.ip].op)) in {SkipIfZero, SkipUnlessZero}
    requires 0 <= |s.stack| - 1 + Signed(Argument(tb, chain, base, s.ip)) < |s.stack|
    ensures var n, s' := Program(chain)[s.ip], Symbolic(isa, tb, chain, base, s);
            var tested := s.stack[|s.stack| - 1 + Signed(Argument(tb, chain, base, s.ip))];
            && s' == s.(stack := s.stack[..|s.stack| - 1], ip := s'.ip) && s'.ip in {s.ip + 1, s.ip + 2}
            && (isa.kind(tb.stub(n.ty, n.op)) == SkipIfZero ==> (s'.ip == s.ip + 2 <==> tested == Word(0)))
            && (isa.kind(tb.stub(n.ty, n.op)) == SkipUnlessZero ==> (s'.ip == s.ip + 2 <==> tested != Word(0)))
  {
    hide Argument;
  }

  // ------------------------------------- exactly when a jump keeps its meaning

  /** After an outcome that jumps to instruction `j`, the machine, which jumps to the word of `x`, is where the chain is
      exactly when `x` is the address of `j` and not 0; or, by accident, when `x` is 0, which is no jump, and `j` is the
      next instruction anyway. */
  lemma GoAgreesIff(base: nat, n: nat, o: Outcome, x: int)
    requires o.s.status == Alive && o.s.ip < n && o.jump.Some? && o.jump.value <= n
    requires base + 2 * n + 2 < 0x8000_0000 && -0x8000_0000 <= x < 0x8000_0000
    ensures var j := o.jump.value;
            Advance(Outcome(Embed(base, o.s), Some(Wrap(x))), base + 2 * n) == Embed(base, Go(o, n))
            <==> (x == Address(base, j) && x != 0) || (x == 0 && j == o.s.ip + 1 < n)
  {
    WrapSmall(x);
    if x < 0 {
      NegativeFaulty(x);
    }
    EmbedIp(base, o.s, o.jump.value);
    EmbedIp(base, o.s, o.s.ip + 1);
  }

  lemma EmbedIp(base: nat, s: State, i: nat)
    ensures Embed(base, s.(ip := i)) == Embed(base, s).(ip := Address(base, i))
  {
  }

  predicate JumpsToArgument(k: Kind) {
    k in {Jump, Call, UninstCatcher}
  }

  /** An instruction that jumps to its argument does the same to the stacks wherever the argument leads. */
  lemma JumpsAway(isa: Isa, unit: nat, stub: nat, a1: nat, a2: nat, t1: nat, t2: nat, s: State)
    requires JumpsToArgument(isa.kind(stub)) && !(isa.kind(stub) == UninstCatcher && s.catchers == [])
    ensures Execute(isa, unit, stub, a1, t1, s) == Outcome(Execute(isa, unit, stub, a2, t2, s).s, Some(t1))
  {
  }

  /** The machine takes a jump, a call or the removal of a catcher by name as the chain means it exactly when the label
      and the instruction have the same pseudo-opcodes before them and the label is not at address 0; or, by accident,
      when the offset cancels to "no jump" and the label is the next instruction anyway; or when there is no catcher
      to remove. In all other cases a call leaves its caller pushed, and a removal the catcher popped, at a wrong place. */
  lemma JumpAgreesIff(isa: Isa, tb: Tables, chain: seq<Node>, base: nat, before: seq<nat>, s: State)
    requires |before| == base && Fits(chain, base) && s.status == Alive && UsesLabel(chain, s.ip)
    requires JumpsToArgument(isa.kind(tb.stub(LabelArg, Program(chain)[s.ip].op)))
    requires Find(chain, Program(chain)[s.ip].arg).Some?
    ensures var n, l := Program(chain)[s.ip], Find(chain, Program(chain)[s.ip].arg).value;
            Cycle(isa, before + Emit(tb, chain, base, chain, base), Embed(base, s)) == Embed(base, Symbolic(isa, tb, chain, base, s))
            <==>
            || (l.lag == n.lag && base + 2 * l.at != 0)
            || (base + 2 * (l.at + l.lag) == 2 * n.lag && l.at == s.ip + 1 < |Program(chain)|)
            || (isa.kind(tb.stub(LabelArg, n.op)) == UninstCatcher && s.catchers == [])
  {
    hide Emitted, Argument, Emit, Execute, Embed, Go, Advance, Symbolic, Cycle, Where, Instrs, PseudoCount;
    var i, e := s.ip, Embed(base, s);
    var n, l := Program(chain)[i], Find(chain, Program(chain)[i].arg).value;
    var stub, arg, arg' := tb.stub(LabelArg, n.op), Emitted(tb, chain, base, i), Argument(tb, chain, base, i);
    LabelCycles(isa, tb, chain, base, before, s);
    JumpAddress(tb, chain, base, i);
    AddressOfPlace(chain, n.arg, base, Start);
    LagBound(chain, 0);
    EmbedFields(base, s);
    var x := base + 2 * (l.at + l.lag) - 2 * n.lag;
    var o := Execute(isa, 1, stub, arg', l.at, s);
    EmbedExecute(isa, base, stub, arg', l.at, s);
    if isa.kind(stub) == UninstCatcher && s.catchers == [] {
      NothingToRemove(isa, base, |Program(chain)|, stub, arg, arg', Wrap(x), l.at, s);
    } else {
      JumpsAway(isa, 1, stub, arg', arg', l.at, l.at, s);
      JumpsAway(isa, 2, stub, arg, arg', Wrap(x), Address(base, l.at), e);
      StillAlive(isa, stub, arg', l.at, s);
      GoAgreesIff(base, |Program(chain)|, o, x);
    }
  }

  /** The symbolic and the machine's cycle on an instruction that uses a label. */
  lemma LabelCycles(isa: Isa, tb: Tables, chain: seq<Node>, base: nat, before: seq<nat>, s: State)
    requires |before| == base && s.status == Alive && UsesLabel(chain, s.ip) && Find(chain, Program(chain)[s.ip].arg).Some?
    requires UsesTarget(isa.kind(tb.stub(LabelArg, Program(chain)[s.ip].op)))
    requires isa.kind(tb.stub(LabelArg, Program(chain)[s.ip].op)) != JumpPop
    ensures var n, l := Program(chain)[s.ip], Find(chain, Program(chain)[s.ip].arg).value;
            var stub, arg, e := tb.stub(LabelArg, n.op), Emitted(tb, chain, base, s.ip), Embed(base, s);
            && Symbolic(isa, tb, chain, base, s)
               == Go(Execute(isa, 1, stub, Argument(tb, chain, base, s.ip), l.at, s), |Program(chain)|)
            && Cycle(isa, before + Emit(tb, chain, base, chain, base), e)
               == Advance(Execute(isa, 2, stub, arg, (base + 2 * s.ip + arg) % WORD, e), base + 2 * |Program(chain)|)
  {
    hide Emitted, Argument, Emit, Execute, Embed, Go, Advance, Program;
    Fetched(tb, chain, base, before, s.ip);
    EmbedFields(base, s);
  }

  lemma EmbedFields(base: nat, s: State)
    ensures var e := Embed(base, s);
            e.ip == Address(base, s.ip) && e.status == s.status && (e.catchers == [] <==> s.catchers == [])
  {
  }

  lemma StillAlive(isa: Isa, stub: nat, arg: nat, target: nat, s: State)
    requires JumpsToArgument(isa.kind(stub)) && s.status == Alive && !(isa.kind(stub) == UninstCatcher && s.catchers == [])
    ensures Execute(isa, 1, stub, arg, target, s).s.status == Alive && Execute(isa, 1, stub, arg, target, s).s.ip == s.ip
  {
  }

  lemma NothingToRemove(isa: Isa, base: nat, n: nat, stub: nat, arg: nat, arg': nat, t: nat, t': nat, s: State)
    requires isa.kind(stub) == UninstCatcher && s.catchers == []
    ensures Advance(Execute(isa, 2, stub, arg, t, Embed(base, s)), base + 2 * n) == Embed(base, Go(Execute(isa, 1, stub, arg', t', s), n))
  {
  }

  predicate StoresArgument(k: Kind) {
    k in {InstCatcher, NewFun, NewThread}
  }

  /** A handler, a function or the start of a thread is stored as the chain means it exactly when the label and the
      instruction have the same pseudo-opcodes before them, at whatever address; or when a thread is started without
      a priority on the stack. */
  lemma StoredAgreesIff(isa: Isa, tb: Tables, chain: seq<Node>, base: nat, before: seq<nat>, s: State)
    requires |before| == base && Fits(chain, base) && s.status == Alive && UsesLabel(chain, s.ip)
    requires StoresArgument(isa.kind(tb.stub(LabelArg, Program(chain)[s.ip].op)))
    requires Find(chain, Program(chain)[s.ip].arg).Some?
    ensures var n, l := Program(chain)[s.ip], Find(chain, Program(chain)[s.ip].arg).value;
            Cycle(isa, before + Emit(tb, chain, base, chain, base), Embed(base, s)) == Embed(base, Symbolic(isa, tb, chain, base, s))
            <==>
            l.lag == n.lag || (isa.kind(tb.stub(LabelArg, n.op)) == NewThread && (s.stack == [] || !Top(s).Word?))
  {
    hide Emitted, Argument, Emit, Execute, Embed, Go, Advance, Symbolic, Cycle, Where, Instrs, PseudoCount;
    var i, e := s.ip, Embed(base, s);
    var n, l := Program(chain)[i], Find(chain, Program(chain)[i].arg).value;
    var stub, arg, arg' := tb.stub(LabelArg, n.op), Emitted(tb, chain, base, i), Argument(tb, chain, base, i);
    LabelCycles(isa, tb, chain, base, before, s);
    LandsOnLabelIff(tb, chain, base, i);
    AddressOfPlace(chain, n.arg, base, Start);
    EmbedFields(base, s);
    var t := (base + 2 * i + arg) % WORD;
    var o := Execute(isa, 1, stub, arg', l.at, s);
    EmbedExecute(isa, base, stub, arg', l.at, s);
    StoredOutcome(isa, 1, stub, arg', l.at, s);
    StoredTarget(isa, base, stub, arg, arg', t, l.at, s);
    EmbedFields(base, o.s);
    GoesOn(base, |Program(chain)|, o, Execute(isa, 2, stub, arg, t, e));
  }

  /** Storing goes on to the next instruction, or faults. */
  lemma StoredOutcome(isa: Isa, unit: nat, stub: nat, arg: nat, t: nat, s: State)
    requires StoresArgument(isa.kind(stub)) && s.status == Alive
    ensures var o := Execute(isa, unit, stub, arg, t, s); o.jump == None && o.s.ip == s.ip && o.s.status in {Alive, Aborted}
  {
  }

  /** Two targets leave the same state exactly when they are equal, or nothing is stored. */
  lemma StoredTarget(isa: Isa, base: nat, stub: nat, arg: nat, arg': nat, t: nat, j: nat, s: State)
    requires StoresArgument(isa.kind(stub)) && s.status == Alive
    ensures Execute(isa, 2, stub, arg, t, Embed(base, s)).jump == None
    ensures Execute(isa, 2, stub, arg, t, Embed(base, s)).s.ip == Address(base, s.ip)
    ensures Execute(isa, 2, stub, arg, t, Embed(base, s)).s.status == Execute(isa, 2, stub, arg', Address(base, j), Embed(base, s)).s.status
    ensures Execute(isa, 2, stub, arg, t, Embed(base, s)).s == Execute(isa, 2, stub, arg', Address(base, j), Embed(base, s)).s
            <==> t == Address(base, j) || (isa.kind(stub) == NewThread && (s.stack == [] || !Top(s).Word?))
  {
    var e := Embed(base, s);
    if s.stack != [] { assert Top(e).Word? == Top(s).Word?; }
    Ends(e.catchers, Catcher(t, |e.calls|), Catcher(Address(base, j), |e.calls|));
    Ends(e.stack, Code(t), Code(Address(base, j)));
    Ends(e.spawned, t, Address(base, j));
  }

  lemma Ends<T>(l: seq<T>, a: T, b: T)
    ensures l + [a] == l + [b] <==> a == b
  {
    assert (l + [a])[|l|] == a && (l + [b])[|l|] == b;
  }

  lemma GoesOn(base: nat, n: nat, o: Outcome, e: Outcome)
    requires o.jump == None && e.jump == None && o.s.ip < n && e.s.ip == Address(base, o.s.ip) && e.s.status == o.s.status
    requires base + 2 * n + 2 < 0x8000_0000 && o.s.status in {Alive, Aborted}
    ensures Advance(e, base + 2 * n) == Embed(base, Go(o, n)) <==> e.s == Embed(base, o.s)
  {
    EmbedIp(base, o.s, o.s.ip + 1);
  }

  /** The distance in words that the instruction at `s.ip` gives: its offset argument or, for a computed jump, the word
      on the stack. */
  function Distance(isa: Isa, tb: Tables, chain: seq<Node>, s: State): Option<int>
    requires s.ip < |Program(chain)|
  {
    var n := Program(chain)[s.ip];
    if isa.kind(tb.stub(n.ty, n.op)) == JumpPop then
      if s.stack != [] && Top(s).Word? then Some(Signed(Top(s).w % WORD)) else None
    else if n.ty == LabelArg && IsOffset(n.arg) then Some(Atoi(n.arg)) else None
  }

  /** The symbolic cycle if instruction `s.ip` leads to instruction `j`, wherever that is. */
  function Counted(isa: Isa, tb: Tables, chain: seq<Node>, base: nat, s: State, j: nat): State
    requires s.ip < |Program(chain)|
  {
    var n := Program(chain)[s.ip];
    Go(Execute(isa, 1, tb.stub(n.ty, n.op), Argument(tb, chain, base, s.ip), j, s), |Program(chain)|)
  }

  /** A computed jump and an instruction with an offset count instructions as the chain does exactly when the one they
      lead to is not at address 0; or when they only store it; or when there is no catcher to remove. */
  lemma OffsetAgreesIff(isa: Isa, tb: Tables, chain: seq<Node>, base: nat, before: seq<nat>, s: State, d: int)
    requires |before| == base && Fits(chain, base) && s.status == Alive && s.ip < |Program(chain)|
    requires UsesTarget(isa.kind(tb.stub(Program(chain)[s.ip].ty, Program(chain)[s.ip].op)))
    requires Distance(isa, tb, chain, s) == Some(d) && Away(|Program(chain)|, s.ip, d).Some?
    ensures var n, j := Program(chain)[s.ip], Away(|Program(chain)|, s.ip, d).value;
            var k := isa.kind(tb.stub(n.ty, n.op));
            Cycle(isa, before + Emit(tb, chain, base, chain, base), Embed(base, s)) == Embed(base, Counted(isa, tb, chain, base, s, j))
            <==> Address(base, j) != 0 || StoresArgument(k) || (k == UninstCatcher && s.catchers == [])
  {
    hide Emitted, Argument, Emit, Execute, Embed, Go, Advance, MachineTarget, Away;
    var p, j := |Program(chain)|, Away(|Program(chain)|, s.ip, d).value;
    var n := Program(chain)[s.ip];
    var stub, arg := tb.stub(n.ty, n.op), Argument(tb, chain, base, s.ip);
    Fetched(tb, chain, base, before, s.ip);
    EmbedFields(base, s);
    DistanceLands(isa, tb, chain, base, s, d);
    var o := Execute(isa, 1, stub, arg, j, s);
    EmbedExecute(isa, base, stub, arg, j, s);
    JumpsOrStores(isa, stub, arg, j, s);
    AwayInside(p, s.ip, d);
    if o.jump == None {
      EmbedAdvance(base, p, o);
    } else {
      WrapSmall(Address(base, j));
      GoAgreesIff(base, p, o, Address(base, j));
    }
  }

  /** So the simulation leaves out just what goes wrong: at address 0, where a jump is none, its chain strays. */
  lemma StraysIff(isa: Isa, tb: Tables, chain: seq<Node>, base: nat, s: State, d: int)
    requires s.status == Alive && s.ip < |Program(chain)|
    requires UsesTarget(isa.kind(tb.stub(Program(chain)[s.ip].ty, Program(chain)[s.ip].op)))
    requires Distance(isa, tb, chain, s) == Some(d) && Away(|Program(chain)|, s.ip, d).Some?
    ensures var j := Away(|Program(chain)|, s.ip, d).value;
            Symbolic(isa, tb, chain, base, s) == if Address(base, j) == 0 then s.(status := Strayed) else Counted(isa, tb, chain, base, s, j)
  {
    hide Argument, Execute, Go, Away, Program, Signed;
  }

  lemma AwayInside(n: nat, i: nat, d: int)
    requires Away(n, i, d).Some?
    ensures Away(n, i, d).value <= n
  {
  }

  /** The machine finds the instruction that many words away, whatever the word-size arithmetic. */
  lemma DistanceLands(isa: Isa, tb: Tables, chain: seq<Node>, base: nat, s: State, d: int)
    requires Fits(chain, base) && s.ip < |Program(chain)|
    requires Distance(isa, tb, chain, s) == Some(d) && Away(|Program(chain)|, s.ip, d).Some?
    ensures var n, j := Program(chain)[s.ip], Away(|Program(chain)|, s.ip, d).value;
            var stub, e := tb.stub(n.ty, n.op), Embed(base, s);
            var emitted := Emitted(tb, chain, base, s.ip);
            && Execute(isa, 2, stub, emitted, MachineTarget(isa, stub, emitted, e), e)
               == Execute(isa, 2, stub, Argument(tb, chain, base, s.ip), Address(base, j), e)
  {
    hide PseudoCount, Signed, Named, Embed;
    var n, j, e := Program(chain)[s.ip], Away(|Program(chain)|, s.ip, d).value, Embed(base, s);
    EmbedTop(base, s);
    if isa.kind(tb.stub(n.ty, n.op)) == JumpPop {
      SignedWraps(Top(s).w);
      AwayLands(base, |Program(chain)|, s.ip, d, Top(s).w);
    } else {
      AwayLands(base, |Program(chain)|, s.ip, d, Wrap(d));
    }
  }

  lemma EmbedTop(base: nat, s: State)
    ensures var e := Embed(base, s);
            e.ip == Address(base, s.ip) && |e.stack| == |s.stack| && (s.stack != [] && Top(s).Word? ==> Top(e) == Top(s))
  {
  }

  /** What uses a target jumps there and changes nothing else about where the thread is, or stores it, or faults. */
  lemma JumpsOrStores(isa: Isa, stub: nat, arg: nat, t: nat, s: State)
    requires UsesTarget(isa.kind(stub)) && s.status == Alive && (isa.kind(stub) == JumpPop ==> s.stack != [])
    ensures var o := Execute(isa, 1, stub, arg, t, s);
            && o.s.ip == s.ip && (o.jump.Some? ==> o.jump == Some(t) && o.s.status == Alive)
            && (o.jump == None <==> StoresArgument(isa.kind(stub)) || (isa.kind(stub) == UninstCatcher && s.catchers == []))
  {
  }

  /** A throw that takes a handler goes on there exactly when the handler is not at address 0; so does a call of a function. */
  lemma ReachesIff(isa: Isa, tb: Tables, chain: seq<Node>, base: nat, before: seq<nat>, s: State)
    requires |before| == base && Fits(chain, base) && s.status == Alive && s.ip < |Program(chain)|
    requires var k := isa.kind(tb.stub(Program(chain)[s.ip].ty, Program(chain)[s.ip].op));
             || (k == Throw && s.catchers != [] && s.catchers[|s.catchers| - 1].handler <= |Program(chain)|)
             || (k == CallFun && s.stack != [] && Top(s).Code? && Top(s).at <= |Program(chain)|)
    ensures var n := Program(chain)[s.ip];
            var j := if isa.kind(tb.stub(n.ty, n.op)) == Throw then s.catchers[|s.catchers| - 1].handler else Top(s).at;
            Cycle(isa, before + Emit(tb, chain, base, chain, base), Embed(base, s)) == Embed(base, Symbolic(isa, tb, chain, base, s))
            <==> Address(base, j) != 0
  {
    hide Emitted, Argument, Emit, Execute, Embed, Go, Advance;
    var n := Program(chain)[s.ip];
    var stub, arg, arg' := tb.stub(n.ty, n.op), Emitted(tb, chain, base, s.ip), Argument(tb, chain, base, s.ip);
    var e := Embed(base, s);
    Fetched(tb, chain, base, before, s.ip);
    EmbedFields(base, s);
    var t := MachineTarget(isa, stub, arg, e);
    var o := Execute(isa, 1, stub, arg', 0, s);
    ArgumentUnused(isa, 2, stub, arg, arg', t, Address(base, 0), e);
    EmbedExecute(isa, base, stub, arg', 0, s);
    Reached(isa, stub, arg', s);
    WrapSmall(Address(base, o.jump.value));
    GoAgreesIff(base, |Program(chain)|, o, Address(base, o.jump.value));
  }

  lemma ArgumentUnused(isa: Isa, unit: nat, stub: nat, a1: nat, a2: nat, t1: nat, t2: nat, s: State)
    requires isa.kind(stub) in {Throw, CallFun}
    ensures Execute(isa, unit, stub, a1, t1, s) == Execute(isa, unit, stub, a2, t2, s)
  {
  }

  lemma Reached(isa: Isa, stub: nat, arg: nat, s: State)
    requires s.status == Alive
    requires (isa.kind(stub) == Throw && s.catchers != []) || (isa.kind(stub) == CallFun && s.stack != [] && Top(s).Code?)
    ensures var o := Execute(isa, 1, stub, arg, 0, s);
            && o.s.status == Alive && o.s.ip == s.ip
            && o.jump == Some(if isa.kind(stub) == Throw then s.catchers[|s.catchers| - 1].handler else Top(s).at)
  {
  }

  lemma JumpAddress(tb: Tables, chain: seq<Node>, base: nat, i: nat)
    requires Fits(chain, base) && UsesLabel(chain, i) && Find(chain, Program(chain)[i].arg).Some?
    ensures var n, l := Program(chain)[i], Find(chain, Program(chain)[i].arg).value;
            (base + 2 * i + Emitted(tb, chain, base, i)) % WORD == Wrap(base + 2 * (l.at + l.lag) - 2 * n.lag)
  {
    var n, l := Program(chain)[i], Find(chain, Program(chain)[i].arg).value;
    AddressOfPlace(chain, n.arg, base, Start);
    WrapSum(base + 2 * i, base + 2 * (l.at + l.lag) - (base + 2 * (i + n.lag)));
  }

  /** A jump whose offset leads to `x` is taken unless `x` is 0; a negative `x` kills the thread. */
  lemma JumpTaken(isa: Isa, code: seq<nat>, s: State, x: int)
    requires s.status == Alive && s.ip + 2 <= |code| < 0x8000_0000 && -0x8000_0000 <= x < 0x8000_0000
    requires isa.kind(code[s.ip]) == Jump && (s.ip + code[s.ip + 1]) % WORD == Wrap(x)
    ensures x > 0 ==> Cycle(isa, code, s) == s.(ip := x)
    ensures x < 0 ==> Cycle(isa, code, s).status == Dying
    ensures x == 0 ==> Cycle(isa, code, s) == if s.ip == |code| - 2 then s.(status := Dying) else s.(ip := s.ip + 2)
  {
    if x < 0 {
      NegativeFaulty(x);
    } else {
      WrapSmall(x);
    }
  }

  /** A program that starts with the label of its own loop runs through instead of looping. */
  lemma LoopFromAddressZero(isa: Isa, tb: Tables, s: State)
    requires isa.kind(tb.stub(LabelArg, "jmp")) == Jump && s.status == Alive && s.ip == 1
    ensures var chain := [Label("again"), Op(NoArg, "nop", ""), Op(LabelArg, "jmp", "again")];
            && Symbolic(isa, tb, chain, 0, s) == s.(ip := 0)
            && Cycle(isa, Emit(tb, chain, 0, chain, 0), Embed(0, s)) == Embed(0, s).(status := Dying)
  {
    var chain := [Label("again"), Op(NoArg, "nop", ""), Op(LabelArg, "jmp", "again")];
    assert chain[1..] == [Op(NoArg, "nop", ""), Op(LabelArg, "jmp", "again")];
    assert chain[1..][1..] == [Op(LabelArg, "jmp", "again")];
    assert Instrs(chain[1..][1..], 0) == [Instr(LabelArg, "jmp", "again", 0)];
    assert Program(chain) == [Instr(NoArg, "nop", "", 0), Instr(LabelArg, "jmp", "again", 0)];
    assert Find(chain, "again") == Some(Start);
    assert [] + Emit(tb, chain, 0, chain, 0) == Emit(tb, chain, 0, chain, 0);
    Fetched(tb, chain, 0, [], 1);
    JumpAddress(tb, chain, 0, 1);
    JumpTaken(isa, Emit(tb, chain, 0, chain, 0), Embed(0, s), 0);
  }
}
