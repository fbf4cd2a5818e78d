/** What instructions do to the slots of the machine, whatever the reference counts are. */
module SlotMemory {
  import opened Options

  /** A typed slot: a plain word, or a managed object. */
  datatype Slot = Plain(w: nat) | Obj(o: nat)

  /** A thread's data stack, and its locals: a buffer of which the first `top` tokens are in use. */
  datatype Stacks = Stacks(data: seq<Slot>, locals: seq<Slot>, top: nat)

  /** A managed object with the slots it owns, as long as it is not freed. */
  datatype Thing = Gone | Thing(isArray: bool, kids: seq<Slot>)

  datatype Mem = Mem(run: Stacks, parked: seq<Stacks>, globals: seq<Slot>, used: nat, things: seq<Thing>)

  datatype Op =
    | PushWord(w: nat) | NewObject(isArray: bool) | PopData(n: nat) | DupData(depth: nat) | SwapData(k: int) | Return(n: nat)
    | Get(m: int) | Set(m: int) | EnterLocals(n: nat) | LeaveLocals(n: nat)
    | StoreArray(i: nat) | FetchArray(i: nat) | StoreClosure(a: nat, i: nat) | FetchClosure(a: nat, i: nat) | Yield(n: nat)

  function Zeros(n: nat): (z: seq<Slot>)
    ensures |z| == n && forall v | v in z :: v.Plain?
  {
    seq(n, _ => Plain(0))
  }

  /** The slots of an array after storing `v` in slot `i`. */
  function Stored(kids: seq<Slot>, i: nat, v: Slot): seq<Slot> {
    if i < |kids| then kids[i := v] else kids + Zeros(i - |kids|) + [v]
  }

  /** The stack with its top and the value `n` below it exchanged. */
  function Swapped(d: seq<Slot>, n: int): seq<Slot>
    requires n < |d|
  {
    var k := |d| - 1;
    if n <= 0 then d else d[k := d[k - n]][k - n := d[k]]
  }

  /** The locals with no object in the slots from `lo` to `hi`. */
  function Cleared(l: seq<Slot>, lo: nat, hi: nat): seq<Slot> {
    seq(|l|, i requires 0 <= i < |l| => if lo <= i < hi && l[i].Obj? then Plain(0) else l[i])
  }

  // ------------------------------------------------------- one instruction

  function WithData(m: Mem, d: seq<Slot>): Mem {
    m.(run := m.run.(data := d))
  }

  function Pushed(m: Mem, v: Slot): Mem {
    WithData(m, m.run.data + [v])
  }

  predicate Exists(m: Mem, o: nat) {
    o < |m.things| && m.things[o].Thing?
  }

  predicate IsArrayIn(m: Mem, v: Slot) {
    v.Obj? && Exists(m, v.o) && m.things[v.o].isArray
  }

  function WithKids(m: Mem, o: nat, kids: seq<Slot>): Mem
    requires Exists(m, o)
  {
    m.(things := m.things[o := m.things[o].(kids := kids)])
  }

  /** Local `n` (counted down from -1), or global `n`. */
  function Read(m: Mem, n: int): Option<Slot> {
    if !(0 <= m.run.top + n && n < |m.globals| && m.run.top <= |m.run.locals|) then None
    else Some(if n < 0 then m.run.locals[m.run.top + n] else m.globals[n])
  }

  function Write(m: Mem, n: int, v: Slot): Mem
    requires Read(m, n).Some?
  {
    if n < 0 then m.(run := m.run.(locals := m.run.locals[m.run.top + n := v]))
    else m.(globals := m.globals[n := v], used := if n >= m.used then n + 1 else m.used)
  }

  function OnStack(m: Mem, op: Op): Option<Mem>
    requires op.PushWord? || op.PopData? || op.DupData? || op.SwapData? || op.Return?
  {
    var d := m.run.data;
    match op
    case PushWord(w) => Some(Pushed(m, Plain(w)))
    case PopData(n) => if n <= |d| then Some(WithData(m, d[..|d| - n])) else None
    case DupData(k) => if k < |d| then Some(Pushed(m, d[|d| - 1 - k])) else None
    case SwapData(n) => if n < |d| then Some(WithData(m, Swapped(d, n))) else None
    case Return(n) => if n < |d| then Some(WithData(m, d[..|d| - n - 1] + [d[|d| - 1]])) else None
  }

  function OnLocals(m: Mem, op: Op): Option<Mem>
    requires op.Get? || op.Set? || op.EnterLocals? || op.LeaveLocals? || op.Yield?
  {
    var d, l, t := m.run.data, m.run.locals, m.run.top;
    match op
    case Get(n) => if Read(m, n).Some? then Some(Pushed(m, Read(m, n).value)) else None
    case Set(n) =>
      if Read(m, n).Some? && d != [] then Some(WithData(Write(m, n, d[|d| - 1]), d[..|d| - 1])) else None
    case EnterLocals(n) =>
      if n < 16384 then Some(m.(run := Stacks(d, if |l| < t + n then l + Zeros(16384) else l, t + n))) else None
    case LeaveLocals(n) => if n <= t then Some(m.(run := Stacks(d, Cleared(l, t - n, t), t - n))) else None
    case Yield(k) => if k < |m.parked| then Some(m.(run := m.parked[k], parked := m.parked[k := m.run])) else None
  }

  function OnThings(m: Mem, op: Op): Option<Mem>
    requires op.NewObject? || op.StoreArray? || op.FetchArray? || op.StoreClosure? || op.FetchClosure?
  {
    var d := m.run.data;
    match op
    case NewObject(isArray) => Some(Pushed(m.(things := m.things + [Thing(isArray, [])]), Obj(|m.things|)))
    case StoreArray(i) =>
      if |d| >= 2 && IsArrayIn(m, d[|d| - 2]) then
        var a := d[|d| - 2].o;
        Some(WithData(WithKids(m, a, Stored(m.things[a].kids, i, d[|d| - 1])), d[..|d| - 1]))
      else None
    case FetchArray(i) =>
      if d != [] && IsArrayIn(m, d[|d| - 1]) && i < |m.things[d[|d| - 1].o].kids| then
        Some(WithData(m, d[|d| - 1 := m.things[d[|d| - 1].o].kids[i]]))
      else None
    case StoreClosure(a, i) =>
      if d != [] && Exists(m, a) && i < |m.things[a].kids| then
        Some(WithData(WithKids(m, a, m.things[a].kids[i := d[|d| - 1]]), d[..|d| - 1]))
      else None
    case FetchClosure(a, i) => if Exists(m, a) && i < |m.things[a].kids| then Some(Pushed(m, m.things[a].kids[i])) else None
  }

  /** The slots after an instruction; none where the machine stops at a failed assertion. */
  function Do(m: Mem, op: Op): Option<Mem> {
    if op.PushWord? || op.PopData? || op.DupData? || op.SwapData? || op.Return? then OnStack(m, op)
    else if op.Get? || op.Set? || op.EnterLocals? || op.LeaveLocals? || op.Yield? then OnLocals(m, op)
    else OnThings(m, op)
  }

  // ---------------------------------------------------------------- runs

  ghost predicate InUse(t: Stacks, o: nat) {
    Obj(o) in t.data || (t.top <= |t.locals| && Obj(o) in t.locals[..t.top])
  }

  ghost predicate InThings(m: Mem, o: nat) {
    exists x | 0 <= x < |m.things| :: m.things[x].Thing? && Obj(o) in m.things[x].kids
  }

  /** Some slot holds `o`. */
  ghost predicate HeldIn(m: Mem, o: nat) {
    Obj(o) in m.globals || InUse(m.run, o) || (exists k | 0 <= k < |m.parked| :: InUse(m.parked[k], o)) || InThings(m, o)
  }

  function AfterSweep(m: Mem, freed: Option<nat>): Mem {
    if freed.Some? && freed.value < |m.things| then m.(things := m.things[freed.value := Gone]) else m
  }

  /** What a sweep frees is an object that no slot holds; it frees nothing only if there is none. */
  ghost predicate SweepOf(m: Mem, freed: Option<nat>) {
    match freed
    case Some(o) => Exists(m, o) && !HeldIn(m, o)
    case None => forall o: nat | Exists(m, o) :: HeldIn(m, o)
  }

  /** The instructions one after the other, up to the first that fails, with one sweep after each. */
  ghost predicate Ran(m: Mem, ops: seq<Op>, log: seq<Option<nat>>, m': Mem)
    decreases ops
  {
    if ops == [] || Do(m, ops[0]) == None then log == [] && m' == m
    else
      var m1 := Do(m, ops[0]).value;
      log != [] && SweepOf(m1, log[0]) && Ran(AfterSweep(m1, log[0]), ops[1..], log[1..], m')
  }

  /** A run that has not failed goes on. */
  lemma {:induction false} RanMore(m: Mem, ops: seq<Op>, log: seq<Option<nat>>, m': Mem, op: Op, freed: Option<nat>)
    requires Ran(m, ops, log, m') && |log| == |ops|
    requires Do(m', op).Some? && SweepOf(Do(m', op).value, freed)
    ensures Ran(m, ops + [op], log + [freed], AfterSweep(Do(m', op).value, freed))
    decreases ops
  {
    hide Do, SweepOf, AfterSweep;
    if ops == [] {
      assert (ops + [op])[1..] == [] && (log + [freed])[1..] == [];
      assert Ran(AfterSweep(Do(m', op).value, freed), (ops + [op])[1..], (log + [freed])[1..], AfterSweep(Do(m', op).value, freed));
    } else {
      assert (ops + [op])[1..] == ops[1..] + [op] && (log + [freed])[1..] == log[1..] + [freed];
      RanMore(AfterSweep(Do(m, ops[0]).value, log[0]), ops[1..], log[1..], m', op, freed);
    }
  }

  lemma {:induction false} RanStops(m: Mem, ops: seq<Op>, log: seq<Option<nat>>, m': Mem, rest: seq<Op>)
    requires Ran(m, ops, log, m') && |log| == |ops| && rest != [] && Do(m', rest[0]) == None
    ensures Ran(m, ops + rest, log, m')
    decreases ops
  {
    hide Do, SweepOf, AfterSweep;
    if ops == [] {
      assert ops + rest == rest;
    } else {
      assert (ops + rest)[1..] == ops[1..] + rest;
      RanStops(AfterSweep(Do(m, ops[0]).value, log[0]), ops[1..], log[1..], m', rest);
    }
  }

  // ------------------------------------------------- what the instructions mean

  /** A value that is stored in an array is what the next fetch of that slot finds there, in place of the array. */
  lemma StoreThenFetch(m: Mem, i: nat)
    requires Do(m, StoreArray(i)).Some?
    ensures var m1, d := Do(m, StoreArray(i)).value, m.run.data;
            && |d| >= 2
            && Do(m1, FetchArray(i)).Some?
            && Do(m1, FetchArray(i)).value == m1.(run := m.run.(data := d[..|d| - 2] + [d[|d| - 1]]))
  {
    var m1, d := Do(m, StoreArray(i)).value, m.run.data;
    assert d[..|d| - 1][|d| - 2 := d[|d| - 1]] == d[..|d| - 2] + [d[|d| - 1]];
  }

  /** The store changes no other slot of the array, fills a gap up to its slot with words, and changes nothing else than
      the array and the stack. */
  lemma StoreChangesOne(m: Mem, i: nat, j: nat)
    requires Do(m, StoreArray(i)).Some? && i != j
    ensures var m1, d := Do(m, StoreArray(i)).value, m.run.data;
            var a := d[|d| - 2].o;
            && m1 == m.(run := m.run.(data := d[..|d| - 1]), things := m1.things) && |m1.things| == |m.things|
            && Exists(m, a) && Exists(m1, a) && m1.things[a].isArray
            && (forall o | 0 <= o < |m.things| && o != a :: m1.things[o] == m.things[o])
            && |m1.things[a].kids| == (if i < |m.things[a].kids| then |m.things[a].kids| else i + 1)
            && (j < |m.things[a].kids| ==> m1.things[a].kids[j] == m.things[a].kids[j])
            && (|m.things[a].kids| <= j < i ==> m1.things[a].kids[j] == Plain(0))
  {
    var d := m.run.data;
    var kids := m.things[d[|d| - 2].o].kids;
    if |kids| <= j < i { assert Stored(kids, i, d[|d| - 1])[j] == Zeros(i - |kids|)[j - |kids|]; }
  }

  /** The same for a slot of a closure. */
  lemma ClosureStoreThenFetch(m: Mem, a: nat, i: nat)
    requires Do(m, StoreClosure(a, i)).Some?
    ensures var m1 := Do(m, StoreClosure(a, i)).value;
            && Do(m1, FetchClosure(a, i)).Some? && Do(m1, FetchClosure(a, i)).value == m1.(run := m.run)
            && m1 == m.(run := m1.run, things := m1.things) && |m1.things| == |m.things|
            && (forall o | 0 <= o < |m.things| && o != a :: m1.things[o] == m.things[o])
            && |m1.things[a].kids| == |m.things[a].kids|
            && forall j | 0 <= j < |m.things[a].kids| && j != i :: m1.things[a].kids[j] == m.things[a].kids[j]
  {
    var d := m.run.data;
    assert d[..|d| - 1] + [d[|d| - 1]] == d;
  }

  /** A local or global that is set is what a get of it pushes; every other one is as it was. */
  lemma SetThenGet(m: Mem, n: int, k: int)
    requires Do(m, Set(n)).Some?
    ensures var m1 := Do(m, Set(n)).value;
            && Do(m1, Get(n)).Some? && Do(m1, Get(n)).value.run.data == m.run.data
            && (k != n ==> Read(m1, k) == Read(m, k))
            && m1 == Mem(m1.run, m.parked, m1.globals, m1.used, m.things)
            && m1.run.data == m.run.data[..|m.run.data| - 1] && m1.run.top == m.run.top
            && m1.used == if n >= m.used then n + 1 else m.used
  {
    var d := m.run.data;
    assert d[..|d| - 1] + [d[|d| - 1]] == d;
  }

  /** A word that is pushed is on top, and a pop leaves everything as it was; pops add up. */
  lemma PushThenPop(m: Mem, w: nat, a: nat, b: nat)
    ensures var m1 := Pushed(m, Plain(w));
            && Do(m, PushWord(w)) == Some(m1) && m1.run.data != [] && m1.run.data[|m1.run.data| - 1] == Plain(w)
            && Do(m1, PopData(1)) == Some(m) && Do(m, PopData(0)) == Some(m)
    ensures (Do(m, PopData(a + b)) == None <==> a + b > |m.run.data|)
    ensures a + b <= |m.run.data| ==>
              Do(m, PopData(a)).Some? && Do(Do(m, PopData(a)).value, PopData(b)) == Do(m, PopData(a + b))
  {
    var d := m.run.data;
    assert (d + [Plain(w)])[..|d|] == d && d[..|d|] == d;
    if a + b <= |d| { assert d[..|d| - a][..|d| - a - b] == d[..|d| - a - b]; }
  }

  /** A copy and a pop leave everything as it was; the copy is the value that as many pops would bring to the top. */
  lemma DupThenPop(m: Mem, k: nat)
    requires Do(m, DupData(k)).Some?
    ensures var m1 := Do(m, DupData(k)).value;
            && Do(m1, PopData(1)) == Some(m)
            && Do(m, PopData(k)).Some? && Do(m, PopData(k)).value.run.data != []
            && var d := Do(m, PopData(k)).value.run.data; m1.run.data[|m1.run.data| - 1] == d[|d| - 1]
  {
    var d := m.run.data;
    assert (d + [d[|d| - 1 - k]])[..|d|] == d;
  }

  /** Exchanging twice leaves everything as it was; exchanging once moves the two values and no other. */
  lemma SwapTwice(m: Mem, n: int, i: nat)
    requires Do(m, SwapData(n)).Some? && i < |m.run.data|
    ensures var m1, k := Do(m, SwapData(n)).value, |m.run.data| - 1;
            && Do(m1, SwapData(n)) == Some(m) && |m1.run.data| == |m.run.data|
            && m1.run.data[i] == m.run.data[if n > 0 && i == k then k - n else if n > 0 && i == k - n then k else i]
  {
    var d, m1 := m.run.data, Do(m, SwapData(n)).value;
    assert Swapped(Swapped(d, n), n) == d;
  }

  /** A return value stays on top, over what was below the dropped values. */
  lemma ReturnKeepsTop(m: Mem, n: nat)
    requires Do(m, Return(n)).Some?
    ensures var m1, d := Do(m, Return(n)).value, m.run.data;
            && Do(m, PopData(n + 1)).Some? && d != []
            && m1 == Pushed(Do(m, PopData(n + 1)).value, d[|d| - 1])
  {
  }

  /** A new object is none that existed, has no slots, and changes nothing else. */
  lemma NewIsNew(m: Mem, isArray: bool)
    ensures var m1, o := Do(m, NewObject(isArray)).value, |m.things|;
            && Do(m, NewObject(isArray)).Some? && !Exists(m, o) && Exists(m1, o) && m1.things[o] == Thing(isArray, [])
            && m1.run.data == m.run.data + [Obj(o)] && Do(m1, PopData(1)) == Some(m.(things := m1.things))
            && forall x: nat | Exists(m, x) :: m1.things[x] == m.things[x]
  {
    assert (m.run.data + [Obj(|m.things|)])[..|m.run.data|] == m.run.data;
  }

  /** Locals that are not in use hold no object. */
  ghost predicate Clean(t: Stacks) {
    t.top <= |t.locals| && forall i | t.top <= i < |t.locals| :: t.locals[i].Plain?
  }

  /** The new locals hold no object, and the old ones are found behind them. */
  lemma EnterShifts(m: Mem, n: nat, k: int)
    requires Clean(m.run) && n < 16384
    ensures var m1 := Do(m, EnterLocals(n)).value;
            && Do(m, EnterLocals(n)).Some? && Clean(m1.run)
            && (0 <= n + k < n ==> Read(m1, k).Some? && Read(m1, k).value.Plain?)
            && (k < 0 ==> Read(m1, k - n) == Read(m, k)) && (0 <= k ==> Read(m1, k) == Read(m, k))
            && m1 == m.(run := m1.run) && m1.run.data == m.run.data
  {
  }

  /** Letting go of locals uncovers the ones behind them as they were. */
  lemma LeaveShifts(m: Mem, n: nat, k: int)
    requires Clean(m.run) && n <= m.run.top
    ensures var m1 := Do(m, LeaveLocals(n)).value;
            && Do(m, LeaveLocals(n)).Some? && Clean(m1.run)
            && (k < 0 ==> Read(m1, k) == Read(m, k - n)) && (0 <= k ==> Read(m1, k) == Read(m, k))
            && m1 == m.(run := m1.run) && m1.run.data == m.run.data
  {
  }

  /** Locals that were let go show their old words when they are entered again, and 0 where an object was. */
  lemma LeaveThenEnter(m: Mem, n: nat, k: int)
    requires Clean(m.run) && n <= m.run.top && n < 16384 && 0 <= m.run.top + k < m.run.top
    ensures Do(m, LeaveLocals(n)).Some? && Do(Do(m, LeaveLocals(n)).value, EnterLocals(n)).Some?
    ensures var m2 := Do(Do(m, LeaveLocals(n)).value, EnterLocals(n)).value;
            && m2.run.top == m.run.top && Read(m, k).Some?
            && Read(m2, k) == if 0 <= n + k && Read(m, k).value.Obj? then Some(Plain(0)) else Read(m, k)
  {
  }

  /** Switching to a thread and back leaves everything as it was; what runs meanwhile is the other's stacks. */
  lemma YieldTwice(m: Mem, k: nat)
    requires Do(m, Yield(k)).Some?
    ensures Do(m, Yield(k)).value.run == m.parked[k] && Do(Do(m, Yield(k)).value, Yield(k)) == Some(m)
  {
    assert m.parked[k := m.run][k := m.parked[k]] == m.parked;
  }

  // ------------------------------------------------------ over whole runs

  /** The instruction writes slot `i` of the object `a`. */
  ghost predicate WritesSlot(m: Mem, op: Op, a: nat, i: nat) {
    || (op == StoreArray(i) && |m.run.data| >= 2 && m.run.data[|m.run.data| - 2] == Obj(a))
    || op == StoreClosure(a, i)
  }

  lemma StepKeepsSlot(m: Mem, op: Op, a: nat, i: nat)
    requires Do(m, op).Some? && Exists(m, a) && i < |m.things[a].kids|
    ensures var m1 := Do(m, op).value;
            && Exists(m1, a) && i < |m1.things[a].kids|
            && (WritesSlot(m, op, a, i) ==> m.run.data != [])
            && m1.things[a].kids[i] == if WritesSlot(m, op, a, i) then m.run.data[|m.run.data| - 1] else m.things[a].kids[i]
  {
  }

  /** Along the run, slot `i` of `a` is never written. */
  ghost predicate NeverWritten(m: Mem, ops: seq<Op>, log: seq<Option<nat>>, a: nat, i: nat)
    decreases ops
  {
    ops == [] || Do(m, ops[0]) == None || log == []
    || (!WritesSlot(m, ops[0], a, i) && NeverWritten(AfterSweep(Do(m, ops[0]).value, log[0]), ops[1..], log[1..], a, i))
  }

  /** A slot of an object that is not freed keeps its value over any run that does not write it. */
  lemma {:induction false} SlotKept(m: Mem, ops: seq<Op>, log: seq<Option<nat>>, m': Mem, a: nat, i: nat)
    requires Ran(m, ops, log, m') && Exists(m, a) && i < |m.things[a].kids| && Some(a) !in log
    requires NeverWritten(m, ops, log, a, i)
    ensures Exists(m', a) && i < |m'.things[a].kids| && m'.things[a].kids[i] == m.things[a].kids[i]
    decreases ops
  {
    hide Do, SweepOf, WritesSlot;
    if ops != [] && Do(m, ops[0]).Some? {
      StepKeepsSlot(m, ops[0], a, i);
      assert log[0] in log && forall f | f in log[1..] :: f in log;
      SlotKept(AfterSweep(Do(m, ops[0]).value, log[0]), ops[1..], log[1..], m', a, i);
    }
  }

  lemma StepKeepsThings(m: Mem, op: Op)
    requires Do(m, op).Some?
    ensures var m1 := Do(m, op).value;
            |m.things| <= |m1.things| && forall o | 0 <= o < |m.things| :: m1.things[o].Thing? == m.things[o].Thing?
  {
  }

  /** Over a run, exactly the objects in the log are freed, each of them once. */
  lemma {:induction false} RanFrees(m: Mem, ops: seq<Op>, log: seq<Option<nat>>, m': Mem)
    requires Ran(m, ops, log, m')
    ensures |m.things| <= |m'.things| && |log| <= |ops|
    ensures forall o | 0 <= o < |m.things| :: m'.things[o].Thing? <==> m.things[o].Thing? && Some(o) !in log
    ensures forall o: nat | Some(o) in log :: o < |m'.things| && m'.things[o].Gone? && (o < |m.things| ==> m.things[o].Thing?)
    ensures forall i, j | 0 <= i < j < |log| && log[i].Some? :: log[i] != log[j]
    decreases ops
  {
    hide Do, HeldIn;
    if ops != [] && Do(m, ops[0]).Some? {
      var m1 := Do(m, ops[0]).value;
      var m2 := AfterSweep(m1, log[0]);
      StepKeepsThings(m, ops[0]);
      RanFrees(m2, ops[1..], log[1..], m');
      assert log == [log[0]] + log[1..];
      forall o: nat | Some(o) in log ensures o < |m'.things| && m'.things[o].Gone? && (o < |m.things| ==> m.things[o].Thing?) {
        if log[0] != Some(o) { assert Some(o) in log[1..]; }
      }
      forall i, j | 0 <= i < j < |log| && log[i].Some? ensures log[i] != log[j] {
        if i == 0 {
          assert log[j] in log[1..];
        } else {
          assert log[1..][i - 1] == log[i] && log[1..][j - 1] == log[j];
        }
      }
    }
  }
}
