/** Reference counts of managed objects, and the deferred collector that frees one object a cycle. */
module RefCounts {
  import opened Options
  import opened SlotMemory

  /** An object, with the slots it owns itself; only arrays have any. */
  datatype Cell = Freed | Live(count: int, isArray: bool, kids: seq<Slot>)

  // --------------------------------------------- who holds which objects

  /** Whether the slot holds `o`, as a number. */
  ghost function Holds(v: Slot, o: nat): int {
    if v == Obj(o) then 1 else 0
  }

  /** How many slots of `s` hold `o`. */
  ghost function Num(s: seq<Slot>, o: nat): int {
    if s == [] then 0 else Num(s[..|s| - 1], o) + Holds(s[|s| - 1], o)
  }

  lemma NumAppend(s: seq<Slot>, v: Slot, o: nat)
    ensures Num(s + [v], o) == Num(s, o) + Holds(v, o)
  {
    assert (s + [v])[..|s|] == s;
  }

  lemma {:induction false} NumConcat(a: seq<Slot>, b: seq<Slot>, o: nat)
    ensures Num(a + b, o) == Num(a, o) + Num(b, o)
  {
    if b == [] {
      assert a + b == a;
    } else {
      var n := |b| - 1;
      NumConcat(a, b[..n], o);
      assert (a + b)[..|a + b| - 1] == a + b[..n];
    }
  }

  lemma {:induction false} NumUpdate(s: seq<Slot>, i: nat, v: Slot, o: nat)
    requires i < |s|
    ensures Num(s[i := v], o) == Num(s, o) - Holds(s[i], o) + Holds(v, o)
    ensures Num(s, o) >= Holds(s[i], o)
  {
    var n := |s| - 1;
    NumNat(s[..n], o);
    if i == n {
      assert s[i := v][..n] == s[..n];
    } else {
      NumUpdate(s[..n], i, v, o);
      assert s[i := v][..n] == s[..n][i := v];
    }
  }

  lemma {:induction false} NumNat(s: seq<Slot>, o: nat)
    ensures Num(s, o) >= 0
  {
    if s != [] { NumNat(s[..|s| - 1], o); }
  }

  lemma {:induction false} NumPlain(s: seq<Slot>, o: nat)
    requires forall v | v in s :: v.Plain?
    ensures Num(s, o) == 0
  {
    if s != [] {
      assert s[|s| - 1] in s;
      NumPlain(s[..|s| - 1], o);
    }
  }

  ghost function KidsOf(c: Cell, o: nat): int {
    if c.Live? then Num(c.kids, o) else 0
  }

  /** How many slots inside objects hold `o`. */
  ghost function Kids(heap: seq<Cell>, o: nat): int {
    if heap == [] then 0 else Kids(heap[..|heap| - 1], o) + KidsOf(heap[|heap| - 1], o)
  }

  lemma {:induction false} KidsUpdate(heap: seq<Cell>, i: nat, c: Cell, o: nat)
    requires i < |heap|
    ensures Kids(heap[i := c], o) == Kids(heap, o) - KidsOf(heap[i], o) + KidsOf(c, o)
    ensures Kids(heap, o) >= KidsOf(heap[i], o)
  {
    var n := |heap| - 1;
    KidsNat(heap[..n], o);
    KidsNat([heap[n]], o);
    if i == n {
      assert heap[i := c][..n] == heap[..n];
    } else {
      KidsUpdate(heap[..n], i, c, o);
      assert heap[i := c][..n] == heap[..n][i := c];
    }
  }

  lemma {:induction false} KidsNat(heap: seq<Cell>, o: nat)
    ensures Kids(heap, o) >= 0
    ensures |heap| > 0 ==> KidsOf(heap[|heap| - 1], o) >= 0
  {
    if heap != [] {
      KidsNat(heap[..|heap| - 1], o);
      if heap[|heap| - 1].Live? { NumNat(heap[|heap| - 1].kids, o); }
    }
  }

  ghost function InStacks(t: Stacks, o: nat): int {
    Num(t.data, o) + Num(if t.top <= |t.locals| then t.locals[..t.top] else [], o)
  }

  /** How many slots of the waiting threads hold `o`. */
  ghost function Parked(ts: seq<Stacks>, o: nat): int {
    if ts == [] then 0 else Parked(ts[..|ts| - 1], o) + InStacks(ts[|ts| - 1], o)
  }

  lemma {:induction false} ParkedUpdate(ts: seq<Stacks>, k: nat, t: Stacks, o: nat)
    requires k < |ts|
    ensures Parked(ts[k := t], o) == Parked(ts, o) - InStacks(ts[k], o) + InStacks(t, o)
  {
    hide InStacks;
    var n := |ts| - 1;
    if k == n {
      assert ts[k := t][..n] == ts[..n];
    } else {
      ParkedUpdate(ts[..n], k, t, o);
      assert ts[k := t][..n] == ts[..n][k := t];
    }
  }

  lemma {:induction false} ParkedNat(ts: seq<Stacks>, o: nat)
    ensures Parked(ts, o) >= 0
  {
    if ts != [] {
      var t := ts[|ts| - 1];
      ParkedNat(ts[..|ts| - 1], o);
      NumNat(t.data, o);
      NumNat(if t.top <= |t.locals| then t.locals[..t.top] else [], o);
    }
  }

  // --------------------------------------------------- the counting books

  ghost predicate NoDup(l: seq<nat>) {
    forall i, j :: 0 <= i < j < |l| ==> l[i] != l[j]
  }

  ghost predicate IsLive(heap: seq<Cell>, o: nat) {
    o < |heap| && heap[o].Live?
  }

  /** Every count is the number of slots that hold the object; what is pending has no slot and is pending once;
      and what has no slot is pending, unless it is a `newborn` that no slot has held yet. */
  ghost predicate Books(heap: seq<Cell>, pending: seq<nat>, newborn: set<nat>, held: nat -> int) {
    true == (
      && (forall o: nat :: held(o) >= 0 && (held(o) > 0 ==> IsLive(heap, o)))
      && (forall o: nat | IsLive(heap, o) :: heap[o].count == held(o))
      && NoDup(pending)
      && (forall o | o in pending :: IsLive(heap, o) && heap[o].count == 0 && o !in newborn)
      && (forall o: nat | IsLive(heap, o) && heap[o].count == 0 :: o in pending || o in newborn))
  }

  /** The pending list without its first `o`. */
  function Without(l: seq<nat>, o: nat): seq<nat> {
    if l == [] then [] else if l[0] == o then l[1..] else [l[0]] + Without(l[1..], o)
  }

  lemma {:induction false} WithoutMembers(l: seq<nat>, o: nat)
    requires NoDup(l)
    ensures NoDup(Without(l, o)) && forall x :: x in Without(l, o) <==> x in l && x != o
  {
    if l != [] {
      WithoutMembers(l[1..], o);
      if l[0] != o {
        assert l[0] !in l[1..];
        assert forall x :: x in Without(l, o) <==> x == l[0] || x in Without(l[1..], o);
      } else {
        assert forall x :: x in l <==> x == l[0] || x in l[1..];
      }
    }
  }

  lemma {:induction false} WithoutAt(l: seq<nat>, o: nat, k: nat)
    requires k < |l| && l[k] == o && forall i | 0 <= i < k :: l[i] != o
    ensures Without(l, o) == l[..k] + l[k + 1..]
  {
    if k > 0 {
      WithoutAt(l[1..], o, k - 1);
      assert l[1..][..k - 1] == l[1..k] && l[1..][k..] == l[k + 1..];
      assert l[..k] == [l[0]] + l[1..k];
    }
  }

  lemma {:induction false} WithoutAbsent(l: seq<nat>, o: nat)
    requires o !in l
    ensures Without(l, o) == l
  {
    if l != [] {
      WithoutAbsent(l[1..], o);
      assert l == [l[0]] + l[1..];
    }
  }

  /** Counting one more slot, and taking the object off the pending list if it is the first. */
  lemma RefBooks(heap: seq<Cell>, pending: seq<nat>, newborn: set<nat>, held: nat -> int, o: nat, held': nat -> int)
    requires Books(heap, pending, newborn, held) && IsLive(heap, o)
    requires forall x: nat :: held'(x) == held(x) + if x == o then 1 else 0
    ensures var n := heap[o].count + 1;
            Books(heap[o := heap[o].(count := n)], if n == 1 then Without(pending, o) else pending, newborn - {o}, held')
  {
    WithoutMembers(pending, o);
  }

  /** Counting one slot less, and making the object pending if it was the last. */
  lemma DerefBooks(heap: seq<Cell>, pending: seq<nat>, newborn: set<nat>, held: nat -> int, o: nat, held': nat -> int)
    requires Books(heap, pending, newborn, held) && held(o) > 0
    requires forall x: nat :: held'(x) == held(x) - if x == o then 1 else 0
    ensures IsLive(heap, o) && heap[o].count > 0 && o !in pending
    ensures var n := heap[o].count - 1;
            Books(heap[o := heap[o].(count := n)], if n == 0 then [o] + pending else pending, newborn - {o}, held')
  {
  }

  /** Changing only what objects own leaves the books as they are. */
  lemma KidsBooks(heap: seq<Cell>, pending: seq<nat>, newborn: set<nat>, held: nat -> int, o: nat, kids: seq<Slot>)
    requires Books(heap, pending, newborn, held) && IsLive(heap, o)
    ensures Books(heap[o := heap[o].(kids := kids)], pending, newborn, held)
  {
  }

  /** `held` without the slots `kids`. */
  ghost function Less(held: nat -> int, kids: seq<Slot>): nat -> int {
    (o: nat) => held(o) - Num(kids, o)
  }

  lemma HeldIsLive(heap: seq<Cell>, pending: seq<nat>, newborn: set<nat>, held: nat -> int, o: nat)
    requires Books(heap, pending, newborn, held) && held(o) > 0
    ensures IsLive(heap, o)
  {
  }

  /** The oldest pending object leaves the list. */
  lemma BooksPopped(heap: seq<Cell>, pending: seq<nat>, newborn: set<nat>, held: nat -> int)
    requires Books(heap, pending, newborn, held) && pending != []
    ensures var o := pending[|pending| - 1];
            Books(heap, pending[..|pending| - 1], newborn + {o}, held) && IsLive(heap, o) && held(o) == 0
  {
    var n := |pending| - 1;
    var o := pending[n];
    assert o in pending;
    assert forall x :: x in pending <==> x in pending[..n] || x == o;
  }

  lemma KidsNone(heap: seq<Cell>, held: nat -> int, o: nat)
    requires IsLive(heap, o) && held(o) == 0 && forall x: nat :: held(x) >= Kids(heap, x)
    ensures Num(heap[o].kids, o) == 0
  {
    KidsUpdate(heap, o, heap[o], o);
    NumNat(heap[o].kids, o);
  }

  /** An object that no slot holds leaves the books. */
  lemma FreeBooks(heap: seq<Cell>, pending: seq<nat>, newborn: set<nat>, held: nat -> int, o: nat)
    requires Books(heap, pending, newborn, held) && IsLive(heap, o) && held(o) == 0 && o in newborn
    ensures Books(heap[o := Freed], pending, newborn - {o}, held)
  {
  }

  /** What slot `i` of the dying object `o` holds is another object, and still counted. */
  lemma KidCounted(heap: seq<Cell>, held: nat -> int, o: nat, i: nat)
    requires IsLive(heap, o) && i < |heap[o].kids| && held(o) == 0 && forall x: nat :: held(x) >= Kids(heap, x)
    ensures heap[o].kids[i].Obj? ==> heap[o].kids[i].o != o && Less(held, heap[o].kids[..i])(heap[o].kids[i].o) > 0
  {
    var kids := heap[o].kids;
    if kids[i].Obj? {
      var x := kids[i].o;
      assert kids == kids[..i] + kids[i..];
      NumConcat(kids[..i], kids[i..], x);
      NumUpdate(kids[i..], 0, kids[i], x);
      NumNat(kids[..i], x);
      KidsUpdate(heap, o, heap[o], x);
    }
  }

  /** A new object enters the books as a newborn. */
  lemma BooksGrow(heap: seq<Cell>, pending: seq<nat>, newborn: set<nat>, held: nat -> int, c: Cell)
    requires Books(heap, pending, newborn, held) && c.Live? && c.count == 0
    ensures Books(heap + [c], pending, newborn + {|heap|}, held)
  {
  }

  /** How many slots hold each object, over the whole machine. */
  ghost function HeldBy(globals: seq<Slot>, run: Stacks, parked: seq<Stacks>, heap: seq<Cell>): nat -> int {
    (o: nat) => Num(globals, o) + InStacks(run, o) + Parked(parked, o) + Kids(heap, o)
  }

  ghost function Plus(held: nat -> int, v: Slot, n: int): nat -> int {
    (o: nat) => held(o) + n * Holds(v, o)
  }

  lemma BooksExt(heap: seq<Cell>, pending: seq<nat>, newborn: set<nat>, held: nat -> int, held': nat -> int)
    requires Books(heap, pending, newborn, held) && forall o: nat :: held(o) == held'(o)
    ensures Books(heap, pending, newborn, held')
  {
  }

  /** The same objects, owning the same slots. */
  ghost predicate SameObjects(a: seq<Cell>, b: seq<Cell>) {
    |a| == |b| && forall i | 0 <= i < |a| :: a[i].Live? == b[i].Live? && (a[i].Live? ==> a[i].isArray == b[i].isArray && a[i].kids == b[i].kids)
  }

  lemma SameItself(a: seq<Cell>)
    ensures SameObjects(a, a)
  {
  }

  lemma SameTwice(a: seq<Cell>, b: seq<Cell>, c: seq<Cell>)
    requires SameObjects(a, b) && SameObjects(b, c)
    ensures SameObjects(a, c)
  {
  }

  /** The same objects are live. */
  lemma SameLive(a: seq<Cell>, b: seq<Cell>, o: nat)
    requires SameObjects(a, b)
    ensures IsLive(a, o) <==> IsLive(b, o)
    ensures IsLive(a, o) ==> a[o].kids == b[o].kids
  {
  }

  lemma {:induction false} SameKids(a: seq<Cell>, b: seq<Cell>, o: nat)
    requires SameObjects(a, b)
    ensures Kids(a, o) == Kids(b, o)
  {
    if a != [] { SameKids(a[..|a| - 1], b[..|b| - 1], o); }
  }

  /** Plain slots at the end hold nothing. */
  lemma PlainTail(l: seq<Slot>, top: nat, size: nat, o: nat)
    requires top + size <= |l| && forall i | top <= i < |l| :: l[i].Plain?
    ensures Num(l[..top + size], o) == Num(l[..top], o)
  {
    var a, b := l[..top], l[top..top + size];
    NumConcat(a, b, o);
    NumPlain(b, o);
    assert l[..top + size] == a + b;
  }

  /** The objects, without their counts. */
  function ThingOf(c: Cell): Thing {
    if c.Live? then Thing(c.isArray, c.kids) else Gone
  }

  function Things(heap: seq<Cell>): seq<Thing> {
    seq(|heap|, i requires 0 <= i < |heap| => ThingOf(heap[i]))
  }

  lemma SameThings(a: seq<Cell>, b: seq<Cell>)
    ensures SameObjects(a, b) <==> Things(a) == Things(b)
  {
    if Things(a) == Things(b) {
      forall i | 0 <= i < |a| ensures ThingOf(a[i]) == ThingOf(b[i]) { assert Things(a)[i] == Things(b)[i]; }
    }
  }

  /** The state that an instruction leaves, if it does not fail. */
  function Left(m: Mem, r: Option<Mem>): Mem {
    if r.Some? then r.value else m
  }

  lemma ThingsAt(h: seq<Cell>)
    ensures |Things(h)| == |h| && forall o | 0 <= o < |h| :: Things(h)[o] == ThingOf(h[o])
  {
  }

  lemma ThingsGrown(h: seq<Cell>, c: Cell)
    ensures Things(h + [c]) == Things(h) + [ThingOf(c)]
  {
  }

  lemma ThingsWith(h: seq<Cell>, a: nat, kids: seq<Slot>)
    requires IsLive(h, a)
    ensures |Things(h)| == |h| && Things(h)[a].Thing?
    ensures Things(h[a := h[a].(kids := kids)]) == Things(h)[a := Things(h)[a].(kids := kids)]
  {
  }

  lemma SweptFacts(h: seq<Cell>, h': seq<Cell>, o: nat)
    requires SameObjects(h, h') && o < |h|
    ensures Things(h'[o := Freed]) == Things(h)[o := Gone] && |h'| == |h|
    ensures forall x | 0 <= x < |h| && x != o :: h'[x].Live? == h[x].Live? && (h[x].Live? ==> h'[x].kids == h[x].kids)
  {
  }

  lemma {:induction false} NumIff(s: seq<Slot>, o: nat)
    ensures Num(s, o) >= 0 && (Num(s, o) > 0 <==> Obj(o) in s)
  {
    if s != [] {
      NumIff(s[..|s| - 1], o);
      assert s == s[..|s| - 1] + [s[|s| - 1]];
    }
  }

  lemma StacksIff(t: Stacks, o: nat)
    ensures InStacks(t, o) >= 0 && (InStacks(t, o) > 0 <==> InUse(t, o))
  {
    NumIff(t.data, o);
    NumIff(if t.top <= |t.locals| then t.locals[..t.top] else [], o);
  }

  lemma {:induction false} ParkedIff(ts: seq<Stacks>, o: nat)
    ensures Parked(ts, o) >= 0 && (Parked(ts, o) > 0 <==> exists k | 0 <= k < |ts| :: InUse(ts[k], o))
  {
    hide InStacks, InUse;
    if ts != [] {
      var n := |ts| - 1;
      ParkedIff(ts[..n], o);
      StacksIff(ts[n], o);
      assert forall k | 0 <= k < n :: ts[..n][k] == ts[k];
    }
  }

  lemma {:induction false} KidsIff(heap: seq<Cell>, o: nat)
    ensures Kids(heap, o) >= 0 && (Kids(heap, o) > 0 <==> exists x | 0 <= x < |heap| :: heap[x].Live? && Obj(o) in heap[x].kids)
  {
    hide Num;
    if heap != [] {
      var n := |heap| - 1;
      KidsIff(heap[..n], o);
      if heap[n].Live? { NumIff(heap[n].kids, o); }
      assert forall x | 0 <= x < n :: heap[..n][x] == heap[x];
    }
  }

  lemma ThingsHold(m: Mem, heap: seq<Cell>, o: nat)
    requires m.things == Things(heap)
    ensures InThings(m, o) <==> exists x | 0 <= x < |heap| :: heap[x].Live? && Obj(o) in heap[x].kids
  {
    assert forall x | 0 <= x < |heap| :: m.things[x] == ThingOf(heap[x]);
  }

  // ------------------------------------------------------------ the machine

  class Machine {
    var heap: seq<Cell>
    var pending: seq<nat>
    ghost var newborn: set<nat>
    var globals: seq<Slot>     // the data segment as far as it is reserved
    var used: nat              // its size, which a write beyond it raises
    var data: seq<Slot>
    var locals: seq<Slot>
    var top: nat
    var parked: seq<Stacks>

    /** A machine with a data segment of `n` words' pairs and `k` threads waiting. */
    constructor (n: nat, k: nat)
      ensures Conserved() && newborn == {} && heap == [] && pending == [] && data == [] && top == 0 && |globals| == n && |parked| == k
    {
      heap, pending, newborn := [], [], {};
      globals, used := seq(n, _ => Plain(0)), 0;
      data, locals, top := [], [], 0;
      parked := seq(k, _ => Stacks([], [], 0));
      new;
      forall o: nat ensures HeldBy(globals, Stacks([], [], 0), parked, [])(o) == 0 {
        NumPlain(globals, o);
        NothingParked(parked, o);
      }
    }

    ghost function Run(): Stacks
      reads this
    {
      Stacks(data, locals, top)
    }

    ghost function Held(): nat -> int
      reads this
    {
      HeldBy(globals, Run(), parked, heap)
    }

    /** Reference counts are the numbers of slots, and the pending list is what no slot holds. */
    ghost predicate Conserved()
      reads this
    {
      Books(heap, pending, newborn, Held()) && Clean(Run()) && forall t | t in parked :: Clean(t)
    }

    // ------------------------------------------------------- counting

    /** Make `o` pending, unless it is already. */
    method Collect(o: nat)
      modifies this`pending
      ensures pending == if o in old(pending) then old(pending) else [o] + old(pending)
    {
      var i := 0;
      while i < |pending| && pending[i] != o
        invariant i <= |pending| && forall j | 0 <= j < i :: pending[j] != o
      {
        i := i + 1;
      }
      if i == |pending| {
        pending := [o] + pending;
      }
    }

    /** Take `o` off the pending list. */
    method Uncollect(o: nat)
      modifies this`pending
      ensures pending == Without(old(pending), o)
    {
      var i := 0;
      while i < |pending|
        invariant i <= |pending| && pending == old(pending) && forall j | 0 <= j < i :: pending[j] != o
      {
        if pending[i] == o {
          WithoutAt(pending, o, i);
          pending := pending[..i] + pending[i + 1..];
          return;
        }
        i := i + 1;
      }
      WithoutAbsent(pending, o);
    }

    /** Count a slot that now holds `v`. */
    method RefSlot(v: Slot, ghost held: nat -> int)
      requires Books(heap, pending, newborn, held) && (v.Obj? ==> IsLive(heap, v.o))
      modifies this`heap, this`pending, this`newborn
      ensures Books(heap, pending, newborn, Plus(held, v, 1)) && SameObjects(old(heap), heap)
      ensures newborn == if v.Obj? then old(newborn) - {v.o} else old(newborn)
    {
      if v.Obj? {
        RefBooks(heap, pending, newborn, held, v.o, Plus(held, v, 1));
        heap := heap[v.o := heap[v.o].(count := heap[v.o].count + 1)];
        newborn := newborn - {v.o};
        if heap[v.o].count == 1 {
          Uncollect(v.o);
        }
      } else {
        BooksExt(heap, pending, newborn, held, Plus(held, v, 1));
      }
    }

    /** Count a slot that no longer holds `v`; an object that no slot holds becomes pending. */
    method DerefSlot(v: Slot, ghost held: nat -> int)
      requires Books(heap, pending, newborn, held) && (v.Obj? ==> IsLive(heap, v.o))
      modifies this`heap, this`pending, this`newborn
      ensures Books(heap, pending, newborn, if v.Obj? && held(v.o) == 0 then held else Plus(held, v, -1))
      ensures SameObjects(old(heap), heap)
      ensures newborn == if v.Obj? then old(newborn) - {v.o} else old(newborn)
    {
      if v.Obj? {
        newborn := newborn - {v.o};
        if heap[v.o].count > 0 {
          DerefBooks(heap, pending, old(newborn), held, v.o, Plus(held, v, -1));
          heap := heap[v.o := heap[v.o].(count := heap[v.o].count - 1)];
          if heap[v.o].count == 0 {
            Collect(v.o);
          }
        } else {
          Collect(v.o);
        }
      } else {
        BooksExt(heap, pending, newborn, held, Plus(held, v, -1));
      }
    }

    // ----------------------------------------------------- operations

    lemma Settle(held: nat -> int)
      requires Books(heap, pending, newborn, held) && Clean(Run()) && forall t | t in parked :: Clean(t)
      requires forall o: nat :: held(o) == Held()(o)
      ensures Conserved()
    {
      BooksExt(heap, pending, newborn, held, Held());
    }

    /** What a slot holds is live, and counted. */
    lemma DataHeld(i: nat)
      requires Conserved() && i < |data| && data[i].Obj?
      ensures Held()(data[i].o) > 0 && IsLive(heap, data[i].o)
    {
      hide Kids, Parked;
      var o := data[i].o;
      NumUpdate(data, i, data[i], o);
      PartsNat(o);
    }

    lemma LocalHeld(i: nat)
      requires Conserved() && i < top && locals[i].Obj?
      ensures Held()(locals[i].o) > 0 && IsLive(heap, locals[i].o)
    {
      var o := locals[i].o;
      NumUpdate(locals[..top], i, locals[i], o);
      PartsNat(o);
    }

    lemma GlobalHeld(i: nat)
      requires Conserved() && i < |globals| && globals[i].Obj?
      ensures Held()(globals[i].o) > 0 && IsLive(heap, globals[i].o)
    {
      var o := globals[i].o;
      NumUpdate(globals, i, globals[i], o);
      PartsNat(o);
    }

    lemma KidHeld(a: nat, i: nat)
      requires Conserved() && IsLive(heap, a) && i < |heap[a].kids| && heap[a].kids[i].Obj?
      ensures Held()(heap[a].kids[i].o) > 0 && IsLive(heap, heap[a].kids[i].o)
    {
      var o := heap[a].kids[i].o;
      NumUpdate(heap[a].kids, i, heap[a].kids[i], o);
      KidsUpdate(heap, a, heap[a], o);
      PartsNat(o);
    }

    lemma PartsNat(o: nat)
      requires Clean(Run())
      ensures Num(globals, o) >= 0 && Num(data, o) >= 0 && Num(locals[..top], o) >= 0 && Parked(parked, o) >= 0 && Kids(heap, o) >= 0
    {
      NumNat(globals, o);
      NumNat(data, o);
      NumNat(locals[..top], o);
      ParkedNat(parked, o);
      KidsNat(heap, o);
    }

    method Push(v: Slot)
      requires Conserved() && (v.Obj? ==> IsLive(heap, v.o))
      modifies this`heap, this`pending, this`newborn, this`data
      ensures newborn == if v.Obj? then old(newborn) - {v.o} else old(newborn)
      ensures Conserved() && SameObjects(old(heap), heap) && data == old(data) + [v]
    {
      ghost var h := Held();
      RefSlot(v, h);
      data := data + [v];
      forall o: nat ensures Plus(h, v, 1)(o) == Held()(o) {
        NumAppend(old(data), v, o);
        SameKids(old(heap), heap, o);
      }
      Settle(Plus(h, v, 1));
    }

    method Pop() returns (v: Slot)
      requires Conserved() && data != []
      modifies this`heap, this`pending, this`newborn, this`data
      ensures newborn <= old(newborn)
      ensures Conserved() && SameObjects(old(heap), heap) && data == old(data)[..|old(data)| - 1] && v == old(data)[|old(data)| - 1]
      ensures v.Obj? ==> IsLive(heap, v.o)
    {
      hide Books, SameObjects, Parked, Kids;
      ghost var h := Held();
      v := data[|data| - 1];
      if v.Obj? { DataHeld(|data| - 1); }
      data := data[..|data| - 1];
      DerefSlot(v, h);
      if v.Obj? { SameLive(old(heap), heap, v.o); }
      forall o: nat ensures Plus(h, v, -1)(o) == Held()(o) {
        SameKids(old(heap), heap, o);
      }
      Settle(Plus(h, v, -1));
    }

    method PopN(n: nat)
      requires Conserved() && n <= |data|
      modifies this`heap, this`pending, this`newborn, this`data
      ensures newborn <= old(newborn)
      ensures Conserved() && SameObjects(old(heap), heap) && data == old(data)[..|old(data)| - n]
    {
      hide Books, SameObjects;
      SameItself(heap);
      var count := n;
      while count > 0
        invariant 0 <= count <= n && Conserved() && SameObjects(old(heap), heap) && newborn <= old(newborn)
        invariant |data| == |old(data)| - n + count && data == old(data)[..|data|]
      {
        ghost var before := heap;
        var _ := Pop();
        SameTwice(old(heap), before, heap);
        count := count - 1;
      }
    }

    /** Overwrite the top of the stack. */
    method Poke(v: Slot)
      requires Conserved() && data != [] && (v.Obj? ==> IsLive(heap, v.o))
      modifies this`heap, this`pending, this`newborn, this`data
      ensures newborn <= old(newborn)
      ensures Conserved() && SameObjects(old(heap), heap) && data == old(data)[|old(data)| - 1 := v]
    {
      hide Books, SameObjects, Parked, Kids;
      ghost var h := Held();
      var n := |data| - 1;
      var was := data[n];
      if was.Obj? { DataHeld(n); }
      DerefSlot(was, h);
      ghost var mid := heap;
      if v.Obj? { SameLive(old(heap), mid, v.o); }
      data := data[n := v];
      RefSlot(v, Plus(h, was, -1));
      SameTwice(old(heap), mid, heap);
      forall o: nat ensures Plus(Plus(h, was, -1), v, 1)(o) == Held()(o) {
        NumUpdate(old(data), n, v, o);
        SameKids(old(heap), heap, o);
      }
      Settle(Plus(Plus(h, was, -1), v, 1));
    }

    /** Push a copy of the value `depth` below the top. */
    method Dup(depth: nat)
      requires Conserved() && depth < |data|
      modifies this`heap, this`pending, this`newborn, this`data
      ensures newborn <= old(newborn)
      ensures Conserved() && SameObjects(old(heap), heap) && data == old(data) + [old(data)[|old(data)| - 1 - depth]]
    {
      var i := |data| - 1 - depth;
      if data[i].Obj? { DataHeld(i); }
      Push(data[i]);
    }

    /** Exchange the top with the value `n` below it. */
    method Swap(n: int)
      requires Conserved() && n < |data|
      modifies this`data
      ensures Conserved() && n < |old(data)| && data == Swapped(old(data), n)
    {
      if n <= 0 {
        return;
      }
      ghost var h := Held();
      var k := |data| - 1;
      var a, b := data[k], data[k - n];
      data := data[k := b][k - n := a];
      forall o: nat ensures h(o) == Held()(o) {
        NumUpdate(old(data), k, b, o);
        NumUpdate(old(data)[k := b], k - n, a, o);
      }
      Settle(h);
    }

    /** Keep the top of the stack, and pop `n` values. */
    method RetVal(n: nat)
      requires Conserved() && n < |data|
      modifies this`heap, this`pending, this`newborn, this`data
      ensures newborn <= old(newborn)
      ensures Conserved() && SameObjects(old(heap), heap)
      ensures data == old(data)[..|old(data)| - n - 1] + [old(data)[|old(data)| - 1]]
    {
      var v := data[|data| - 1];
      if v.Obj? { DataHeld(|data| - 1); }
      PopN(n);
      Poke(v);
    }

    // ---------------------------------------------- locals and globals

    /** Push local `n` (counted down from -1), or global `n`. */
    method GetMem(n: int)
      requires Conserved() && 0 <= top + n && n < |globals|
      modifies this`heap, this`pending, this`newborn, this`data
      ensures newborn <= old(newborn)
      ensures Conserved() && SameObjects(old(heap), heap)
      ensures data == old(data) + [if n < 0 then locals[top + n] else globals[n]]
    {
      if n < 0 {
        if locals[top + n].Obj? { LocalHeld(top + n); }
        Push(locals[top + n]);
      } else {
        if globals[n].Obj? { GlobalHeld(n); }
        Push(globals[n]);
      }
    }

    /** Overwrite the local in slot `i`. */
    method SetLocal(i: nat, v: Slot)
      requires Conserved() && i < top && (v.Obj? ==> IsLive(heap, v.o))
      modifies this`heap, this`pending, this`newborn, this`locals
      ensures newborn <= old(newborn)
      ensures Conserved() && SameObjects(old(heap), heap) && locals == old(locals)[i := v]
    {
      hide Books, SameObjects, Parked, Kids;
      ghost var h := Held();
      var was := locals[i];
      if was.Obj? { LocalHeld(i); }
      DerefSlot(was, h);
      ghost var mid := heap;
      if v.Obj? { SameLive(old(heap), mid, v.o); }
      locals := locals[i := v];
      RefSlot(v, Plus(h, was, -1));
      SameTwice(old(heap), mid, heap);
      forall o: nat ensures Plus(Plus(h, was, -1), v, 1)(o) == Held()(o) {
        NumUpdate(old(locals)[..top], i, v, o);
        assert locals[..top] == old(locals)[..top][i := v];
        SameKids(old(heap), heap, o);
      }
      Settle(Plus(Plus(h, was, -1), v, 1));
    }

    method SetGlobal(i: nat, v: Slot)
      requires Conserved() && i < |globals| && (v.Obj? ==> IsLive(heap, v.o))
      modifies this`heap, this`pending, this`newborn, this`globals
      ensures newborn <= old(newborn)
      ensures Conserved() && SameObjects(old(heap), heap) && globals == old(globals)[i := v]
    {
      hide Books, SameObjects, Parked, Kids;
      ghost var h := Held();
      var was := globals[i];
      if was.Obj? { GlobalHeld(i); }
      DerefSlot(was, h);
      ghost var mid := heap;
      if v.Obj? { SameLive(old(heap), mid, v.o); }
      globals := globals[i := v];
      RefSlot(v, Plus(h, was, -1));
      SameTwice(old(heap), mid, heap);
      forall o: nat ensures Plus(Plus(h, was, -1), v, 1)(o) == Held()(o) {
        NumUpdate(old(globals), i, v, o);
        SameKids(old(heap), heap, o);
      }
      Settle(Plus(Plus(h, was, -1), v, 1));
    }

    /** Pop a value into local `n` (counted down from -1), or global `n`. */
    method SetMem(n: int)
      requires Conserved() && data != [] && 0 <= top + n && n < |globals|
      modifies this`heap, this`pending, this`newborn, this`data, this`locals, this`globals, this`used
      ensures newborn <= old(newborn)
      ensures Conserved() && SameObjects(old(heap), heap) && data == old(data)[..|old(data)| - 1]
      ensures used == if n >= old(used) then n + 1 else old(used)
      ensures locals == if n < 0 then old(locals)[top + n := old(data)[|old(data)| - 1]] else old(locals)
      ensures globals == if n < 0 then old(globals) else old(globals)[n := old(data)[|old(data)| - 1]]
    {
      hide Books, SameObjects;
      var v := Pop();
      ghost var mid := heap;
      if n < 0 {
        SetLocal(top + n, v);
      } else {
        if n >= used {
          used := n + 1;
        }
        SetGlobal(n, v);
      }
      SameTwice(old(heap), mid, heap);
    }

    /** Make room for `size` locals. */
    method Enter(size: nat)
      requires Conserved() && size < 16384
      modifies this`locals, this`top
      ensures Conserved() && top == old(top) + size && |locals| >= top && locals[..old(top)] == old(locals)[..old(top)]
      ensures forall i | old(top) <= i < |locals| :: locals[i].Plain?
      ensures locals == if |old(locals)| < top then old(locals) + Zeros(16384) else old(locals)
    {
      ghost var h := Held();
      if |locals| < top + size {
        locals := locals + Zeros(16384);
      }
      top := top + size;
      forall o: nat ensures h(o) == Held()(o) {
        var a, b := locals[..old(top)], locals[old(top)..top];
        NumConcat(a, b, o);
        NumPlain(b, o);
        assert locals[..top] == a + b && a == old(locals)[..old(top)];
      }
      Settle(h);
    }

    /** Let go of the objects that the last `size` locals hold. */
    method ClearLocals(size: nat)
      requires Conserved() && size <= top
      modifies this`heap, this`pending, this`newborn, this`locals
      ensures newborn <= old(newborn)
      ensures Conserved() && SameObjects(old(heap), heap) && locals == Cleared(old(locals), top - size, top)
    {
      hide Books, SameObjects, Parked, Kids;
      SameItself(heap);
      var i := 0;
      while i < size
        invariant 0 <= i <= size && Conserved() && SameObjects(old(heap), heap) && top <= |locals| == |old(locals)|
        invariant newborn <= old(newborn) && locals == Cleared(old(locals), top - i, top)
      {
        ghost var before := heap;
        var k := top - 1 - i;
        if locals[k].Obj? {
          SetLocal(k, Plain(0));
          SameTwice(old(heap), before, heap);
        }
        i := i + 1;
      }
    }

    /** Let go of the last `size` locals. */
    method Leave(size: nat)
      requires Conserved() && size <= top
      modifies this`heap, this`pending, this`newborn, this`locals, this`top
      ensures newborn <= old(newborn)
      ensures Conserved() && SameObjects(old(heap), heap) && top == old(top) - size && locals[..top] == old(locals)[..top]
      ensures locals == Cleared(old(locals), top, old(top))
    {
      hide Books, SameObjects, Parked, Kids, Num;
      ClearLocals(size);
      ghost var h := Held();
      top := top - size;
      forall o: nat ensures h(o) == Held()(o) { PlainTail(locals, top, size, o); }
      Settle(h);
    }

    // ------------------------------------------------------- objects

    /** A new object, that no slot holds yet. */
    method Allocate(isArray: bool) returns (o: nat)
      requires Conserved()
      modifies this`heap, this`newborn
      ensures Conserved() && o == |old(heap)| && heap == old(heap) + [Live(0, isArray, [])] && newborn == old(newborn) + {o}
    {
      ghost var h := Held();
      o := |heap|;
      heap := heap + [Live(0, isArray, [])];
      newborn := newborn + {o};
      assert heap[..o] == old(heap);
      forall x: nat ensures h(x) == Held()(x) {
        assert Kids(heap, x) == Kids(old(heap), x) + Num([], x);
      }
      BooksGrow(old(heap), pending, old(newborn), h, heap[o]);
      Settle(h);
    }

    /** Make a new object and push it. */
    method New(isArray: bool)
      requires Conserved()
      modifies this`heap, this`pending, this`newborn, this`data
      ensures newborn <= old(newborn)
      ensures Conserved() && data == old(data) + [Obj(|old(heap)|)] && SameObjects(old(heap) + [Live(0, isArray, [])], heap)
    {
      var o := Allocate(isArray);
      Push(Obj(o));
    }

    /** Overwrite slot `i` of the object `a`, which has it already. */
    method SetKid(a: nat, i: nat, v: Slot)
      requires Conserved() && IsLive(heap, a) && i < |heap[a].kids| && (v.Obj? ==> IsLive(heap, v.o))
      modifies this`heap, this`pending, this`newborn
      ensures newborn <= old(newborn)
      ensures Conserved() && IsLive(old(heap), a)
      ensures SameObjects(old(heap)[a := old(heap)[a].(kids := old(heap)[a].kids[i := v])], heap)
    {
      hide Books, Parked, Kids, Num;
      ghost var h := Held();
      var was := heap[a].kids[i];
      if was.Obj? { KidHeld(a, i); }
      DerefSlot(was, h);
      ghost var mid := heap;
      RefSlot(v, Plus(h, was, -1));
      ghost var late := heap;
      var kids := heap[a].kids[i := v];
      KidsBooks(heap, pending, newborn, Plus(Plus(h, was, -1), v, 1), a, kids);
      heap := heap[a := heap[a].(kids := kids)];
      forall o: nat ensures Plus(Plus(h, was, -1), v, 1)(o) == Held()(o) {
        NumUpdate(old(heap)[a].kids, i, v, o);
        KidsUpdate(late, a, heap[a], o);
        SameKids(old(heap), late, o);
      }
      Settle(Plus(Plus(h, was, -1), v, 1));
    }

    /** Extend the array `a` with words up to slot `i`. */
    method Extend(a: nat, i: nat)
      requires Conserved() && IsLive(heap, a) && |heap[a].kids| <= i
      modifies this`heap
      ensures Conserved() && IsLive(old(heap), a)
      ensures heap == old(heap)[a := old(heap)[a].(kids := old(heap)[a].kids + Zeros(i + 1 - |old(heap)[a].kids|))]
    {
      hide Books, Parked, Kids;
      ghost var h := Held();
      var more := Zeros(i + 1 - |heap[a].kids|);
      var kids := heap[a].kids + more;
      KidsBooks(heap, pending, newborn, h, a, kids);
      heap := heap[a := heap[a].(kids := kids)];
      forall o: nat ensures h(o) == Held()(o) {
        NumConcat(old(heap)[a].kids, more, o);
        NumPlain(more, o);
        KidsUpdate(old(heap), a, heap[a], o);
      }
      Settle(h);
    }

    /** Pop a value into slot `i` of the array on top of the stack, which grows as needed. */
    method ArraySet(i: nat)
      requires Conserved() && |data| >= 2 && IsArray(data[|data| - 2])
      modifies this`heap, this`pending, this`newborn, this`data
      ensures newborn <= old(newborn)
      ensures Conserved() && data == old(data)[..|old(data)| - 1] && |heap| == |old(heap)| && IsLive(old(heap), old(data)[|data| - 1].o)
      ensures var a, v, h := data[|data| - 1].o, old(data)[|data|], old(heap);
              SameObjects(h[a := h[a].(kids := Stored(h[a].kids, i, v))], heap)
      ensures var a, v := data[|data| - 1].o, old(data)[|data|];
              && IsLive(old(heap), a) && IsLive(heap, a)
              && heap[a].kids == Stored(old(heap)[a].kids, i, v)
              && forall o | 0 <= o < |heap| && o != a :: heap[o].Live? == old(heap)[o].Live? && (heap[o].Live? ==> heap[o].kids == old(heap)[o].kids)
    {
      hide Books;
      var a := data[|data| - 2].o;
      var v := Pop();
      ghost var h0 := heap;
      if i >= |heap[a].kids| {
        Extend(a, i);
      }
      SetKid(a, i, v);
    }

    predicate IsArray(v: Slot)
      reads this
    {
      v.Obj? && v.o < |heap| && heap[v.o].Live? && heap[v.o].isArray
    }

    /** Pop an array and push its slot `i`. */
    method ArrayGet(i: nat)
      requires Conserved() && data != [] && IsArray(data[|data| - 1]) && i < |heap[data[|data| - 1].o].kids|
      modifies this`heap, this`pending, this`newborn, this`data
      ensures newborn <= old(newborn)
      ensures Conserved() && SameObjects(old(heap), heap) && IsLive(old(heap), old(data)[|old(data)| - 1].o)
      ensures data == old(data)[|old(data)| - 1 := old(heap)[old(data)[|old(data)| - 1].o].kids[i]]
    {
      hide Books;
      var a := Pop();
      ghost var mid := heap;
      if heap[a.o].kids[i].Obj? { KidHeld(a.o, i); }
      Push(heap[a.o].kids[i]);
      SameTwice(old(heap), mid, heap);
    }

    /** Another thread runs. */
    method Switch(k: nat)
      requires Conserved() && k < |parked|
      modifies this`data, this`locals, this`top, this`parked
      ensures Conserved() && Run() == old(parked)[k] && parked == old(parked)[k := old(Run())]
    {
      ghost var h := Held();
      var me, next := Stacks(data, locals, top), parked[k];
      parked := parked[k := me];
      data, locals, top := next.data, next.locals, next.top;
      forall o: nat ensures h(o) == Held()(o) {
        ParkedUpdate(old(parked), k, me, o);
      }
      assert forall t | t in parked :: t == me || t in old(parked);
      Settle(h);
    }

    // ---------------------------------------------------- collecting

    /** Free the object that has been pending longest, and let go of what it owns. */
    method Sweep() returns (freed: Option<nat>)
      requires Conserved()
      modifies this`heap, this`pending, this`newborn
      ensures newborn <= old(newborn)
      ensures Conserved() && |heap| == |old(heap)| && (freed == None <==> old(pending) == [])
      ensures freed.Some? ==> && freed.value == old(pending)[|old(pending)| - 1]
                              && old(Held())(freed.value) == 0 && IsLive(old(heap), freed.value) && heap[freed.value] == Freed
      ensures forall o | 0 <= o < |heap| && freed != Some(o) :: heap[o].Live? == old(heap)[o].Live? && (heap[o].Live? ==> heap[o].kids == old(heap)[o].kids)
      ensures Slots() == AfterSweep(old(Slots()), freed) && (old(newborn) == {} ==> SweepOf(old(Slots()), freed))
    {
      hide Kids, Parked, SweepOf, Things, Num, SameObjects;
      ThingsAt(heap);
      if newborn == {} { SweepChoice(); }
      if pending == [] {
        return None;
      }
      var o := pending[|pending| - 1];
      assert o in pending;
      ghost var h := Held();
      pending := pending[..|pending| - 1];
      newborn := newborn + {o};
      BooksPopped(heap, old(pending), old(newborn), h);
      forall x: nat ensures h(x) >= Kids(heap, x) { PartsNat(x); }
      KidsNone(heap, h, o);
      LetGo(o, h);
      SameLive(old(heap), heap, o);
      ghost var late := heap;
      Discard(o, h, old(heap));
      SweptFacts(old(heap), late, o);
      return Some(o);
    }

    /** What has been pending longest is held by no slot; if nothing is pending, every object is held. */
    lemma SweepChoice()
      requires Conserved() && newborn == {}
      ensures SweepOf(Slots(), if pending == [] then None else Some(pending[|pending| - 1]))
    {
      hide Held, HeldIn, Things, Clean;
      ThingsAt(heap);
      if pending == [] {
        forall o: nat | Exists(Slots(), o) ensures HeldIn(Slots(), o) { HeldIff(o); }
      } else {
        assert pending[|pending| - 1] in pending;
        HeldIff(pending[|pending| - 1]);
      }
    }

    /** Free the object `o`, whose slots are no longer counted. */
    method Discard(o: nat, ghost h: nat -> int, ghost before: seq<Cell>)
      requires IsLive(heap, o) && o in newborn && h(o) == 0 && Num(heap[o].kids, o) == 0
      requires Books(heap, pending, newborn, Less(h, heap[o].kids)) && SameObjects(before, heap)
      requires Clean(Run()) && (forall t | t in parked :: Clean(t))
      requires forall x: nat :: h(x) == HeldBy(globals, Run(), parked, before)(x)
      modifies this`heap, this`newborn
      ensures Conserved() && heap == old(heap)[o := Freed] && newborn == old(newborn) - {o}
    {
      hide Books, Kids, Parked;
      ghost var l := Less(h, heap[o].kids);
      FreeBooks(heap, pending, newborn, l, o);
      heap := heap[o := Freed];
      newborn := newborn - {o};
      forall x: nat ensures l(x) == Held()(x) {
        KidsUpdate(old(heap), o, Freed, x);
        SameKids(before, old(heap), x);
      }
      Settle(l);
    }

    /** Let go of everything that the dying object `o` owns. */
    method LetGo(o: nat, ghost h: nat -> int)
      requires Books(heap, pending, newborn, h) && IsLive(heap, o) && h(o) == 0 && o in newborn
      requires forall x: nat :: h(x) >= Kids(heap, x)
      modifies this`heap, this`pending, this`newborn
      ensures SameObjects(old(heap), heap) && Books(heap, pending, newborn, Less(h, heap[o].kids)) && o in newborn && newborn <= old(newborn)
    {
      hide Books, Kids, SameObjects;
      var kids := heap[o].kids;
      var i := 0;
      SameItself(heap);
      BooksExt(heap, pending, newborn, h, Less(h, kids[..0]));
      while i < |kids|
        invariant i <= |kids| && SameObjects(old(heap), heap) && o in newborn && newborn <= old(newborn)
        invariant Books(heap, pending, newborn, Less(h, kids[..i]))
      {
        KidCounted(old(heap), h, o, i);
        SameLive(old(heap), heap, o);
        ghost var before := heap;
        ghost var now := Less(h, kids[..i]);
        if kids[i].Obj? { HeldIsLive(heap, pending, newborn, now, kids[i].o); }
        DerefSlot(kids[i], now);
        SameTwice(old(heap), before, heap);
        assert kids[..i + 1] == kids[..i] + [kids[i]];
        forall x: nat ensures Plus(now, kids[i], -1)(x) == Less(h, kids[..i + 1])(x) {
          NumAppend(kids[..i], kids[i], x);
        }
        BooksExt(heap, pending, newborn, Plus(now, kids[i], -1), Less(h, kids[..i + 1]));
        i := i + 1;
      }
      assert kids[..i] == kids;
      SameLive(old(heap), heap, o);
    }

    /** Push slot `i` of the closure `a`. */
    method GetClosure(a: nat, i: nat)
      requires Conserved() && IsLive(heap, a) && i < |heap[a].kids|
      modifies this`heap, this`pending, this`newborn, this`data
      ensures newborn <= old(newborn)
      ensures Conserved() && SameObjects(old(heap), heap) && IsLive(old(heap), a) && data == old(data) + [old(heap)[a].kids[i]]
    {
      if heap[a].kids[i].Obj? { KidHeld(a, i); }
      Push(heap[a].kids[i]);
    }

    /** Pop a value into slot `i` of the closure `a`. */
    method SetClosure(a: nat, i: nat)
      requires Conserved() && data != [] && IsLive(heap, a) && i < |heap[a].kids|
      modifies this`heap, this`pending, this`newborn, this`data
      ensures newborn <= old(newborn)
      ensures Conserved() && data == old(data)[..|old(data)| - 1] && IsLive(old(heap), a) && i < |old(heap)[a].kids|
      ensures var h := old(heap);
              SameObjects(h[a := h[a].(kids := h[a].kids[i := old(data)[|old(data)| - 1]])], heap)
    {
      hide Books;
      var v := Pop();
      SetKid(a, i, v);
    }

    // -------------------------------------------------------- whole runs

    /** The slots, without the counts and the list of what is pending. */
    ghost function Slots(): Mem
      reads this
    {
      Mem(Run(), parked, globals, used, Things(heap))
    }

    /** A slot holds the object exactly if the object is counted. */
    lemma HeldIff(o: nat)
      requires Clean(Run()) && forall t | t in parked :: Clean(t)
      ensures Held()(o) > 0 <==> HeldIn(Slots(), o)
    {
      hide Num, Kids, Parked, Clean;
      NumIff(globals, o);
      StacksIff(Run(), o);
      ParkedIff(parked, o);
      KidsIff(heap, o);
      ThingsHold(Slots(), heap, o);
    }

    method StepStack(op: Op) returns (ok: bool)
      requires Conserved() && (op.PushWord? || op.PopData? || op.DupData? || op.SwapData? || op.Return?)
      modifies this`heap, this`pending, this`newborn, this`data
      ensures Conserved() && newborn <= old(newborn)
      ensures (ok <==> OnStack(old(Slots()), op).Some?) && Slots() == Left(old(Slots()), OnStack(old(Slots()), op))
    {
      hide Books, Parked, Kids, Num, Clean;
      ok := true;
      match op
      case PushWord(w) => Push(Plain(w));
      case PopData(n) => ok := n <= |data|; if ok { PopN(n); }
      case DupData(depth) => ok := depth < |data|; if ok { Dup(depth); }
      case SwapData(n) => ok := n < |data|; if ok { Swap(n); }
      case Return(n) => ok := n < |data|; if ok { RetVal(n); }
      SameThings(old(heap), heap);
    }

    method StepLocals(op: Op) returns (ok: bool)
      requires Conserved() && (op.Get? || op.Set? || op.EnterLocals? || op.LeaveLocals? || op.Yield?)
      modifies this`heap, this`pending, this`newborn, this`data, this`locals, this`top, this`globals, this`used, this`parked
      ensures Conserved() && newborn <= old(newborn)
      ensures (ok <==> OnLocals(old(Slots()), op).Some?) && Slots() == Left(old(Slots()), OnLocals(old(Slots()), op))
    {
      hide Books, Parked, Kids, Num;
      ok := true;
      match op
      case Get(n) => ok := 0 <= top + n && n < |globals|; if ok { GetMem(n); }
      case Set(n) => ok := data != [] && 0 <= top + n && n < |globals|; if ok { SetMem(n); }
      case EnterLocals(n) => ok := n < 16384; if ok { Enter(n); }
      case LeaveLocals(n) => ok := n <= top; if ok { Leave(n); }
      case Yield(k) => ok := k < |parked|; if ok { Switch(k); }
      SameThings(old(heap), heap);
    }

    method StepThings(op: Op) returns (ok: bool)
      requires Conserved() && (op.NewObject? || op.StoreArray? || op.FetchArray? || op.StoreClosure? || op.FetchClosure?)
      modifies this`heap, this`pending, this`newborn, this`data
      ensures Conserved() && newborn <= old(newborn)
      ensures (ok <==> OnThings(old(Slots()), op).Some?) && Slots() == Left(old(Slots()), OnThings(old(Slots()), op))
    {
      hide Books, Parked, Kids, Num, Clean, SameObjects, Things;
      ThingsAt(heap);
      ok := true;
      match op
      case NewObject(isArray) =>
        New(isArray);
        ThingsGrown(old(heap), Live(0, isArray, []));
        SameThings(old(heap) + [Live(0, isArray, [])], heap);
      case StoreArray(i) =>
        ok := |data| >= 2 && IsArray(data[|data| - 2]);
        if ok {
          var a := data[|data| - 2].o;
          ThingsWith(heap, a, Stored(heap[a].kids, i, data[|data| - 1]));
          ArraySet(i);
          SameThings(old(heap)[a := old(heap)[a].(kids := Stored(old(heap)[a].kids, i, old(data)[|data|]))], heap);
        }
      case FetchArray(i) =>
        ok := data != [] && IsArray(data[|data| - 1]) && i < |heap[data[|data| - 1].o].kids|;
        if ok {
          ArrayGet(i);
          SameThings(old(heap), heap);
        }
      case FetchClosure(a, i) =>
        ok := a < |heap| && heap[a].Live? && i < |heap[a].kids|;
        if ok {
          GetClosure(a, i);
          SameThings(old(heap), heap);
        }
      case StoreClosure(a, i) =>
        ok := data != [] && a < |heap| && heap[a].Live? && i < |heap[a].kids|;
        if ok {
          ThingsWith(heap, a, heap[a].kids[i := data[|data| - 1]]);
          SetClosure(a, i);
          SameThings(old(heap)[a := old(heap)[a].(kids := old(heap)[a].kids[i := old(data)[|data|]])], heap);
        }
    }

    /** One instruction; false, with nothing changed, where the machine stops at a failed assertion. */
    method Step(op: Op) returns (ok: bool)
      requires Conserved()
      modifies this
      ensures Conserved() && newborn <= old(newborn)
      ensures (ok <==> Do(old(Slots()), op).Some?) && Slots() == Left(old(Slots()), Do(old(Slots()), op))
    {
      hide Conserved, OnStack, OnLocals, OnThings;
      if op.PushWord? || op.PopData? || op.DupData? || op.SwapData? || op.Return? {
        ok := StepStack(op);
      } else if op.Get? || op.Set? || op.EnterLocals? || op.LeaveLocals? || op.Yield? {
        ok := StepLocals(op);
      } else {
        ok := StepThings(op);
      }
    }

    /** Run instructions, with a sweep after each, up to the first that fails. Whatever they are, the counts stay right; the
        slots are as the instructions leave them; each sweep frees an object that no slot holds, if there is one; and no
        object is freed twice. `log` has what each sweep frees. */
    method RunAll(ops: seq<Op>) returns (log: seq<Option<nat>>)
      requires Conserved() && newborn == {}
      modifies this
      ensures Conserved() && newborn == {} && Ran(old(Slots()), ops, log, Slots())
      ensures forall i, j | 0 <= i < j < |log| && log[i].Some? :: log[i] != log[j]
      ensures forall o: nat | Some(o) in log :: o < |heap| && heap[o].Freed? && (o < |old(heap)| ==> old(heap)[o].Live?)
      ensures |old(heap)| <= |heap| && forall o | 0 <= o < |old(heap)| && old(heap)[o].Live? && Some(o) !in log :: heap[o].Live?
    {
      hide Conserved, Do, Ran, SweepOf, AfterSweep, Things;
      log := [];
      ghost var m := Slots();
      var i := 0;
      var ok := true;
      RanNothing(m);
      while i < |ops| && ok
        invariant i <= |ops| && Conserved() && newborn == {}
        invariant ok ==> Ran(m, ops[..i], log, Slots()) && |log| == i
        invariant !ok ==> Ran(m, ops, log, Slots())
      {
        ghost var before := Slots();
        ok := Step(ops[i]);
        if ok {
          var o := Sweep();
          RanMore(m, ops[..i], log, before, ops[i], o);
          assert ops[..i + 1] == ops[..i] + [ops[i]];
          log := log + [o];
        } else {
          RanStops(m, ops[..i], log, before, ops[i..]);
          assert ops[..i] + ops[i..] == ops;
        }
        i := i + 1;
      }
      assert ops[..|ops|] == ops;
      RanFrees(m, ops, log, Slots());
      ThingsAt(old(heap));
      ThingsAt(heap);
    }
  }

  lemma RanNothing(m: Mem)
    ensures Ran(m, [], [], m)
  {
  }

  lemma {:induction false} NothingParked(ts: seq<Stacks>, o: nat)
    requires forall i | 0 <= i < |ts| :: ts[i] == Stacks([], [], 0)
    ensures Parked(ts, o) == 0
  {
    if ts != [] {
      NothingParked(ts[..|ts| - 1], o);
    }
  }
}
