/** The opcode dictionary: stubs by type and index, by name, and back. */
module OpcodeDicts {
  import opened TextSegs

  const TYPES: nat := 8
  const OP_LIMIT: nat := 0x1000_0000

  /** Four bits of argument type above 28 bits of opcode index. */
  function MakeWc(t: nat, op: nat): nat {
    t * OP_LIMIT + op
  }

  function WcType(wc: nat): nat {
    wc / OP_LIMIT
  }

  function WcOp(wc: nat): nat {
    wc % OP_LIMIT
  }

  lemma Unpack(t: nat, op: nat)
    requires op < OP_LIMIT
    ensures WcType(MakeWc(t, op)) == t && WcOp(MakeWc(t, op)) == op
  {
  }

  datatype Dict = Dict(arrays: seq<seq<nat>>, byName: seq<map<Text, nat>>, code: map<nat, nat>, name: map<nat, Text>)

  const NoOpcodes: Dict := Dict([[], [], [], [], [], [], [], []], [map[], map[], map[], map[], map[], map[], map[], map[]], map[], map[])

  predicate Shaped(d: Dict) {
    |d.arrays| == TYPES && |d.byName| == TYPES
  }

  /** Enter a stub, unless it is null or its name and type are taken. */
  function Add(d: Dict, t: nat, name: Text, stub: nat): (d': Dict)
    requires Shaped(d) && t < TYPES
    ensures Shaped(d')
  {
    if stub == 0 || name in d.byName[t] then d
    else
      var names: map<Text, nat> := d.byName[t][name := stub];
      Dict(d.arrays[t := d.arrays[t] + [stub]], d.byName[t := names],
           d.code[stub := MakeWc(t, |d.arrays[t]|)], d.name[stub := name])
  }

  /** Look a stub up by its wordcode; an index that is out of range reads as 0. */
  function StubByCode(d: Dict, wc: nat): nat
    requires Shaped(d) && WcType(wc) < TYPES
  {
    var a := d.arrays[WcType(wc)];
    if WcOp(wc) < |a| then a[WcOp(wc)] else 0
  }

  function TypeOf(d: Dict, stub: nat): nat
    requires stub in d.code
  {
    WcType(d.code[stub])
  }

  /** The lookup tables lead from each stub to its code and name, and from those back to the stub. */
  ghost predicate Agrees(d: Dict, s: nat)
    requires Shaped(d)
  {
    && s in d.code && s in d.name && s != 0
    && WcType(d.code[s]) < TYPES && StubByCode(d, d.code[s]) == s
    && d.name[s] in d.byName[TypeOf(d, s)] && d.byName[TypeOf(d, s)][d.name[s]] == s
  }

  ghost predicate Consistent(d: Dict) {
    && Shaped(d)
    && (forall s | s in d.code :: Agrees(d, s))
    && (forall t | 0 <= t < TYPES :: |d.arrays[t]| < OP_LIMIT)
  }

  /** An addition keeps the lookups inverse to each other, even for a stub entered twice. */
  lemma AddConsistent(d: Dict, t: nat, name: Text, stub: nat)
    requires Consistent(d) && t < TYPES && |d.arrays[t]| + 1 < OP_LIMIT
    ensures Consistent(Add(d, t, name, stub))
  {
    var d' := Add(d, t, name, stub);
    if d' != d {
      Unpack(t, |d.arrays[t]|);
      forall s | s in d'.code ensures Agrees(d', s) {
        if s != stub {
          assert Agrees(d, s);
          assert TypeOf(d', s) == TypeOf(d, s);
        }
      }
    }
  }

  /** Any number of additions of type, name and stub. */
  function AddAll(d: Dict, entries: seq<(nat, Text, nat)>): (d': Dict)
    requires Shaped(d) && forall e | e in entries :: e.0 < TYPES
    ensures Shaped(d')
    decreases entries
  {
    if entries == [] then d
    else
      assert entries[0] in entries;
      AddAll(Add(d, entries[0].0, entries[0].1, entries[0].2), entries[1..])
  }

  lemma {:induction false} AddAllConsistent(d: Dict, entries: seq<(nat, Text, nat)>)
    requires Consistent(d) && forall e | e in entries :: e.0 < TYPES
    requires forall t | 0 <= t < TYPES :: |d.arrays[t]| + |entries| < OP_LIMIT
    ensures Consistent(AddAll(d, entries))
    decreases entries
  {
    hide Agrees;
    if entries != [] {
      assert entries[0] in entries;
      AddConsistent(d, entries[0].0, entries[0].1, entries[0].2);
      AddAllConsistent(Add(d, entries[0].0, entries[0].1, entries[0].2), entries[1..]);
    }
  }

  lemma EmptyConsistent()
    ensures Consistent(NoOpcodes) && forall t | 0 <= t < TYPES :: NoOpcodes.arrays[t] == []
  {
  }

  /** From the empty dictionary on, every run of additions keeps the lookups inverse to each other. */
  lemma BuiltConsistent(entries: seq<(nat, Text, nat)>)
    requires |entries| < OP_LIMIT && forall e | e in entries :: e.0 < TYPES
    ensures Consistent(AddAll(NoOpcodes, entries))
  {
    hide AddAll, Consistent;
    EmptyConsistent();
    AddAllConsistent(NoOpcodes, entries);
  }

  // ---------------------------------------------------------- optimizing

  ghost predicate Known(glob: Dict, s: nat) {
    s in glob.code && s in glob.name && TypeOf(glob, s) < TYPES
  }

  /** Enter the opcode `s` in `d`, as `glob` knows it. */
  function Take(glob: Dict, d: Dict, s: nat): (d': Dict)
    requires Shaped(d) && Known(glob, s)
    ensures Shaped(d')
  {
    Add(d, TypeOf(glob, s), glob.name[s], s)
  }

  function Collect(glob: Dict, d: Dict, stubs: seq<nat>): (d': Dict)
    requires Shaped(d) && forall s | s in stubs :: Known(glob, s)
    ensures Shaped(d')
    decreases stubs
  {
    if stubs == [] then d
    else
      assert stubs[0] in stubs;
      Collect(glob, Take(glob, d, stubs[0]), stubs[1..])
  }

  /** A dictionary with opcodes of `glob` only: each cell holds the one stub with its code. */
  ghost predicate Extract(glob: Dict, d: Dict) {
    true == (
      && Shaped(d) && Shaped(glob)
      && (forall s | s in d.code :: Stands(glob, d, s))
      && (forall t, j | 0 <= t < TYPES && 0 <= j < |d.arrays[t]| :: Cell(d, t, j))
      && (forall t, n | 0 <= t < TYPES && n in d.byName[t] :: Named(glob, d, t, n)))
  }

  /** Each type has room for `n` more opcodes. */
  ghost predicate Roomy(d: Dict, n: nat) {
    Shaped(d) && forall t | 0 <= t < TYPES :: |d.arrays[t]| + n <= OP_LIMIT
  }

  /** The stub `s` has the name and type that `glob` gives it, and its own cell. */
  ghost predicate Stands(glob: Dict, d: Dict, s: nat)
    requires Shaped(d) && s in d.code
  {
    && Known(glob, s) && s in d.name && d.name[s] == glob.name[s]
    && var t, wc := TypeOf(glob, s), d.code[s];
       && d.name[s] in d.byName[t]
       && WcType(wc) == t && WcOp(wc) < |d.arrays[t]|
       && d.arrays[t][WcOp(wc)] == s
  }

  ghost predicate Cell(d: Dict, t: nat, j: nat)
    requires Shaped(d) && t < TYPES && j < |d.arrays[t]|
  {
    d.arrays[t][j] in d.code && d.code[d.arrays[t][j]] == MakeWc(t, j)
  }

  ghost predicate Named(glob: Dict, d: Dict, t: nat, n: Text)
    requires Shaped(d) && Shaped(glob) && t < TYPES && n in d.byName[t]
  {
    n in glob.byName[t] && d.byName[t][n] == glob.byName[t][n] && d.byName[t][n] in d.code
  }

  /** An opcode of `glob` is either in the extract under its name, or neither it nor its name is. */
  lemma TakenOrNew(glob: Dict, d: Dict, s: nat)
    requires Consistent(glob) && Extract(glob, d) && s in glob.code
    ensures Known(glob, s) && s != 0
    ensures glob.name[s] in d.byName[TypeOf(glob, s)] <==> s in d.code
  {
    assert Agrees(glob, s);
    var t, n := TypeOf(glob, s), glob.name[s];
    if n in d.byName[t] { assert Named(glob, d, t, n); }
    if s in d.code { assert Stands(glob, d, s); }
  }

  /** Entering an opcode of `glob` keeps the extract, and puts the opcode in it. */
  lemma TakeExtract(glob: Dict, d: Dict, s: nat)
    requires Consistent(glob) && Extract(glob, d) && s in glob.code
    requires Roomy(d, 1)
    ensures Known(glob, s) && Extract(glob, Take(glob, d, s))
    ensures Take(glob, d, s).code.Keys == d.code.Keys + {s}
  {
    TakenOrNew(glob, d, s);
    if s !in d.code {
      TakeNew(glob, d, s);
    }
  }

  lemma NewStands(glob: Dict, d: Dict, s: nat, r: nat)
    requires Roomy(d, 1)
    requires Extract(glob, d) && Known(glob, s) && s !in d.code && s != 0
    requires glob.name[s] !in d.byName[TypeOf(glob, s)] && r in Take(glob, d, s).code
    ensures Stands(glob, Take(glob, d, s), r)
  {
    hide TypeOf, Cell, Named, WcType, WcOp, MakeWc;
    var t := TypeOf(glob, s);
    Unpack(t, |d.arrays[t]|);
    if r != s { assert Stands(glob, d, r); }
  }

  lemma NewCells(glob: Dict, d: Dict, s: nat, u: nat, j: nat)
    requires Extract(glob, d) && Known(glob, s) && s !in d.code && s != 0
    requires glob.name[s] !in d.byName[TypeOf(glob, s)] && u < TYPES && j < |Take(glob, d, s).arrays[u]|
    ensures Cell(Take(glob, d, s), u, j)
  {
    hide TypeOf, Stands, Named;
    if u != TypeOf(glob, s) || j < |d.arrays[u]| { assert Cell(d, u, j); }
  }

  lemma NewNamed(glob: Dict, d: Dict, s: nat, u: nat, m: Text)
    requires Consistent(glob) && Extract(glob, d) && Known(glob, s) && s !in d.code && s != 0
    requires glob.name[s] !in d.byName[TypeOf(glob, s)] && u < TYPES && m in Take(glob, d, s).byName[u]
    ensures Named(glob, Take(glob, d, s), u, m)
  {
    hide TypeOf, Stands, Cell;
    assert Agrees(glob, s);
    if u != TypeOf(glob, s) || m != glob.name[s] { assert Named(glob, d, u, m); }
  }

  lemma TakeNew(glob: Dict, d: Dict, s: nat)
    requires Roomy(d, 1)
    requires Consistent(glob) && Extract(glob, d) && s in glob.code && s !in d.code && s != 0
    requires Known(glob, s) && glob.name[s] !in d.byName[TypeOf(glob, s)]
    ensures Extract(glob, Take(glob, d, s))
  {
    hide Stands, Cell, Named, Consistent, TypeOf, Take, Known;
    var d' := Take(glob, d, s);
    forall r | r in d'.code ensures Stands(glob, d', r) { NewStands(glob, d, s, r); }
    forall u, j | 0 <= u < TYPES && 0 <= j < |d'.arrays[u]| ensures Cell(d', u, j) { NewCells(glob, d, s, u, j); }
    forall u, m | 0 <= u < TYPES && m in d'.byName[u] ensures Named(glob, d', u, m) { NewNamed(glob, d, s, u, m); }
  }

  lemma ExtractShaped(glob: Dict, d: Dict)
    requires Extract(glob, d)
    ensures Shaped(d) && Shaped(glob)
  {
  }

  lemma TakeRoomy(glob: Dict, d: Dict, s: nat, n: nat)
    requires Roomy(d, n + 1) && Known(glob, s)
    ensures Roomy(Take(glob, d, s), n)
  {
  }

  lemma {:induction false} CollectExtract(glob: Dict, d: Dict, stubs: seq<nat>)
    requires Consistent(glob) && Extract(glob, d) && Roomy(d, |stubs|) && forall s | s in stubs :: s in glob.code
    ensures Shaped(d) && (forall s | s in stubs :: Known(glob, s)) && Extract(glob, Collect(glob, d, stubs))
    ensures Roomy(Collect(glob, d, stubs), 0)
    ensures Collect(glob, d, stubs).code.Keys == d.code.Keys + (set s | s in stubs)
    decreases stubs
  {
    hide Extract, Consistent, Take, Known;
    ExtractShaped(glob, d);
    forall s | s in stubs ensures Known(glob, s) { TakenOrNew(glob, d, s); }
    if stubs != [] {
      var s := stubs[0];
      TakeExtract(glob, d, s);
      TakeRoomy(glob, d, s, |stubs| - 1);
      CollectExtract(glob, Take(glob, d, s), stubs[1..]);
      assert (set s | s in stubs) == {s} + (set s | s in stubs[1..]);
    }
  }

  /** The dictionary written with a program. */
  function Optimized(glob: Dict, stubs: seq<nat>): (d: Dict)
    requires forall s | s in stubs :: Known(glob, s)
    ensures Shaped(d)
  {
    Collect(glob, NoOpcodes, stubs)
  }

  lemma OptimizedExtract(glob: Dict, stubs: seq<nat>)
    requires Consistent(glob) && |stubs| <= OP_LIMIT && forall s | s in stubs :: s in glob.code
    ensures (forall s | s in stubs :: Known(glob, s)) && Extract(glob, Optimized(glob, stubs)) && Roomy(Optimized(glob, stubs), 0)
    ensures Optimized(glob, stubs).code.Keys == set s | s in stubs
  {
    assert Extract(glob, NoOpcodes);
    CollectExtract(glob, NoOpcodes, stubs);
  }

  /** The optimized dictionary holds exactly the program's opcodes, each in one cell, and the wordcode
      of each unpacks to its type and leads back to it. */
  lemma OptimizedExactly(glob: Dict, stubs: seq<nat>)
    requires Consistent(glob) && |stubs| <= OP_LIMIT && forall s | s in stubs :: s in glob.code
    ensures forall s | s in stubs :: Known(glob, s)
    ensures var d := Optimized(glob, stubs);
            && (forall s | s in stubs :: s in d.code && WcType(d.code[s]) == TypeOf(glob, s) && StubByCode(d, d.code[s]) == s)
            && (forall t, j | 0 <= t < TYPES && 0 <= j < |d.arrays[t]| :: d.arrays[t][j] in stubs)
            && (forall t, j, u, k | 0 <= t < TYPES && 0 <= j < |d.arrays[t]| && 0 <= u < TYPES && 0 <= k < |d.arrays[u]| ::
                  d.arrays[t][j] == d.arrays[u][k] ==> t == u && j == k)
  {
    OptimizedExtract(glob, stubs);
    var d := Optimized(glob, stubs);
    forall s | s in stubs ensures s in d.code && WcType(d.code[s]) == TypeOf(glob, s) && StubByCode(d, d.code[s]) == s {
      CodeUnpacks(glob, d, s);
    }
    forall t, j | 0 <= t < TYPES && 0 <= j < |d.arrays[t]| ensures d.arrays[t][j] in stubs {
      CellTaken(glob, d, t, j);
    }
    forall t, j, u, k | 0 <= t < TYPES && 0 <= j < |d.arrays[t]| && 0 <= u < TYPES && 0 <= k < |d.arrays[u]|
      ensures d.arrays[t][j] == d.arrays[u][k] ==> t == u && j == k
    {
      CellTaken(glob, d, t, j);
      CellTaken(glob, d, u, k);
      Unpack(t, j);
      Unpack(u, k);
    }
  }

  lemma CellTaken(glob: Dict, d: Dict, t: nat, j: nat)
    requires Extract(glob, d) && Shaped(d) && t < TYPES && j < |d.arrays[t]|
    ensures Cell(d, t, j)
  {
  }

  lemma CodeUnpacks(glob: Dict, d: Dict, s: nat)
    requires Extract(glob, d) && Shaped(d) && s in d.code
    ensures Known(glob, s) && WcType(d.code[s]) == TypeOf(glob, s) && StubByCode(d, d.code[s]) == s
  {
    assert Stands(glob, d, s);
  }

  // ----------------------------------------------------------- reloading

  function NameOf(d: Dict, s: nat): Text {
    if s in d.name then d.name[s] else []
  }

  /** The names of the opcodes of type `t`, in index order. */
  function RowNames(d: Dict, t: nat): seq<Text>
    requires Shaped(d) && t < TYPES
  {
    seq(|d.arrays[t]|, j requires 0 <= j < |d.arrays[t]| => NameOf(d, d.arrays[t][j]))
  }

  function Rows(d: Dict): seq<seq<Text>>
    requires Shaped(d)
  {
    seq(TYPES, t requires 0 <= t < TYPES => RowNames(d, t))
  }

  /** Enter the opcodes `names` of type `t`, as `resolve` finds their stubs. */
  function LoadRow(d: Dict, t: nat, names: seq<Text>, resolve: (nat, Text) -> nat): (d': Dict)
    requires Shaped(d) && t < TYPES
    ensures Shaped(d')
    decreases names
  {
    if names == [] then d else LoadRow(Add(d, t, names[0], resolve(t, names[0])), t, names[1..], resolve)
  }

  function LoadRows(d: Dict, t: nat, rows: seq<seq<Text>>, resolve: (nat, Text) -> nat): (d': Dict)
    requires Shaped(d) && t <= |rows| == TYPES
    ensures Shaped(d')
    decreases TYPES - t
  {
    if t == TYPES then d else LoadRows(LoadRow(d, t, rows[t], resolve), t + 1, rows, resolve)
  }

  /** Names that are new to the row get consecutive cells. */
  lemma {:induction false} LoadRowAppends(d: Dict, t: nat, names: seq<Text>, stubs: seq<nat>, resolve: (nat, Text) -> nat)
    requires Shaped(d) && t < TYPES && |names| == |stubs|
    requires forall j | 0 <= j < |names| :: names[j] !in d.byName[t] && resolve(t, names[j]) == stubs[j] && stubs[j] != 0
    requires forall i, j | 0 <= i < j < |names| :: names[i] != names[j]
    ensures var d' := LoadRow(d, t, names, resolve);
            d'.arrays == d.arrays[t := d.arrays[t] + stubs] && forall u | 0 <= u < TYPES && u != t :: d'.byName[u] == d.byName[u]
    decreases names
  {
    if names == [] {
      assert d.arrays[t] + stubs == d.arrays[t];
    } else {
      LoadRowAppends(Add(d, t, names[0], stubs[0]), t, names[1..], stubs[1..], resolve);
      assert d.arrays[t] + stubs == d.arrays[t] + [stubs[0]] + stubs[1..];
    }
  }

  /** Within a type, the names of an extract are distinct. */
  lemma RowNamesDistinct(glob: Dict, d: Dict, t: nat)
    requires Consistent(glob) && Extract(glob, d) && Roomy(d, 0) && t < TYPES
    ensures var n := RowNames(d, t); forall i, j | 0 <= i < j < |n| :: n[i] != n[j]
  {
    forall i, j | 0 <= i < j < |d.arrays[t]| ensures NameOf(d, d.arrays[t][i]) != NameOf(d, d.arrays[t][j]) {
      CellNamed(glob, d, t, i);
      CellNamed(glob, d, t, j);
      CellTaken(glob, d, t, i);
      CellTaken(glob, d, t, j);
    }
  }

  /** The stub in a cell goes by its name and type in `glob`, and is not null. */
  lemma CellNamed(glob: Dict, d: Dict, t: nat, j: nat)
    requires Consistent(glob) && Extract(glob, d) && Roomy(d, 0) && t < TYPES && j < |d.arrays[t]|
    ensures var s := d.arrays[t][j];
            s != 0 && s in d.name && Known(glob, s) && TypeOf(glob, s) == t
            && glob.name[s] == d.name[s] && d.name[s] in glob.byName[t] && glob.byName[t][d.name[s]] == s
  {
    CellTaken(glob, d, t, j);
    var s := d.arrays[t][j];
    assert Stands(glob, d, s);
    assert Agrees(glob, s);
    Unpack(t, j);
  }

  /** An extract, with stubs that the loading side resolves to the same functions, reloads cell by cell. */
  lemma {:induction false} LoadRowsSame(glob: Dict, d: Dict, l: Dict, t: nat, resolve: (nat, Text) -> nat)
    requires Consistent(glob) && Extract(glob, d) && Roomy(d, 0) && Shaped(l) && t <= TYPES
    requires forall s | s in d.code :: Known(glob, s) && resolve(TypeOf(glob, s), glob.name[s]) == s
    requires forall u | 0 <= u < TYPES :: l.arrays[u] == if u < t then d.arrays[u] else []
    requires forall u | t <= u < TYPES :: l.byName[u] == map[]
    ensures LoadRows(l, t, Rows(d), resolve).arrays == d.arrays
    decreases TYPES - t
  {
    if t < TYPES {
      RowNamesDistinct(glob, d, t);
      forall j | 0 <= j < |d.arrays[t]| ensures resolve(t, RowNames(d, t)[j]) == d.arrays[t][j] && d.arrays[t][j] != 0 {
        CellNamed(glob, d, t, j);
        CellTaken(glob, d, t, j);
      }
      LoadRowAppends(l, t, RowNames(d, t), d.arrays[t], resolve);
      LoadRowsSame(glob, d, LoadRow(l, t, RowNames(d, t), resolve), t + 1, resolve);
    }
  }

  /** The dictionary read back assigns every wordcode the same stub as the one that was written. */
  lemma ReloadSame(glob: Dict, stubs: seq<nat>, resolve: (nat, Text) -> nat)
    requires Consistent(glob) && |stubs| <= OP_LIMIT && forall s | s in stubs :: s in glob.code
    requires forall s | s in stubs :: Known(glob, s) && resolve(TypeOf(glob, s), glob.name[s]) == s
    ensures LoadRows(NoOpcodes, 0, Rows(Optimized(glob, stubs)), resolve).arrays == Optimized(glob, stubs).arrays
  {
    hide Collect, Known, LoadRows, Extract, Consistent, TypeOf;
    OptimizedExtract(glob, stubs);
    LoadRowsSame(glob, Optimized(glob, stubs), NoOpcodes, 0, resolve);
  }
}
