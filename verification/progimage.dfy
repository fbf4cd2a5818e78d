/** Programs in memory, their compact form, and what loading that form gives back. */
module ProgramImage {
  import opened Options
  import opened Words
  import opened TextSegs
  import opened OpcodeDicts
  import opened ByteIO
  import opened ProgramFile
  import opened LabelTables

  const STRING_ARG: nat := 6
  const ENVSYM_ARG: nat := 7

  /** An argument word: a number, or a pointer to an interned string. */
  datatype Arg = Raw(w: nat) | Ptr(t: Text)
  datatype Cell = Cell(stub: nat, arg: Arg)
  datatype Datum = Datum(kind: nat, arg: Arg)
  datatype Image = Image(libs: seq<Text>, reqs: seq<Text>, strings: seq<Text>, labels: seq<Text>, offsets: seq<nat>,
                         code: seq<Cell>, data: seq<Datum>)

  // ------------------------------------------------------------ compacting

  function Stubs(code: seq<Cell>): (s: seq<nat>)
    ensures |s| == |code| && forall i | 0 <= i < |code| :: s[i] == code[i].stub
  {
    if code == [] then [] else [code[0].stub] + Stubs(code[1..])
  }

  function TypeIn(glob: Dict, stub: nat): nat {
    if stub in glob.code then WcType(glob.code[stub]) else 0
  }

  function Symbol(env: seq<Text>, a: Arg): Text {
    if a.Raw? && a.w < |env| then env[a.w] else []
  }

  /** Intern the environment symbols of `code` in `small`. */
  function CollectEnv(glob: Dict, env: seq<Text>, code: seq<Cell>, small: seq<Text>): seq<Text>
    decreases code
  {
    if code == [] then small
    else CollectEnv(glob, env, code[1..],
                    if TypeIn(glob, code[0].stub) == ENVSYM_ARG then Intern(small, Symbol(env, code[0].arg)) else small)
  }

  /** The argument as it is written. An environment index without a symbol has no name, and the index of no name is
      all ones; the index 0, of a symbol with an empty name, is fatal. */
  function PackArg(strings: seq<Text>, env: seq<Text>, small: seq<Text>, ty: nat, a: Arg): Option<nat> {
    if ty == ENVSYM_ARG then
      var i := if a.Raw? && a.w < |env| then IndexWord(small, env[a.w]) else NOT_FOUND;
      if i == 0 then None else Some(i)
    else if ty == STRING_ARG && a.Ptr? then Some(IndexWord(strings, a.t))
    else if a.Raw? then Some(a.w)
    else None
  }

  function PackCode(d: Dict, strings: seq<Text>, env: seq<Text>, small: seq<Text>, code: seq<Cell>): Option<seq<(nat, nat)>> {
    if code == [] then Some([])
    else
      var wc := if code[0].stub in d.code then d.code[code[0].stub] else 0;
      var a :- PackArg(strings, env, small, WcType(wc), code[0].arg);
      var rest :- PackCode(d, strings, env, small, code[1..]);
      Some([(wc, a)] + rest)
  }

  function PackData(strings: seq<Text>, data: seq<Datum>): Option<seq<(nat, nat)>> {
    if data == [] then Some([])
    else if data[0].kind == ENVSYM_ARG then None
    else
      var a :- PackArg(strings, [], [], data[0].kind, data[0].arg);
      var rest :- PackData(strings, data[1..]);
      Some([(data[0].kind, a)] + rest)
  }

  function PackLabels(labels: seq<Text>, offsets: seq<nat>): (ls: seq<(Text, nat)>)
    requires |labels| == |offsets|
    ensures |ls| == |labels|
  {
    seq(|labels|, i requires 0 <= i < |labels| => (labels[i], offsets[i]))
  }

  /** The compact form of `p`: its opcodes, symbols and strings renumbered. */
  function Compact(glob: Dict, env: seq<Text>, p: Image): Option<File>
    requires (forall s | s in Stubs(p.code) :: Known(glob, s)) && |p.labels| == |p.offsets| > 0
  {
    var d := Optimized(glob, Stubs(p.code));
    var small := CollectEnv(glob, env, p.code, Empty);
    var code :- PackCode(d, p.strings, env, small, p.code);
    var data :- PackData(p.strings, p.data);
    Some(File(p.libs, p.reqs, small, p.strings, Rows(d), PackLabels(p.labels, p.offsets)[1..], code, data))
  }

  // --------------------------------------------------------------- loading

  /** The argument as it is in memory; a symbol that resolves to index 0 is fatal. */
  function UnpackArg(strings: seq<Text>, env: seq<Text>, small: seq<Text>, ty: nat, w: nat): Option<Arg> {
    if ty == ENVSYM_ARG then
      var i := if w < |small| then IndexWord(env, small[w]) else NOT_FOUND;
      if i == 0 then None else Some(Raw(i))
    else if ty == STRING_ARG then Some(if w < |strings| then Ptr(strings[w]) else Raw(0))
    else Some(Raw(w))
  }

  function UnpackCode(d: Dict, strings: seq<Text>, env: seq<Text>, small: seq<Text>, ps: seq<(nat, nat)>): Option<seq<Cell>>
    requires Shaped(d)
  {
    if ps == [] then Some([])
    else if WcType(ps[0].0) >= TYPES then None
    else
      var a :- UnpackArg(strings, env, small, WcType(ps[0].0), ps[0].1);
      var rest :- UnpackCode(d, strings, env, small, ps[1..]);
      Some([Cell(StubByCode(d, ps[0].0), a)] + rest)
  }

  function UnpackData(strings: seq<Text>, ps: seq<(nat, nat)>): Option<seq<Datum>> {
    if ps == [] then Some([])
    else if ps[0].0 == ENVSYM_ARG then None
    else
      var a :- UnpackArg(strings, [], [], ps[0].0, ps[0].1);
      var rest :- UnpackData(strings, ps[1..]);
      Some([Datum(ps[0].0, a)] + rest)
  }

  /** The program that a file loads as, on a machine with its own stubs and environment. */
  function Load(resolve: (nat, Text) -> nat, env: seq<Text>, f: File): Option<Image>
    requires |f.dict| == TYPES && f.libs != [] && f.reqs != [] && f.env != [] && f.strings != []
  {
    var d := LoadRows(NoOpcodes, 0, f.dict, resolve);
    var strings := InternAll(Empty, f.strings[1..]);
    var ls := AddLabels(Empty, [0], f.labels);
    var code :- UnpackCode(d, strings, env, InternAll(Empty, f.env[1..]), f.code);
    var data :- UnpackData(strings, f.data);
    Some(Image(InternAll(Empty, f.libs[1..]), InternAll(Empty, f.reqs[1..]), strings, ls.0, ls.1, code, data))
  }

  // ------------------------------------------------------------ round trip

  /** The same argument in another environment: a symbol keeps its name, not its index. */
  function Moved(env: seq<Text>, env': seq<Text>, ty: nat, a: Arg): Arg {
    if ty == ENVSYM_ARG then Raw(IndexWord(env', Symbol(env, a))) else a
  }

  function MovedCode(glob: Dict, env: seq<Text>, env': seq<Text>, code: seq<Cell>): seq<Cell> {
    seq(|code|, i requires 0 <= i < |code| =>
      Cell(code[i].stub, Moved(env, env', TypeIn(glob, code[i].stub), code[i].arg)))
  }

  /** Arguments are what the assembler makes: symbols exist and are not empty, strings are interned. */
  ghost predicate Typed(strings: seq<Text>, env: seq<Text>, ty: nat, a: Arg) {
    if ty == ENVSYM_ARG then a.Raw? && 0 < a.w < |env| && env[a.w] != []
    else if ty == STRING_ARG then a.Ptr? && a.t in strings
    else a.Raw? && a.w < WORD
  }

  ghost predicate Savable(glob: Dict, env: seq<Text>, p: Image) {
    && Consistent(glob)
    && |p.code| <= OP_LIMIT
    && (forall c | c in p.code :: c.stub in glob.code && Typed(p.strings, env, TypeIn(glob, c.stub), c.arg))
    && (forall x | x in p.data :: x.kind < WORD && x.kind != ENVSYM_ARG && Typed(p.strings, [], x.kind, x.arg))
    && Proper(p.libs) && Proper(p.reqs) && Proper(p.strings) && Proper(p.labels)
    && |p.offsets| == |p.labels| && p.offsets[0] == 0
  }

  /** A word, a text in a proper table and a symbol come back as they were, or under their new index. */
  lemma ArgRoundTrip(strings: seq<Text>, env: seq<Text>, env': seq<Text>, small: seq<Text>, ty: nat, a: Arg)
    requires Typed(strings, env, ty, a) && Proper(small) && Proper(env') && |strings| < WORD && |small| < WORD
    requires ty == ENVSYM_ARG ==> Symbol(env, a) in small
    ensures PackArg(strings, env, small, ty, a).Some? && PackArg(strings, env, small, ty, a).value < WORD
    ensures UnpackArg(strings, env', small, ty, PackArg(strings, env, small, ty, a).value) == Some(Moved(env, env', ty, a))
  {
    if ty == ENVSYM_ARG {
      var name := Symbol(env, a);
      assert LastIndex(small, name).Some? && small[LastIndex(small, name).value] == name;
      assert LastIndex(env', name) != Some(0);
    }
  }

  /** The small environment holds every symbol that the code uses. */
  lemma {:induction false} CollectEnvHolds(glob: Dict, env: seq<Text>, code: seq<Cell>, small: seq<Text>)
    requires Proper(small)
    ensures var r := CollectEnv(glob, env, code, small);
            && Proper(r) && small <= r && |r| <= |small| + |code|
            && forall c | c in code && TypeIn(glob, c.stub) == ENVSYM_ARG :: Symbol(env, c.arg) in r
    decreases code
  {
    if code != [] {
      var small' := if TypeIn(glob, code[0].stub) == ENVSYM_ARG then Intern(small, Symbol(env, code[0].arg)) else small;
      InternKeeps(small, Symbol(env, code[0].arg));
      CollectEnvHolds(glob, env, code[1..], small');
      var r := CollectEnv(glob, env, code, small);
      forall c | c in code && TypeIn(glob, c.stub) == ENVSYM_ARG ensures Symbol(env, c.arg) in r {
        if c == code[0] { assert Symbol(env, c.arg) in small'; } else { assert c in code[1..]; }
      }
    }
  }

  /** What the renumbering of code relies on. */
  ghost predicate Coded(glob: Dict, d: Dict, strings: seq<Text>, env: seq<Text>, small: seq<Text>, c: Cell)
    requires Shaped(d)
  {
    && c.stub in d.code && WcType(d.code[c.stub]) == TypeIn(glob, c.stub) < TYPES && StubByCode(d, d.code[c.stub]) == c.stub
    && d.code[c.stub] < WORD
    && Typed(strings, env, TypeIn(glob, c.stub), c.arg)
    && (TypeIn(glob, c.stub) == ENVSYM_ARG ==> Symbol(env, c.arg) in small)
  }

  lemma SameArrays(d: Dict, d': Dict, wc: nat)
    requires Shaped(d) && Shaped(d') && d.arrays == d'.arrays && WcType(wc) < TYPES
    ensures StubByCode(d, wc) == StubByCode(d', wc)
  {
  }

  lemma {:induction false} CodeComesBack(glob: Dict, d: Dict, d': Dict, strings: seq<Text>, env: seq<Text>, env': seq<Text>,
                                         small: seq<Text>, code: seq<Cell>)
    requires Shaped(d) && Shaped(d') && d.arrays == d'.arrays
    requires Proper(small) && Proper(env') && |strings| < WORD && |small| < WORD
    requires forall c | c in code :: Coded(glob, d, strings, env, small, c)
    ensures var ps := PackCode(d, strings, env, small, code);
            && ps.Some? && |ps.value| == |code| && (forall x | x in ps.value :: x.0 < WORD && x.1 < WORD)
            && UnpackCode(d', strings, env', small, ps.value) == Some(MovedCode(glob, env, env', code))
  {
    hide PackArg, UnpackArg, Moved, Typed, WcType, StubByCode, Symbol, TypeIn;
    if code == [] {
      assert MovedCode(glob, env, env', code) == [];
    } else {
      var c := code[0];
      assert Coded(glob, d, strings, env, small, c);
      ArgRoundTrip(strings, env, env', small, TypeIn(glob, c.stub), c.arg);
      SameArrays(d, d', d.code[c.stub]);
      CodeComesBack(glob, d, d', strings, env, env', small, code[1..]);
      assert MovedCode(glob, env, env', code)
          == [Cell(c.stub, Moved(env, env', TypeIn(glob, c.stub), c.arg))] + MovedCode(glob, env, env', code[1..]);
    }
  }

  lemma {:induction false} DataComesBack(strings: seq<Text>, data: seq<Datum>)
    requires |strings| < WORD
    requires forall x | x in data :: x.kind < WORD && x.kind != ENVSYM_ARG && Typed(strings, [], x.kind, x.arg)
    ensures var ps := PackData(strings, data);
            && ps.Some? && |ps.value| == |data| && (forall x | x in ps.value :: x.0 < WORD && x.1 < WORD)
            && UnpackData(strings, ps.value) == Some(data)
  {
    hide PackArg, UnpackArg, Typed;
    if data != [] {
      var x := data[0];
      assert x in data;
      PlainArgRoundTrip(strings, x.kind, x.arg);
      DataComesBack(strings, data[1..]);
      assert data == [x] + data[1..];
    }
  }

  lemma PlainArgRoundTrip(strings: seq<Text>, ty: nat, a: Arg)
    requires ty != ENVSYM_ARG && Typed(strings, [], ty, a) && |strings| < WORD
    ensures PackArg(strings, [], [], ty, a).Some? && PackArg(strings, [], [], ty, a).value < WORD
    ensures UnpackArg(strings, [], [], ty, PackArg(strings, [], [], ty, a).value) == Some(a)
  {
    ArgRoundTrip(strings, [], Empty, Empty, ty, a);
  }

  /** Entering the labels of a proper table in index order gives the same labels and offsets. */
  lemma {:induction false} LabelsComeBack(labels: seq<Text>, offsets: seq<nat>, k: nat)
    requires Proper(labels) && |offsets| == |labels| && 0 < k <= |labels| < WORD
    ensures AddLabels(labels[..k], offsets[..k], PackLabels(labels, offsets)[k..]) == (labels, offsets)
    decreases |labels| - k
  {
    if k == |labels| {
      assert labels[..k] == labels && offsets[..k] == offsets;
    } else {
      var more := PackLabels(labels, offsets)[k..];
      assert more[0] == (labels[k], offsets[k]) && more[1..] == PackLabels(labels, offsets)[k + 1..];
      assert Proper(labels[..k]) && labels[k] !in labels[..k][1..];
      InternAddsIff(labels[..k], labels[k]);
      assert labels[..k] + [labels[k]] == labels[..k + 1] && offsets[..k] + [] + [offsets[k]] == offsets[..k + 1];
      OneIndex(labels[..k + 1], k);
      LabelsComeBack(labels, offsets, k + 1);
    }
  }

  /** The texts are printable, and the numbers are words. */
  ghost predicate Printed(env: seq<Text>, p: Image, glob: Dict) {
    && PrintableAll(p.libs) && PrintableAll(p.reqs) && PrintableAll(p.strings) && PrintableAll(p.labels) && PrintableAll(env)
    && (forall s | s in glob.name :: Printable(glob.name[s]))
    && (forall o | o in p.offsets :: o < WORD) && |p.data| < WORD / 4
  }

  lemma SavableCode(glob: Dict, env: seq<Text>, p: Image)
    requires Savable(glob, env, p) && |p.strings| < WORD
    ensures (forall s | s in Stubs(p.code) :: Known(glob, s)) && Extract(glob, Optimized(glob, Stubs(p.code)))
    ensures var d := Optimized(glob, Stubs(p.code));
            var small := CollectEnv(glob, env, p.code, Empty);
            && Proper(small) && |small| <= 1 + |p.code| && Roomy(d, 0)
            && forall c | c in p.code :: Coded(glob, d, p.strings, env, small, c)
  {
    hide Extract, Consistent, StubByCode, Typed, CollectEnv, Proper;
    var stubs := Stubs(p.code);
    forall s | s in stubs ensures s in glob.code {
      var i :| 0 <= i < |stubs| && stubs[i] == s;
      assert p.code[i] in p.code;
    }
    OptimizedExtract(glob, stubs);
    StartsProper();
    CollectEnvHolds(glob, env, p.code, Empty);
    var d := Optimized(glob, stubs);
    forall c | c in p.code ensures Coded(glob, d, p.strings, env, CollectEnv(glob, env, p.code, Empty), c) {
      var i :| 0 <= i < |p.code| && p.code[i] == c;
      assert stubs[i] == c.stub;
      CodeUnpacks(glob, d, c.stub);
    }
  }

  lemma StartsProper()
    ensures Proper(Empty)
  {
  }

  /** The program as it is on the loading machine. */
  function MovedTo(glob: Dict, env: seq<Text>, env': seq<Text>, p: Image): Image {
    p.(code := MovedCode(glob, env, env', p.code))
  }

  /** Stubs go by the same names on the loading machine. */
  ghost predicate Resolves(glob: Dict, resolve: (nat, Text) -> nat, p: Image) {
    forall s | s in Stubs(p.code) :: Known(glob, s) && resolve(TypeOf(glob, s), glob.name[s]) == s
  }

  lemma RebuildTable(ts: seq<Text>)
    requires Proper(ts)
    ensures InternAll(Empty, ts[1..]) == ts
  {
    RebuildIff(ts);
  }

  /** Loading the compact form of a program gives the program back: the same opcodes in order, the same
      arguments up to the index of environment symbols, the same labels, data, library and require tables. */
  lemma LoadCompact(glob: Dict, env: seq<Text>, env': seq<Text>, p: Image, resolve: (nat, Text) -> nat)
    requires Savable(glob, env, p) && Proper(env') && Resolves(glob, resolve, p)
    requires |p.strings| < WORD && |p.labels| < WORD
    ensures var f := Compact(glob, env, p);
            && f.Some? && |f.value.dict| == TYPES
            && f.value.libs != [] && f.value.reqs != [] && f.value.env != [] && f.value.strings != []
            && Load(resolve, env', f.value) == Some(MovedTo(glob, env, env', p))
  {
    hide Known, Consistent, Coded, Extract, Roomy, CollectEnv, Optimized, LoadRows, PackCode, UnpackCode, PackData, UnpackData,
         AddLabels, InternAll, Typed, MovedCode;
    SavableCode(glob, env, p);
    var d := Optimized(glob, Stubs(p.code));
    var small := CollectEnv(glob, env, p.code, Empty);
    CodeStubs(glob, p.code);
    ReloadSame(glob, Stubs(p.code), resolve);
    var d' := LoadRows(NoOpcodes, 0, Rows(d), resolve);
    CodeComesBack(glob, d, d', p.strings, env, env', small, p.code);
    DataComesBack(p.strings, p.data);
    RebuildTable(p.libs);
    RebuildTable(p.reqs);
    RebuildTable(p.strings);
    RebuildTable(small);
    LabelsComeBack(p.labels, p.offsets, 1);
    assert p.labels[..1] == Empty && p.offsets[..1] == [0];
  }

  lemma CodeStubs(glob: Dict, code: seq<Cell>)
    requires forall c | c in code :: c.stub in glob.code
    ensures forall s | s in Stubs(code) :: s in glob.code
  {
    forall s | s in Stubs(code) ensures s in glob.code {
      var i :| 0 <= i < |code| && Stubs(code)[i] == s;
      assert code[i] in code;
    }
  }

  /** Saved and loaded on the same machine, a program is exactly as it was. */
  lemma SameMachine(glob: Dict, env: seq<Text>, p: Image)
    requires Savable(glob, env, p) && Proper(env)
    ensures MovedTo(glob, env, env, p) == p
  {
    forall i | 0 <= i < |p.code| ensures Moved(env, env, TypeIn(glob, p.code[i].stub), p.code[i].arg) == p.code[i].arg {
      assert p.code[i] in p.code;
      if TypeIn(glob, p.code[i].stub) == ENVSYM_ARG {
        OneIndex(env, p.code[i].arg.w);
      }
    }
    assert MovedCode(glob, env, env, p.code) == p.code;
  }

  /** A symbol is found on the loading machine exactly when its environment has it; otherwise the argument is all ones. */
  lemma SymbolFoundIff(env: seq<Text>, env': seq<Text>, a: Arg)
    requires Proper(env') && |env'| < WORD && Symbol(env, a) != []
    ensures var i := Moved(env, env', ENVSYM_ARG, a).w;
            (Symbol(env, a) in env' <==> i < |env'| && env'[i] == Symbol(env, a)) && (Symbol(env, a) !in env' <==> i == NOT_FOUND)
  {
    if Symbol(env, a) in env' {
      assert LastIndex(env', Symbol(env, a)).Some?;
    }
  }

  // -------------------------------------------------- over the byte stream

  lemma {:induction false} CollectEnvPrintable(glob: Dict, env: seq<Text>, code: seq<Cell>, small: seq<Text>)
    requires (forall t | t in small :: Printable(t)) && (forall t | t in env :: Printable(t))
    ensures forall t | t in CollectEnv(glob, env, code, small) :: Printable(t)
    decreases code
  {
    if code != [] {
      var t := Symbol(env, code[0].arg);
      assert t == [] || t in env;
      CollectEnvPrintable(glob, env, code[1..], if TypeIn(glob, code[0].stub) == ENVSYM_ARG then Intern(small, t) else small);
    }
  }

  lemma RowsPrintable(glob: Dict, d: Dict)
    requires Extract(glob, d) && Shaped(d) && Roomy(d, 0) && forall s | s in glob.name :: Printable(glob.name[s])
    ensures forall r | r in Rows(d) :: PrintableAll(r)
  {
    forall t | 0 <= t < TYPES ensures PrintableAll(RowNames(d, t)) {
      forall j | 0 <= j < |d.arrays[t]| ensures Printable(NameOf(d, d.arrays[t][j])) {
        CellTaken(glob, d, t, j);
        assert Stands(glob, d, d.arrays[t][j]);
      }
    }
  }

  lemma LabelsPrintable(labels: seq<Text>, offsets: seq<nat>)
    requires |labels| == |offsets| > 0 && PrintableAll(labels) && forall o | o in offsets :: o < WORD
    ensures LabelsAll(PackLabels(labels, offsets)[1..])
  {
    var ls := PackLabels(labels, offsets);
    forall l | l in ls[1..] ensures Printable(l.0) && l.1 < WORD {
      assert l in ls;
      var i :| 0 <= i < |ls| && ls[i] == l;
      assert l.0 in labels && l.1 in offsets;
    }
  }

  /** The compact form of a printable program can be written and read. */
  lemma CompactStorable(glob: Dict, env: seq<Text>, p: Image)
    requires Savable(glob, env, p) && Printed(env, p, glob)
    ensures (forall s | s in Stubs(p.code) :: Known(glob, s)) && Compact(glob, env, p).Some? && Storable(Compact(glob, env, p).value)
  {
    hide Known, Consistent, Coded, Extract, Roomy, CollectEnv, Optimized, PackCode, PackData, Typed, Rows, Printable, PackLabels;
    SavableCode(glob, env, p);
    var d := Optimized(glob, Stubs(p.code));
    var small := CollectEnv(glob, env, p.code, Empty);
    StartsProper();
    CodeComesBack(glob, d, d, p.strings, env, Empty, small, p.code);
    DataComesBack(p.strings, p.data);
    EmptyPrintable();
    CollectEnvPrintable(glob, env, p.code, Empty);
    RowsPrintable(glob, d);
    LabelsPrintable(p.labels, p.offsets);
    RowsCount(d);
  }

  lemma RowsCount(d: Dict)
    requires Shaped(d)
    ensures |Rows(d)| == TYPES
  {
  }

  lemma EmptyPrintable()
    ensures forall t | t in Empty :: Printable(t)
  {
  }

  /** The program that a byte stream loads as. */
  function LoadBytes(resolve: (nat, Text) -> nat, env: seq<Text>, s: seq<byte>): Option<Image> {
    var f :- GetFile(s);
    if |f.0.dict| == TYPES && f.0.libs != [] && f.0.reqs != [] && f.0.env != [] && f.0.strings != []
    then Load(resolve, env, f.0) else None
  }

  /** Saving a program and loading it gives the program back. */
  lemma SaveThenLoad(glob: Dict, env: seq<Text>, env': seq<Text>, p: Image, resolve: (nat, Text) -> nat, rest: seq<byte>)
    requires Savable(glob, env, p) && Printed(env, p, glob) && Proper(env') && Resolves(glob, resolve, p)
    ensures (forall s | s in Stubs(p.code) :: Known(glob, s)) && Compact(glob, env, p).Some?
    ensures LoadBytes(resolve, env', PutFile(Compact(glob, env, p).value, rest)) == Some(MovedTo(glob, env, env', p))
    ensures env' == env ==> LoadBytes(resolve, env', PutFile(Compact(glob, env, p).value, rest)) == Some(p)
  {
    hide Known, Consistent, GetFile, PutFile, Load, MovedTo;
    CompactStorable(glob, env, p);
    FileRoundTrip(Compact(glob, env, p).value, rest);
    LoadCompact(glob, env, env', p, resolve);
    if env' == env { SameMachine(glob, env, p); }
  }
}
