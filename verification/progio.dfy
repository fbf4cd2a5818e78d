/** Programs and opcode dictionaries as objects, saved to a writer and loaded from a reader. */
module ProgramIO {
  import opened Options
  import opened Words
  import opened TextSegs
  import opened ByteIO
  import opened OpcodeDicts
  import opened ProgramFile
  import opened ProgramImage
  import HashTab

  class OpcodeDict {
    var stubByIndex: seq<seq<nat>>
    var stubByName: seq<map<Text, nat>>
    var wordcodeByStub: map<nat, nat>
    var nameByStub: map<nat, Text>

    function Value(): Dict
      reads this
    {
      Dict(stubByIndex, stubByName, wordcodeByStub, nameByStub)
    }

    constructor ()
      ensures Value() == NoOpcodes
    {
      stubByIndex := [[], [], [], [], [], [], [], []];
      stubByName := [map[], map[], map[], map[], map[], map[], map[], map[]];
      wordcodeByStub, nameByStub := map[], map[];
    }

    /** Enter a stub, unless it is null or its name and type are taken. */
    method AddOpcode(t: nat, name: Text, stub: nat)
      requires Shaped(Value()) && t < TYPES
      modifies this
      ensures Value() == Add(old(Value()), t, name, stub)
    {
      var ofs := |stubByIndex[t]|;
      if stub == 0 {
        return;
      }
      if name in stubByName[t] {
        return;
      }
      var names: map<Text, nat> := stubByName[t][name := stub];
      stubByName := stubByName[t := names];
      wordcodeByStub := wordcodeByStub[stub := MakeWc(t, ofs)];
      nameByStub := nameByStub[stub := name];
      stubByIndex := stubByIndex[t := stubByIndex[t] + [stub]];
    }

    /** Enter the opcodes of `code`, as `glob` knows them, in this new dictionary. */
    method Optimize(glob: OpcodeDict, code: seq<Cell>)
      requires glob != this && Value() == NoOpcodes && forall s | s in Stubs(code) :: Known(glob.Value(), s)
      modifies this
      ensures Value() == Optimized(glob.Value(), Stubs(code))
    {
      var i := 0;
      ghost var stubs := Stubs(code);
      while i < |code|
        invariant i <= |code| && Shaped(Value())
        invariant forall s | s in stubs[i..] :: Known(glob.Value(), s)
        invariant Collect(glob.Value(), Value(), stubs[i..]) == Optimized(glob.Value(), stubs)
      {
        assert stubs[i..][0] == code[i].stub && stubs[i..][1..] == stubs[i + 1..];
        assert code[i].stub in stubs[i..];
        var stub := code[i].stub;
        AddOpcode(WcType(glob.wordcodeByStub[stub]), glob.nameByStub[stub], stub);
        i := i + 1;
      }
    }
  }

  // --------------------------------------------------------------- writing

  /** Write a word; `tail` is what is written after it. */
  method EmitWord(w: FileWriter, x: nat, ghost tail: seq<byte>)
    modifies w
    ensures w.out + tail == old(w.out) + Word(x, tail)
  {
    w.WriteWord(x);
  }

  method EmitString(w: FileWriter, t: Text, ghost tail: seq<byte>)
    modifies w
    ensures w.out + tail == old(w.out) + Str(t, tail)
  {
    w.WriteString(t);
  }

  method EmitRecords(w: FileWriter, ts: seq<Text>, ghost tail: seq<byte>)
    modifies w
    ensures w.out + tail == old(w.out) + PutRecords(ts, tail)
  {
    hide Word, Str;
    var i := 0;
    while i < |ts|
      invariant i <= |ts| && w.out + PutRecords(ts[i..], tail) == old(w.out) + PutRecords(ts, tail)
    {
      assert ts[i..][1..] == ts[i + 1..];
      ghost var more := PutRecords(ts[i + 1..], tail);
      EmitWord(w, 1 + |ts[i]|, Str(ts[i], more));
      EmitString(w, ts[i], more);
      i := i + 1;
    }
  }

  method EmitTable(w: FileWriter, ts: seq<Text>, ghost tail: seq<byte>)
    modifies w
    ensures w.out + tail == old(w.out) + PutTable(ts, tail)
  {
    hide Word;
    EmitWord(w, |ts|, PutRecords(ts, Word(END, tail)));
    EmitRecords(w, ts, Word(END, tail));
    EmitWord(w, END, tail);
  }

  /** Write a string table under its name. */
  method EmitSection(w: FileWriter, name: Text, seg: TextSeg, ghost tail: seq<byte>)
    modifies w
    ensures w.out + tail == old(w.out) + PutSection(name, seg.byIndex, tail)
  {
    hide Str, PutTable;
    EmitString(w, name, PutTable(seg.byIndex, tail));
    EmitTable(w, seg.byIndex, tail);
  }

  /** Write the names of all opcodes, type by type, in index order. */
  method EmitDict(w: FileWriter, od: OpcodeDict, ghost tail: seq<byte>)
    requires Shaped(od.Value())
    modifies w
    ensures w.out + tail == old(w.out) + PutDict(Rows(od.Value()), tail)
  {
    hide Word, Str, PutTable, Ascii;
    ghost var rows := Rows(od.Value());
    EmitString(w, DIC, Word(TYPES, PutRows(rows, tail)));
    EmitWord(w, TYPES, PutRows(rows, tail));
    var i := 0;
    while i < TYPES
      invariant i <= TYPES && w.out + PutRows(rows[i..], tail) == old(w.out) + PutDict(rows, tail)
    {
      assert rows[i..][1..] == rows[i + 1..];
      var names := RowNames(od.Value(), i);
      EmitTable(w, names, PutRows(rows[i + 1..], tail));
      i := i + 1;
    }
  }

  method EmitLabels(w: FileWriter, labels: TextSeg, offsets: seq<nat>, ghost tail: seq<byte>)
    requires |labels.byIndex| == |offsets| > 0
    modifies w
    ensures w.out + tail == old(w.out) + PutLabels(PackLabels(labels.byIndex, offsets)[1..], tail)
  {
    hide Word, Str, Ascii;
    ghost var ls := PackLabels(labels.byIndex, offsets);
    ghost var end := Word(END, tail);
    EmitString(w, LABELS, Word(|offsets|, PutLabelRecords(ls[1..], end)));
    EmitWord(w, |offsets|, PutLabelRecords(ls[1..], end));
    var i := 1;
    while i < |offsets|
      invariant 1 <= i <= |offsets|
      invariant w.out + PutLabelRecords(ls[i..], end) == old(w.out) + PutLabels(ls[1..], tail)
    {
      assert ls[i..][1..] == ls[i + 1..] && ls[i..][0] == (labels.byIndex[i], offsets[i]);
      ghost var more := PutLabelRecords(ls[i + 1..], end);
      var lbl := labels.byIndex[i];
      EmitWord(w, |lbl|, Str(lbl, Word(offsets[i], more)));
      EmitString(w, lbl, Word(offsets[i], more));
      EmitWord(w, offsets[i], more);
      i := i + 1;
    }
    EmitWord(w, END, tail);
  }

  /** Renumber an argument; false for a symbol that the small environment does not have. */
  method PackArgument(strings: TextSeg, env: TextSeg, small: TextSeg, ty: nat, a: Arg) returns (r: Option<nat>)
    requires strings.Valid() && small.Valid()
    ensures r == PackArg(strings.byIndex, env.byIndex, small.byIndex, ty, a)
  {
    if ty == ENVSYM_ARG {
      if a.Ptr? {
        return Some(NOT_FOUND);
      }
      var name := env.FindByIndex(a.w);
      if name == None {
        return Some(NOT_FOUND);
      }
      var i := small.TextToIndex(name.value);
      return if i == 0 then None else Some(i);
    } else if ty == STRING_ARG && a.Ptr? {
      var i := strings.TextToIndex(a.t);
      return Some(i);
    }
    return if a.Raw? then Some(a.w) else None;
  }

  method EmitCode(w: FileWriter, code: seq<Cell>, od: OpcodeDict, strings: TextSeg, env: TextSeg, small: TextSeg,
                  ghost tail: seq<byte>) returns (ok: bool)
    requires strings.Valid() && small.Valid() && |code| < WORD
    modifies w
    ensures var ps := PackCode(od.Value(), strings.byIndex, env.byIndex, small.byIndex, code);
            (ok <==> ps.Some?) && (ok ==> w.out + tail == old(w.out) + PutCode(ps.value, tail))
  {
    hide Word, Str, Ascii, PackArg;
    ghost var d, t, e, m := od.Value(), strings.byIndex, env.byIndex, small.byIndex;
    ghost var all, end := PackCode(d, t, e, m, code), Word(END, tail);
    PackCodeSize(d, t, e, m, code);
    ghost var pairs := if all.Some? then PutPairs(all.value, end) else [];
    EmitString(w, CODE, Word(2 * |code|, pairs));
    EmitWord(w, 2 * |code|, pairs);
    var i := 0;
    while i < |code|
      invariant i <= |code| && (all.Some? <==> PackCode(d, t, e, m, code[i..]).Some?)
      invariant all.Some? ==> w.out + PutPairs(PackCode(d, t, e, m, code[i..]).value, end) == old(w.out) + PutCode(all.value, tail)
    {
      assert code[i..][1..] == code[i + 1..];
      var stub := code[i].stub;
      var op := if stub in od.wordcodeByStub then od.wordcodeByStub[stub] else 0;
      var arg := PackArgument(strings, env, small, WcType(op), code[i].arg);
      if arg == None {
        return false;
      }
      ghost var rest := PackCode(d, t, e, m, code[i + 1..]);
      ghost var more := if rest.Some? then PutPairs(rest.value, end) else [];
      EmitWord(w, op, Word(arg.value, more));
      EmitWord(w, arg.value, more);
      i := i + 1;
    }
    EmitWord(w, END, tail);
    return true;
  }

  lemma {:induction false} PackCodeSize(d: Dict, strings: seq<Text>, env: seq<Text>, small: seq<Text>, code: seq<Cell>)
    ensures var ps := PackCode(d, strings, env, small, code); ps.Some? ==> |ps.value| == |code|
  {
    if code != [] { PackCodeSize(d, strings, env, small, code[1..]); }
  }

  method EmitData(w: FileWriter, data: seq<Datum>, strings: TextSeg, ghost tail: seq<byte>) returns (ok: bool)
    requires strings.Valid()
    modifies w
    ensures var ps := PackData(strings.byIndex, data);
            (ok <==> ps.Some?) && (ok ==> w.out + tail == old(w.out) + PutData(ps.value, tail))
  {
    hide Word, Str, Ascii;
    ghost var t := strings.byIndex;
    ghost var all := PackData(t, data);
    PackDataSize(t, data);
    ghost var pairs := if all.Some? then PutPairs(all.value, tail) else [];
    EmitString(w, DATA, Word(2 * |data|, pairs));
    EmitWord(w, 2 * |data|, pairs);
    var i := 0;
    while i < |data|
      invariant i <= |data| && (all.Some? <==> PackData(t, data[i..]).Some?)
      invariant all.Some? ==> w.out + PutPairs(PackData(t, data[i..]).value, tail) == old(w.out) + PutData(all.value, tail)
    {
      assert data[i..][1..] == data[i + 1..];
      var kind, a := data[i].kind, data[i].arg;
      if kind == ENVSYM_ARG || (a.Ptr? && kind != STRING_ARG) {
        return false;
      }
      var arg;
      if a.Ptr? {
        arg := strings.TextToIndex(a.t);
      } else {
        arg := a.w;
      }
      ghost var rest := PackData(t, data[i + 1..]);
      ghost var more := if rest.Some? then PutPairs(rest.value, tail) else [];
      EmitWord(w, kind, Word(arg, more));
      EmitWord(w, arg, more);
      i := i + 1;
    }
    return true;
  }

  lemma {:induction false} PackDataSize(strings: seq<Text>, data: seq<Datum>)
    ensures var ps := PackData(strings, data); ps.Some? ==> |ps.value| == |data|
  {
    if data != [] { PackDataSize(strings, data[1..]); }
  }

  // --------------------------------------------------------- the program

  class Program {
    const loadlibs: TextSeg
    const requires_: TextSeg
    const strings: TextSeg
    const labels: TextSeg
    var offsets: seq<nat>
    var code: seq<Cell>
    var data: seq<Datum>

    constructor (hash: Text -> nat)
      requires forall s :: hash(s) < HashTab.HASH_SIZE
      ensures Valid() && Value() == Image(Empty, Empty, Empty, Empty, [0], [], [])
      ensures fresh(Parts())
    {
      var a := new TextSeg(hash);
      var b := new TextSeg(hash);
      var c := new TextSeg(hash);
      var d := new TextSeg(hash);
      loadlibs, requires_, strings, labels := a, b, c, d;
      offsets, code, data := [0], [], [];
    }

    /** Everything that the tables of the program are made of. */
    ghost function Parts(): set<object> {
      {loadlibs, loadlibs.byText, loadlibs.byText.buckets, requires_, requires_.byText, requires_.byText.buckets,
       strings, strings.byText, strings.byText.buckets, labels, labels.byText, labels.byText.buckets}
    }

    ghost predicate Valid()
      reads this, Parts()
    {
      && loadlibs.Valid() && requires_.Valid() && strings.Valid() && labels.Valid()
      && Apart(loadlibs, requires_) && Apart(loadlibs, strings) && Apart(loadlibs, labels)
      && Apart(requires_, strings) && Apart(requires_, labels) && Apart(strings, labels)
    }

    ghost function Value(): Image
      reads this, loadlibs, requires_, strings, labels
    {
      Image(loadlibs.byIndex, requires_.byIndex, strings.byIndex, labels.byIndex, offsets, code, data)
    }

    /** The small environment of the symbols that the code uses. */
    method OptimizeEnv(glob: OpcodeDict, env: TextSeg, hash: Text -> nat) returns (small: TextSeg)
      requires forall s :: hash(s) < HashTab.HASH_SIZE
      ensures fresh(small) && small.Valid() && small.byIndex == CollectEnv(glob.Value(), env.byIndex, code, Empty)
    {
      small := new TextSeg(hash);
      var i := 0;
      while i < |code|
        invariant i <= |code| && small.Valid() && fresh(small) && fresh(small.byText.buckets)
        invariant CollectEnv(glob.Value(), env.byIndex, code[i..], small.byIndex)
               == CollectEnv(glob.Value(), env.byIndex, code, Empty)
      {
        assert code[i..][1..] == code[i + 1..];
        var stub := code[i].stub;
        if stub in glob.wordcodeByStub && WcType(glob.wordcodeByStub[stub]) == ENVSYM_ARG {
          var _ := small.FindByText(Symbol(env.byIndex, code[i].arg));
        }
        i := i + 1;
      }
    }

    /** Write the program in its compact form, headed by the format's name; false if it refers to what it cannot save. */
    /** Write the header and the string tables, before `rest`. */
    method EmitTables(w: FileWriter, small: TextSeg, ghost rest: seq<byte>)
      requires Valid() && small.Valid()
      modifies w
      ensures w.out + rest == old(w.out) + PutHeader(PutSection(LIB, loadlibs.byIndex, PutSection(REQ, requires_.byIndex,
                                             PutSection(ENV, small.byIndex, PutSection(STRINGS, strings.byIndex, rest)))))
    {
      hide Word, Str, Ascii, PutSection;
      ghost var s := PutSection(STRINGS, strings.byIndex, rest);
      ghost var e := PutSection(ENV, small.byIndex, s);
      ghost var r := PutSection(REQ, requires_.byIndex, e);
      ghost var b := PutSection(LIB, loadlibs.byIndex, r);
      EmitString(w, SHEBANG, Word(ENDIAN_TEST, b));
      EmitWord(w, ENDIAN_TEST, b);
      EmitSection(w, LIB, loadlibs, r);
      EmitSection(w, REQ, requires_, e);
      EmitSection(w, ENV, small, s);
      EmitSection(w, STRINGS, strings, rest);
    }

    method Save(glob: OpcodeDict, env: TextSeg, w: FileWriter, hash: Text -> nat) returns (ok: bool)
      requires Valid() && |labels.byIndex| == |offsets| > 0 && |code| < WORD && forall s :: hash(s) < HashTab.HASH_SIZE
      requires Shaped(glob.Value()) && forall s | s in Stubs(code) :: Known(glob.Value(), s)
      modifies w
      ensures var f := Compact(glob.Value(), env.byIndex, Value());
              (ok <==> f.Some?) && (ok ==> w.out == old(w.out) + PutFile(f.value, []))
    {
      hide Word, Str, Ascii, PackCode, PackData, PutHeader, PutSection, PutDict, PutLabels, PutCode, PutData, Rows, PackLabels,
           Optimized, CollectEnv;
      var odopt := new OpcodeDict();
      odopt.Optimize(glob, code);
      var small := OptimizeEnv(glob, env, hash);
      ghost var f := Compact(glob.Value(), env.byIndex, Value());
      ghost var t := if f.Some? then PutData(f.value.data, []) else [];
      ghost var c := if f.Some? then PutCode(f.value.code, t) else [];
      ghost var l := PutLabels(PackLabels(labels.byIndex, offsets)[1..], c);
      ghost var d := PutDict(Rows(odopt.Value()), l);
      EmitTables(w, small, d);
      EmitDict(w, odopt, l);
      EmitLabels(w, labels, offsets, c);
      ok := EmitCode(w, code, odopt, strings, env, small, t);
      if ok {
        ok := EmitData(w, data, strings, []);
        assert w.out + [] == w.out;
      }
    }
  }

  ghost predicate Apart(a: TextSeg, b: TextSeg) {
    a != b && a.byText.buckets != b.byText.buckets
  }
}
