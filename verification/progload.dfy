/** Loading a program from a reader, section by section, as the tables fill. */
module ProgramLoad {
  import opened Options
  import opened TextSegs
  import opened ByteIO
  import opened OpcodeDicts
  import opened ProgramFile
  import opened ProgramImage
  import opened LabelTables
  import opened ProgramIO
  import HashTab

  // ------------------------------------------- reading straight into tables

  /** Read `n` texts into the table `tab`. */
  ghost function IntoTable(n: nat, s: seq<byte>, tab: seq<Text>): Option<(seq<Text>, seq<byte>)> {
    if n == 0 then Some((tab, s))
    else
      var t :- GetRecord(s);
      IntoTable(n - 1, t.1, Intern(tab, t.0))
  }

  lemma {:induction false} IntoTableInterns(n: nat, s: seq<byte>, tab: seq<Text>)
    ensures IntoTable(n, s, tab) == (var r :- GetRecords(n, s); Some((InternAll(tab, r.0), r.1)))
  {
    if n > 0 {
      var t := GetRecord(s);
      if t.Some? { IntoTableInterns(n - 1, t.value.1, Intern(tab, t.value.0)); }
    }
  }

  /** Read `n` opcode names of type `t` into the dictionary `d`. */
  ghost function IntoRow(n: nat, s: seq<byte>, d: Dict, t: nat, resolve: (nat, Text) -> nat): (r: Option<(Dict, seq<byte>)>)
    requires Shaped(d) && t < TYPES
    ensures r.Some? ==> Shaped(r.value.0)
    decreases n
  {
    if n == 0 then Some((d, s))
    else
      var x :- GetRecord(s);
      IntoRow(n - 1, x.1, Add(d, t, x.0, resolve(t, x.0)), t, resolve)
  }

  lemma {:induction false} IntoRowLoads(n: nat, s: seq<byte>, d: Dict, t: nat, resolve: (nat, Text) -> nat)
    requires Shaped(d) && t < TYPES
    ensures IntoRow(n, s, d, t, resolve) == (var r :- GetRecords(n, s); Some((LoadRow(d, t, r.0, resolve), r.1)))
    decreases n
  {
    if n > 0 {
      var x := GetRecord(s);
      if x.Some? { IntoRowLoads(n - 1, x.value.1, Add(d, t, x.value.0, resolve(t, x.value.0)), t, resolve); }
    }
  }

  /** Read the rows from type `t` on into the dictionary `d`. */
  ghost function IntoDict(t: nat, s: seq<byte>, d: Dict, resolve: (nat, Text) -> nat): (r: Option<(Dict, seq<byte>)>)
    requires Shaped(d) && t <= TYPES
    ensures r.Some? ==> Shaped(r.value.0)
    decreases TYPES - t
  {
    if t == TYPES then Some((d, s))
    else
      var n :- GetWord(s);
      var x :- IntoRow(n.0, n.1, d, t, resolve);
      var s1 :- ExpectWord(END, x.1);
      IntoDict(t + 1, s1, x.0, resolve)
  }

  lemma {:induction false} IntoDictLoads(t: nat, s: seq<byte>, d: Dict, resolve: (nat, Text) -> nat, before: seq<seq<Text>>)
    requires Shaped(d) && |before| == t <= TYPES
    ensures var r := GetRows(TYPES - t, s);
            (r.Some? ==> |r.value.0| == TYPES - t) &&
            IntoDict(t, s, d, resolve) == if r == None then None else Some((LoadRows(d, t, before + r.value.0, resolve), r.value.1))
    decreases TYPES - t
  {
    hide ExpectWord, GetWord, GetRecords, LoadRow;
    if t < TYPES {
      var n := GetWord(s);
      if n.Some? {
        IntoRowLoads(n.value.0, n.value.1, d, t, resolve);
        var x := GetRow(s);
        if x.Some? {
          var row := x.value.0;
          IntoDictLoads(t + 1, x.value.1, LoadRow(d, t, row, resolve), resolve, before + [row]);
          var more := GetRows(TYPES - t - 1, x.value.1);
          if more.Some? { assert before + [row] + more.value.0 == before + ([row] + more.value.0); }
        }
      }
    }
  }

  ghost function IntoLabels(n: nat, s: seq<byte>, ls: seq<Text>, os: seq<nat>): Option<((seq<Text>, seq<nat>), seq<byte>)> {
    if n == 0 then Some(((ls, os), s))
    else
      var l :- GetLabelRecord(s);
      var r := AddLabel(ls, os, l.0.0, l.0.1);
      IntoLabels(n - 1, l.1, r.0, r.1)
  }

  lemma {:induction false} IntoLabelsAdds(n: nat, s: seq<byte>, ls: seq<Text>, os: seq<nat>)
    ensures IntoLabels(n, s, ls, os) == (var r :- GetLabelRecords(n, s); Some((AddLabels(ls, os, r.0), r.1)))
  {
    hide AddLabel, GetLabelRecord;
    if n > 0 {
      var l := GetLabelRecord(s);
      if l.Some? {
        var r := AddLabel(ls, os, l.value.0.0, l.value.0.1);
        IntoLabelsAdds(n - 1, l.value.1, r.0, r.1);
      }
    }
  }

  /** Read `n` instructions behind `acc`. */
  ghost function IntoCode(n: nat, s: seq<byte>, d: Dict, strings: seq<Text>, env: seq<Text>, small: seq<Text>, acc: seq<Cell>)
    : Option<(seq<Cell>, seq<byte>)>
    requires Shaped(d)
  {
    if n == 0 then Some((acc, s))
    else
      var p :- GetPair(s);
      if WcType(p.0.0) >= TYPES then None
      else
        var a :- UnpackArg(strings, env, small, WcType(p.0.0), p.0.1);
        IntoCode(n - 1, p.1, d, strings, env, small, acc + [Cell(StubByCode(d, p.0.0), a)])
  }

  lemma {:induction false} IntoCodeUnpacks(n: nat, s: seq<byte>, d: Dict, strings: seq<Text>, env: seq<Text>, small: seq<Text>, acc: seq<Cell>)
    requires Shaped(d)
    ensures IntoCode(n, s, d, strings, env, small, acc) ==
            (var ps :- GetPairs(n, s); var cs :- UnpackCode(d, strings, env, small, ps.0); Some((acc + cs, ps.1)))
    decreases n
  {
    hide UnpackArg, GetPair, StubByCode, WcType;
    if n == 0 {
      assert acc + [] == acc;
    } else {
      var p := GetPair(s);
      if p.Some? && WcType(p.value.0.0) < TYPES {
        var a := UnpackArg(strings, env, small, WcType(p.value.0.0), p.value.0.1);
        if a.Some? {
          var c := Cell(StubByCode(d, p.value.0.0), a.value);
          IntoCodeUnpacks(n - 1, p.value.1, d, strings, env, small, acc + [c]);
          Consed(acc, c, GetPairs(n - 1, p.value.1), d, strings, env, small);
        }
      }
    }
  }

  lemma Consed(acc: seq<Cell>, c: Cell, ps: Option<(seq<(nat, nat)>, seq<byte>)>, d: Dict, strings: seq<Text>, env: seq<Text>, small: seq<Text>)
    requires Shaped(d)
    ensures ps.Some? && UnpackCode(d, strings, env, small, ps.value.0).Some? ==>
            acc + [c] + UnpackCode(d, strings, env, small, ps.value.0).value == acc + ([c] + UnpackCode(d, strings, env, small, ps.value.0).value)
  {
  }

  ghost function IntoData(n: nat, s: seq<byte>, strings: seq<Text>, acc: seq<Datum>): Option<(seq<Datum>, seq<byte>)> {
    if n == 0 then Some((acc, s))
    else
      var p :- GetPair(s);
      if p.0.0 == ENVSYM_ARG then None
      else
        var a :- UnpackArg(strings, [], [], p.0.0, p.0.1);
        IntoData(n - 1, p.1, strings, acc + [Datum(p.0.0, a)])
  }

  lemma {:induction false} IntoDataUnpacks(n: nat, s: seq<byte>, strings: seq<Text>, acc: seq<Datum>)
    ensures IntoData(n, s, strings, acc) ==
            (var ps :- GetPairs(n, s); var xs :- UnpackData(strings, ps.0); Some((acc + xs, ps.1)))
    decreases n
  {
    hide UnpackArg, GetPair;
    if n == 0 {
      assert acc + [] == acc;
    } else {
      var p := GetPair(s);
      if p.Some? && p.value.0.0 != ENVSYM_ARG {
        var a := UnpackArg(strings, [], [], p.value.0.0, p.value.0.1);
        if a.Some? {
          var x := Datum(p.value.0.0, a.value);
          IntoDataUnpacks(n - 1, p.value.1, strings, acc + [x]);
          var ps := GetPairs(n - 1, p.value.1);
          if ps.Some? && UnpackData(strings, ps.value.0).Some? {
            var xs := UnpackData(strings, ps.value.0).value;
            assert acc + [x] + xs == acc + ([x] + xs);
          }
        }
      }
    }
  }

  // ------------------------------------------------------------- the reader

  method ReadExpected(r: FileReader, t: Text) returns (ok: bool)
    requires r.Valid()
    modifies r`pos
    ensures r.Valid() && Expect(t, old(r.Rest())) == if ok then Some(r.Rest()) else None
  {
    var x := r.ReadString();
    return x == Some(t);
  }

  method ReadExpectedWord(r: FileReader, w: nat) returns (ok: bool)
    requires r.Valid()
    modifies r`pos
    ensures r.Valid() && ExpectWord(w, old(r.Rest())) == if ok then Some(r.Rest()) else None
  {
    var x := r.ReadWord();
    return x == Some(w);
  }

  /** Read a text with its length. */
  method ReadRecord(r: FileReader) returns (t: Option<Text>)
    requires r.Valid()
    modifies r`pos
    ensures r.Valid() && GetRecord(old(r.Rest())) == if t == None then None else Some((t.value, r.Rest()))
  {
    var w :- r.ReadWord();
    var u :- r.ReadString();
    return if w == 1 + |u| then Some(u) else None;
  }

  /** Read a string table, which must have the given name, into `seg`. */
  method ReadSection(r: FileReader, name: Text, seg: TextSeg) returns (ok: bool)
    requires r.Valid() && seg.Valid()
    modifies r`pos, seg, seg.byText.buckets
    ensures r.Valid() && seg.Valid()
    ensures var g := GetSection(name, old(r.Rest()));
            (ok <==> g.Some?) && (ok ==> r.Rest() == g.value.1 && seg.byIndex == InternAll(old(seg.byIndex), g.value.0[1..]))
  {
    hide GetRecord, Expect, ExpectWord, GetWord, Intern, Proper;
    ok := ReadExpected(r, name);
    if !ok { return; }
    var tot := r.ReadWord();
    if tot == None { return false; }
    var first := ReadRecord(r);
    if first != Some([]) { return false; }
    ghost var n, s, tab := if tot.value == 0 then 0 else tot.value - 1, r.Rest(), seg.byIndex;
    IntoTableInterns(n, s, tab);
    var i := 1;
    while i < tot.value
      invariant 1 <= i && r.Valid() && seg.Valid() && (tot.value > 0 ==> i <= tot.value)
      invariant IntoTable(if tot.value == 0 then 0 else tot.value - i, r.Rest(), seg.byIndex) == IntoTable(n, s, tab)
    {
      var str := ReadRecord(r);
      if str == None { return false; }
      var _ := seg.FindByText(str.value);
      i := i + 1;
    }
    ok := ReadExpectedWord(r, END);
  }

  /** Read the opcode dictionary, finding each stub by its name and type. */
  method ReadDict(r: FileReader, od: OpcodeDict, resolve: (nat, Text) -> nat) returns (ok: bool)
    requires r.Valid() && od.Value() == NoOpcodes
    modifies r`pos, od
    ensures r.Valid() && Shaped(od.Value())
    ensures var g := GetDict(old(r.Rest()));
            (ok <==> g.Some?) && (ok ==> |g.value.0| == TYPES && r.Rest() == g.value.1 && od.Value() == LoadRows(NoOpcodes, 0, g.value.0, resolve))
  {
    hide GetRecord, Expect, ExpectWord, GetWord, Add, Ascii, LoadRows;
    ok := ReadExpected(r, DIC);
    if !ok { return; }
    ok := ReadExpectedWord(r, TYPES);
    if !ok { return; }
    ghost var s := r.Rest();
    IntoDictLoads(0, s, NoOpcodes, resolve, []);
    assert GetRows(TYPES, s).Some? ==> [] + GetRows(TYPES, s).value.0 == GetRows(TYPES, s).value.0;
    var t := 0;
    while t < TYPES
      invariant t <= TYPES && r.Valid() && Shaped(od.Value())
      invariant IntoDict(t, r.Rest(), od.Value(), resolve) == IntoDict(0, s, NoOpcodes, resolve)
    {
      var tot := r.ReadWord();
      if tot == None { return false; }
      ok := ReadRow(r, od, t, tot.value, resolve);
      if !ok { return; }
      ok := ReadExpectedWord(r, END);
      if !ok { return; }
      t := t + 1;
    }
  }

  method ReadRow(r: FileReader, od: OpcodeDict, t: nat, n: nat, resolve: (nat, Text) -> nat) returns (ok: bool)
    requires r.Valid() && Shaped(od.Value()) && t < TYPES
    modifies r`pos, od
    ensures r.Valid() && Shaped(od.Value())
    ensures IntoRow(n, old(r.Rest()), old(od.Value()), t, resolve) == if ok then Some((od.Value(), r.Rest())) else None
  {
    hide GetRecord, Add;
    var j := 0;
    while j < n
      invariant j <= n && r.Valid() && Shaped(od.Value())
      invariant IntoRow(n - j, r.Rest(), od.Value(), t, resolve) == IntoRow(n, old(r.Rest()), old(od.Value()), t, resolve)
    {
      var name := ReadRecord(r);
      if name == None { return false; }
      od.AddOpcode(t, name.value, resolve(t, name.value));
      j := j + 1;
    }
    return true;
  }

  /** Enter a label, unless it has an offset already. */
  method EnterLabel(p: Program, ip: nat, name: Text)
    requires p.labels.Valid()
    modifies p`offsets, p.labels, p.labels.byText.buckets
    ensures p.labels.Valid()
    ensures (p.labels.byIndex, p.offsets) == AddLabel(old(p.labels.byIndex), old(p.offsets), name, ip)
  {
    var _ := p.labels.FindByText(name);
    var index := p.labels.TextToIndex(name);
    if index >= |p.offsets| {
      p.offsets := p.offsets + Zeros(index - |p.offsets|) + [ip];
    }
  }

  method ReadLabels(r: FileReader, p: Program) returns (ok: bool)
    requires r.Valid() && p.labels.Valid()
    modifies r`pos, p`offsets, p.labels, p.labels.byText.buckets
    ensures r.Valid() && p.labels.Valid()
    ensures var g := GetLabels(old(r.Rest()));
            (ok <==> g.Some?) &&
            (ok ==> r.Rest() == g.value.1 && (p.labels.byIndex, p.offsets) == AddLabels(old(p.labels.byIndex), old(p.offsets), g.value.0))
  {
    hide Expect, ExpectWord, GetWord, GetText, AddLabel, Ascii, Proper;
    ok := ReadExpected(r, LABELS);
    if !ok { return; }
    var tot := r.ReadWord();
    if tot == None { return false; }
    ghost var n, s, ls, os := if tot.value == 0 then 0 else tot.value - 1, r.Rest(), p.labels.byIndex, p.offsets;
    IntoLabelsAdds(n, s, ls, os);
    var i := 1;
    while i < tot.value
      invariant 1 <= i && r.Valid() && p.labels.Valid() && (tot.value > 0 ==> i <= tot.value)
      invariant IntoLabels(if tot.value == 0 then 0 else tot.value - i, r.Rest(), p.labels.byIndex, p.offsets) == IntoLabels(n, s, ls, os)
    {
      var wc := r.ReadWord();
      if wc == None { return false; }
      var str := r.ReadString();
      if str == None || |str.value| != wc.value { return false; }
      wc := r.ReadWord();
      if wc == None { return false; }
      EnterLabel(p, wc.value, str.value);
      i := i + 1;
    }
    ok := ReadExpectedWord(r, END);
  }

  /** Turn an argument of the file into one in memory; false for a symbol that resolves to index 0. */
  method UnpackArgument(strings: TextSeg, env: TextSeg, small: TextSeg, ty: nat, w: nat) returns (a: Option<Arg>)
    requires env.Valid()
    ensures a == UnpackArg(strings.byIndex, env.byIndex, small.byIndex, ty, w)
  {
    if ty == ENVSYM_ARG {
      var sym := small.FindByIndex(w);
      var i := NOT_FOUND;
      if sym.Some? {
        i := env.TextToIndex(sym.value);
      }
      return if i == 0 then None else Some(Raw(i));
    } else if ty == STRING_ARG {
      var str := strings.FindByIndex(w);
      return Some(if str.Some? then Ptr(str.value) else Raw(0));
    }
    return Some(Raw(w));
  }

  method ReadCode(r: FileReader, od: OpcodeDict, env: TextSeg, small: TextSeg, p: Program) returns (ok: bool)
    requires r.Valid() && env.Valid() && Shaped(od.Value()) && p.code == []
    modifies r`pos, p`code
    ensures r.Valid()
    ensures var g := (var x :- GetCode(old(r.Rest()));
                      var cs :- UnpackCode(od.Value(), p.strings.byIndex, env.byIndex, small.byIndex, x.0); Some((cs, x.1)));
            g == if ok then Some((p.code, r.Rest())) else None
  {
    hide Expect, ExpectWord, GetWord, UnpackArg, Ascii, Proper, StubByCode, WcType;
    ghost var d, t, e, m := od.Value(), p.strings.byIndex, env.byIndex, small.byIndex;
    ok := ReadExpected(r, CODE);
    if !ok { return; }
    var tot := r.ReadWord();
    if tot == None { return false; }
    ghost var n, s := (tot.value + 1) / 2, r.Rest();
    NothingBefore(n, s, d, t, e, m);
    var i := 0;
    while i < tot.value
      invariant i <= tot.value + 1 && i % 2 == 0 && r.Valid()
      invariant IntoCode(n - i / 2, r.Rest(), d, t, e, m, p.code) == IntoCode(n, s, d, t, e, m, [])
    {
      var wc := r.ReadWord();
      if wc == None { return false; }
      var w := r.ReadWord();
      if w == None || WcType(wc.value) >= TYPES { return false; }
      var op := StubByCode(od.Value(), wc.value);
      var arg := UnpackArgument(p.strings, env, small, WcType(wc.value), w.value);
      if arg == None { return false; }
      p.code := p.code + [Cell(op, arg.value)];
      i := i + 2;
    }
    ok := ReadExpectedWord(r, END);
  }

  lemma NothingBefore(n: nat, s: seq<byte>, d: Dict, strings: seq<Text>, env: seq<Text>, small: seq<Text>)
    requires Shaped(d)
    ensures IntoCode(n, s, d, strings, env, small, []) ==
            (var ps :- GetPairs(n, s); var cs :- UnpackCode(d, strings, env, small, ps.0); Some((cs, ps.1)))
  {
    IntoCodeUnpacks(n, s, d, strings, env, small, []);
    var ps := GetPairs(n, s);
    if ps.Some? && UnpackCode(d, strings, env, small, ps.value.0).Some? {
      var cs := UnpackCode(d, strings, env, small, ps.value.0).value;
      assert [] + cs == cs;
    }
  }

  method ReadData(r: FileReader, p: Program) returns (ok: bool)
    requires r.Valid() && p.data == [] && p.strings.Valid()
    modifies r`pos, p`data
    ensures r.Valid()
    ensures var g := (var x :- GetData(old(r.Rest())); var xs :- UnpackData(p.strings.byIndex, x.0); Some((xs, x.1)));
            g == if ok then Some((p.data, r.Rest())) else None
  {
    hide Expect, GetWord, Ascii, Proper;
    ghost var t := p.strings.byIndex;
    ok := ReadExpected(r, DATA);
    if !ok { return; }
    var tot := r.ReadWord();
    if tot == None { return false; }
    ghost var n, s := (tot.value + 1) / 2, r.Rest();
    NoDataBefore(n, s, t);
    var i := 0;
    while i < tot.value
      invariant i <= tot.value + 1 && i % 2 == 0 && r.Valid()
      invariant IntoData(n - i / 2, r.Rest(), t, p.data) == IntoData(n, s, t, [])
    {
      var kind := r.ReadWord();
      if kind == None { return false; }
      var w := r.ReadWord();
      if w == None || kind.value == ENVSYM_ARG { return false; }
      var arg := Raw(w.value);
      if kind.value == STRING_ARG {
        var str := p.strings.FindByIndex(w.value);
        arg := if str.Some? then Ptr(str.value) else Raw(0);
      }
      p.data := p.data + [Datum(kind.value, arg)];
      i := i + 2;
    }
  }

  lemma NoDataBefore(n: nat, s: seq<byte>, strings: seq<Text>)
    ensures IntoData(n, s, strings, []) == (var ps :- GetPairs(n, s); var xs :- UnpackData(strings, ps.0); Some((xs, ps.1)))
  {
    IntoDataUnpacks(n, s, strings, []);
    var ps := GetPairs(n, s);
    if ps.Some? && UnpackData(strings, ps.value.0).Some? {
      var xs := UnpackData(strings, ps.value.0).value;
      assert [] + xs == xs;
    }
  }

  /** Read the string tables of a new program, and the small environment. */
  method ReadSegments(r: FileReader, p: Program, small: TextSeg) returns (ok: bool)
    requires r.Valid() && p.Valid() && small.Valid() && small !in p.Parts() && small.byText.buckets !in p.Parts()
    requires p.loadlibs.byIndex == p.requires_.byIndex == p.strings.byIndex == small.byIndex == Empty
    modifies r`pos, p.Parts(), small, small.byText.buckets
    ensures r.Valid() && p.Valid() && small.Valid() && p.labels.byIndex == old(p.labels.byIndex)
    ensures var g := GetSegments(old(r.Rest()));
            (ok <==> g.Some?) &&
            (ok ==> && r.Rest() == g.value.1
                    && p.loadlibs.byIndex == InternAll(Empty, g.value.0.libs[1..])
                    && p.requires_.byIndex == InternAll(Empty, g.value.0.reqs[1..])
                    && small.byIndex == InternAll(Empty, g.value.0.env[1..])
                    && p.strings.byIndex == InternAll(Empty, g.value.0.strings[1..]))
  {
    hide GetSection, InternAll, Ascii, Proper;
    ok := ReadSection(r, LIB, p.loadlibs);
    if !ok { return; }
    ok := ReadSection(r, REQ, p.requires_);
    if !ok { return; }
    ok := ReadSection(r, ENV, small);
    if !ok { return; }
    ok := ReadSection(r, STRINGS, p.strings);
  }

  /** The segments after the string tables, for a machine that knows the symbols `small` as `env` has them. */
  function LoadRest(resolve: (nat, Text) -> nat, env: seq<Text>, t: Segments, s: seq<byte>): Option<Image>
    requires t.libs != [] && t.reqs != [] && t.env != [] && t.strings != []
  {
    var dict :- GetDict(s);
    var labels :- GetLabels(dict.1);
    var code :- GetCode(labels.1);
    var data :- GetData(code.1);
    if |dict.0| == TYPES
    then Load(resolve, env, File(t.libs, t.reqs, t.env, t.strings, dict.0, labels.0, code.0, data.0)) else None
  }

  method ReadRest(r: FileReader, p: Program, env: TextSeg, small: TextSeg, ghost t: Segments, resolve: (nat, Text) -> nat) returns (ok: bool)
    requires r.Valid() && p.Valid() && env.Valid() && env !in p.Parts() && env.byText.buckets !in p.Parts() && small !in p.Parts()
    requires t.libs != [] && t.reqs != [] && t.env != [] && t.strings != []
    requires p.Value() == Image(InternAll(Empty, t.libs[1..]), InternAll(Empty, t.reqs[1..]), InternAll(Empty, t.strings[1..]),
                                Empty, [0], [], [])
    requires small.byIndex == InternAll(Empty, t.env[1..])
    modifies r`pos, p, p.labels, p.labels.byText.buckets
    ensures r.Valid() && p.Valid()
    ensures LoadRest(resolve, env.byIndex, t, old(r.Rest())) == if ok then Some(p.Value()) else None
  {
    hide GetDict, GetLabels, GetCode, GetData, UnpackCode, UnpackData, LoadRows, InternAll, AddLabels, Proper;
    var od := new OpcodeDict();
    ok := ReadDict(r, od, resolve);
    if !ok { return; }
    ok := ReadLabels(r, p);
    if !ok { return; }
    ok := ReadCode(r, od, env, small, p);
    if !ok { return; }
    ok := ReadData(r, p);
  }

  /** A program is its header, its string tables and the rest. */
  lemma LoadBytesInParts(resolve: (nat, Text) -> nat, env: seq<Text>, s: seq<byte>)
    ensures LoadBytes(resolve, env, s) ==
            (var s1 :- GetHeader(s); var t :- GetSegments(s1); LoadRest(resolve, env, t.0, t.1))
  {
    hide GetHeader, GetDict, GetLabels, GetCode, GetData, Load, GetSection;
  }

  /** Read a program, headed by the format's name; null if the file is malformed or cannot be resolved. */
  method LoadProgram(r: FileReader, env: TextSeg, resolve: (nat, Text) -> nat, hash: Text -> nat) returns (p: Program?)
    requires r.Valid() && env.Valid() && forall s :: hash(s) < HashTab.HASH_SIZE
    modifies r`pos
    ensures r.Valid() && (p != null ==> p.Valid())
    ensures LoadBytes(resolve, env.byIndex, old(r.Rest())) == if p == null then None else Some(p.Value())
  {
    hide GetHeader, GetSegments, LoadRest, LoadBytes, InternAll, Proper;
    LoadBytesInParts(resolve, env.byIndex, r.Rest());
    var ok := ReadHeader(r);
    if !ok { return null; }
    p := new Program(hash);
    var small := new TextSeg(hash);
    ghost var t := GetSegments(r.Rest());
    ok := ReadSegments(r, p, small);
    if !ok { return null; }
    ok := ReadRest(r, p, env, small, t.value.0, resolve);
    if !ok { return null; }
  }

  method ReadHeader(r: FileReader) returns (ok: bool)
    requires r.Valid()
    modifies r`pos
    ensures r.Valid() && GetHeader(old(r.Rest())) == if ok then Some(r.Rest()) else None
  {
    ok := ReadExpected(r, SHEBANG);
    if ok {
      ok := ReadExpectedWord(r, ENDIAN_TEST);
    }
  }
}
