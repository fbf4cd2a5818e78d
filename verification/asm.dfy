/** The two-pass assembler: a chain of symbolic nodes becomes wordcode whose
    label arguments are offsets relative to their own instruction. */
module Assembler {
  import opened Options
  import opened Words
  import opened TextSegs
  import opened LabelTables

  datatype ArgType = NoArg | IntArg | CharArg | FloatArg | StringArg | LabelArg | EnvArg
  datatype Node =
    | Label(name: string)
    | Data(kind: nat, text: string, rep: string)
    | Op(ty: ArgType, op: string, arg: string)
    | LangDef
    | LangPlug

  /** What the assembler looks up outside the chain: the opcode dictionary, the words of the arguments and data
      that are neither numbers nor labels, and the bytes of a text. The word of a string is the address of its interned copy,
      which is one and the same for equal texts. */
  datatype Tables = Tables(stub: (ArgType, string) -> nat, literal: (ArgType, string) -> nat,
                           datum: (nat, string) -> nat, bytes: string -> Text)

  /** The type of a string datum. */
  const STRING_DATA: nat := 6

  // ------------------------------------------------------------- numbers

  predicate Digit(c: char) { '0' <= c <= '9' }

  function Digits(s: string, acc: nat): nat {
    if s == [] || !Digit(s[0]) then acc else Digits(s[1..], 10 * acc + (s[0] - '0') as int)
  }

  /** The number that the text starts with, after blanks and an optional sign. */
  function Atoi(s: string): int {
    if s == [] then 0
    else if s[0] == ' ' then Atoi(s[1..])
    else if s[0] == '-' then -(Digits(s[1..], 0) as int)
    else if s[0] == '+' then Digits(s[1..], 0)
    else Digits(s, 0)
  }

  // -------------------------------------------------- what is assembled

  /** Load-library and require nodes are only noted down. */
  predicate Pseudo(n: Node) {
    n.Op? && n.ty == StringArg && (n.op == "__LL__" || n.op == "__RQ__")
  }

  /** The address that the first pass gives to the first declaration of `l`. */
  function LabelAddress(rest: seq<Node>, l: string, ofs: nat): Option<nat> {
    if rest == [] then None
    else if rest[0] == Label(l) then Some(ofs)
    else LabelAddress(rest[1..], l, Past(rest[0], ofs))
  }

  predicate IsOffset(arg: string) {
    arg != [] && (arg[0] == '+' || arg[0] == '-')
  }

  /** The argument word of `n`, assembled for address `ip` as part of `chain`, which starts at `base`. */
  function ArgWord(tb: Tables, chain: seq<Node>, base: nat, n: Node, ip: nat): nat
    requires n.Op?
  {
    if n.ty == NoArg then 0
    else if n.ty == IntArg then Wrap(Atoi(n.arg))
    else if n.ty != LabelArg then tb.literal(n.ty, n.arg)
    else if IsOffset(n.arg) then Wrap(Atoi(n.arg))
    else
      var a := LabelAddress(chain, n.arg, base);
      Wrap((if a == None then 0 else a.value) - ip)
  }

  /** The wordcode of the node `n` at address `ip`. */
  function NodeCode(tb: Tables, chain: seq<Node>, base: nat, n: Node, ip: nat): seq<nat> {
    if n.Op? && !Pseudo(n) then [tb.stub(n.ty, n.op), ArgWord(tb, chain, base, n, ip)] else []
  }

  /** Where the node after `n` stands, as the passes count it. */
  function Past(n: Node, ip: nat): nat {
    if n.Op? then ip + 2 else ip
  }

  /** The wordcode of `rest`, whose first node stands at `ip`. */
  function Emit(tb: Tables, chain: seq<Node>, base: nat, rest: seq<Node>, ip: nat): seq<nat> {
    if rest == [] then []
    else NodeCode(tb, chain, base, rest[0], ip) + Emit(tb, chain, base, rest[1..], Past(rest[0], ip))
  }

  function NodeLabel(tb: Tables, n: Node, ip: nat): seq<(Text, nat)> {
    if n.Label? then [(tb.bytes(n.name), ip)] else []
  }

  /** The labels in order, with the addresses that the first pass gives them. */
  function Labels(tb: Tables, rest: seq<Node>, ip: nat): seq<(Text, nat)> {
    if rest == [] then []
    else NodeLabel(tb, rest[0], ip) + Labels(tb, rest[1..], Past(rest[0], ip))
  }

  /** `n` copies of a typed datum. */
  function Repeat(kind: nat, w: nat, n: int): seq<nat>
    decreases if n > 0 then n else 0
  {
    if n <= 0 then [] else [kind, w] + Repeat(kind, w, n - 1)
  }

  function NodeData(tb: Tables, n: Node): seq<nat> {
    if n.Data? then Repeat(n.kind, tb.datum(n.kind, n.text), Atoi(n.rep)) else []
  }

  function DataWords(tb: Tables, rest: seq<Node>): seq<nat> {
    if rest == [] then [] else NodeData(tb, rest[0]) + DataWords(tb, rest[1..])
  }

  function NodeRequest(tb: Tables, n: Node, name: string): seq<Text> {
    if Pseudo(n) && n.op == name then [tb.bytes(n.arg)] else []
  }

  /** The arguments of the pseudo-opcodes named `name`, in order. */
  function Requests(tb: Tables, rest: seq<Node>, name: string): seq<Text> {
    if rest == [] then [] else NodeRequest(tb, rest[0], name) + Requests(tb, rest[1..], name)
  }

  function NodeStrings(tb: Tables, n: Node): seq<Text> {
    if n.Op? && n.ty == StringArg then [tb.bytes(n.arg)]
    else if n.Data? && n.kind == STRING_DATA then [tb.bytes(n.text)]
    else []
  }

  /** The strings that the program needs, in order, also those of pseudo-opcodes and of data repeated no times. */
  function Strings(tb: Tables, rest: seq<Node>): seq<Text> {
    if rest == [] then [] else NodeStrings(tb, rest[0]) + Strings(tb, rest[1..])
  }

  /** Every opcode that is emitted is in the dictionary. */
  predicate Legal(tb: Tables, rest: seq<Node>) {
    forall n | n in rest :: n.Op? && !Pseudo(n) ==> tb.stub(n.ty, n.op) != 0
  }

  // ------------------------------------------------------- the assembler

  class ChainNode {
    const node: Node
    var lofs: nat

    constructor (n: Node)
      ensures node == n && lofs == 0
    {
      node, lofs := n, 0;
    }
  }

  class Program {
    var code: seq<nat>
    var data: seq<nat>
    var labels: seq<Text>
    var offsets: seq<nat>
    var strings: seq<Text>
    var loadlibs: seq<Text>
    var requires_: seq<Text>

    constructor ()
      ensures code == [] && data == [] && labels == strings == loadlibs == requires_ == Empty && offsets == [0]
    {
      code, data, labels, offsets := [], [], Empty, [0];
      strings, loadlibs, requires_ := Empty, Empty, Empty;
    }
  }

  ghost function Nodes(oc: seq<ChainNode>): (ns: seq<Node>)
    ensures |ns| == |oc|
  {
    seq(|oc|, i requires 0 <= i < |oc| => oc[i].node)
  }

  /** The address stored in the first declaration of `l`. */
  ghost function Found(oc: seq<ChainNode>, l: string): Option<nat>
    reads oc
  {
    if oc == [] then None else if oc[0].node == Label(l) then Some(oc[0].lofs) else Found(oc[1..], l)
  }

  method LabelToOfs(oc: seq<ChainNode>, l: string) returns (ofs: nat)
    ensures ofs == if Found(oc, l) == None then 0 else Found(oc, l).value
  {
    var i := 0;
    while i < |oc|
      invariant i <= |oc| && Found(oc, l) == Found(oc[i..], l)
    {
      if oc[i].node == Label(l) {
        return oc[i].lofs;
      }
      assert oc[i..][1..] == oc[i + 1..];
      i := i + 1;
    }
    return 0;
  }

  /** How many of the first `k` nodes are opcodes. */
  ghost function OpCount(ns: seq<Node>, k: nat): nat
    requires k <= |ns|
  {
    if k == 0 then 0 else OpCount(ns, k - 1) + if ns[k - 1].Op? then 1 else 0
  }

  /** The first `k` labels carry the address that the opcodes before them make up. */
  ghost predicate Placed(oc: seq<ChainNode>, base: nat, k: nat)
    requires k <= |oc|
    reads oc
  {
    true == (forall j :: 0 <= j < k && oc[j].node.Label? ==> oc[j].lofs == base + 2 * OpCount(Nodes(oc), j))
  }

  lemma {:induction false} PlacedResolves(oc: seq<ChainNode>, base: nat, k: nat, l: string)
    requires k <= |oc| && Placed(oc, base, |oc|)
    ensures Found(oc[k..], l) == LabelAddress(Nodes(oc)[k..], l, base + 2 * OpCount(Nodes(oc), k))
    decreases |oc| - k
  {
    if k < |oc| {
      assert oc[k..][1..] == oc[k + 1..] && Nodes(oc)[k..][1..] == Nodes(oc)[k + 1..];
      PlacedResolves(oc, base, k + 1, l);
    }
  }

  /** Every label name leads to the address that the first pass computes for it. */
  ghost predicate Resolved(oc: seq<ChainNode>, base: nat)
    reads oc
  {
    forall l :: Found(oc, l) == LabelAddress(Nodes(oc), l, base)
  }

  lemma AllResolved(oc: seq<ChainNode>, base: nat)
    requires Placed(oc, base, |oc|)
    ensures Resolved(oc, base)
  {
    forall l ensures Found(oc, l) == LabelAddress(Nodes(oc), l, base) {
      PlacedResolves(oc, base, 0, l);
      assert oc[0..] == oc && Nodes(oc)[0..] == Nodes(oc);
    }
  }

  /** Enter a label in the table, unless it is there already. */
  method EnterLabel(p: Program, name: Text, ip: nat)
    modifies p`labels, p`offsets
    ensures (p.labels, p.offsets) == AddLabel(old(p.labels), old(p.offsets), name, ip)
  {
    p.labels := Intern(p.labels, name);
    var index := IndexWord(p.labels, name);
    if index >= |p.offsets| {
      p.offsets := p.offsets + Zeros(index - |p.offsets|) + [ip];
    }
  }

  method PlaceLabel(tb: Tables, c: ChainNode, ofs: nat, p: Program)
    modifies c`lofs, p`labels, p`offsets
    ensures c.lofs == if c.node.Label? then ofs else old(c.lofs)
    ensures (p.labels, p.offsets) == AddLabels(old(p.labels), old(p.offsets), NodeLabel(tb, c.node, ofs))
  {
    if c.node.Label? {
      c.lofs := ofs;
      EnterLabel(p, tb.bytes(c.node.name), ofs);
    }
  }

  /** First pass: give every label its address and enter it in the label table. */
  method PlaceLabels(tb: Tables, oc: seq<ChainNode>, base: nat, p: Program)
    requires forall i, j :: 0 <= i < j < |oc| ==> oc[i] != oc[j]
    modifies oc`lofs, p`labels, p`offsets
    ensures Resolved(oc, base)
    ensures (p.labels, p.offsets) == AddLabels(old(p.labels), old(p.offsets), Labels(tb, Nodes(oc), base))
  {
    hide Resolved, NodeLabel, AddLabels;
    var i, ofs := 0, base;
    ghost var ns := Nodes(oc);
    while i < |oc|
      invariant i <= |oc| && ofs == base + 2 * OpCount(ns, i) && Placed(oc, base, i)
      invariant AddLabels(p.labels, p.offsets, Labels(tb, ns[i..], ofs)) == AddLabels(old(p.labels), old(p.offsets), Labels(tb, ns, base))
    {
      assert ns[i..][1..] == ns[i + 1..];
      var n := oc[i].node;
      AddLabelsConcat(p.labels, p.offsets, NodeLabel(tb, n, ofs), Labels(tb, ns[i + 1..], Past(n, ofs)));
      PlaceLabel(tb, oc[i], ofs, p);
      assert Placed(oc, base, i + 1);
      if n.Op? {
        ofs := ofs + 2;
      }
      i := i + 1;
    }
    AllResolved(oc, base);
    NoMoreLabels(tb, p.labels, p.offsets, ofs);
  }

  lemma NoMoreLabels(tb: Tables, labels: seq<Text>, offsets: seq<nat>, ofs: nat)
    ensures AddLabels(labels, offsets, Labels(tb, [], ofs)) == (labels, offsets)
  {
  }

  /** The first entry of a label is its address by the first pass. */
  lemma {:induction false} FirstEntry(tb: Tables, rest: seq<Node>, l: string, ofs: nat)
    requires forall s, t :: tb.bytes(s) == tb.bytes(t) ==> s == t
    ensures FirstOffset(Labels(tb, rest, ofs), tb.bytes(l)) == LabelAddress(rest, l, ofs)
  {
    if rest != [] {
      FirstEntry(tb, rest[1..], l, Past(rest[0], ofs));
      var more := Labels(tb, rest[1..], Past(rest[0], ofs));
      if rest[0].Label? {
        assert (NodeLabel(tb, rest[0], ofs) + more)[1..] == more;
      } else {
        assert [] + more == more;
      }
    }
  }

  /** The label table of an assembled program leads each declared label that is new to the program to the address that
      jumps to it are computed for. */
  lemma TableAgrees(tb: Tables, chain: seq<Node>, base: nat, labels: seq<Text>, offsets: seq<nat>, l: string)
    requires forall s, t :: tb.bytes(s) == tb.bytes(t) ==> s == t
    requires Table(labels, offsets) && |labels| + |Labels(tb, chain, base)| < NOT_FOUND
    requires tb.bytes(l) !in labels[1..] && LabelAddress(chain, l, base).Some?
    ensures var r := AddLabels(labels, offsets, Labels(tb, chain, base));
            OffsetOf(r.0, r.1, tb.bytes(l)) == LabelAddress(chain, l, base)
  {
    FirstEntry(tb, chain, l, base);
    TableKeepsFirst(labels, offsets, Labels(tb, chain, base), tb.bytes(l));
  }

  /** The argument word of the opcode node `n`, assembled for address `ip`; a string is interned. */
  method Argument(tb: Tables, oc: seq<ChainNode>, ghost base: nat, n: Node, ip: nat, p: Program) returns (arg: nat)
    requires n.Op? && Resolved(oc, base)
    modifies p`strings
    ensures arg == ArgWord(tb, Nodes(oc), base, n, ip)
    ensures p.strings == InternAll(old(p.strings), NodeStrings(tb, n))
  {
    match n.ty
    case NoArg => arg := 0;
    case IntArg => arg := Wrap(Atoi(n.arg));
    case LabelArg =>
      if n.arg != [] && (n.arg[0] == '+' || n.arg[0] == '-') {
        arg := Wrap(Atoi(n.arg));
      } else {
        var a := LabelToOfs(oc, n.arg);
        arg := Wrap(a - ip);
      }
    case StringArg =>
      p.strings := Intern(p.strings, tb.bytes(n.arg));
      arg := tb.literal(n.ty, n.arg);
    case _ => arg := tb.literal(n.ty, n.arg);
  }

  /** Append `rep` copies of a datum to the data segment. */
  method WriteData(p: Program, kind: nat, w: nat, rep: int)
    modifies p`data
    ensures p.data == old(p.data) + Repeat(kind, w, rep)
  {
    var r := rep;
    while r > 0
      invariant p.data + Repeat(kind, w, r) == old(p.data) + Repeat(kind, w, rep)
    {
      p.data := p.data + [kind, w];
      r := r - 1;
    }
  }

  /** Write the opcode or the data of one node, unless the dictionary does not have the opcode. */
  method WriteNode(tb: Tables, oc: seq<ChainNode>, ghost base: nat, n: Node, ip: nat, p: Program) returns (ok: bool)
    requires Resolved(oc, base)
    modifies p`code, p`data, p`strings, p`loadlibs, p`requires_
    ensures ok <==> Legal(tb, [n])
    ensures ok ==> p.code == old(p.code) + NodeCode(tb, Nodes(oc), base, n, ip)
    ensures ok ==> p.data == old(p.data) + NodeData(tb, n)
    ensures p.strings == InternAll(old(p.strings), NodeStrings(tb, n))
    ensures ok ==> p.loadlibs == InternAll(old(p.loadlibs), NodeRequest(tb, n, "__LL__"))
    ensures ok ==> p.requires_ == InternAll(old(p.requires_), NodeRequest(tb, n, "__RQ__"))
  {
    if n.Op? {
      var op := tb.stub(n.ty, n.op);
      var arg := Argument(tb, oc, base, n, ip, p);
      if n.ty == StringArg && n.op == "__LL__" {
        p.loadlibs := Intern(p.loadlibs, tb.bytes(n.arg));
      } else if n.ty == StringArg && n.op == "__RQ__" {
        p.requires_ := Intern(p.requires_, tb.bytes(n.arg));
      } else if op == 0 {
        assert n in [n];
        return false;
      } else {
        p.code := p.code + [op, arg];
      }
    } else if n.Data? {
      if n.kind == STRING_DATA {
        p.strings := Intern(p.strings, tb.bytes(n.text));
      }
      WriteData(p, n.kind, tb.datum(n.kind, n.text), Atoi(n.rep));
    }
    return true;
  }

  /** What the second pass adds to the tables of texts. */
  ghost predicate Noted(tb: Tables, ns: seq<Node>, strings: seq<Text>, loadlibs: seq<Text>, requires_: seq<Text>, p: Program)
    reads p
  {
    && p.strings == InternAll(strings, Strings(tb, ns))
    && p.loadlibs == InternAll(loadlibs, Requests(tb, ns, "__LL__"))
    && p.requires_ == InternAll(requires_, Requests(tb, ns, "__RQ__"))
  }

  lemma NotesAppend(tb: Tables, ns: seq<Node>, n: Node, rest: seq<Node>, ts: seq<Text>, name: string)
    requires ns == [n] + rest
    ensures InternAll(ts, Strings(tb, ns)) == InternAll(InternAll(ts, NodeStrings(tb, n)), Strings(tb, rest))
    ensures InternAll(ts, Requests(tb, ns, name)) == InternAll(InternAll(ts, NodeRequest(tb, n, name)), Requests(tb, rest, name))
  {
    hide NodeStrings, NodeRequest, InternAll;
    assert ns[1..] == rest;
    InternConcat(ts, NodeStrings(tb, n), Strings(tb, rest));
    InternConcat(ts, NodeRequest(tb, n, name), Requests(tb, rest, name));
  }

  /** Second pass: write opcodes and data, or stop at an opcode that the dictionary does not have. */
  method Write(tb: Tables, oc: seq<ChainNode>, base: nat, p: Program) returns (ok: bool)
    requires Resolved(oc, base)
    modifies p`code, p`data, p`strings, p`loadlibs, p`requires_
    ensures ok <==> Legal(tb, Nodes(oc))
    ensures ok ==> p.code == old(p.code) + Emit(tb, Nodes(oc), base, Nodes(oc), base)
    ensures ok ==> p.data == old(p.data) + DataWords(tb, Nodes(oc))
    ensures ok ==> Noted(tb, Nodes(oc), old(p.strings), old(p.loadlibs), old(p.requires_), p)
  {
    hide Resolved, NodeCode, NodeData, NodeRequest, NodeStrings, InternAll;
    var i, ofs := 0, base;
    ghost var ns := Nodes(oc);
    while i < |oc|
      invariant i <= |oc| && Legal(tb, ns[..i])
      invariant p.code + Emit(tb, ns, base, ns[i..], ofs) == old(p.code) + Emit(tb, ns, base, ns, base)
      invariant p.data + DataWords(tb, ns[i..]) == old(p.data) + DataWords(tb, ns)
      invariant InternAll(p.strings, Strings(tb, ns[i..])) == InternAll(old(p.strings), Strings(tb, ns))
      invariant InternAll(p.loadlibs, Requests(tb, ns[i..], "__LL__")) == InternAll(old(p.loadlibs), Requests(tb, ns, "__LL__"))
      invariant InternAll(p.requires_, Requests(tb, ns[i..], "__RQ__")) == InternAll(old(p.requires_), Requests(tb, ns, "__RQ__"))
    {
      assert ns[i..][1..] == ns[i + 1..] && ns[i..] == [ns[i]] + ns[i + 1..];
      var n := oc[i].node;
      NotesAppend(tb, ns[i..], n, ns[i + 1..], p.strings, "");
      NotesAppend(tb, ns[i..], n, ns[i + 1..], p.loadlibs, "__LL__");
      NotesAppend(tb, ns[i..], n, ns[i + 1..], p.requires_, "__RQ__");
      ok := WriteNode(tb, oc, base, n, ofs, p);
      if !ok {
        assert n == ns[i];
        return;
      }
      if n.Op? {
        ofs := ofs + 2;
      }
      i := i + 1;
    }
    assert ns[..i] == ns;
    NothingMore(tb, p.strings, "");
    NothingMore(tb, p.loadlibs, "__LL__");
    NothingMore(tb, p.requires_, "__RQ__");
    return true;
  }

  lemma NothingMore(tb: Tables, ts: seq<Text>, name: string)
    ensures InternAll(ts, Strings(tb, [])) == ts && InternAll(ts, Requests(tb, [], name)) == ts
  {
  }

  /** Assemble the chain behind the code that `p` already holds. */
  method Assemble(tb: Tables, oc: seq<ChainNode>, p: Program) returns (ok: bool)
    requires forall i, j :: 0 <= i < j < |oc| ==> oc[i] != oc[j]
    modifies oc`lofs, p
    ensures ok <==> Legal(tb, Nodes(oc))
    ensures (p.labels, p.offsets) == AddLabels(old(p.labels), old(p.offsets), Labels(tb, Nodes(oc), |old(p.code)|))
    ensures ok ==> p.code == old(p.code) + Emit(tb, Nodes(oc), |old(p.code)|, Nodes(oc), |old(p.code)|)
    ensures ok ==> p.data == old(p.data) + DataWords(tb, Nodes(oc))
    ensures ok ==> Noted(tb, Nodes(oc), old(p.strings), old(p.loadlibs), old(p.requires_), p)
  {
    var base := |p.code|;
    PlaceLabels(tb, oc, base, p);
    ok := Write(tb, oc, base, p);
  }
}
