/** What numbers in the text mean, and what the chain contributes to the tables of the program, node by node. */
module AssemblerLaws {
  import opened Options
  import opened Words
  import opened TextSegs
  import opened Assembler

  // ------------------------------------------------------------- numbers

  function DigitChar(d: nat): char
    requires d < 10
  {
    '0' + d as char
  }

  /** The decimal notation of a number. */
  function Decimal(n: nat): string {
    if n < 10 then [DigitChar(n)] else Decimal(n / 10) + [DigitChar(n % 10)]
  }

  /** No digit follows. */
  predicate Over(rest: string) {
    rest == [] || !Digit(rest[0])
  }

  lemma {:induction false} DigitsAppend(s: string, acc: nat, d: nat, rest: string)
    requires (forall c | c in s :: Digit(c)) && d < 10 && Over(rest)
    ensures Digits(s + [DigitChar(d)] + rest, acc) == 10 * Digits(s, acc) + d
    ensures Digits(s + rest, acc) == Digits(s, acc)
  {
    if s == [] {
      assert s + [DigitChar(d)] + rest == [DigitChar(d)] + rest;
      assert ([DigitChar(d)] + rest)[1..] == rest && s + rest == rest;
    } else {
      assert s[0] in s && forall c | c in s[1..] :: c in s;
      assert (s + [DigitChar(d)] + rest)[1..] == s[1..] + [DigitChar(d)] + rest && (s + rest)[1..] == s[1..] + rest;
      DigitsAppend(s[1..], 10 * acc + (s[0] - '0') as int, d, rest);
    }
  }

  lemma {:induction false} DecimalDigits(n: nat)
    ensures Decimal(n) != [] && (forall c | c in Decimal(n) :: Digit(c)) && Digits(Decimal(n), 0) == n
  {
    if n >= 10 {
      DecimalDigits(n / 10);
      DigitsAppend(Decimal(n / 10), 0, n % 10, []);
      assert Decimal(n / 10) + [DigitChar(n % 10)] + [] == Decimal(n);
    }
  }

  /** A decimal number, with or without a sign, reads as itself, whatever follows its digits. */
  lemma AtoiReads(n: nat, rest: string)
    requires Over(rest)
    ensures Atoi(Decimal(n) + rest) == n && Atoi("+" + (Decimal(n) + rest)) == n && Atoi("-" + (Decimal(n) + rest)) == -(n as int)
  {
    var s := Decimal(n) + rest;
    DecimalDigits(n);
    DigitsAppend(Decimal(n), 0, 0, rest);
    assert s[0] == Decimal(n)[0] && s[0] in Decimal(n);
    assert ("+" + s)[1..] == s && ("-" + s)[1..] == s;
  }

  /** Blanks before a number do not count; a text without a number reads as 0. */
  lemma AtoiSkips(s: string)
    ensures Atoi(" " + s) == Atoi(s)
    ensures Over(s) && (s != [] ==> s[0] !in " +-") ==> Atoi(s) == 0
  {
    assert (" " + s)[1..] == s;
  }

  /** A sign, and only that, makes a label argument an offset. */
  lemma SignIsOffset(s: string)
    ensures IsOffset("+" + s) && IsOffset("-" + s) && (IsOffset(s) <==> s != [] && s[0] in "+-")
  {
  }

  /** An integer argument is emitted as its value, a negative one as its complement. */
  lemma IntegerEmitted(tb: Tables, chain: seq<Node>, base: nat, op: string, n: nat, ip: nat)
    requires n < WORD
    ensures ArgWord(tb, chain, base, Op(IntArg, op, Decimal(n)), ip) == n
    ensures (ArgWord(tb, chain, base, Op(IntArg, op, "-" + Decimal(n)), ip) + n) % WORD == 0
  {
    AtoiReads(n, []);
    assert Decimal(n) + [] == Decimal(n);
  }

  // ---------------------------------------------------------------- data

  /** A datum is repeated as often as its count says, its type before its value; not at all for a count below 1. */
  lemma {:induction false} RepeatAt(kind: nat, w: nat, n: int, i: nat)
    ensures |Repeat(kind, w, n)| == if n > 0 then 2 * n else 0
    ensures i < n ==> Repeat(kind, w, n)[2 * i] == kind && Repeat(kind, w, n)[2 * i + 1] == w
    decreases if n > 0 then n else 0
  {
    if n > 0 { RepeatAt(kind, w, n - 1, if i > 0 then i - 1 else 0); }
  }

  /** A data node emits its datum as often as its count says. */
  lemma DatumEmitted(tb: Tables, kind: nat, text: string, count: nat, i: nat)
    requires i < count
    ensures var d := NodeData(tb, Data(kind, text, Decimal(count)));
            |d| == 2 * count && d[2 * i] == kind && d[2 * i + 1] == tb.datum(kind, text)
  {
    AtoiReads(count, []);
    assert Decimal(count) + [] == Decimal(count);
    RepeatAt(kind, tb.datum(kind, text), count, i);
  }

  /** The data segment is the data of the nodes in order. */
  lemma {:induction false} DataInOrder(tb: Tables, a: seq<Node>, b: seq<Node>)
    ensures DataWords(tb, a + b) == DataWords(tb, a) + DataWords(tb, b)
    ensures forall n | n in a :: !n.Data? ==> NodeData(tb, n) == []
  {
    if a == [] {
      assert a + b == b;
    } else {
      assert (a + b)[1..] == a[1..] + b;
      DataInOrder(tb, a[1..], b);
    }
  }

  // -------------------------------------------------------- what is noted

  /** The name and the argument of each pseudo-opcode of the chain, in order. */
  function Notes(rest: seq<Node>): seq<(string, string)> {
    if rest == [] then []
    else (if rest[0].Op? && rest[0].ty == StringArg && rest[0].op in {"__LL__", "__RQ__"} then [(rest[0].op, rest[0].arg)] else [])
         + Notes(rest[1..])
  }

  /** The arguments of the notes with the given name. */
  function ArgsOf(tb: Tables, notes: seq<(string, string)>, name: string): seq<Text> {
    if notes == [] then []
    else (if notes[0].0 == name then [tb.bytes(notes[0].1)] else []) + ArgsOf(tb, notes[1..], name)
  }

  /** The libraries to load are the arguments of the `__LL__` nodes, those required the arguments of the `__RQ__` nodes, and
      no pseudo-opcode is anything else. */
  lemma {:induction false} RequestsAreNotes(tb: Tables, rest: seq<Node>)
    ensures Requests(tb, rest, "__LL__") == ArgsOf(tb, Notes(rest), "__LL__")
    ensures Requests(tb, rest, "__RQ__") == ArgsOf(tb, Notes(rest), "__RQ__")
    ensures |Requests(tb, rest, "__LL__")| + |Requests(tb, rest, "__RQ__")| == |Notes(rest)|
  {
    if rest != [] {
      RequestsAreNotes(tb, rest[1..]);
      if rest[0].Op? && rest[0].ty == StringArg && rest[0].op in {"__LL__", "__RQ__"} {
        var note := (rest[0].op, rest[0].arg);
        assert Notes(rest) == [note] + Notes(rest[1..]) && Notes(rest)[1..] == Notes(rest[1..]);
      } else {
        assert Notes(rest) == Notes(rest[1..]);
      }
    }
  }

  function OpNodes(rest: seq<Node>): nat {
    if rest == [] then 0 else OpNodes(rest[1..]) + if rest[0].Op? then 1 else 0
  }

  /** Every opcode emits two words, but for those that are only noted. */
  lemma {:induction false} OthersEmit(tb: Tables, chain: seq<Node>, base: nat, rest: seq<Node>, ip: nat)
    ensures |Notes(rest)| <= OpNodes(rest) && |Emit(tb, chain, base, rest, ip)| == 2 * (OpNodes(rest) - |Notes(rest)|)
  {
    hide ArgWord;
    if rest != [] { OthersEmit(tb, chain, base, rest[1..], Past(rest[0], ip)); }
  }

  /** The string of a node that has one. */
  predicate HasString(n: Node, s: string) {
    (n.Op? && n.ty == StringArg && n.arg == s) || (n.Data? && n.kind == STRING_DATA && n.text == s)
  }

  /** The nodes that have a string. */
  function StringNodes(rest: seq<Node>): seq<Node> {
    if rest == [] then []
    else (if HasString(rest[0], if rest[0].Op? then rest[0].arg else if rest[0].Data? then rest[0].text else "")
          then [rest[0]] else []) + StringNodes(rest[1..])
  }

  /** The interned strings are the strings of the nodes that have one, in order. */
  lemma {:induction false} StringsAre(tb: Tables, rest: seq<Node>, i: nat, s: string)
    ensures |Strings(tb, rest)| == |StringNodes(rest)|
    ensures i < |StringNodes(rest)| && HasString(StringNodes(rest)[i], s) ==> Strings(tb, rest)[i] == tb.bytes(s)
  {
    if rest != [] {
      var k := |NodeStrings(tb, rest[0])|;
      StringsAre(tb, rest[1..], if i >= k then i - k else 0, s);
    }
  }
}
