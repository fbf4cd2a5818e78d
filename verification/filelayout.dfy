/** Where each field of a program stands among the bytes of its file. */
module FileLayout {
  import opened Options
  import opened Words
  import opened TextSegs
  import opened ByteIO
  import opened ProgramFile
  import OpcodeDicts

  /** A word is stored with its lowest byte first. */
  lemma {:induction false} BytesLayout(w: nat, n: nat, k: nat)
    requires k < n
    ensures Power(k) > 0 && WordBytes(w, n)[k] == (w / Power(k)) % 256
  {
    PowerPositive(k);
    if k > 0 {
      BytesLayout(w / 256, n - 1, k - 1);
      DivTwice(w, Power(k - 1));
    }
  }

  lemma {:induction false} PowerPositive(n: nat)
    ensures Power(n) > 0
  {
    if n > 0 { PowerPositive(n - 1); }
  }

  lemma DivTwice(w: nat, p: nat)
    requires p > 0
    ensures w / 256 / p == w / (256 * p)
  {
    var q, r := w / 256, w % 256;
    var a, b := q / p, q % p;
    assert w == 256 * (p * a + b) + r;
    assert w == (256 * p) * a + (256 * b + r) by {
      assert 256 * (p * a + b) == (256 * p) * a + 256 * b;
    }
    assert 0 <= 256 * b + r < 256 * p;
    DivIs(w, 256 * p, a, 256 * b + r);
  }

  lemma MulOrder(m: nat, a: nat, b: nat)
    requires a < b
    ensures m * a + m <= m * b
  {
    assert m * (b - a - 1) >= 0;
  }

  lemma DivIs(w: nat, m: nat, a: nat, r: nat)
    requires m > 0 && w == m * a + r && r < m
    ensures w / m == a
  {
    var d := w / m;
    assert w == m * d + w % m;
    if d < a { MulOrder(m, d, a); } else if d > a { MulOrder(m, a, d); }
  }

  /** In the fourth byte of a wordcode, the upper half is the type of the argument, the lower half the top of the index. */
  lemma WordcodeLayout(t: nat, op: nat)
    requires t < 16 && op < OpcodeDicts.OP_LIMIT
    ensures PutWord(OpcodeDicts.MakeWc(t, op))[3] == 16 * t + op / 0x100_0000
  {
    hide WordBytes;
    BytesLayout(OpcodeDicts.MakeWc(t, op), 8, 3);
    ThirdPower();
    TopByte(t, op);
  }

  lemma ThirdPower()
    ensures Power(3) == 0x100_0000
  {
    assert Power(2) == 0x1_0000;
  }

  lemma TopByte(t: nat, op: nat)
    requires t < 16 && op < 0x1000_0000
    ensures (t * 0x1000_0000 + op) / 0x100_0000 % 256 == 16 * t + op / 0x100_0000
  {
    var h, l := op / 0x100_0000, op % 0x100_0000;
    assert t * 0x1000_0000 + op == 0x100_0000 * (16 * t + h) + l;
    DivIs(t * 0x1000_0000 + op, 0x100_0000, 16 * t + h, l);
  }

  lemma {:induction false} PairsAppend(ps: seq<(nat, nat)>, rest: seq<byte>)
    ensures PutPairs(ps, rest) == PutPairs(ps, []) + rest && |PutPairs(ps, [])| == 16 * |ps|
  {
    hide WordBytes;
    if ps != [] { PairsAppend(ps[1..], rest); }
  }

  /** Cell `i` of a segment takes 16 bytes: the opcode word or type, and the argument or value. */
  lemma {:induction false} PairsLayout(ps: seq<(nat, nat)>, i: nat)
    requires i < |ps|
    ensures |PutPairs(ps, [])| == 16 * |ps|
    ensures PutPairs(ps, [])[16 * i..16 * i + 16] == PutWord(ps[i].0) + PutWord(ps[i].1)
  {
    hide WordBytes;
    var cell := PutWord(ps[0].0) + PutWord(ps[0].1);
    PairsAppend(ps, []);
    PairsAppend(ps[1..], []);
    assert PutPairs(ps, []) == cell + PutPairs(ps[1..], []) && |cell| == 16;
    if i > 0 {
      PairsLayout(ps[1..], i - 1);
      assert PutPairs(ps, [])[16 * i..16 * i + 16] == PutPairs(ps[1..], [])[16 * (i - 1)..16 * (i - 1) + 16];
    } else {
      assert PutPairs(ps, [])[0..16] == cell;
    }
  }

  lemma {:induction false} RecordsAppend(ts: seq<Text>, rest: seq<byte>)
    ensures PutRecords(ts, rest) == PutRecords(ts, []) + rest
  {
    hide PutWord;
    if ts != [] { RecordsAppend(ts[1..], rest); }
  }

  lemma TableAppend(ts: seq<Text>, rest: seq<byte>)
    ensures PutTable(ts, rest) == PutTable(ts, []) + rest
  {
    hide PutWord, PutRecords;
    RecordsAppend(ts, Word(END, rest));
    RecordsAppend(ts, Word(END, []));
  }

  lemma SectionAppend(name: Text, ts: seq<Text>, rest: seq<byte>)
    ensures PutSection(name, ts, rest) == PutSection(name, ts, []) + rest
  {
    hide PutTable;
    TableAppend(ts, rest);
  }

  lemma {:induction false} RowsAppend(rows: seq<seq<Text>>, rest: seq<byte>)
    ensures PutRows(rows, rest) == PutRows(rows, []) + rest
  {
    hide PutTable;
    if rows != [] {
      RowsAppend(rows[1..], rest);
      TableAppend(rows[0], PutRows(rows[1..], rest));
      TableAppend(rows[0], PutRows(rows[1..], []));
    }
  }

  lemma DictAppend(rows: seq<seq<Text>>, rest: seq<byte>)
    ensures PutDict(rows, rest) == PutDict(rows, []) + rest
  {
    hide PutRows, PutWord;
    RowsAppend(rows, rest);
  }

  lemma {:induction false} LabelRecordsAppend(ls: seq<(Text, nat)>, rest: seq<byte>)
    ensures PutLabelRecords(ls, rest) == PutLabelRecords(ls, []) + rest
  {
    hide PutWord;
    if ls != [] { LabelRecordsAppend(ls[1..], rest); }
  }

  lemma LabelsAppend(ls: seq<(Text, nat)>, rest: seq<byte>)
    ensures PutLabels(ls, rest) == PutLabels(ls, []) + rest
  {
    hide PutWord, PutLabelRecords;
    LabelRecordsAppend(ls, Word(END, rest));
    LabelRecordsAppend(ls, Word(END, []));
  }

  /** The code section: its name, the number of its words, the cells, and the end mark. */
  lemma CodeLayout(ps: seq<(nat, nat)>, rest: seq<byte>)
    ensures PutCode(ps, rest) == Ascii("CODE---") + [0] + PutWord(2 * |ps|) + PutPairs(ps, []) + PutWord(END) + rest
  {
    hide PutWord, PutPairs, Ascii;
    PairsAppend(ps, Word(END, rest));
  }

  /** The data section: its name, the number of its words, and the cells. */
  lemma DataLayout(ps: seq<(nat, nat)>, rest: seq<byte>)
    ensures PutData(ps, rest) == Ascii("DATA---") + [0] + PutWord(2 * |ps|) + PutPairs(ps, []) + rest
  {
    hide PutWord, PutPairs, Ascii;
    PairsAppend(ps, rest);
  }

  /** A file starts with this text and its terminator, and the word that tells the byte order: the lowest byte first. */
  lemma HeaderLayout(rest: seq<byte>)
    ensures PutHeader(rest) == Ascii("#!/usr/bin/env tinyaml\nBML_PRG") + [0] + [0, 0, 0, 1, 0, 0, 0, 0] + rest
  {
    hide Ascii;
    assert PutWord(ENDIAN_TEST) == [0, 0, 0, 1, 0, 0, 0, 0] by {
      var w := ENDIAN_TEST;
      assert WordBytes(0, 4) == [0, 0, 0, 0] by { assert WordBytes(0, 2) == [0, 0]; }
      assert WordBytes(1, 5) == [1] + WordBytes(0, 4);
      assert WordBytes(0x100, 6) == [0] + WordBytes(1, 5);
      assert WordBytes(0x1_0000, 7) == [0] + WordBytes(0x100, 6);
      assert WordBytes(w, 8) == [0] + WordBytes(0x1_0000, 7);
    }
  }

  lemma CodeAppend(ps: seq<(nat, nat)>, rest: seq<byte>)
    ensures PutCode(ps, rest) == PutCode(ps, []) + rest
  {
    hide PutCode, PutPairs, PutWord, Ascii;
    CodeLayout(ps, rest);
    CodeLayout(ps, []);
  }

  lemma DataAppend(ps: seq<(nat, nat)>, rest: seq<byte>)
    ensures PutData(ps, rest) == PutData(ps, []) + rest
  {
    hide PutData, PutPairs, PutWord, Ascii;
    DataLayout(ps, rest);
    DataLayout(ps, []);
  }

  lemma Regroup(a: seq<byte>, b: seq<byte>, c: seq<byte>, d: seq<byte>, e: seq<byte>)
    ensures a + (b + (c + (d + e))) == a + b + c + d + e
  {
    assert c + (d + e) == c + d + e;
    assert b + (c + d + e) == b + c + d + e;
    assert a + (b + c + d + e) == a + b + c + d + e;
  }

  /** The second half of a file: opcodes, labels, code and data, one after the other. */
  lemma TailInOrder(f: File, rest: seq<byte>)
    ensures PutTail(f, rest) == PutDict(f.dict, []) + PutLabels(f.labels, []) + PutCode(f.code, []) + PutData(f.data, []) + rest
  {
    hide PutDict, PutLabels, PutCode, PutData;
    var data := PutData(f.data, rest);
    var code := PutCode(f.code, data);
    DataAppend(f.data, rest);
    CodeAppend(f.code, data);
    LabelsAppend(f.labels, code);
    DictAppend(f.dict, PutLabels(f.labels, code));
    Regroup(PutDict(f.dict, []), PutLabels(f.labels, []), PutCode(f.code, []), PutData(f.data, []), rest);
  }

  /** Between the header and the tail stand the libraries, requirements, symbols and strings. */
  lemma FileInOrder(f: File, rest: seq<byte>)
    ensures PutFile(f, rest) ==
            PutHeader([]) + (PutSection(Ascii("LIB"), f.libs, []) + PutSection(Ascii("REQ"), f.reqs, [])
                             + PutSection(Ascii("ENV"), f.env, []) + PutSection(Ascii("STRINGS"), f.strings, []) + PutTail(f, rest))
  {
    hide PutSection, PutTail, PutHeader, Ascii;
    var strings := PutSection(STRINGS, f.strings, PutTail(f, rest));
    var env := PutSection(ENV, f.env, strings);
    var reqs := PutSection(REQ, f.reqs, env);
    SectionAppend(STRINGS, f.strings, PutTail(f, rest));
    SectionAppend(ENV, f.env, strings);
    SectionAppend(REQ, f.reqs, env);
    SectionAppend(LIB, f.libs, reqs);
    HeaderAppend(PutSection(LIB, f.libs, reqs));
    Regroup(PutSection(LIB, f.libs, []), PutSection(REQ, f.reqs, []), PutSection(ENV, f.env, []), PutSection(STRINGS, f.strings, []),
            PutTail(f, rest));
  }

  lemma HeaderAppend(rest: seq<byte>)
    ensures PutHeader(rest) == PutHeader([]) + rest
  {
    HeaderLayout(rest);
    HeaderLayout([]);
  }
}
