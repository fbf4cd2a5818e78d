/** Which streams are accepted as a program: exactly the printed ones, but for how some counts are rounded. */
module ProgramParse {
  import opened Options
  import opened Words
  import opened TextSegs
  import opened ByteIO
  import opened ProgramFile
  import OpcodeDicts
  import opened ProgramImage

  // ------------------------------------------------------ words and texts

  lemma {:induction false} BytesOfWord(b: seq<byte>)
    ensures WordBytes(WordOf(b), |b|) == b && WordOf(b) < Power(|b|)
  {
    if b != [] { BytesOfWord(b[1..]); }
  }

  lemma WordAccepted(s: seq<byte>)
    requires GetWord(s).Some?
    ensures var w := GetWord(s).value; w.0 < WORD && s == Word(w.0, w.1)
  {
    BytesOfWord(s[..8]);
    assert Power(4) == 0x1_0000_0000 by { assert Power(2) == 0x1_0000; }
    assert Power(8) == WORD by { assert Power(6) == 0x1_0000_0000_0000; }
    assert s == s[..8] + s[8..];
  }

  lemma {:induction false} TextAccepted(s: seq<byte>, room: nat)
    requires GetText(s, room).Some?
    ensures var t := GetText(s, room).value; NulFree(t.0) && |t.0| < room && s == Str(t.0, t.1)
  {
    if s[0] != 0 {
      TextAccepted(s[1..], room - 1);
      assert s == [s[0]] + s[1..];
    }
  }

  lemma ExpectAccepted(t: Text, s: seq<byte>)
    requires Expect(t, s).Some?
    ensures s == Str(t, Expect(t, s).value)
  {
    TextAccepted(s, BUFFER);
  }

  lemma ExpectWordAccepted(w: nat, s: seq<byte>)
    requires ExpectWord(w, s).Some?
    ensures s == Word(w, ExpectWord(w, s).value)
  {
    hide PutWord, WordOf;
    WordAccepted(s);
  }

  // -------------------------------------------------------------- sections

  lemma RecordAccepted(s: seq<byte>)
    requires GetRecord(s).Some?
    ensures var t := GetRecord(s).value; Printable(t.0) && s == Word(1 + |t.0|, Str(t.0, t.1))
  {
    hide GetWord, GetText, PutWord, PutText;
    WordAccepted(s);
    TextAccepted(GetWord(s).value.1, BUFFER);
  }

  lemma {:induction false} RecordsAccepted(n: nat, s: seq<byte>)
    requires GetRecords(n, s).Some?
    ensures var ts := GetRecords(n, s).value;
            |ts.0| == n && (forall t | t in ts.0 :: Printable(t)) && s == PutRecords(ts.0, ts.1)
  {
    hide GetRecord, Word, Str, Printable;
    if n > 0 {
      RecordAccepted(s);
      RecordsAccepted(n - 1, GetRecord(s).value.1);
    }
  }

  /** A section whose count word is `c`. */
  function SectionWith(name: Text, c: nat, ts: seq<Text>, rest: seq<byte>): seq<byte> {
    Str(name, Word(c, PutRecords(ts, Word(END, rest))))
  }

  /** The first text of a table is read whatever the count is, and must be empty. */
  predicate TableOf(c: nat, ts: seq<Text>) {
    c < WORD && |ts| == (if c == 0 then 1 else c) && ts[0] == []
  }

  lemma SectionAccepted(name: Text, s: seq<byte>) returns (c: nat)
    requires GetSection(name, s).Some?
    ensures var r := GetSection(name, s).value;
            TableOf(c, r.0) && (forall t | t in r.0 :: Printable(t)) && s == SectionWith(name, c, r.0, r.1)
  {
    hide GetRecord, Expect, GetWord, ExpectWord, Word, Str, Printable;
    ExpectAccepted(name, s);
    var s1 := Expect(name, s).value;
    WordAccepted(s1);
    var n := GetWord(s1).value;
    c := n.0;
    RecordAccepted(n.1);
    var t := GetRecord(n.1).value;
    RecordsAccepted(if c == 0 then 0 else c - 1, t.1);
    var ts := GetRecords(if c == 0 then 0 else c - 1, t.1).value;
    ExpectWordAccepted(END, ts.1);
  }

  lemma SectionRead(name: Text, c: nat, ts: seq<Text>, rest: seq<byte>)
    requires Printable(name) && TableOf(c, ts) && forall t | t in ts :: Printable(t)
    ensures GetSection(name, SectionWith(name, c, ts, rest)) == Some((ts, rest))
  {
    hide GetRecord, Expect, GetWord, ExpectWord, Word, Str, Printable;
    var tail := PutRecords(ts[1..], Word(END, rest));
    ExpectRoundTrip(name, Word(c, PutRecords(ts, Word(END, rest))));
    WordRead(c, PutRecords(ts, Word(END, rest)));
    assert ts[0] in ts && forall t | t in ts[1..] :: t in ts;
    RecordRoundTrip(ts[0], tail);
    RecordsRoundTrip(ts[1..], Word(END, rest));
    ExpectWordRoundTrip(END, rest);
    assert [ts[0]] + ts[1..] == ts;
  }

  lemma WordRead(w: nat, rest: seq<byte>)
    requires w < WORD
    ensures GetWord(Word(w, rest)) == Some((w, rest))
  {
    WordRoundTrip(w, rest);
  }

  lemma RowAccepted(s: seq<byte>)
    requires GetRow(s).Some?
    ensures var r := GetRow(s).value; |r.0| < WORD && (forall t | t in r.0 :: Printable(t)) && s == PutTable(r.0, r.1)
  {
    hide GetWord, GetRecords, ExpectWord, Word, Printable;
    WordAccepted(s);
    var n := GetWord(s).value;
    RecordsAccepted(n.0, n.1);
    ExpectWordAccepted(END, GetRecords(n.0, n.1).value.1);
  }

  /** A row of opcode names fits the format. */
  ghost predicate RowFits(ts: seq<Text>) {
    |ts| < WORD && forall t | t in ts :: Printable(t)
  }

  lemma {:induction false} RowsAccepted(n: nat, s: seq<byte>)
    requires GetRows(n, s).Some?
    ensures var r := GetRows(n, s).value; |r.0| == n && (forall ts | ts in r.0 :: RowFits(ts)) && s == PutRows(r.0, r.1)
  {
    hide GetRow, PutTable, Printable;
    if n > 0 {
      RowAccepted(s);
      RowsAccepted(n - 1, GetRow(s).value.1);
    }
  }

  lemma DictAccepted(s: seq<byte>)
    requires GetDict(s).Some?
    ensures var r := GetDict(s).value;
            |r.0| == OpcodeDicts.TYPES && (forall ts | ts in r.0 :: RowFits(ts)) && s == PutDict(r.0, r.1)
  {
    hide Expect, ExpectWord, GetRows, Word, Str, RowFits;
    ExpectAccepted(DIC, s);
    var s1 := Expect(DIC, s).value;
    ExpectWordAccepted(OpcodeDicts.TYPES, s1);
    RowsAccepted(OpcodeDicts.TYPES, ExpectWord(OpcodeDicts.TYPES, s1).value);
  }

  lemma RowRead(ts: seq<Text>, rest: seq<byte>)
    requires RowFits(ts)
    ensures GetRow(PutTable(ts, rest)) == Some((ts, rest))
  {
    hide GetRecord, GetWord, ExpectWord, Word, Printable;
    WordRead(|ts|, PutRecords(ts, Word(END, rest)));
    RecordsRoundTrip(ts, Word(END, rest));
    ExpectWordRoundTrip(END, rest);
  }

  lemma {:induction false} RowsRead(rows: seq<seq<Text>>, rest: seq<byte>)
    requires forall ts | ts in rows :: RowFits(ts)
    ensures GetRows(|rows|, PutRows(rows, rest)) == Some((rows, rest))
  {
    hide GetRow, PutTable, RowFits;
    if rows != [] {
      RowRead(rows[0], PutRows(rows[1..], rest));
      RowsRead(rows[1..], rest);
      assert rows == [rows[0]] + rows[1..];
    }
  }

  lemma DictRead(rows: seq<seq<Text>>, rest: seq<byte>)
    requires |rows| == OpcodeDicts.TYPES && forall ts | ts in rows :: RowFits(ts)
    ensures GetDict(PutDict(rows, rest)) == Some((rows, rest))
  {
    hide Expect, ExpectWord, GetRows, Word, Str, RowFits;
    AsciiPrintable("DIC");
    ExpectRoundTrip(DIC, Word(OpcodeDicts.TYPES, PutRows(rows, rest)));
    ExpectWordRoundTrip(OpcodeDicts.TYPES, PutRows(rows, rest));
    RowsRead(rows, rest);
  }

  // ------------------------------------------------- labels, code and data

  ghost predicate LabelFits(l: (Text, nat)) {
    Printable(l.0) && l.1 < WORD
  }

  lemma LabelAccepted(s: seq<byte>)
    requires GetLabelRecord(s).Some?
    ensures var l := GetLabelRecord(s).value;
            LabelFits(l.0) && s == Word(|l.0.0|, Str(l.0.0, Word(l.0.1, l.1)))
  {
    hide GetWord, GetText, PutWord, PutText;
    WordAccepted(s);
    TextAccepted(GetWord(s).value.1, BUFFER);
    WordAccepted(GetText(GetWord(s).value.1, BUFFER).value.1);
  }

  lemma {:induction false} LabelRecordsAccepted(n: nat, s: seq<byte>)
    requires GetLabelRecords(n, s).Some?
    ensures var r := GetLabelRecords(n, s).value;
            |r.0| == n && (forall l | l in r.0 :: LabelFits(l)) && s == PutLabelRecords(r.0, r.1)
  {
    hide GetLabelRecord, Word, Str, LabelFits;
    if n > 0 {
      LabelAccepted(s);
      LabelRecordsAccepted(n - 1, GetLabelRecord(s).value.1);
    }
  }

  function LabelsWith(c: nat, ls: seq<(Text, nat)>, rest: seq<byte>): seq<byte> {
    Str(LABELS, Word(c, PutLabelRecords(ls, Word(END, rest))))
  }

  /** The count of labels is one too high, for index 0, or 0. */
  predicate LabelsOf(c: nat, n: nat) {
    c < WORD && n == if c == 0 then 0 else c - 1
  }

  lemma LabelsAccepted(s: seq<byte>) returns (c: nat)
    requires GetLabels(s).Some?
    ensures var r := GetLabels(s).value;
            LabelsOf(c, |r.0|) && (forall l | l in r.0 :: LabelFits(l)) && s == LabelsWith(c, r.0, r.1)
  {
    hide GetWord, GetLabelRecords, Expect, ExpectWord, Word, Str, LabelFits;
    ExpectAccepted(LABELS, s);
    var s1 := Expect(LABELS, s).value;
    WordAccepted(s1);
    var n := GetWord(s1).value;
    c := n.0;
    LabelRecordsAccepted(if c == 0 then 0 else c - 1, n.1);
    ExpectWordAccepted(END, GetLabelRecords(if c == 0 then 0 else c - 1, n.1).value.1);
  }

  lemma LabelRead(l: (Text, nat), rest: seq<byte>)
    requires LabelFits(l)
    ensures GetLabelRecord(Word(|l.0|, Str(l.0, Word(l.1, rest)))) == Some((l, rest))
  {
    hide GetWord, GetText, PutWord;
    WordRead(|l.0|, Str(l.0, Word(l.1, rest)));
    TextRoundTrip(l.0, Word(l.1, rest));
    WordRead(l.1, rest);
  }

  lemma {:induction false} LabelRecordsRead(ls: seq<(Text, nat)>, rest: seq<byte>)
    requires forall l | l in ls :: LabelFits(l)
    ensures GetLabelRecords(|ls|, PutLabelRecords(ls, rest)) == Some((ls, rest))
  {
    hide GetLabelRecord, Word, Str, LabelFits;
    if ls != [] {
      LabelRead(ls[0], PutLabelRecords(ls[1..], rest));
      LabelRecordsRead(ls[1..], rest);
      assert ls == [ls[0]] + ls[1..];
    }
  }

  lemma LabelsRead(c: nat, ls: seq<(Text, nat)>, rest: seq<byte>)
    requires LabelsOf(c, |ls|) && forall l | l in ls :: LabelFits(l)
    ensures GetLabels(LabelsWith(c, ls, rest)) == Some((ls, rest))
  {
    hide GetWord, GetLabelRecords, Expect, ExpectWord, Word, Str, LabelFits;
    AsciiPrintable("LABELS-");
    ExpectRoundTrip(LABELS, Word(c, PutLabelRecords(ls, Word(END, rest))));
    WordRead(c, PutLabelRecords(ls, Word(END, rest)));
    LabelRecordsRead(ls, Word(END, rest));
    ExpectWordRoundTrip(END, rest);
  }

  ghost predicate PairFits(p: (nat, nat)) {
    p.0 < WORD && p.1 < WORD
  }

  lemma {:induction false} PairsAccepted(n: nat, s: seq<byte>)
    requires GetPairs(n, s).Some?
    ensures var r := GetPairs(n, s).value; |r.0| == n && (forall p | p in r.0 :: PairFits(p)) && s == PutPairs(r.0, r.1)
  {
    hide GetWord, Word;
    if n > 0 {
      WordAccepted(s);
      WordAccepted(GetWord(s).value.1);
      PairsAccepted(n - 1, GetPair(s).value.1);
    }
  }

  lemma {:induction false} PairsRead(ps: seq<(nat, nat)>, rest: seq<byte>)
    requires forall p | p in ps :: PairFits(p)
    ensures GetPairs(|ps|, PutPairs(ps, rest)) == Some((ps, rest))
  {
    hide GetWord, Word;
    if ps != [] {
      assert PairFits(ps[0]);
      WordRead(ps[0].0, Word(ps[0].1, PutPairs(ps[1..], rest)));
      WordRead(ps[0].1, PutPairs(ps[1..], rest));
      PairsRead(ps[1..], rest);
      assert ps == [ps[0]] + ps[1..];
    }
  }

  function CodeWith(c: nat, ps: seq<(nat, nat)>, rest: seq<byte>): seq<byte> {
    Str(CODE, Word(c, PutPairs(ps, Word(END, rest))))
  }

  function DataWith(c: nat, ps: seq<(nat, nat)>, rest: seq<byte>): seq<byte> {
    Str(DATA, Word(c, PutPairs(ps, rest)))
  }

  /** An odd count of words is read as the next even one. */
  predicate PairsOf(c: nat, n: nat) {
    c < WORD && n == (c + 1) / 2
  }

  lemma CodeAccepted(s: seq<byte>) returns (c: nat)
    requires GetCode(s).Some?
    ensures var r := GetCode(s).value;
            PairsOf(c, |r.0|) && (forall p | p in r.0 :: PairFits(p)) && s == CodeWith(c, r.0, r.1)
  {
    hide GetWord, GetPairs, Expect, ExpectWord, Word, Str, PairFits;
    ExpectAccepted(CODE, s);
    var s1 := Expect(CODE, s).value;
    WordAccepted(s1);
    c := GetWord(s1).value.0;
    PairsAccepted((c + 1) / 2, GetWord(s1).value.1);
    ExpectWordAccepted(END, GetPairs((c + 1) / 2, GetWord(s1).value.1).value.1);
  }

  lemma DataAccepted(s: seq<byte>) returns (c: nat)
    requires GetData(s).Some?
    ensures var r := GetData(s).value;
            PairsOf(c, |r.0|) && (forall p | p in r.0 :: PairFits(p)) && s == DataWith(c, r.0, r.1)
  {
    hide GetWord, GetPairs, Expect, Word, Str, PairFits;
    ExpectAccepted(DATA, s);
    var s1 := Expect(DATA, s).value;
    WordAccepted(s1);
    c := GetWord(s1).value.0;
    PairsAccepted((c + 1) / 2, GetWord(s1).value.1);
  }

  lemma CodeRead(c: nat, ps: seq<(nat, nat)>, rest: seq<byte>)
    requires PairsOf(c, |ps|) && forall p | p in ps :: PairFits(p)
    ensures GetCode(CodeWith(c, ps, rest)) == Some((ps, rest))
  {
    hide GetWord, GetPairs, Expect, ExpectWord, Word, Str, PairFits;
    AsciiPrintable("CODE---");
    ExpectRoundTrip(CODE, Word(c, PutPairs(ps, Word(END, rest))));
    WordRead(c, PutPairs(ps, Word(END, rest)));
    PairsRead(ps, Word(END, rest));
    ExpectWordRoundTrip(END, rest);
  }

  lemma DataRead(c: nat, ps: seq<(nat, nat)>, rest: seq<byte>)
    requires PairsOf(c, |ps|) && forall p | p in ps :: PairFits(p)
    ensures GetData(DataWith(c, ps, rest)) == Some((ps, rest))
  {
    hide GetWord, GetPairs, Expect, Word, Str, PairFits;
    AsciiPrintable("DATA---");
    ExpectRoundTrip(DATA, Word(c, PutPairs(ps, rest)));
    WordRead(c, PutPairs(ps, rest));
    PairsRead(ps, rest);
  }

  lemma HeaderAccepted(s: seq<byte>)
    requires GetHeader(s).Some?
    ensures s == PutHeader(GetHeader(s).value)
  {
    hide Expect, ExpectWord, Word, Str;
    ExpectAccepted(SHEBANG, s);
    ExpectWordAccepted(ENDIAN_TEST, Expect(SHEBANG, s).value);
  }

  lemma HeaderRead(rest: seq<byte>)
    ensures GetHeader(PutHeader(rest)) == Some(rest)
  {
    hide Expect, ExpectWord, Word, Str;
    AsciiPrintable("#!/usr/bin/env tinyaml\nBML_PRG");
    ExpectRoundTrip(SHEBANG, Word(ENDIAN_TEST, rest));
    ExpectWordRoundTrip(ENDIAN_TEST, rest);
  }

  // ---------------------------------------------------------- whole files

  /** The count words of a file. */
  datatype Counts = Counts(libs: nat, reqs: nat, env: nat, strings: nat, labels: nat, code: nat, data: nat)

  /** The counts belong to what the file holds, and everything fits the format. */
  ghost predicate Fits(c: Counts, f: File) {
    && TableFits(c.libs, f.libs) && TableFits(c.reqs, f.reqs) && TableFits(c.env, f.env) && TableFits(c.strings, f.strings)
    && |f.dict| == OpcodeDicts.TYPES && (forall ts | ts in f.dict :: RowFits(ts))
    && LabelsOf(c.labels, |f.labels|) && (forall l | l in f.labels :: LabelFits(l))
    && PairsOf(c.code, |f.code|) && (forall p | p in f.code :: PairFits(p))
    && PairsOf(c.data, |f.data|) && (forall p | p in f.data :: PairFits(p))
  }

  ghost predicate TableFits(c: nat, ts: seq<Text>) {
    TableOf(c, ts) && forall t | t in ts :: Printable(t)
  }

  function TailWith(c: Counts, f: File, rest: seq<byte>): seq<byte> {
    PutDict(f.dict, LabelsWith(c.labels, f.labels, CodeWith(c.code, f.code, DataWith(c.data, f.data, rest))))
  }

  /** The bytes of `f`, printed with these counts. */
  function FileWith(c: Counts, f: File, rest: seq<byte>): seq<byte> {
    PutHeader(SectionWith(LIB, c.libs, f.libs, SectionWith(REQ, c.reqs, f.reqs,
              SectionWith(ENV, c.env, f.env, SectionWith(STRINGS, c.strings, f.strings, TailWith(c, f, rest))))))
  }

  /** A stream that is accepted is the printed form of what it is read as. */
  lemma Accepted(s: seq<byte>) returns (c: Counts)
    requires GetFile(s).Some?
    ensures var r := GetFile(s).value; Fits(c, r.0) && s == FileWith(c, r.0, r.1)
  {
    hide GetHeader, GetSection, GetDict, GetLabels, GetCode, GetData, PutHeader, SectionWith, PutDict, LabelsWith, CodeWith, DataWith,
      TableOf, LabelsOf, PairsOf, Printable, RowFits, LabelFits, PairFits;
    HeaderAccepted(s);
    var s1 := GetHeader(s).value;
    var a := SectionAccepted(LIB, s1);
    var libs := GetSection(LIB, s1).value;
    var b := SectionAccepted(REQ, libs.1);
    var reqs := GetSection(REQ, libs.1).value;
    var d := SectionAccepted(ENV, reqs.1);
    var env := GetSection(ENV, reqs.1).value;
    var e := SectionAccepted(STRINGS, env.1);
    var strings := GetSection(STRINGS, env.1).value;
    DictAccepted(strings.1);
    var dict := GetDict(strings.1).value;
    var l := LabelsAccepted(dict.1);
    var labels := GetLabels(dict.1).value;
    var k := CodeAccepted(labels.1);
    var x := DataAccepted(GetCode(labels.1).value.1);
    c := Counts(a, b, d, e, l, k, x);
  }

  /** And every such form is accepted, as that. */
  lemma Readable(c: Counts, f: File, rest: seq<byte>)
    requires Fits(c, f)
    ensures GetFile(FileWith(c, f, rest)) == Some((f, rest))
  {
    hide GetHeader, GetSection, GetDict, GetLabels, GetCode, GetData, PutHeader, SectionWith, PutDict, LabelsWith, CodeWith, DataWith,
      TableOf, LabelsOf, PairsOf, Printable, RowFits, LabelFits, PairFits;
    AsciiPrintable("LIB");
    AsciiPrintable("REQ");
    AsciiPrintable("ENV");
    AsciiPrintable("STRINGS");
    var data := DataWith(c.data, f.data, rest);
    var code := CodeWith(c.code, f.code, data);
    var labels := LabelsWith(c.labels, f.labels, code);
    var dict := PutDict(f.dict, labels);
    var strings := SectionWith(STRINGS, c.strings, f.strings, dict);
    var env := SectionWith(ENV, c.env, f.env, strings);
    var reqs := SectionWith(REQ, c.reqs, f.reqs, env);
    HeaderRead(SectionWith(LIB, c.libs, f.libs, reqs));
    SectionRead(LIB, c.libs, f.libs, reqs);
    SectionRead(REQ, c.reqs, f.reqs, env);
    SectionRead(ENV, c.env, f.env, strings);
    SectionRead(STRINGS, c.strings, f.strings, dict);
    DictRead(f.dict, labels);
    LabelsRead(c.labels, f.labels, code);
    CodeRead(c.code, f.code, data);
    DataRead(c.data, f.data, rest);
  }

  /** So the parser accepts exactly the printed forms of files, and is malformed for any other stream: a wrong section name,
      length, end mark, byte order or first text, or a stream that is cut off. */
  lemma AcceptedIff(s: seq<byte>)
    ensures GetFile(s).Some? <==> exists c, f, rest :: Fits(c, f) && s == FileWith(c, f, rest)
  {
    hide GetFile, FileWith, Fits;
    if GetFile(s).Some? {
      var c := Accepted(s);
      assert Fits(c, GetFile(s).value.0);
    }
    if c, f, rest :| Fits(c, f) && s == FileWith(c, f, rest) {
      Readable(c, f, rest);
    }
  }

  // -------------------------------------------------- arguments that are fatal

  /** Only the empty text can have index 0, and only as long as it has no other. */
  lemma ZeroIndexIff(ts: seq<Text>, t: Text)
    requires Proper(ts)
    ensures IndexWord(ts, t) == 0 <==> t == [] && [] !in ts[1..]
  {
    if LastIndex(ts, t).Some? && t == [] {
      if [] in ts[1..] {
        var j :| 0 <= j < |ts[1..]| && ts[1..][j] == [];
        LastIsLast(ts, t, j + 1);
      }
    }
  }

  /** Writing a symbol is fatal if and only if its name is empty and the symbols of the file have the empty name only at
      index 0. */
  lemma WritingFatalIff(strings: seq<Text>, env: seq<Text>, small: seq<Text>, w: nat)
    requires Proper(small)
    ensures PackArg(strings, env, small, ENVSYM_ARG, Raw(w)) == None <==> w < |env| && env[w] == [] && [] !in small[1..]
  {
    if w < |env| { ZeroIndexIff(small, env[w]); }
  }

  /** Reading one is fatal if and only if its name is empty, and the machine has the empty name only at index 0. No other
      argument is fatal: a string that is not in the file reads as 0, any other word as itself. */
  lemma ReadingFatalIff(strings: seq<Text>, env: seq<Text>, small: seq<Text>, ty: nat, w: nat)
    requires Proper(env)
    ensures UnpackArg(strings, env, small, ty, w) == None <==> ty == ENVSYM_ARG && w < |small| && small[w] == [] && [] !in env[1..]
    ensures ty == STRING_ARG && w >= |strings| ==> UnpackArg(strings, env, small, ty, w) == Some(Raw(0))
    ensures ty !in {ENVSYM_ARG, STRING_ARG} ==> UnpackArg(strings, env, small, ty, w) == Some(Raw(w))
  {
    if w < |small| { ZeroIndexIff(env, small[w]); }
  }
}
