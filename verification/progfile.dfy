/** The binary program format: what is written, with what follows it, and how it is read back. */
module ProgramFile {
  import opened Options
  import opened Words
  import opened TextSegs
  import opened ByteIO
  import OpcodeDicts

  /** A compact program: opcodes, strings and environment symbols are indices into its own tables. */
  datatype File = File(libs: seq<Text>, reqs: seq<Text>, env: seq<Text>, strings: seq<Text>, dict: seq<seq<Text>>,
                       labels: seq<(Text, nat)>, code: seq<(nat, nat)>, data: seq<(nat, nat)>)

  const END: nat := 0xFFFF_FFFF
  const ENDIAN_TEST: nat := 0x0100_0000

  function Ascii(s: string): Text {
    seq(|s|, i requires 0 <= i < |s| => if '\0' < s[i] < '\U{0080}' then s[i] as nat else 63)
  }

  const LIB: Text := Ascii("LIB")
  const REQ: Text := Ascii("REQ")
  const ENV: Text := Ascii("ENV")
  const STRINGS: Text := Ascii("STRINGS")
  const DIC: Text := Ascii("DIC")
  const LABELS: Text := Ascii("LABELS-")
  const CODE: Text := Ascii("CODE---")
  const DATA: Text := Ascii("DATA---")
  const SHEBANG: Text := Ascii("#!/usr/bin/env tinyaml\nBML_PRG")

  // --------------------------------------------------------------- writing

  function Word(w: nat, rest: seq<byte>): seq<byte> {
    PutWord(w) + rest
  }

  function Str(t: Text, rest: seq<byte>): seq<byte> {
    PutText(t) + rest
  }

  function PutRecords(ts: seq<Text>, rest: seq<byte>): seq<byte> {
    if ts == [] then rest else Word(1 + |ts[0]|, Str(ts[0], PutRecords(ts[1..], rest)))
  }

  /** A counted list of texts. */
  function PutTable(ts: seq<Text>, rest: seq<byte>): seq<byte> {
    Word(|ts|, PutRecords(ts, Word(END, rest)))
  }

  function PutSection(name: Text, ts: seq<Text>, rest: seq<byte>): seq<byte> {
    Str(name, PutTable(ts, rest))
  }

  function PutRows(rows: seq<seq<Text>>, rest: seq<byte>): seq<byte> {
    if rows == [] then rest else PutTable(rows[0], PutRows(rows[1..], rest))
  }

  function PutDict(rows: seq<seq<Text>>, rest: seq<byte>): seq<byte> {
    Str(DIC, Word(OpcodeDicts.TYPES, PutRows(rows, rest)))
  }

  function PutLabelRecords(ls: seq<(Text, nat)>, rest: seq<byte>): seq<byte> {
    if ls == [] then rest else Word(|ls[0].0|, Str(ls[0].0, Word(ls[0].1, PutLabelRecords(ls[1..], rest))))
  }

  /** The count is one more than the number of labels: index 0 is not written. */
  function PutLabels(ls: seq<(Text, nat)>, rest: seq<byte>): seq<byte> {
    Str(LABELS, Word(1 + |ls|, PutLabelRecords(ls, Word(END, rest))))
  }

  function PutPairs(ps: seq<(nat, nat)>, rest: seq<byte>): seq<byte> {
    if ps == [] then rest else Word(ps[0].0, Word(ps[0].1, PutPairs(ps[1..], rest)))
  }

  function PutCode(ps: seq<(nat, nat)>, rest: seq<byte>): seq<byte> {
    Str(CODE, Word(2 * |ps|, PutPairs(ps, Word(END, rest))))
  }

  function PutData(ps: seq<(nat, nat)>, rest: seq<byte>): seq<byte> {
    Str(DATA, Word(2 * |ps|, PutPairs(ps, rest)))
  }

  function PutHeader(rest: seq<byte>): seq<byte> {
    Str(SHEBANG, Word(ENDIAN_TEST, rest))
  }

  function PutTail(f: File, rest: seq<byte>): seq<byte> {
    PutDict(f.dict, PutLabels(f.labels, PutCode(f.code, PutData(f.data, rest))))
  }

  function PutFile(f: File, rest: seq<byte>): seq<byte> {
    PutHeader(PutSection(LIB, f.libs, PutSection(REQ, f.reqs,
              PutSection(ENV, f.env, PutSection(STRINGS, f.strings, PutTail(f, rest))))))
  }

  // --------------------------------------------------------------- reading

  /** Skip the text `t`, which must come next. */
  function Expect(t: Text, s: seq<byte>): Option<seq<byte>> {
    var r :- GetText(s, BUFFER);
    if r.0 == t then Some(r.1) else None
  }

  function ExpectWord(w: nat, s: seq<byte>): Option<seq<byte>> {
    var r :- GetWord(s);
    if r.0 == w then Some(r.1) else None
  }

  function GetRecord(s: seq<byte>): Option<(Text, seq<byte>)> {
    var w :- GetWord(s);
    var t :- GetText(w.1, BUFFER);
    if w.0 == 1 + |t.0| then Some(t) else None
  }

  function GetRecords(n: nat, s: seq<byte>): Option<(seq<Text>, seq<byte>)> {
    if n == 0 then Some(([], s))
    else
      var t :- GetRecord(s);
      var ts :- GetRecords(n - 1, t.1);
      Some(([t.0] + ts.0, ts.1))
  }

  /** A string table: its first text is always read, and must be empty. */
  function GetSection(name: Text, s: seq<byte>): Option<(seq<Text>, seq<byte>)> {
    var s1 :- Expect(name, s);
    var n :- GetWord(s1);
    var t :- GetRecord(n.1);
    if t.0 != [] then None
    else
      var ts :- GetRecords(if n.0 == 0 then 0 else n.0 - 1, t.1);
      var s2 :- ExpectWord(END, ts.1);
      Some(([t.0] + ts.0, s2))
  }

  function GetRow(s: seq<byte>): Option<(seq<Text>, seq<byte>)> {
    var n :- GetWord(s);
    var ts :- GetRecords(n.0, n.1);
    var s1 :- ExpectWord(END, ts.1);
    Some((ts.0, s1))
  }

  function GetRows(n: nat, s: seq<byte>): Option<(seq<seq<Text>>, seq<byte>)> {
    if n == 0 then Some(([], s))
    else
      var r :- GetRow(s);
      var rs :- GetRows(n - 1, r.1);
      Some(([r.0] + rs.0, rs.1))
  }

  function GetDict(s: seq<byte>): Option<(seq<seq<Text>>, seq<byte>)> {
    var s1 :- Expect(DIC, s);
    var s2 :- ExpectWord(OpcodeDicts.TYPES, s1);
    GetRows(OpcodeDicts.TYPES, s2)
  }

  function GetLabelRecord(s: seq<byte>): Option<((Text, nat), seq<byte>)> {
    var w :- GetWord(s);
    var t :- GetText(w.1, BUFFER);
    if w.0 != |t.0| then None
    else
      var o :- GetWord(t.1);
      Some(((t.0, o.0), o.1))
  }

  function GetLabelRecords(n: nat, s: seq<byte>): Option<(seq<(Text, nat)>, seq<byte>)> {
    if n == 0 then Some(([], s))
    else
      var l :- GetLabelRecord(s);
      var ls :- GetLabelRecords(n - 1, l.1);
      Some(([l.0] + ls.0, ls.1))
  }

  function GetLabels(s: seq<byte>): Option<(seq<(Text, nat)>, seq<byte>)> {
    var s1 :- Expect(LABELS, s);
    var n :- GetWord(s1);
    var ls :- GetLabelRecords(if n.0 == 0 then 0 else n.0 - 1, n.1);
    var s2 :- ExpectWord(END, ls.1);
    Some((ls.0, s2))
  }

  function GetPair(s: seq<byte>): Option<((nat, nat), seq<byte>)> {
    var a :- GetWord(s);
    var b :- GetWord(a.1);
    Some(((a.0, b.0), b.1))
  }

  function GetPairs(n: nat, s: seq<byte>): Option<(seq<(nat, nat)>, seq<byte>)> {
    if n == 0 then Some(([], s))
    else
      var p :- GetPair(s);
      var ps :- GetPairs(n - 1, p.1);
      Some(([p.0] + ps.0, ps.1))
  }

  /** Two words are read at a time, also for an odd count. */
  function GetCode(s: seq<byte>): Option<(seq<(nat, nat)>, seq<byte>)> {
    var s1 :- Expect(CODE, s);
    var n :- GetWord(s1);
    var ps :- GetPairs((n.0 + 1) / 2, n.1);
    var s2 :- ExpectWord(END, ps.1);
    Some((ps.0, s2))
  }

  function GetData(s: seq<byte>): Option<(seq<(nat, nat)>, seq<byte>)> {
    var s1 :- Expect(DATA, s);
    var n :- GetWord(s1);
    GetPairs((n.0 + 1) / 2, n.1)
  }

  function GetHeader(s: seq<byte>): Option<seq<byte>> {
    var s1 :- Expect(SHEBANG, s);
    ExpectWord(ENDIAN_TEST, s1)
  }

  datatype Segments = Segments(libs: seq<Text>, reqs: seq<Text>, env: seq<Text>, strings: seq<Text>)

  /** The four string tables. */
  function GetSegments(s: seq<byte>): (r: Option<(Segments, seq<byte>)>)
    ensures r.Some? ==> r.value.0.libs != [] && r.value.0.reqs != [] && r.value.0.env != [] && r.value.0.strings != []
  {
    var libs :- GetSection(LIB, s);
    var reqs :- GetSection(REQ, libs.1);
    var env :- GetSection(ENV, reqs.1);
    var strings :- GetSection(STRINGS, env.1);
    Some((Segments(libs.0, reqs.0, env.0, strings.0), strings.1))
  }

  function GetFile(s: seq<byte>): Option<(File, seq<byte>)> {
    var s1 :- GetHeader(s);
    var t :- GetSegments(s1);
    var dict :- GetDict(t.1);
    var labels :- GetLabels(dict.1);
    var code :- GetCode(labels.1);
    var data :- GetData(code.1);
    Some((File(t.0.libs, t.0.reqs, t.0.env, t.0.strings, dict.0, labels.0, code.0, data.0), data.1))
  }

  // ------------------------------------------------------------ round trip

  ghost predicate PrintableAll(ts: seq<Text>) {
    |ts| < WORD / 4 && forall t | t in ts :: Printable(t)
  }

  ghost predicate WordsAll(ps: seq<(nat, nat)>) {
    |ps| < WORD / 4 && forall p | p in ps :: p.0 < WORD && p.1 < WORD
  }

  ghost predicate LabelsAll(ls: seq<(Text, nat)>) {
    |ls| < WORD / 4 && forall l | l in ls :: Printable(l.0) && l.1 < WORD
  }

  ghost predicate IsTable(ts: seq<Text>) {
    PrintableAll(ts) && ts != [] && ts[0] == []
  }

  /** Texts fit the read buffer, numbers fit in words, and each table starts with the empty text. */
  ghost predicate Storable(f: File) {
    && IsTable(f.libs) && IsTable(f.reqs) && IsTable(f.env) && IsTable(f.strings)
    && |f.dict| == OpcodeDicts.TYPES && (forall r | r in f.dict :: PrintableAll(r))
    && LabelsAll(f.labels) && WordsAll(f.code) && WordsAll(f.data)
  }

  lemma ExpectRoundTrip(t: Text, rest: seq<byte>)
    requires Printable(t)
    ensures Expect(t, Str(t, rest)) == Some(rest)
  {
    TextRoundTrip(t, rest);
  }

  lemma ExpectWordRoundTrip(w: nat, rest: seq<byte>)
    requires w < WORD
    ensures ExpectWord(w, Word(w, rest)) == Some(rest)
  {
    WordRoundTrip(w, rest);
  }

  lemma AsciiPrintable(s: string)
    requires |s| < 1000
    ensures Printable(Ascii(s))
  {
  }

  lemma RecordRoundTrip(t: Text, rest: seq<byte>)
    requires Printable(t)
    ensures GetRecord(Word(1 + |t|, Str(t, rest))) == Some((t, rest))
  {
    WordRoundTrip(1 + |t|, Str(t, rest));
    TextRoundTrip(t, rest);
  }

  lemma {:induction false} RecordsRoundTrip(ts: seq<Text>, rest: seq<byte>)
    requires forall t | t in ts :: Printable(t)
    ensures GetRecords(|ts|, PutRecords(ts, rest)) == Some((ts, rest))
  {
    hide GetRecord, Word, Str;
    if ts != [] {
      RecordRoundTrip(ts[0], PutRecords(ts[1..], rest));
      RecordsRoundTrip(ts[1..], rest);
      assert ts == [ts[0]] + ts[1..];
    }
  }

  lemma SectionRoundTrip(name: Text, ts: seq<Text>, rest: seq<byte>)
    requires Printable(name) && IsTable(ts)
    ensures GetSection(name, PutSection(name, ts, rest)) == Some((ts, rest))
  {
    hide GetRecord, Word, Str, Expect, ExpectWord, Printable;
    var s := Word(END, rest);
    assert Printable(ts[0]);
    ExpectRoundTrip(name, PutTable(ts, rest));
    CountRoundTrip(|ts|, PutRecords(ts, s));
    RecordRoundTrip(ts[0], PutRecords(ts[1..], s));
    RecordsRoundTrip(ts[1..], s);
    ExpectWordRoundTrip(END, rest);
    assert ts == [[]] + ts[1..];
  }

  lemma CountRoundTrip(n: nat, rest: seq<byte>)
    requires n < WORD
    ensures GetWord(Word(n, rest)) == Some((n, rest))
  {
    WordRoundTrip(n, rest);
  }

  lemma RowRoundTrip(ts: seq<Text>, rest: seq<byte>)
    requires PrintableAll(ts)
    ensures GetRow(PutTable(ts, rest)) == Some((ts, rest))
  {
    hide GetRecord, GetRecords, Word, Str, ExpectWord, Printable;
    CountRoundTrip(|ts|, PutRecords(ts, Word(END, rest)));
    RecordsRoundTrip(ts, Word(END, rest));
    ExpectWordRoundTrip(END, rest);
  }

  lemma {:induction false} RowsRoundTrip(rows: seq<seq<Text>>, rest: seq<byte>)
    requires forall r | r in rows :: PrintableAll(r)
    ensures GetRows(|rows|, PutRows(rows, rest)) == Some((rows, rest))
  {
    hide GetRow, PutTable, PrintableAll;
    if rows != [] {
      RowRoundTrip(rows[0], PutRows(rows[1..], rest));
      RowsRoundTrip(rows[1..], rest);
      assert rows == [rows[0]] + rows[1..];
    }
  }

  lemma DictRoundTrip(rows: seq<seq<Text>>, rest: seq<byte>)
    requires |rows| == OpcodeDicts.TYPES && forall r | r in rows :: PrintableAll(r)
    ensures GetDict(PutDict(rows, rest)) == Some((rows, rest))
  {
    hide Expect, ExpectWord, GetRows, PutRows, Word, Str, PrintableAll, Ascii;
    AsciiPrintable("DIC");
    ExpectRoundTrip(DIC, Word(OpcodeDicts.TYPES, PutRows(rows, rest)));
    ExpectWordRoundTrip(OpcodeDicts.TYPES, PutRows(rows, rest));
    RowsRoundTrip(rows, rest);
  }

  lemma LabelRoundTrip(l: (Text, nat), rest: seq<byte>)
    requires Printable(l.0) && l.1 < WORD
    ensures GetLabelRecord(Word(|l.0|, Str(l.0, Word(l.1, rest)))) == Some((l, rest))
  {
    CountRoundTrip(|l.0|, Str(l.0, Word(l.1, rest)));
    TextRoundTrip(l.0, Word(l.1, rest));
    CountRoundTrip(l.1, rest);
  }

  lemma {:induction false} LabelRecordsRoundTrip(ls: seq<(Text, nat)>, rest: seq<byte>)
    requires forall l | l in ls :: Printable(l.0) && l.1 < WORD
    ensures GetLabelRecords(|ls|, PutLabelRecords(ls, rest)) == Some((ls, rest))
  {
    hide GetLabelRecord, Word, Str, Printable;
    if ls != [] {
      LabelRoundTrip(ls[0], PutLabelRecords(ls[1..], rest));
      LabelRecordsRoundTrip(ls[1..], rest);
      assert ls == [ls[0]] + ls[1..];
    }
  }

  lemma LabelsRoundTrip(ls: seq<(Text, nat)>, rest: seq<byte>)
    requires LabelsAll(ls)
    ensures GetLabels(PutLabels(ls, rest)) == Some((ls, rest))
  {
    hide Expect, ExpectWord, GetLabelRecords, PutLabelRecords, Word, Str, Printable, Ascii;
    var s := PutLabelRecords(ls, Word(END, rest));
    AsciiPrintable("LABELS-");
    ExpectRoundTrip(LABELS, Word(1 + |ls|, s));
    CountRoundTrip(1 + |ls|, s);
    LabelRecordsRoundTrip(ls, Word(END, rest));
    ExpectWordRoundTrip(END, rest);
  }

  lemma {:induction false} PairsRoundTrip(ps: seq<(nat, nat)>, rest: seq<byte>)
    requires forall p | p in ps :: p.0 < WORD && p.1 < WORD
    ensures GetPairs(|ps|, PutPairs(ps, rest)) == Some((ps, rest))
  {
    hide Word;
    if ps != [] {
      CountRoundTrip(ps[0].0, Word(ps[0].1, PutPairs(ps[1..], rest)));
      CountRoundTrip(ps[0].1, PutPairs(ps[1..], rest));
      PairsRoundTrip(ps[1..], rest);
      assert ps == [ps[0]] + ps[1..];
    }
  }

  lemma CodeRoundTrip(ps: seq<(nat, nat)>, rest: seq<byte>)
    requires WordsAll(ps)
    ensures GetCode(PutCode(ps, rest)) == Some((ps, rest))
  {
    hide Expect, ExpectWord, GetPairs, PutPairs, Word, Str, Ascii;
    var s := PutPairs(ps, Word(END, rest));
    AsciiPrintable("CODE---");
    ExpectRoundTrip(CODE, Word(2 * |ps|, s));
    CountRoundTrip(2 * |ps|, s);
    PairsRoundTrip(ps, Word(END, rest));
    ExpectWordRoundTrip(END, rest);
  }

  lemma DataRoundTrip(ps: seq<(nat, nat)>, rest: seq<byte>)
    requires WordsAll(ps)
    ensures GetData(PutData(ps, rest)) == Some((ps, rest))
  {
    hide Expect, GetPairs, PutPairs, Word, Str, Ascii;
    var s := PutPairs(ps, rest);
    AsciiPrintable("DATA---");
    ExpectRoundTrip(DATA, Word(2 * |ps|, s));
    CountRoundTrip(2 * |ps|, s);
    PairsRoundTrip(ps, rest);
  }

  lemma HeaderRoundTrip(rest: seq<byte>)
    ensures GetHeader(PutHeader(rest)) == Some(rest)
  {
    hide Expect, ExpectWord, Word, Str, Ascii;
    AsciiPrintable("#!/usr/bin/env tinyaml\nBML_PRG");
    ExpectRoundTrip(SHEBANG, Word(ENDIAN_TEST, rest));
    ExpectWordRoundTrip(ENDIAN_TEST, rest);
  }

  lemma NamesPrintable()
    ensures Printable(LIB) && Printable(REQ) && Printable(ENV) && Printable(STRINGS)
  {
    AsciiPrintable("LIB");
    AsciiPrintable("REQ");
    AsciiPrintable("ENV");
    AsciiPrintable("STRINGS");
  }

  /** Reading what was written gives the same file, and leaves what follows it. */
  lemma FileRoundTrip(f: File, rest: seq<byte>)
    requires Storable(f)
    ensures GetFile(PutFile(f, rest)) == Some((f, rest))
  {
    hide GetHeader, PutHeader, GetSection, PutSection, GetDict, PutDict, GetLabels, PutLabels,
         GetCode, PutCode, GetData, PutData, Ascii, Printable, IsTable, LabelsAll, WordsAll, PrintableAll;
    NamesPrintable();
    var s5 := PutTail(f, rest);
    var s4 := PutSection(STRINGS, f.strings, s5);
    var s3 := PutSection(ENV, f.env, s4);
    var s2 := PutSection(REQ, f.reqs, s3);
    HeaderRoundTrip(PutSection(LIB, f.libs, s2));
    SectionRoundTrip(LIB, f.libs, s2);
    SectionRoundTrip(REQ, f.reqs, s3);
    SectionRoundTrip(ENV, f.env, s4);
    SectionRoundTrip(STRINGS, f.strings, s5);
    DictRoundTrip(f.dict, PutLabels(f.labels, PutCode(f.code, PutData(f.data, rest))));
    LabelsRoundTrip(f.labels, PutCode(f.code, PutData(f.data, rest)));
    CodeRoundTrip(f.code, PutData(f.data, rest));
    DataRoundTrip(f.data, rest);
  }
}
