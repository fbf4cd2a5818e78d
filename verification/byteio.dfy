/** Words and strings as a byte stream, written to and read from a file. */
module ByteIO {
  import opened Options
  import opened Words
  import opened TextSegs

  /** The first `n` bytes of a word, the lowest one first. */
  function WordBytes(w: nat, n: nat): (s: seq<byte>)
    ensures |s| == n
  {
    if n == 0 then [] else [w % 256] + WordBytes(w / 256, n - 1)
  }

  function WordOf(s: seq<byte>): nat {
    if s == [] then 0 else s[0] + 256 * WordOf(s[1..])
  }

  function Power(n: nat): nat {
    if n == 0 then 1 else 256 * Power(n - 1)
  }

  lemma {:induction false} WordOfBytes(w: nat, n: nat)
    requires w < Power(n)
    ensures WordOf(WordBytes(w, n)) == w
  {
    if n > 0 {
      WordOfBytes(w / 256, n - 1);
    }
  }

  function PutWord(w: nat): seq<byte> {
    WordBytes(w, 8)
  }

  function GetWord(s: seq<byte>): Option<(nat, seq<byte>)> {
    if |s| < 8 then None else Some((WordOf(s[..8]), s[8..]))
  }

  lemma WordRoundTrip(w: nat, rest: seq<byte>)
    requires w < WORD
    ensures GetWord(PutWord(w) + rest) == Some((w, rest))
  {
    assert Power(4) == 0x1_0000_0000 by { assert Power(2) == 0x1_0000; }
    assert Power(8) == WORD by { assert Power(6) == 0x1_0000_0000_0000; }
    WordOfBytes(w, 8);
    assert (PutWord(w) + rest)[..8] == PutWord(w);
  }

  function PutText(t: Text): seq<byte> {
    t + [0]
  }

  /** The size of the buffer that a string is read into, terminator included. */
  const BUFFER: nat := 65536

  /** The bytes up to the terminator, which must be among the first `room` bytes. */
  function GetText(s: seq<byte>, room: nat): Option<(Text, seq<byte>)> {
    if room == 0 || s == [] then None
    else if s[0] == 0 then Some(([], s[1..]))
    else
      var r := GetText(s[1..], room - 1);
      if r == None then None else Some(([s[0]] + r.value.0, r.value.1))
  }

  ghost predicate NulFree(t: Text) {
    forall i | 0 <= i < |t| :: t[i] != 0
  }

  /** A text without NUL is read back exactly when it leaves room for the terminator. */
  lemma {:induction false} TextRoundTripIff(t: Text, rest: seq<byte>, room: nat)
    requires NulFree(t)
    ensures GetText(PutText(t) + rest, room) == Some((t, rest)) <==> |t| < room
    decreases t
  {
    var s := PutText(t) + rest;
    if t == [] {
      assert s[1..] == rest;
    } else if room > 0 {
      assert s[1..] == PutText(t[1..]) + rest;
      TextRoundTripIff(t[1..], rest, room - 1);
      assert [t[0]] + t[1..] == t;
    }
  }

  /** A text that fits in the read buffer. */
  ghost predicate Printable(t: Text) {
    NulFree(t) && |t| + 1 <= BUFFER
  }

  lemma TextRoundTrip(t: Text, rest: seq<byte>)
    requires Printable(t)
    ensures GetText(PutText(t) + rest, BUFFER) == Some((t, rest))
  {
    TextRoundTripIff(t, rest, BUFFER);
  }

  class FileWriter {
    var out: seq<byte>

    constructor ()
      ensures out == []
    {
      out := [];
    }

    method WriteWord(w: nat)
      modifies this
      ensures out == old(out) + PutWord(w)
    {
      var i, x := 0, w;
      while i < 8
        invariant i <= 8 && out + WordBytes(x, 8 - i) == old(out) + PutWord(w)
      {
        out := out + [x % 256];
        x := x / 256;
        i := i + 1;
      }
    }

    method WriteString(t: Text)
      modifies this
      ensures out == old(out) + PutText(t)
    {
      out := out + t + [0];
    }
  }

  class FileReader {
    const file: seq<byte>
    var pos: nat

    constructor (f: seq<byte>)
      ensures file == f && pos == 0
    {
      file, pos := f, 0;
    }

    ghost predicate Valid()
      reads this
    {
      pos <= |file|
    }

    /** What is still to be read. */
    ghost function Rest(): seq<byte>
      requires Valid()
      reads this
    {
      file[pos..]
    }

    method ReadWord() returns (w: Option<nat>)
      requires Valid()
      modifies this`pos
      ensures Valid()
      ensures GetWord(old(Rest())) == if w == None then None else Some((w.value, Rest()))
    {
      if |file| - pos < 8 {
        return None;
      }
      w := Some(WordOf(file[pos..pos + 8]));
      assert file[pos..pos + 8] == Rest()[..8];
      pos := pos + 8;
    }

    method ReadString() returns (t: Option<Text>)
      requires Valid()
      modifies this`pos
      ensures Valid()
      ensures GetText(old(Rest()), BUFFER) == if t == None then None else Some((t.value, Rest()))
    {
      var buffy: Text := [];
      var i, c := 0, 1;
      PrependNothing(GetText(Rest(), BUFFER));
      while i < BUFFER && c != 0
        invariant i <= BUFFER && Valid() && (c != 0 ==> |buffy| == i)
        invariant GetText(old(Rest()), BUFFER) ==
                  if c == 0 then Some((buffy, Rest())) else Prepend(buffy, GetText(Rest(), BUFFER - i))
      {
        if pos == |file| {
          return None;
        }
        c := file[pos];
        PrependOne(buffy, Rest(), BUFFER - i);
        pos := pos + 1;
        i := i + 1;
        if c != 0 { buffy := buffy + [c]; }
      }
      return if c == 0 then Some(buffy) else None;
    }
  }

  ghost function Prepend(t: Text, r: Option<(Text, seq<byte>)>): Option<(Text, seq<byte>)> {
    if r == None then None else Some((t + r.value.0, r.value.1))
  }

  lemma PrependNothing(r: Option<(Text, seq<byte>)>)
    ensures Prepend([], r) == r
  {
    if r.Some? { assert [] + r.value.0 == r.value.0; }
  }

  lemma PrependOne(t: Text, s: seq<byte>, room: nat)
    requires room > 0 && s != []
    ensures Prepend(t, GetText(s, room)) == if s[0] == 0 then Some((t, s[1..])) else Prepend(t + [s[0]], GetText(s[1..], room - 1))
  {
    if s[0] != 0 && GetText(s[1..], room - 1).Some? {
      var u := GetText(s[1..], room - 1).value.0;
      assert t + ([s[0]] + u) == t + [s[0]] + u;
    } else if s[0] == 0 {
      assert t + [] == t;
    }
  }
}
