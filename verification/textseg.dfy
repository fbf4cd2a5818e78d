/** String interning: an index array and a hash table that always agree. */
module TextSegs {
  import opened Options
  import opened Words
  import HashTab

  type byte = b: nat | b < 256
  type Text = seq<byte>

  const NOT_FOUND: nat := WORD - 1

  // ------------------------------------------------- the table as a value

  /** The last index that holds `s`. */
  function LastIndex(ts: seq<Text>, s: Text): (r: Option<nat>)
    ensures r.Some? ==> r.value < |ts| && ts[r.value] == s
    ensures r == None <==> s !in ts
  {
    if ts == [] then None
    else if ts[|ts| - 1] == s then Some(|ts| - 1)
    else LastIndex(ts[..|ts| - 1], s)
  }

  /** Give `s` an index unless it has one; index 0 reads as "has none". */
  function Intern(ts: seq<Text>, s: Text): seq<Text> {
    if LastIndex(ts, s) == None || LastIndex(ts, s) == Some(0) then ts + [s] else ts
  }

  function InternAll(ts: seq<Text>, more: seq<Text>): seq<Text>
    decreases more
  {
    if more == [] then ts else InternAll(Intern(ts, more[0]), more[1..])
  }

  /** Interning is a matter of one text after the other. */
  lemma {:induction false} InternConcat(ts: seq<Text>, a: seq<Text>, b: seq<Text>)
    ensures InternAll(ts, a + b) == InternAll(InternAll(ts, a), b)
    decreases a
  {
    if a == [] {
      assert a + b == b;
    } else {
      assert (a + b)[1..] == a[1..] + b;
      InternConcat(Intern(ts, a[0]), a[1..], b);
    }
  }

  /** The index word of a text, all ones if it has none. */
  function IndexWord(ts: seq<Text>, s: Text): nat {
    if LastIndex(ts, s) == None then NOT_FOUND else LastIndex(ts, s).value
  }

  const Empty: seq<Text> := [[]]

  /** Index 0 is the empty text, and only the text at index 0 can have a second index. */
  ghost predicate Proper(ts: seq<Text>) {
    && ts != [] && ts[0] == []
    && forall i, j :: 0 <= i < j < |ts| ==> ts[i] == ts[j] ==> i == 0
  }

  /** In a proper table a text that is not empty has exactly one index. */
  lemma OneIndex(ts: seq<Text>, i: nat)
    requires Proper(ts) && 0 < i < |ts|
    ensures LastIndex(ts, ts[i]) == Some(i)
  {
    var r := LastIndex(ts, ts[i]);
    assert ts[i] in ts;
    assert ts[r.value] == ts[i];
    if r.value < i {
      LastIsLast(ts, ts[i], i);
    }
  }

  lemma LastIndexAppend(ts: seq<Text>, x: Text, s: Text)
    ensures LastIndex(ts + [x], s) == if s == x then Some(|ts|) else LastIndex(ts, s)
  {
    assert (ts + [x])[..|ts|] == ts;
  }

  lemma {:induction false} LastIsLast(ts: seq<Text>, s: Text, i: nat)
    requires i < |ts| && ts[i] == s
    ensures LastIndex(ts, s).Some? && LastIndex(ts, s).value >= i
  {
    if ts[|ts| - 1] != s {
      LastIsLast(ts[..|ts| - 1], s, i);
    }
  }

  /** Interning keeps the table proper and never moves an index. */
  lemma InternKeeps(ts: seq<Text>, s: Text)
    requires Proper(ts)
    ensures Proper(Intern(ts, s)) && ts <= Intern(ts, s)
    ensures LastIndex(Intern(ts, s), s).Some? && (s != [] ==> LastIndex(Intern(ts, s), s).value > 0)
  {
    if LastIndex(ts, s) == Some(0) {
      forall i | 0 < i < |ts| ensures ts[i] != s {
        if ts[i] == s { OneIndex(ts, i); }
      }
    }
  }

  /** Interning adds an index exactly when the text has none, or is the empty text that only index 0 holds. */
  lemma InternAddsIff(ts: seq<Text>, s: Text)
    requires Proper(ts)
    ensures Intern(ts, s) == ts + [s] <==> s !in ts[1..]
  {
    if s in ts[1..] {
      var i :| 0 < i < |ts| && ts[i] == s;
      OneIndex(ts, i);
      assert |ts + [s]| != |ts|;
    } else {
      assert forall i :: 0 < i < |ts| ==> ts[i] in ts[1..];
    }
  }

  /** The empty text, though always at index 0, takes another index the first time it is asked for. */
  lemma EmptyTakesTwo()
    ensures Intern(Empty, []) == [[], []] && Intern(Intern(Empty, []), []) == [[], []]
  {
    assert LastIndex(Empty, []) == Some(0);
    assert LastIndex([[], []], []) == Some(1);
  }

  /** Any run of insertions keeps the table proper, its indices dense and in place. */
  lemma {:induction false} InternAllKeeps(ts: seq<Text>, more: seq<Text>)
    requires Proper(ts)
    ensures Proper(InternAll(ts, more)) && ts <= InternAll(ts, more)
    ensures forall s | s in more :: s in InternAll(ts, more)
    decreases more
  {
    if more != [] {
      InternKeeps(ts, more[0]);
      InternAllKeeps(Intern(ts, more[0]), more[1..]);
      assert more[0] in Intern(ts, more[0]);
    }
  }

  /** Interning the texts of a proper table in index order, into a fresh table, gives the same table. */
  lemma {:induction false} Rebuild(ts: seq<Text>, k: nat)
    requires Proper(ts) && 0 < k <= |ts|
    ensures InternAll(ts[..k], ts[k..]) == ts
    decreases |ts| - k
  {
    if k == |ts| {
      assert ts[..k] == ts;
    } else {
      assert Proper(ts[..k]);
      assert ts[k] !in ts[..k][1..];
      InternAddsIff(ts[..k], ts[k]);
      assert ts[..k] + [ts[k]] == ts[..k + 1];
      Rebuild(ts, k + 1);
    }
  }

  /** Only proper tables can be rebuilt. */
  lemma RebuildIff(ts: seq<Text>)
    requires ts != [] && ts[0] == []
    ensures InternAll(Empty, ts[1..]) == ts <==> Proper(ts)
  {
    if Proper(ts) {
      Rebuild(ts, 1);
      assert ts[..1] == Empty;
    }
    InternAllKeeps(Empty, ts[1..]);
  }

  // ------------------------------------------------------- the table

  class TextSeg {
    var byIndex: seq<Text>
    const byText: HashTab.Table<Text, nat>

    ghost predicate Valid()
      reads this, byText, byText.buckets
    {
      byText.Valid() && Proper(byIndex) && forall s :: byText.Get(s) == LastIndex(byIndex, s)
    }

    constructor (hash: Text -> nat)
      requires forall s :: hash(s) < HashTab.HASH_SIZE
      ensures Valid() && byIndex == Empty && fresh(byText) && fresh(byText.buckets)
    {
      byIndex := [];
      byText := new HashTab.Table<Text, nat>(hash);
      new;
      byText.AddElem([], 0);
      byIndex := byIndex + [[]];
    }

    /** The interned copy of `str`. */
    method FindByText(str: Text) returns (ret: Text)
      requires Valid()
      modifies this, byText.buckets
      ensures Valid() && ret == str && byIndex == Intern(old(byIndex), str)
    {
      hide LastIndex, Proper;
      InternKeeps(byIndex, str);
      var ofs := byText.FindElem(str);
      if ofs == None || ofs.value == 0 {
        byText.AddElem(str, |byIndex|);
        forall s ensures byText.Get(s) == LastIndex(byIndex + [str], s) { LastIndexAppend(byIndex, str, s); }
        byIndex := byIndex + [str];
        ret := str;
      } else {
        ret := byIndex[ofs.value];
      }
    }

    method FindByIndex(i: nat) returns (ret: Option<Text>)
      ensures ret == if i < |byIndex| then Some(byIndex[i]) else None
    {
      return if i >= |byIndex| then None else Some(byIndex[i]);
    }

    method TextToIndex(str: Text) returns (i: nat)
      requires Valid()
      ensures i == IndexWord(byIndex, str)
    {
      var e := byText.FindElem(str);
      return if e == None then NOT_FOUND else e.value;
    }

    /** Intern the texts of `src`, in index order. */
    method CopyFrom(src: TextSeg)
      requires Valid() && src.Valid() && src != this && src.byText.buckets != byText.buckets
      modifies this, byText.buckets
      ensures Valid() && byIndex == InternAll(old(byIndex), src.byIndex[1..])
    {
      var i := 1;
      while i < |src.byIndex|
        invariant 1 <= i <= |src.byIndex| && Valid()
        invariant InternAll(byIndex, src.byIndex[i..]) == InternAll(old(byIndex), src.byIndex[1..])
      {
        assert src.byIndex[i..][1..] == src.byIndex[i + 1..];
        var _ := FindByText(src.byIndex[i]);
        i := i + 1;
      }
    }
  }
}
