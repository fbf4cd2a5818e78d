/** Growing arrays of words, which read as zero where nothing was set. */
module DynArrays {
  const ALERT_SIZE := 0x80_0000
  const GRANUL := 16

  /** The entry of `s` at `k`: zero beyond the end. */
  function At(s: seq<nat>, k: nat): nat {
    if k < |s| then s[k] else 0
  }

  function Zeros(n: nat): seq<nat> {
    seq(n, _ => 0)
  }

  /** `s` with `v` at `i`, long enough for it. */
  function Put(s: seq<nat>, i: nat, v: nat): seq<nat> {
    if i < |s| then s[i := v] else s + Zeros(i - |s|) + [v]
  }

  /** Setting an entry changes what that entry reads as, and nothing else. */
  lemma PutReads(s: seq<nat>, i: nat, v: nat, k: nat)
    ensures At(Put(s, i, v), k) == if k == i then v else At(s, k)
    ensures |Put(s, i, v)| == if i < |s| then |s| else i + 1
  {
    if |s| <= k < i {
      assert Put(s, i, v)[k] == Zeros(i - |s|)[k - |s|];
    }
  }

  function PutAll(s: seq<nat>, w: seq<(nat, nat)>): seq<nat> {
    if w == [] then s else Put(PutAll(s, w[..|w| - 1]), w[|w| - 1].0, w[|w| - 1].1)
  }

  /** What was last written at `k`, if anything was. */
  ghost function LastWrite(w: seq<(nat, nat)>, k: nat): nat {
    if w == [] then 0 else if w[|w| - 1].0 == k then w[|w| - 1].1 else LastWrite(w[..|w| - 1], k)
  }

  /** After any run of writes to a new array, in any order and with any gaps, each entry reads as the last
      value written there, or as zero. */
  lemma {:induction false} ReadsLastWrite(w: seq<(nat, nat)>, k: nat)
    ensures At(PutAll([], w), k) == LastWrite(w, k)
  {
    if w != [] {
      ReadsLastWrite(w[..|w| - 1], k);
      PutReads(PutAll([], w[..|w| - 1]), w[|w| - 1].0, w[|w| - 1].1, k);
    }
  }

  /** The least multiple of the grain above `x`. */
  function Quantize(x: nat): (n: nat)
    ensures n % GRANUL == 0 && x < n <= x + GRANUL
  {
    (x + GRANUL) / GRANUL * GRANUL
  }

  class DynArray {
    var data: array?<nat>
    var reserved: nat
    var size: nat

    /** What is beyond the used entries is zero: a later write further up leaves a gap of zeros. */
    ghost predicate Valid()
      reads this, data
    {
      && size <= reserved
      && (data == null ==> reserved == 0)
      && (data != null ==> data.Length == reserved && forall k :: size <= k < reserved ==> data[k] == 0)
    }

    ghost function Contents(): (s: seq<nat>)
      requires Valid()
      reads this, data
    {
      if data == null then [] else data[..size]
    }

    constructor ()
      ensures Valid() && Contents() == [] && data == null
    {
      data, reserved, size := null, 0, 0;
    }

    method Reserve(newSize: nat)
      requires Valid()
      modifies this`data, this`reserved
      ensures Valid() && Contents() == old(Contents())
      ensures reserved == if newSize > old(reserved) then newSize else old(reserved)
      ensures if newSize > old(reserved) then fresh(data) else data == old(data)
    {
      if newSize > reserved {
        var bigger := new nat[newSize];
        var i := 0;
        while i < newSize
          invariant 0 <= i <= newSize && Valid() && data == old(data) && reserved == old(reserved) && fresh(bigger)
          invariant Contents() == old(Contents())
          invariant forall k :: 0 <= k < i ==> bigger[k] == if k < reserved && data != null then data[k] else 0
        {
          bigger[i] := if i < reserved && data != null then data[i] else 0;
          i := i + 1;
        }
        assert Contents() == bigger[..size];
        data, reserved := bigger, newSize;
      }
    }

    /** Set an entry, after growing the array as needed. */
    method Set(index: nat, v: nat)
      requires Valid() && index < ALERT_SIZE
      modifies this, data
      ensures Valid() && Contents() == Put(old(Contents()), index, v)
      ensures data == old(data) || fresh(data)
    {
      ghost var before := Contents();
      if reserved <= index {
        Reserve(Quantize(index));
      }
      assert before == data[..size] && forall k :: size <= k < reserved ==> data[k] == 0;
      if size <= index {
        size := index + 1;
      }
      data[index] := v;
      assert Contents() == Put(before, index, v);
    }

    method Get(index: nat) returns (v: nat)
      requires Valid() && index < ALERT_SIZE
      ensures v == At(Contents(), index)
    {
      if index < size {
        return data[index];
      }
      v := 0;
    }

    /** A run of writes. */
    method SetAll(w: seq<(nat, nat)>)
      requires Valid() && forall e | e in w :: e.0 < ALERT_SIZE
      modifies this, data
      ensures Valid() && Contents() == PutAll(old(Contents()), w)
      ensures data == old(data) || fresh(data)
    {
      var i := 0;
      while i < |w|
        invariant 0 <= i <= |w| && Valid() && Contents() == PutAll(old(Contents()), w[..i])
        invariant data == old(data) || fresh(data)
      {
        Set(w[i].0, w[i].1);
        assert w[..i + 1][..i] == w[..i];
        i := i + 1;
      }
      assert w[..|w|] == w;
    }
  }
}
