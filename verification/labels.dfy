/** The label table of a program: interned names, and the offset of each. */
module LabelTables {
  import opened Options
  import opened Words
  import opened TextSegs

  function Zeros(n: nat): seq<nat> {
    seq(n, _ => 0)
  }

  /** Enter a label with its offset, unless it has one. */
  function AddLabel(labels: seq<Text>, offsets: seq<nat>, l: Text, ip: nat): (seq<Text>, seq<nat>) {
    var ls := Intern(labels, l);
    var i := IndexWord(ls, l);
    (ls, if i >= |offsets| then offsets + Zeros(i - |offsets|) + [ip] else offsets)
  }

  function AddLabels(labels: seq<Text>, offsets: seq<nat>, more: seq<(Text, nat)>): (seq<Text>, seq<nat>)
    decreases more
  {
    if more == [] then (labels, offsets)
    else
      var r := AddLabel(labels, offsets, more[0].0, more[0].1);
      AddLabels(r.0, r.1, more[1..])
  }

  lemma {:induction false} AddLabelsConcat(labels: seq<Text>, offsets: seq<nat>, a: seq<(Text, nat)>, b: seq<(Text, nat)>)
    ensures var r := AddLabels(labels, offsets, a); AddLabels(labels, offsets, a + b) == AddLabels(r.0, r.1, b)
    decreases a
  {
    if a == [] {
      assert a + b == b;
    } else {
      var r := AddLabel(labels, offsets, a[0].0, a[0].1);
      assert (a + b)[1..] == a[1..] + b;
      AddLabelsConcat(r.0, r.1, a[1..], b);
    }
  }

  /** A proper table of names with an offset for each. */
  ghost predicate Table(labels: seq<Text>, offsets: seq<nat>) {
    Proper(labels) && |labels| == |offsets|
  }

  /** A label that is entered keeps every name and offset that is there; a new one gets the next index. */
  lemma AddLabelKeeps(labels: seq<Text>, offsets: seq<nat>, l: Text, ip: nat)
    requires Table(labels, offsets) && |labels| < NOT_FOUND
    ensures var r := AddLabel(labels, offsets, l, ip);
            && Table(r.0, r.1) && labels <= r.0 && offsets <= r.1 && |r.0| <= |labels| + 1
            && (if l in labels[1..] then r == (labels, offsets) else r == (labels + [l], offsets + [ip]))
  {
    InternKeeps(labels, l);
    InternAddsIff(labels, l);
    if l in labels[1..] {
      assert Intern(labels, l) == labels;
      assert LastIndex(labels, l).value < |labels|;
    } else {
      LastIndexAppend(labels, l, l);
      assert IndexWord(labels + [l], l) == |offsets| && offsets + Zeros(0) == offsets;
    }
  }

  lemma {:induction false} AddLabelsKeep(labels: seq<Text>, offsets: seq<nat>, more: seq<(Text, nat)>)
    requires Table(labels, offsets) && |labels| + |more| < NOT_FOUND
    ensures var r := AddLabels(labels, offsets, more); Table(r.0, r.1) && labels <= r.0 && offsets <= r.1
    decreases more
  {
    hide AddLabel, Table;
    if more != [] {
      AddLabelKeeps(labels, offsets, more[0].0, more[0].1);
      var r := AddLabel(labels, offsets, more[0].0, more[0].1);
      AddLabelsKeep(r.0, r.1, more[1..]);
    }
  }

  /** The first offset that is entered for `l`. */
  ghost function FirstOffset(more: seq<(Text, nat)>, l: Text): Option<nat>
    decreases more
  {
    if more == [] then None else if more[0].0 == l then Some(more[0].1) else FirstOffset(more[1..], l)
  }

  /** The offset that the table has for a label, 0 for the one at index 0. */
  function OffsetOf(labels: seq<Text>, offsets: seq<nat>, l: Text): Option<nat> {
    var i := IndexWord(labels, l);
    if i == 0 then Some(0) else if i < |offsets| then Some(offsets[i]) else None
  }

  lemma EntryFound(labels: seq<Text>, offsets: seq<nat>, i: nat)
    requires Table(labels, offsets) && 0 < i < |labels|
    ensures OffsetOf(labels, offsets, labels[i]) == Some(offsets[i])
  {
    OneIndex(labels, i);
  }

  /** Of several entries of a new label the table keeps the first. */
  lemma {:induction false} TableKeepsFirst(labels: seq<Text>, offsets: seq<nat>, more: seq<(Text, nat)>, l: Text)
    requires Table(labels, offsets) && |labels| + |more| < NOT_FOUND && l !in labels[1..] && FirstOffset(more, l).Some?
    ensures var r := AddLabels(labels, offsets, more); OffsetOf(r.0, r.1, l) == FirstOffset(more, l)
    decreases more
  {
    hide AddLabel, Table, OffsetOf, Proper;
    AddLabelKeeps(labels, offsets, more[0].0, more[0].1);
    var r := AddLabel(labels, offsets, more[0].0, more[0].1);
    TableSize(labels, offsets);
    if more[0].0 == l {
      AddLabelsKeep(r.0, r.1, more[1..]);
      var s := AddLabels(r.0, r.1, more[1..]);
      assert s.0[|labels|] == l && s.1[|labels|] == more[0].1;
      EntryFound(s.0, s.1, |labels|);
    } else {
      assert l !in r.0[1..];
      TableKeepsFirst(r.0, r.1, more[1..], l);
    }
  }

  lemma TableSize(labels: seq<Text>, offsets: seq<nat>)
    requires Table(labels, offsets)
    ensures |labels| == |offsets| > 0
  {
  }
}
