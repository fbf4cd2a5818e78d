/** Message queues: a ring of 4096 slots with one write head and many read heads. */
module MessageQueues {
  import opened Options

  const FIFO_SZ: nat := 4096

  // ------------------------------------------ the ring and the log behind it

  /** What the slots hold after all messages of `log` were written, from an empty queue. */
  ghost function Ring(log: seq<int>): (r: seq<int>)
    ensures |r| == FIFO_SZ
  {
    if log == [] then seq(FIFO_SZ, _ => 0)
    else Ring(log[..|log| - 1])[(|log| - 1) % FIFO_SZ := log[|log| - 1]]
  }

  /** The message that a reader at position `p` finds in its slot: the last one written there. */
  ghost function Found(n: nat, p: nat): nat
    requires p < n
  {
    p + FIFO_SZ * ((n - p - 1) / FIFO_SZ)
  }

  lemma FoundIsLast(n: nat, p: nat)
    requires p < n
    ensures p <= Found(n, p) < n && Found(n, p) % FIFO_SZ == p % FIFO_SZ && n - Found(n, p) <= FIFO_SZ
    ensures Found(n, p) == p <==> n - p <= FIFO_SZ
  {
  }

  /** The last 4096 messages are in their slots. */
  lemma {:induction false} RingHolds(log: seq<int>, j: nat)
    requires j < |log| <= j + FIFO_SZ
    ensures Ring(log)[j % FIFO_SZ] == log[j]
  {
    var n := |log| - 1;
    if j < n {
      RingHolds(log[..n], j);
      assert j % FIFO_SZ != n % FIFO_SZ;
    }
  }

  /** A reader finds no message exactly when it is a multiple of 4096 messages behind. */
  lemma BlocksIff(n: nat, p: nat)
    requires p <= n
    ensures p % FIFO_SZ == n % FIFO_SZ <==> (n - p) % FIFO_SZ == 0
  {
  }

  /** The slot at position `p` holds the message that is found there. */
  lemma SlotHolds(log: seq<int>, p: nat)
    requires p < |log|
    ensures Found(|log|, p) < |log| && Ring(log)[p % FIFO_SZ] == log[Found(|log|, p)]
    ensures |log| - p < FIFO_SZ ==> Found(|log|, p) == p
  {
    FoundIsLast(|log|, p);
    RingHolds(log, Found(|log|, p));
  }

  lemma NextSlot(p: nat)
    ensures (p % FIFO_SZ + 1) % FIFO_SZ == (p + 1) % FIFO_SZ
  {
  }

  // ------------------------------------------------------- runs, on values

  /** A reader as a value: its owner, where it started, where it is, what it got, and the numbers of the messages it got. */
  datatype Cursor = Cursor(owner: nat, start: nat, pos: nat, got: seq<int>, nums: seq<nat>)
  datatype State = State(log: seq<int>, blocked: seq<nat>, readers: seq<Cursor>)
  datatype Event = Write(m: int) | Open(t: nat) | Read(r: nat)

  /** A reader finds a message unless it is a multiple of 4096 behind. */
  ghost predicate Finds(log: seq<int>, c: Cursor) {
    c.pos < |log| && (|log| - c.pos) % FIFO_SZ != 0
  }

  ghost function ReadAt(log: seq<int>, c: Cursor): Cursor {
    if !Finds(log, c) then c
    else
      FoundIsLast(|log|, c.pos);
      c.(pos := c.pos + 1, got := c.got + [log[Found(|log|, c.pos)]], nums := c.nums + [Found(|log|, c.pos)])
  }

  ghost function ReadBy(s: State, r: nat): State
    requires r < |s.readers|
  {
    var c := s.readers[r];
    State(s.log, if Finds(s.log, c) then s.blocked else s.blocked + [c.owner], s.readers[r := ReadAt(s.log, c)])
  }

  ghost function Step(s: State, e: Event): State {
    match e
    case Write(m) => s.(log := s.log + [m], blocked := [])
    case Open(t) => s.(readers := s.readers + [Cursor(t, |s.log|, |s.log|, [], [])])
    case Read(r) => if r < |s.readers| then ReadBy(s, r) else s
  }

  ghost function Run(s: State, es: seq<Event>): State
    decreases es
  {
    if es == [] then s else Run(Step(s, es[0]), es[1..])
  }

  // ----------------------------------------------------------- the objects

  class Queue {
    const values: array<int>
    var wr: nat
    var blocked: seq<nat>   // threads waiting for a message, the last one on top
    ghost var log: seq<int>

    constructor ()
      ensures Valid() && log == [] && blocked == [] && fresh(values)
    {
      values := new int[FIFO_SZ](_ => 0);
      wr, blocked, log := 0, [], [];
      new;
      assert values[..] == Ring([]);
    }

    ghost predicate Valid()
      reads this, values
    {
      values.Length == FIFO_SZ && values[..] == Ring(log) && wr == |log| % FIFO_SZ
    }

    /** Store a message, wake every waiting thread, and move the write head. */
    method Write(m: int) returns (woken: seq<nat>)
      requires Valid()
      modifies this, values
      ensures Valid() && log == old(log) + [m] && blocked == [] && |woken| == |old(blocked)|
      ensures forall i | 0 <= i < |woken| :: woken[i] == old(blocked)[|woken| - 1 - i]
    {
      values[wr] := m;
      woken := [];
      while blocked != []
        invariant |woken| + |blocked| == |old(blocked)| && blocked == old(blocked)[..|blocked|]
        invariant forall i | 0 <= i < |woken| :: woken[i] == old(blocked)[|old(blocked)| - 1 - i]
        invariant log == old(log) && wr == old(wr) && values[..] == old(values[..])[wr := m]
        decreases |blocked|
      {
        woken := woken + [blocked[|blocked| - 1]];
        blocked := blocked[..|blocked| - 1];
      }
      NextSlot(|log|);
      wr := (wr + 1) % FIFO_SZ;
      log := log + [m];
      assert log[..|log| - 1] == old(log);
    }
  }

  class Reader {
    const fifo: Queue
    const owner: nat
    var rd: nat
    ghost const start: nat     // messages written before the reader was made
    ghost var pos: nat         // messages passed, those included
    ghost var got: seq<int>    // messages received
    ghost var nums: seq<nat>   // their numbers

    constructor (q: Queue, t: nat)
      requires q.Valid()
      ensures Valid() && fifo == q && View() == Cursor(t, |q.log|, |q.log|, [], [])
    {
      fifo, owner, rd := q, t, q.wr;
      start, pos, got, nums := |q.log|, |q.log|, [], [];
    }

    ghost function View(): Cursor
      reads this
    {
      Cursor(owner, start, pos, got, nums)
    }

    ghost predicate Valid()
      reads this, fifo, fifo.values
    {
      fifo.Valid() && rd == pos % FIFO_SZ && start <= pos <= |fifo.log| && |got| == pos - start
    }

    /** Everything received so far is what was written since the reader was made, in order. */
    ghost predicate InOrder()
      requires Valid()
      reads this, fifo, fifo.values
    {
      got == fifo.log[start..pos]
    }

    /** Take the next message, or let the owner wait for one. Nothing is lost or repeated by a reader less than
        4096 messages behind; one that is further behind gets the last message of its slot instead. */
    method Read() returns (m: Option<int>)
      requires Valid()
      modifies this`rd, this`pos, this`got, this`nums, fifo`blocked
      ensures Valid() && View() == ReadAt(fifo.log, old(View()))
      ensures m == None <==> (|fifo.log| - old(pos)) % FIFO_SZ == 0
      ensures m == None ==> pos == old(pos) && got == old(got) && fifo.blocked == old(fifo.blocked) + [owner]
      ensures m.Some? ==> && pos == old(pos) + 1 && got == old(got) + [m.value] && fifo.blocked == old(fifo.blocked)
                          && m.value == fifo.log[Found(|fifo.log|, old(pos))]
      ensures old(InOrder()) && |fifo.log| - old(pos) < FIFO_SZ ==> InOrder() && (m == None <==> old(pos) == |fifo.log|)
    {
      hide Ring, Found;
      BlocksIff(|fifo.log|, pos);
      if rd != fifo.wr {
        SlotHolds(fifo.log, pos);
        m := Some(fifo.values[rd]);
        NextSlot(pos);
        rd := (rd + 1) % FIFO_SZ;
        pos := pos + 1;
        got, nums := got + [m.value], nums + [Found(|fifo.log|, pos - 1)];
      } else {
        fifo.blocked := fifo.blocked + [owner];
        m := None;
      }
    }
  }

  /** Each message that the reader got is the one of its number. */
  ghost predicate Sound(log: seq<int>, c: Cursor) {
    && c.start <= c.pos <= |log| && |c.got| == |c.nums| == c.pos - c.start
    && forall i | 0 <= i < |c.nums| :: c.nums[i] < |log| && c.got[i] == log[c.nums[i]]
  }

  /** The reader got the messages since it was opened, one after the other. */
  ghost predicate InOrder(c: Cursor) {
    |c.nums| == c.pos - c.start && forall i | 0 <= i < |c.nums| :: c.nums[i] == c.start + i
  }

  /** A read at position `p` of a log of `n` finds a message, but a later one. */
  ghost predicate OverrunAt(n: nat, p: nat) {
    n - p > FIFO_SZ && (n - p) % FIFO_SZ != 0
  }

  ghost predicate OverrunNow(s: State, e: Event, r: nat) {
    e == Read(r) && r < |s.readers| && OverrunAt(|s.log|, s.readers[r].pos)
  }

  /** In the course of the run, reader `r` reads after it was overrun. */
  ghost predicate Overruns(s: State, es: seq<Event>, r: nat)
    decreases es
  {
    es != [] && (OverrunNow(s, es[0], r) || Overruns(Step(s, es[0]), es[1..], r))
  }

  ghost predicate AllSound(s: State, r: nat) {
    r < |s.readers| ==> Sound(s.log, s.readers[r])
  }

  ghost predicate Exact(s: State, r: nat) {
    r < |s.readers| ==> InOrder(s.readers[r])
  }

  lemma ReadSound(log: seq<int>, c: Cursor)
    requires Sound(log, c)
    ensures Sound(log, ReadAt(log, c))
    ensures InOrder(ReadAt(log, c)) <==> InOrder(c) && !OverrunAt(|log|, c.pos)
  {
    var c' := ReadAt(log, c);
    if c' != c {
      FoundIsLast(|log|, c.pos);
      assert c'.nums[|c.nums|] == Found(|log|, c.pos) && c'.nums[..|c.nums|] == c.nums;
      forall i | 0 <= i < |c.nums| ensures c'.nums[i] == c.nums[i] && c'.got[i] == c.got[i] {
      }
    }
  }

  lemma StepExactIff(s: State, e: Event, r: nat)
    requires AllSound(s, r)
    ensures AllSound(Step(s, e), r)
    ensures Exact(Step(s, e), r) <==> Exact(s, r) && !OverrunNow(s, e, r)
  {
    match e
    case Write(m) =>
    case Open(t) =>
    case Read(k) =>
      if k == r && r < |s.readers| { ReadSound(s.log, s.readers[r]); }
  }

  /** A reader that was out of order stays so. */
  lemma {:induction false} WrongStays(s: State, es: seq<Event>, r: nat)
    requires AllSound(s, r) && !Exact(s, r)
    ensures !Exact(Run(s, es), r)
    decreases es
  {
    hide AllSound, Exact, Step;
    if es != [] {
      StepExactIff(s, es[0], r);
      WrongStays(Step(s, es[0]), es[1..], r);
    }
  }

  /** Over any run of writes and reads by any number of readers, a reader receives exactly the messages written since
      it was opened, in order, without loss or repeat, if and only if it never reads after it was overrun. */
  lemma {:induction false} RunExactIff(s: State, es: seq<Event>, r: nat)
    requires AllSound(s, r) && Exact(s, r)
    ensures AllSound(Run(s, es), r) && (Exact(Run(s, es), r) <==> !Overruns(s, es, r))
    decreases es
  {
    hide AllSound, Exact, Step, OverrunNow;
    if es != [] {
      StepExactIff(s, es[0], r);
      var s1 := Step(s, es[0]);
      if OverrunNow(s, es[0], r) {
        WrongStays(s1, es[1..], r);
        SoundRun(s1, es[1..], r);
      } else {
        RunExactIff(s1, es[1..], r);
      }
    }
  }

  lemma {:induction false} SoundRun(s: State, es: seq<Event>, r: nat)
    requires AllSound(s, r)
    ensures AllSound(Run(s, es), r)
    decreases es
  {
    hide AllSound, Step, Exact, OverrunNow;
    if es != [] {
      StepExactIff(s, es[0], r);
      SoundRun(Step(s, es[0]), es[1..], r);
    }
  }

  /** What such a reader got is the stretch of the log that it went through. */
  lemma ExactIsLog(s: State, r: nat)
    requires AllSound(s, r) && Exact(s, r) && r < |s.readers|
    ensures var c := s.readers[r]; c.start <= c.pos <= |s.log| && c.got == s.log[c.start..c.pos]
  {
  }

  // ------------------------------------------------------- who is blocked

  ghost predicate NoWrite(es: seq<Event>) {
    forall e | e in es :: !e.Write?
  }

  /** A read blocks its owner if and only if it finds nothing. */
  lemma BlockedIff(s: State, r: nat)
    requires r < |s.readers| && |s.log| >= s.readers[r].pos
    ensures var c, s' := s.readers[r], Step(s, Read(r));
            && (s'.blocked == s.blocked <==> (|s.log| - c.pos) % FIFO_SZ != 0)
            && (s'.blocked == s.blocked + [c.owner] <==> (|s.log| - c.pos) % FIFO_SZ == 0)
  {
  }

  /** Whoever is blocked stays so until a message is written, whatever else happens; a message wakes all. */
  lemma {:induction false} BlockedUntilWrite(s: State, es: seq<Event>, m: int)
    requires NoWrite(es)
    ensures s.blocked <= Run(s, es).blocked && Step(Run(s, es), Write(m)).blocked == []
    decreases es
  {
    if es != [] {
      assert es[0] in es && forall e | e in es[1..] :: e in es;
      BlockedUntilWrite(Step(s, es[0]), es[1..], m);
    }
  }

  // ------------------------------------------------------ runs, on objects

  /** The readers `rs` are different objects, and all read from `q`. */
  ghost predicate Linked(q: Queue, rs: seq<Reader>)
    reads q, q.values, rs
  {
    && q.Valid()
    && (forall i, j | 0 <= i < j < |rs| :: rs[i] != rs[j])
    && forall i | 0 <= i < |rs| :: rs[i].fifo == q && rs[i].Valid()
  }

  ghost function Contents(q: Queue, rs: seq<Reader>): State
    reads q, rs
  {
    State(q.log, q.blocked, seq(|rs|, i requires 0 <= i < |rs| reads rs => rs[i].View()))
  }

  /** One event on the objects. */
  method Perform(q: Queue, rs: seq<Reader>, e: Event) returns (rs': seq<Reader>)
    requires Linked(q, rs)
    modifies q, q.values, rs
    ensures Linked(q, rs') && rs <= rs' && fresh(rs'[|rs|..])
    ensures Contents(q, rs') == Step(old(Contents(q, rs)), e)
  {
    rs' := rs;
    match e
    case Write(m) =>
      var woken := q.Write(m);
    case Open(t) =>
      var r := new Reader(q, t);
      rs' := rs + [r];
    case Read(r) =>
      if r < |rs| {
        var m := rs[r].Read();
      }
  }

  /** Any run of writers and readers on the objects is the run on values. */
  method RunAll(q: Queue, rs: seq<Reader>, es: seq<Event>) returns (rs': seq<Reader>)
    requires Linked(q, rs)
    modifies q, q.values, rs
    ensures Linked(q, rs') && rs <= rs' && fresh(rs'[|rs|..])
    ensures Contents(q, rs') == Run(old(Contents(q, rs)), es)
  {
    hide Step;
    rs' := rs;
    var i := 0;
    while i < |es|
      invariant i <= |es| && Linked(q, rs') && rs <= rs' && fresh(rs'[|rs|..])
      invariant Run(Contents(q, rs'), es[i..]) == Run(old(Contents(q, rs)), es)
    {
      ghost var before := rs';
      rs' := Perform(q, rs', es[i]);
      assert rs'[|rs|..] == before[|rs|..] + rs'[|before|..];
      assert es[i..][1..] == es[i + 1..];
      i := i + 1;
    }
  }

  /** From an empty queue, each reader has got the messages written since it was opened, in order, if and only if it never
      read after it was overrun. */
  method RunFromStart(es: seq<Event>) returns (q: Queue, rs: seq<Reader>)
    ensures Linked(q, rs) && Contents(q, rs) == Run(State([], [], []), es)
    ensures forall r: nat | r < |rs| && !Overruns(State([], [], []), es, r) :: rs[r].InOrder()
    ensures forall r: nat | r < |rs| :: InOrder(rs[r].View()) <==> !Overruns(State([], [], []), es, r)
  {
    q := new Queue();
    var none: seq<Reader> := [];
    assert Contents(q, none) == State([], [], []);
    rs := RunAll(q, none, es);
    forall r: nat | r < |rs|
      ensures InOrder(rs[r].View()) <==> !Overruns(State([], [], []), es, r)
      ensures InOrder(rs[r].View()) ==> rs[r].InOrder()
    {
      RunExactIff(State([], [], []), es, r);
      assert Contents(q, rs).readers[r] == rs[r].View();
      if InOrder(rs[r].View()) { ExactIsLog(Contents(q, rs), r); }
    }
  }

  // ----------------------------------------------------- waiting while others write

  ghost predicate NeverReads(es: seq<Event>, r: nat) {
    Read(r) !in es
  }

  ghost function Writes(es: seq<Event>): nat {
    if es == [] then 0 else Writes(es[1..]) + if es[0].Write? then 1 else 0
  }

  lemma {:induction false} LeftAlone(s: State, es: seq<Event>, r: nat)
    requires r < |s.readers| && NeverReads(es, r)
    ensures var t := Run(s, es); r < |t.readers| && t.readers[r] == s.readers[r] && |t.log| == |s.log| + Writes(es)
    decreases es
  {
    if es != [] {
      assert es[0] in es && forall e | e in es[1..] :: e in es;
      LeftAlone(Step(s, es[0]), es[1..], r);
    }
  }

  /** A reader that had read everything, and then lets others write and read, finds nothing at its next read if and only
      if the number of messages written meanwhile is a multiple of 4096: no message, or full laps of the ring. */
  lemma FindsNothingIff(s: State, es: seq<Event>, r: nat)
    requires r < |s.readers| && s.readers[r].pos == |s.log| && NeverReads(es, r)
    ensures var t := Run(s, es);
            && r < |t.readers| && |t.log| - t.readers[r].pos == Writes(es)
            && (Step(t, Read(r)).readers == t.readers <==> Writes(es) % FIFO_SZ == 0)
  {
    LeftAlone(s, es, r);
    var t := Run(s, es);
    if Writes(es) % FIFO_SZ != 0 {
      FoundIsLast(|t.log|, t.readers[r].pos);
      assert ReadAt(t.log, t.readers[r]).pos == t.readers[r].pos + 1;
    } else {
      assert t.readers[r := t.readers[r]] == t.readers;
    }
  }

  /** A reader further behind loses what was overwritten. */
  lemma OverrunLoses(log: seq<int>, c: Cursor)
    requires c.pos + FIFO_SZ < |log| < c.pos + 2 * FIFO_SZ
    ensures ReadAt(log, c).got == c.got + [log[c.pos + FIFO_SZ]]
  {
  }
}
