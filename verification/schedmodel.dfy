/** The scheduler's state as a value: what one snapshot of the heap shows, and
    every scheduling operation as a function from snapshot to snapshot. */
module SchedModel {
  import opened Options

  /** A thread's identity, with the priority it is created with and keeps. */
  datatype Tid = Tid(id: nat, prio: int)

  /** A mutex is the join mutex inside a thread, or a managed object of its own. */
  datatype Mid = JoinOf(t: Tid) | Managed(n: nat)

  type Bid = nat

  datatype ThreadState = Blocked | Ready | Running | Dying | Zombie | Starting

  /** Where a blocked thread is parked (specification only). */
  datatype Wait = Nowhere | OnMutex(m: Mid) | OnBlocker(b: Bid)

  datatype TInfo = TInfo(state: ThreadState, remaining: int, critical: bool, ip: int,
                         depth: int, pendingLock: Option<Mid>, wait: Wait, stamp: nat)
  datatype MInfo = MInfo(owner: Option<Tid>, count: int, pending: seq<Tid>)
  datatype Mode = Idle | Mono | RoundRobin
  datatype Sys = Sys(th: map<Tid, TInfo>, mx: map<Mid, MInfo>, bl: map<Bid, seq<Tid>>,
                     ready: seq<Tid>, running: seq<Tid>, zombie: seq<Tid>,
                     current: Option<Tid>, timeslice: int, count: int, mode: Mode, clock: nat)

  const Boot: Sys := Sys(map[], map[], map[], [], [], [], None, 100, 0, Idle, 1)

  // ---------------------------------------------------------------- lists

  ghost predicate NoDup<T>(l: seq<T>) {
    forall i, j :: 0 <= i < j < |l| ==> l[i] != l[j]
  }

  /** Remove the node `t` from the chain `l`. */
  function Remove(l: seq<Tid>, t: Tid): seq<Tid> {
    if l == [] then [] else if l[0] == t then l[1..] else [l[0]] + Remove(l[1..], t)
  }

  /** Insert `n` before the first node of lower priority. */
  function InsertSorted(l: seq<Tid>, n: Tid): seq<Tid> {
    if l == [] || n.prio > l[0].prio then [n] + l else [l[0]] + InsertSorted(l[1..], n)
  }

  lemma {:induction false} RemoveMembers(l: seq<Tid>, t: Tid)
    requires NoDup(l)
    ensures NoDup(Remove(l, t))
    ensures forall x :: x in Remove(l, t) <==> x in l && x != t
  {
    if l != [] {
      var r := l[1..];
      RemoveMembers(r, t);
      if l[0] != t {
        assert forall x :: x in Remove(l, t) <==> x == l[0] || x in Remove(r, t);
        assert l[0] !in r;
      } else {
        assert forall x :: x in l <==> x == l[0] || x in r;
      }
    }
  }

  lemma {:induction false} InsertMembers(l: seq<Tid>, n: Tid)
    ensures |InsertSorted(l, n)| == |l| + 1
    ensures forall x :: x in InsertSorted(l, n) <==> x in l || x == n
    ensures NoDup(l) && n !in l ==> NoDup(InsertSorted(l, n))
  {
    if l == [] || n.prio > l[0].prio {
    } else {
      InsertMembers(l[1..], n);
      assert forall x :: x in l <==> x == l[0] || x in l[1..];
      assert forall x :: x in InsertSorted(l, n) <==> x == l[0] || x in InsertSorted(l[1..], n);
      if NoDup(l) && n !in l {
        assert l[0] !in l[1..];
        assert l[0] !in InsertSorted(l[1..], n);
      }
    }
  }

  /** `a` precedes `b` in a priority queue: higher priority, or equal and arrived earlier. */
  ghost predicate Precedes(th: map<Tid, TInfo>, a: Tid, b: Tid) {
    a in th && b in th && (a.prio > b.prio || (a.prio == b.prio && th[a].stamp < th[b].stamp))
  }

  ghost predicate Sorted(l: seq<Tid>, th: map<Tid, TInfo>) {
    forall i, j :: 0 <= i < j < |l| ==> Precedes(th, l[i], l[j])
  }

  /** Removal keeps a queue sorted. */
  lemma {:induction false} RemoveSorted(l: seq<Tid>, t: Tid, th: map<Tid, TInfo>)
    requires Sorted(l, th)
    ensures Sorted(Remove(l, t), th)
    ensures forall x :: x in Remove(l, t) ==> x in l
  {
    if l != [] && l[0] != t {
      RemoveSorted(l[1..], t, th);
      var r := Remove(l[1..], t);
      forall j | 0 <= j < |r| ensures Precedes(th, l[0], r[j]) {
        assert r[j] in l[1..];
      }
    }
  }

  /** The last arrival goes behind everything of at least its priority and before the rest. */
  lemma {:induction false} InsertKeepsSorted(l: seq<Tid>, n: Tid, th: map<Tid, TInfo>)
    requires Sorted(l, th)
    requires n in th && forall x | x in l :: x in th && th[x].stamp < th[n].stamp
    ensures Sorted(InsertSorted(l, n), th)
  {
    var r := InsertSorted(l, n);
    if l == [] {
    } else if n.prio > l[0].prio {
      forall j | 0 <= j < |l| ensures Precedes(th, n, l[j]) {
        if j > 0 { assert Precedes(th, l[0], l[j]); }
      }
    } else {
      InsertKeepsSorted(l[1..], n, th);
      InsertMembers(l[1..], n);
      var r' := InsertSorted(l[1..], n);
      forall j | 0 <= j < |r'| ensures Precedes(th, l[0], r'[j]) {
        assert r'[j] in r';
        assert r'[j] == n || r'[j] in l[1..];
        if r'[j] == n { assert l[0] in l; }
      }
    }
  }

  // ------------------------------------------------------- thread states

  function Unlink(s: Sys, t: Tid): Sys
    requires t in s.th
  {
    match s.th[t].state
    case Ready => s.(ready := Remove(s.ready, t))
    case Running => s.(running := Remove(s.running, t))
    case _ => s
  }

  /** Give `t` the state `st` and chain it where that state belongs. */
  function Attach(s: Sys, t: Tid, st: ThreadState): Sys
    requires t in s.th
  {
    var i := s.th[t].(state := st);
    match st
    case Zombie => s.(th := s.th[t := i], zombie := s.zombie + [t])
    case Ready => s.(th := s.th[t := i.(stamp := s.clock)], clock := s.clock + 1,
                     ready := InsertSorted(s.ready, t))
    case Running => s.(th := s.th[t := i.(remaining := s.timeslice)], running := s.running + [t])
    case _ => s.(th := s.th[t := i])
  }

  function SetState(s: Sys, t: Tid, st: ThreadState): Sys
    requires t in s.th
  {
    Attach(Unlink(s, t), t, st)
  }

  // ------------------------------------------------- placement invariant

  /** `l` holds, once each, exactly the threads in state `st` other than `x`. */
  ghost predicate Holds(l: seq<Tid>, th: map<Tid, TInfo>, st: ThreadState, x: Option<Tid>) {
    && NoDup(l)
    && (forall t | t in l :: t in th && th[t].state == st && Some(t) != x)
    && (forall t | t in th :: th[t].state == st && Some(t) != x ==> t in l)
  }

  /** `t` is on the list of the mutex or blocker it waits for. */
  ghost predicate Parked(s: Sys, t: Tid)
    requires t in s.th
  {
    match s.th[t].wait
    case Nowhere => false
    case OnMutex(m) => m in s.mx && t in s.mx[m].pending
    case OnBlocker(b) => b in s.bl && t in s.bl[b]
  }

  /** `l` holds, once each, only threads other than `x` that are blocked on `w`. */
  ghost predicate WaitList(l: seq<Tid>, th: map<Tid, TInfo>, w: Wait, x: Option<Tid>) {
    && NoDup(l)
    && (forall t | t in l :: t in th && th[t].state == Blocked && th[t].wait == w && Some(t) != x)
  }

  ghost predicate Waiting(s: Sys, x: Option<Tid>) {
    && (forall m | m in s.mx :: WaitList(s.mx[m].pending, s.th, OnMutex(m), x))
    && (forall b | b in s.bl :: WaitList(s.bl[b], s.th, OnBlocker(b), x))
    && (forall t | t in s.th :: s.th[t].state == Blocked && Some(t) != x ==> Parked(s, t))
  }

  ghost predicate Queues(s: Sys) {
    && Sorted(s.ready, s.th)
    && (forall m | m in s.mx :: Sorted(s.mx[m].pending, s.th))
    && s.clock > 0
    && (forall t | t in s.th :: s.th[t].stamp < s.clock)
  }

  /** Every thread but `x` sits on exactly the list its state names; `x` sits on none.
      (Compared with `true` so that the verifier checks it as one fact at each use.) */
  ghost predicate Placed(s: Sys, x: Option<Tid>) {
    true == (
      && Holds(s.ready, s.th, Ready, x)
      && Holds(s.running, s.th, Running, x)
      && Holds(s.zombie, s.th, Zombie, x)
      && Waiting(s, x)
      && Queues(s))
  }

  /** Unlinking takes a thread that is not parked off every list. */
  lemma UnlinkPlaced(s: Sys, t: Tid)
    requires Placed(s, None) && t in s.th
    requires s.th[t].state != Blocked && s.th[t].state != Zombie
    ensures Placed(Unlink(s, t), Some(t))
  {
    RemoveMembers(s.ready, t);
    RemoveMembers(s.running, t);
    RemoveSorted(s.ready, t, s.th);
    var s' := Unlink(s, t);
    assert Holds(s'.ready, s'.th, Ready, Some(t));
    assert Holds(s'.running, s'.th, Running, Some(t));
  }

  lemma AttachHolds(s: Sys, t: Tid, st: ThreadState)
    requires Placed(s, Some(t)) && t in s.th && st != Blocked
    ensures var s' := Attach(s, t, st);
            Holds(s'.ready, s'.th, Ready, None) && Holds(s'.running, s'.th, Running, None) && Holds(s'.zombie, s'.th, Zombie, None)
  {
    hide Holds;
    var s' := Attach(s, t, st);
    NotHeld(s.ready, s.th, Ready, t);
    NotHeld(s.running, s.th, Running, t);
    NotHeld(s.zombie, s.th, Zombie, t);
    InsertMembers(s.ready, t);
    HoldsOne(s.ready, s'.ready, s.th, s'.th, Ready, t);
    HoldsOne(s.running, s'.running, s.th, s'.th, Running, t);
    HoldsOne(s.zombie, s'.zombie, s.th, s'.th, Zombie, t);
  }

  lemma NotHeld(l: seq<Tid>, th: map<Tid, TInfo>, st: ThreadState, t: Tid)
    requires Holds(l, th, st, Some(t))
    ensures NoDup(l) && t !in l && NoDup(l + [t])
  {
  }

  lemma HoldsOne(l: seq<Tid>, l': seq<Tid>, th: map<Tid, TInfo>, th': map<Tid, TInfo>, st: ThreadState, t: Tid)
    requires Holds(l, th, st, Some(t)) && t in th && t in th'
    requires th'.Keys == th.Keys && forall u | u in th && u != t :: th'[u].state == th[u].state
    requires if th'[t].state == st then NoDup(l') && forall x :: x in l' <==> x in l || x == t else l' == l
    ensures Holds(l', th', st, None)
  {
  }

  lemma AttachWaiting(s: Sys, t: Tid, st: ThreadState)
    requires Placed(s, Some(t)) && t in s.th && st != Blocked
    ensures Waiting(Attach(s, t, st), None)
  {
    var s' := Attach(s, t, st);
    forall m | m in s'.mx ensures WaitList(s'.mx[m].pending, s'.th, OnMutex(m), None) {
      assert WaitList(s.mx[m].pending, s.th, OnMutex(m), Some(t));
    }
    forall b | b in s'.bl ensures WaitList(s'.bl[b], s'.th, OnBlocker(b), None) {
      assert WaitList(s.bl[b], s.th, OnBlocker(b), Some(t));
    }
    forall u | u in s'.th && s'.th[u].state == Blocked ensures Parked(s', u) {
      assert Parked(s, u);
    }
  }

  lemma AttachQueues(s: Sys, t: Tid, st: ThreadState)
    requires Placed(s, Some(t)) && t in s.th && st != Blocked
    ensures Queues(Attach(s, t, st))
  {
    var s' := Attach(s, t, st);
    SameOrder(s.ready, s.th, s'.th);
    if st == Ready {
      InsertKeepsSorted(s.ready, t, s'.th);
    }
    forall m | m in s'.mx ensures Sorted(s'.mx[m].pending, s'.th) {
      SameOrder(s.mx[m].pending, s.th, s'.th);
    }
  }

  /** A queue stays sorted when none of its members gets a new arrival stamp. */
  lemma SameOrder(l: seq<Tid>, th: map<Tid, TInfo>, th': map<Tid, TInfo>)
    requires Sorted(l, th)
    requires forall t | t in l :: t in th' && (t in th ==> th'[t].stamp == th[t].stamp)
    ensures Sorted(l, th')
  {
    forall i, j | 0 <= i < j < |l| ensures Precedes(th', l[i], l[j]) {
      assert Precedes(th, l[i], l[j]);
    }
  }

  /** Attaching puts the free thread on the list its new state names. */
  lemma AttachPlaced(s: Sys, t: Tid, st: ThreadState)
    requires Placed(s, Some(t)) && t in s.th && st != Blocked
    ensures Placed(Attach(s, t, st), None)
  {
    AttachHolds(s, t, st);
    AttachQueues(s, t, st);
    AttachWaiting(s, t, st);
  }

  // ------------------------------------------------- mutexes and blockers

  function SetOwner(s: Sys, m: Mid, o: Option<Tid>): Sys
    requires m in s.mx
  {
    s.(mx := s.mx[m := s.mx[m].(owner := o)])
  }

  function SetCount(s: Sys, m: Mid, n: int): Sys
    requires m in s.mx
  {
    s.(mx := s.mx[m := s.mx[m].(count := n)])
  }

  function SetRemaining(s: Sys, t: Tid, n: int): Sys
    requires t in s.th
  {
    s.(th := s.th[t := s.th[t].(remaining := n)])
  }

  /** Chain the blocked thread `t` on the waiting list of `m`. */
  function Park(s: Sys, m: Mid, t: Tid): Sys
    requires m in s.mx && t in s.th
  {
    s.(mx := s.mx[m := s.mx[m].(pending := InsertSorted(s.mx[m].pending, t))],
       th := s.th[t := s.th[t].(wait := OnMutex(m), stamp := s.clock)], clock := s.clock + 1)
  }

  predicate Granted(s: Sys, m: Mid, t: Tid)
    requires m in s.mx
  {
    s.mx[m].owner == None || s.mx[m].owner == Some(t)
  }

  function MutexLock(s: Sys, m: Mid, t: Tid): Sys
    requires m in s.mx && t in s.th
  {
    if Granted(s, m, t) then
      SetCount(SetOwner(s, m, Some(t)), m, s.mx[m].count + 1)
    else
      Park(SetState(s, t, Blocked).(current := None), m, t)
  }

  /** Wake the head of the waiting list of `m`, released by `t`. */
  function WakeHead(s: Sys, m: Mid, t: Tid): Sys
    requires m in s.mx && t in s.th && s.mx[m].pending != [] && s.mx[m].pending[0] in s.th
  {
    var p := s.mx[m].pending[0];
    var s1 := SetState(s.(mx := s.mx[m := s.mx[m].(pending := s.mx[m].pending[1..])]), p, Ready);
    if p.prio >= t.prio then SetRemaining(s1, t, 0) else s1
  }

  function Drain(s: Sys, m: Mid, t: Tid): Sys
    requires m in s.mx && t in s.th && forall p | p in s.mx[m].pending :: p in s.th
    decreases if m in s.mx then |s.mx[m].pending| else 0
  {
    if s.mx[m].pending == [] then s
    else
      assert s.mx[m].pending[0] in s.mx[m].pending;
      Drain(WakeHead(s, m, t), m, t)
  }

  function MutexUnlock(s: Sys, m: Mid, t: Tid): Sys
    requires m in s.mx && t in s.th && s.mx[m].owner == Some(t)
    requires forall p | p in s.mx[m].pending :: p in s.th
  {
    var n := if s.mx[m].count > 0 then s.mx[m].count - 1 else s.mx[m].count;
    var s1 := SetCount(s, m, n);
    if n != 0 then s1 else Drain(SetOwner(s1, m, None), m, t)
  }

  function BlockerSuspend(s: Sys, b: Bid, t: Tid): Sys
    requires b in s.bl && t in s.th
  {
    var s1 := SetState(s.(bl := s.bl[b := s.bl[b] + [t]]), t, Blocked);
    s1.(th := s1.th[t := s1.th[t].(wait := OnBlocker(b))])
  }

  function Last(l: seq<Tid>): Tid
    requires l != []
  {
    l[|l| - 1]
  }

  /** Pop the last suspended thread of `b` and step its instruction pointer back. */
  function PopSuspended(s: Sys, b: Bid): Sys
    requires b in s.bl && s.bl[b] != [] && Last(s.bl[b]) in s.th
  {
    var t := Last(s.bl[b]);
    s.(bl := s.bl[b := s.bl[b][..|s.bl[b]| - 1]], th := s.th[t := s.th[t].(ip := s.th[t].ip - 2)])
  }

  /** The current thread gives up its slice to `t` if `t` has at least its priority. */
  function YieldTo(s: Sys, t: Tid): Sys
    requires s.current.Some? ==> s.current.value in s.th
  {
    if s.current.Some? && t.prio >= s.current.value.prio then SetRemaining(s, s.current.value, 0) else s
  }

  function ResumeTop(s: Sys, b: Bid): Sys
    requires b in s.bl && s.bl[b] != [] && Last(s.bl[b]) in s.th
    requires s.current.Some? ==> s.current.value in s.th
  {
    YieldTo(SetState(PopSuspended(s, b), Last(s.bl[b]), Ready), Last(s.bl[b]))
  }

  function BlockerResume(s: Sys, b: Bid): Sys
    requires b in s.bl && (forall t | t in s.bl[b] :: t in s.th)
    requires s.current.Some? ==> s.current.value in s.th
    decreases if b in s.bl then |s.bl[b]| else 0
  {
    if s.bl[b] == [] then s
    else
      assert Last(s.bl[b]) in s.bl[b];
      BlockerResume(ResumeTop(s, b), b)
  }

  // ---------------------------------------------- starting and killing

  function ModeAfterAdd(mode: Mode, n: int): Mode {
    if n == 1 then Mono else if n == 2 then RoundRobin else mode
  }

  function ModeAfterKill(mode: Mode, n: int): Mode {
    if n == 1 then Mono else if n == 0 then Idle else mode
  }

  const FreeMutex := MInfo(None, 0, [])

  function Fresh(ip: int): TInfo {
    TInfo(Starting, 0, false, ip, 0, None, Nowhere, 0)
  }

  /** The table with the new thread `t`, which holds its own join mutex and has pushed its argument count. */
  function Enrolled(s: Sys, t: Tid, ip: int): Sys {
    var s1 := s.(th := s.th[t := Fresh(ip)], mx := s.mx[JoinOf(t) := FreeMutex]);
    var s2 := MutexLock(s1, JoinOf(t), t);
    var s3 := s2.(count := s2.count + 1, mode := ModeAfterAdd(s2.mode, s2.count + 1));
    s3.(th := s3.th[t := s3.th[t].(depth := 1)])
  }

  function AddThread(s: Sys, t: Tid, ip: int): Sys {
    SetState(Enrolled(s, t, ip), t, Ready)
  }

  /** `t` no longer counts as live, and is no longer current. */
  function Retired(s: Sys, t: Tid): Sys {
    s.(count := s.count - 1, current := if s.current == Some(t) then None else s.current)
  }

  function KillThread(s: Sys, t: Tid): Sys
    requires t in s.th && JoinOf(t) in s.mx && s.mx[JoinOf(t)].owner == Some(t)
    requires forall p | p in s.mx[JoinOf(t)].pending :: p in s.th
  {
    var s2 := MutexUnlock(SetState(Retired(s, t), t, Zombie), JoinOf(t), t);
    s2.(mode := ModeAfterKill(s2.mode, s2.count))
  }

  // -------------------------------------------------------- scheduling

  /** The thread chained after `c`, if any. */
  function After(l: seq<Tid>, c: Tid): Option<Tid> {
    if |l| < 2 then None else if l[0] == c then Some(l[1]) else After(l[1..], c)
  }

  predicate KeepsRunning(s: Sys)
    requires s.current.Some? ==> s.current.value in s.th
  {
    s.current.Some? && s.th[s.current.value].state == Running
    && (s.th[s.current.value].remaining > 0 || s.th[s.current.value].critical)
  }

  /** The next thread of the running list: the successor of a running current thread, else the head. */
  function NextRunning(s: Sys): Option<Tid>
    requires s.current.Some? ==> s.current.value in s.th
  {
    var a := if s.current.Some? && s.th[s.current.value].state == Running
             then After(s.running, s.current.value) else None;
    if a.Some? then a else if s.running != [] then Some(s.running[0]) else None
  }

  lemma {:induction false} AfterIn(l: seq<Tid>, c: Tid)
    ensures After(l, c).Some? ==> After(l, c).value in l
  {
    if |l| >= 2 && l[0] != c { AfterIn(l[1..], c); }
  }

  lemma NextRunningIn(s: Sys)
    requires s.current.Some? ==> s.current.value in s.th
    ensures NextRunning(s) == None <==> s.running == []
    ensures NextRunning(s).Some? ==> NextRunning(s).value in s.running
  {
    if s.current.Some? { AfterIn(s.running, s.current.value); }
  }

  /** Run the next running thread, or the head of the ready list if that one has at least its priority. */
  function Pick(s: Sys): Sys
    requires s.current.Some? ==> s.current.value in s.th
    requires forall t | t in s.ready :: t in s.th
  {
    var c := NextRunning(s);
    if s.ready != [] && (c == None || c.value.prio <= s.ready[0].prio)
    then assert s.ready[0] in s.ready; SetState(s.(current := Some(s.ready[0])), s.ready[0], Running)
    else s.(current := c)
  }

  /** The round-robin choice; the chosen thread is the result's `current`. */
  function Schedule(s: Sys): Sys
    requires s.current.Some? ==> s.current.value in s.th
    requires (forall t | t in s.ready :: t in s.th) && (forall t | t in s.running :: t in s.th)
  {
    if KeepsRunning(s) then s
    else
      NextRunningIn(s);
      var s1 := Pick(s);
      if s1.current == None then s1 else SetRemaining(s1, s1.current.value, s1.timeslice)
  }
}
