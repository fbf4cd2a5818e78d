/** The scheduler's invariant, and the proof that every primitive operation keeps it. */
module SchedInv {
  import opened Options
  import opened SchedModel

  ghost predicate MutexOk(m: MInfo, th: map<Tid, TInfo>) {
    && m.count >= 0
    && (m.owner.Some? <==> m.count > 0)
    && (m.owner.Some? ==> m.owner.value in th && m.owner.value !in m.pending)
    && (m.pending != [] ==> m.owner.Some?)
  }

  ghost predicate Mutexes(s: Sys) {
    forall m | m in s.mx :: MutexOk(s.mx[m], s.th)
  }

  /** A live thread holds its own join mutex once; a zombie's join mutex is free. */
  ghost predicate JoinOk(s: Sys, t: Tid)
    requires t in s.th
  {
    && JoinOf(t) in s.mx
    && s.mx[JoinOf(t)].owner == (if s.th[t].state == Zombie then None else Some(t))
    && s.mx[JoinOf(t)].count == (if s.th[t].state == Zombie then 0 else 1)
  }

  ghost predicate Joins(s: Sys) {
    forall t | t in s.th :: JoinOk(s, t)
  }

  ghost predicate CurrentOk(s: Sys) {
    s.current.Some? ==> s.current.value in s.th && s.th[s.current.value].state != Zombie
  }

  ghost function Alive(th: map<Tid, TInfo>): set<Tid> {
    set t | t in th && th[t].state != Zombie
  }

  ghost function ModeOf(n: int): Mode {
    if n == 0 then Idle else if n == 1 then Mono else RoundRobin
  }

  /** The thread count is the number of non-zombies, and it alone fixes the scheduler mode. */
  ghost predicate Counted(s: Sys) {
    s.count == |Alive(s.th)| && s.mode == ModeOf(s.count)
  }

  ghost predicate Core(s: Sys) {
    true == (Placed(s, None) && Mutexes(s) && Joins(s) && CurrentOk(s) && Counted(s) && s.timeslice > 0)
  }

  /** No thread is caught half-way through starting or dying. */
  ghost predicate Settled(s: Sys) {
    forall t | t in s.th :: s.th[t].state != Dying && s.th[t].state != Starting
  }

  ghost predicate Inv(s: Sys) {
    Core(s) && Settled(s)
  }

  /** Only the scheduling state of `t` differs between the two thread tables. */
  ghost predicate OnlyState(th: map<Tid, TInfo>, th': map<Tid, TInfo>, t: Tid) {
    && th'.Keys == th.Keys
    && (forall u | u in th && u != t :: th'[u] == th[u])
  }

  // -------------------------------------------------------- state changes

  lemma SetStatePlaced(s: Sys, t: Tid, st: ThreadState)
    requires Placed(s, None) && t in s.th && st != Blocked
    requires s.th[t].state != Blocked && s.th[t].state != Zombie
    ensures Placed(SetState(s, t, st), None)
    ensures OnlyState(s.th, SetState(s, t, st).th, t) && SetState(s, t, st).th[t].state == st
  {
    hide Placed;
    UnlinkPlaced(s, t);
    AttachPlaced(Unlink(s, t), t, st);
  }

  lemma SameAlive(th: map<Tid, TInfo>, th': map<Tid, TInfo>)
    requires th.Keys == th'.Keys
    requires forall t | t in th :: th[t].state == Zombie <==> th'[t].state == Zombie
    ensures Alive(th) == Alive(th')
  {
  }

  /** Mutexes and joins depend on the thread table only through which threads are zombies. */
  lemma SameMutexes(s: Sys, s': Sys)
    requires Mutexes(s) && Joins(s) && s'.mx == s.mx && s'.th.Keys == s.th.Keys
    requires forall t | t in s.th :: s'.th[t].state == Zombie <==> s.th[t].state == Zombie
    ensures Mutexes(s') && Joins(s')
  {
    forall m | m in s'.mx ensures MutexOk(s'.mx[m], s'.th) {
      assert MutexOk(s.mx[m], s.th);
    }
    forall t | t in s'.th ensures JoinOk(s', t) {
      assert JoinOk(s, t);
    }
  }

  /** Between two live states, a state change keeps everything. */
  lemma SetStateCore(s: Sys, t: Tid, st: ThreadState)
    requires Core(s) && t in s.th && st in {Ready, Running, Dying}
    requires s.th[t].state != Blocked && s.th[t].state != Zombie
    ensures Core(SetState(s, t, st))
  {
    hide Placed, SetState, Mutexes, Joins;
    var s' := SetState(s, t, st);
    SetStatePlaced(s, t, st);
    SetStateFrame(s, t, st);
    SameAlive(s.th, s'.th);
    SameMutexes(s, s');
  }

  lemma SetStateFrame(s: Sys, t: Tid, st: ThreadState)
    requires t in s.th
    ensures var s' := SetState(s, t, st);
            s'.mx == s.mx && s'.bl == s.bl && s'.current == s.current && s'.count == s.count && s'.mode == s.mode && s'.timeslice == s.timeslice
  {
  }

  lemma SetRemainingCore(s: Sys, t: Tid, n: int)
    requires Core(s) && t in s.th
    ensures Core(SetRemaining(s, t, n))
  {
    var s' := SetRemaining(s, t, n);
    SamePlaced(s, s', None);
    SameAlive(s.th, s'.th);
    SameMutexes(s, s');
  }

  /** Placement reads only states, waits and stamps. */
  lemma SamePlaced(s: Sys, s': Sys, x: Option<Tid>)
    requires Placed(s, x)
    requires s'.ready == s.ready && s'.running == s.running && s'.zombie == s.zombie && s'.bl == s.bl && s'.clock == s.clock
    requires s'.th.Keys == s.th.Keys && s'.mx.Keys == s.mx.Keys
    requires forall m | m in s.mx :: s'.mx[m].pending == s.mx[m].pending
    requires forall t | t in s.th ::
               s'.th[t].state == s.th[t].state && s'.th[t].wait == s.th[t].wait && s'.th[t].stamp == s.th[t].stamp
    ensures Placed(s', x)
  {
    SameOrder(s.ready, s.th, s'.th);
    forall m | m in s'.mx
      ensures WaitList(s'.mx[m].pending, s'.th, OnMutex(m), x) && Sorted(s'.mx[m].pending, s'.th)
    {
      assert WaitList(s.mx[m].pending, s.th, OnMutex(m), x);
      SameOrder(s.mx[m].pending, s.th, s'.th);
    }
    forall b | b in s'.bl ensures WaitList(s'.bl[b], s'.th, OnBlocker(b), x) {
      assert WaitList(s.bl[b], s.th, OnBlocker(b), x);
    }
    forall t | t in s'.th && s'.th[t].state == Blocked && Some(t) != x ensures Parked(s', t) {
      assert Parked(s, t);
    }
  }

  // ------------------------------------------------------------- locking

  /** Only mutex `m` changed, and it is still well formed; join mutexes are as before. */
  lemma OneMutex(s: Sys, s': Sys, m: Mid)
    requires Mutexes(s) && Joins(s) && m in s.mx && m in s'.mx && s'.mx == s.mx[m := s'.mx[m]] && MutexOk(s'.mx[m], s'.th)
    requires s'.th.Keys == s.th.Keys
    requires forall t | t in s.th :: s'.th[t].state == Zombie <==> s.th[t].state == Zombie
    requires (m.Managed?) || (s'.mx[m].owner == s.mx[m].owner && s'.mx[m].count == s.mx[m].count)
    ensures Mutexes(s') && Joins(s')
  {
    forall n | n in s'.mx ensures MutexOk(s'.mx[n], s'.th) { assert MutexOk(s.mx[n], s.th); }
    forall u | u in s'.th ensures JoinOk(s', u) { assert JoinOk(s, u); }
  }

  lemma LockGrantedMutexes(s: Sys, m: Mid, t: Tid)
    requires Mutexes(s) && Joins(s) && m in s.mx && t in s.th && Granted(s, m, t)
    ensures Mutexes(MutexLock(s, m, t)) && (m.Managed? ==> Joins(MutexLock(s, m, t)))
  {
    var s' := MutexLock(s, m, t);
    assert MutexOk(s.mx[m], s.th);
    forall n | n in s'.mx ensures MutexOk(s'.mx[n], s'.th) { assert MutexOk(s.mx[n], s.th); }
    if m.Managed? { OneMutex(s, s', m); }
  }

  /** Taking a free or own mutex keeps the invariant; for a join mutex, up to its owner being another thread. */
  lemma LockGrantedCore(s: Sys, m: Mid, t: Tid)
    requires Core(s) && m in s.mx && t in s.th && Granted(s, m, t)
    ensures var s' := MutexLock(s, m, t);
            && Placed(s', None) && Mutexes(s') && CurrentOk(s') && Counted(s')
            && s'.mx[m].owner == Some(t) && s'.mx[m].count == s.mx[m].count + 1
            && (m.Managed? ==> Core(s'))
  {
    hide Placed, Mutexes, Joins;
    LockGrantedMutexes(s, m, t);
    SamePlaced(s, MutexLock(s, m, t), None);
  }

  /** Locking and unlocking in one go, as a successful join does, changes nothing. */
  lemma LockUnlockSame(s: Sys, m: Mid, t: Tid)
    requires m in s.mx && t in s.th && Granted(s, m, t) && MutexOk(s.mx[m], s.th)
    requires forall p | p in s.mx[m].pending :: p in s.th
    ensures var s' := MutexLock(s, m, t);
            && s'.mx[m].owner == Some(t) && s'.mx[m].pending == s.mx[m].pending && s'.th == s.th
            && MutexUnlock(s', m, t) == s
  {
    var s' := MutexLock(s, m, t);
    assert s.mx[m := s.mx[m]] == s.mx;
    if s.mx[m].owner == None {
      assert s.mx[m] == MInfo(None, 0, []);
      var s2 := SetOwner(SetCount(s', m, 0), m, None);
      assert s2.mx == s.mx;
      assert s2 == s;
    } else {
      assert SetCount(s', m, s.mx[m].count).mx == s.mx;
    }
  }

  lemma ParkLists(s: Sys, m: Mid, t: Tid)
    requires Placed(s, Some(t)) && t in s.th && m in s.mx
    ensures var s' := Park(Attach(s, t, Blocked), m, t);
            Holds(s'.ready, s'.th, Ready, None) && Holds(s'.running, s'.th, Running, None) && Holds(s'.zombie, s'.th, Zombie, None)
  {
  }

  lemma ParkWaiting(s: Sys, m: Mid, t: Tid)
    requires Placed(s, Some(t)) && t in s.th && m in s.mx
    ensures Waiting(Park(Attach(s, t, Blocked), m, t), None)
  {
    var s' := Park(Attach(s, t, Blocked), m, t);
    InsertMembers(s.mx[m].pending, t);
    forall n | n in s'.mx ensures WaitList(s'.mx[n].pending, s'.th, OnMutex(n), None) {
      assert WaitList(s.mx[n].pending, s.th, OnMutex(n), Some(t));
    }
    forall b | b in s'.bl ensures WaitList(s'.bl[b], s'.th, OnBlocker(b), None) {
      assert WaitList(s.bl[b], s.th, OnBlocker(b), Some(t));
    }
    forall u | u in s'.th && s'.th[u].state == Blocked ensures Parked(s', u) {
      if u != t { assert Parked(s, u); }
    }
  }

  lemma ParkQueues(s: Sys, m: Mid, t: Tid)
    requires Placed(s, Some(t)) && t in s.th && m in s.mx
    ensures Queues(Park(Attach(s, t, Blocked), m, t))
  {
    var s' := Park(Attach(s, t, Blocked), m, t);
    SameOrder(s.ready, s.th, s'.th);
    forall n | n in s'.mx ensures Sorted(s'.mx[n].pending, s'.th) {
      assert WaitList(s.mx[n].pending, s.th, OnMutex(n), Some(t));
      SameOrder(s.mx[n].pending, s.th, s'.th);
      if n == m { InsertKeepsSorted(s.mx[m].pending, t, s'.th); }
    }
  }

  lemma ParkPlaced(s: Sys, m: Mid, t: Tid)
    requires Placed(s, Some(t)) && t in s.th && m in s.mx
    ensures Placed(Park(Attach(s, t, Blocked), m, t), None)
  {
    hide Park, Attach, Holds, Waiting, Queues;
    ParkLists(s, m, t);
    ParkWaiting(s, m, t);
    ParkQueues(s, m, t);
  }

  lemma LockBlockedPlaced(s: Sys, m: Mid, t: Tid)
    requires Placed(s, None) && m in s.mx && t in s.th && !Granted(s, m, t)
    requires s.th[t].state != Blocked && s.th[t].state != Zombie
    ensures Placed(MutexLock(s, m, t), None)
  {
    var s' := MutexLock(s, m, t);
    UnlinkPlaced(s, t);
    ParkPlaced(Unlink(s, t), m, t);
    var p := Park(Attach(Unlink(s, t), t, Blocked), m, t);
    assert s' == p.(current := None);
    SamePlaced(p, s', None);
  }

  lemma LockBlockedMutexes(s: Sys, m: Mid, t: Tid)
    requires Mutexes(s) && Joins(s) && m in s.mx && t in s.th && !Granted(s, m, t)
    requires s.th[t].state != Blocked && s.th[t].state != Zombie
    ensures var s' := MutexLock(s, m, t);
            && Mutexes(s') && Joins(s') && Alive(s'.th) == Alive(s.th)
            && OnlyState(s.th, s'.th, t) && s'.th[t].state == Blocked
  {
    var s' := MutexLock(s, m, t);
    assert MutexOk(s'.mx[m], s'.th) by {
      assert MutexOk(s.mx[m], s.th);
      InsertMembers(s.mx[m].pending, t);
    }
    OneMutex(s, s', m);
    SameAlive(s.th, s'.th);
  }

  lemma LockBlockedCore(s: Sys, m: Mid, t: Tid)
    requires Core(s) && m in s.mx && t in s.th && !Granted(s, m, t)
    requires s.th[t].state != Blocked && s.th[t].state != Zombie
    ensures Core(MutexLock(s, m, t))
  {
    LockBlockedPlaced(s, m, t);
    LockBlockedMutexes(s, m, t);
  }

  // ----------------------------------------------------------- unlocking

  /** The machine with the head of the waiting list of `m` taken off. */
  ghost function Unparked(s: Sys, m: Mid): Sys
    requires m in s.mx && s.mx[m].pending != []
  {
    s.(mx := s.mx[m := s.mx[m].(pending := s.mx[m].pending[1..])])
  }

  lemma HeadBlocked(s: Sys, m: Mid)
    requires Placed(s, None) && m in s.mx && s.mx[m].pending != []
    ensures var l := s.mx[m].pending;
            && l[0] in s.th && s.th[l[0]].state == Blocked && l[0] !in l[1..] && (forall x :: x in l <==> x in l[1..] || x == l[0])
            && WaitList(l, s.th, OnMutex(m), None)
  {
    assert s.mx[m].pending[0] in s.mx[m].pending && WaitList(s.mx[m].pending, s.th, OnMutex(m), None);
  }

  lemma UnparkedWaiting(s: Sys, m: Mid)
    requires Placed(s, None) && m in s.mx && s.mx[m].pending != []
    ensures Waiting(Unparked(s, m), Some(s.mx[m].pending[0]))
  {
    var l, s0 := s.mx[m].pending, Unparked(s, m);
    var p := l[0];
    HeadBlocked(s, m);
    forall n | n in s0.mx ensures WaitList(s0.mx[n].pending, s0.th, OnMutex(n), Some(p)) {
      assert WaitList(s.mx[n].pending, s.th, OnMutex(n), None);
    }
    forall b | b in s0.bl ensures WaitList(s0.bl[b], s0.th, OnBlocker(b), Some(p)) {
      assert WaitList(s.bl[b], s.th, OnBlocker(b), None);
    }
    forall u | u in s0.th && s0.th[u].state == Blocked && u != p ensures Parked(s0, u) {
      assert Parked(s, u);
    }
  }

  lemma UnparkedQueues(s: Sys, m: Mid)
    requires Placed(s, None) && m in s.mx && s.mx[m].pending != []
    ensures Queues(Unparked(s, m))
  {
  }

  lemma UnparkedLists(s: Sys, m: Mid)
    requires Placed(s, None) && m in s.mx && s.mx[m].pending != []
    ensures var s0, x := Unparked(s, m), Some(s.mx[m].pending[0]);
            Holds(s0.ready, s0.th, Ready, x) && Holds(s0.running, s0.th, Running, x) && Holds(s0.zombie, s0.th, Zombie, x)
  {
    HeadBlocked(s, m);
  }

  /** Taking the head off a waiting list leaves that thread on no list. */
  lemma UnparkPlaced(s: Sys, m: Mid)
    requires Placed(s, None) && m in s.mx && s.mx[m].pending != []
    ensures s.mx[m].pending[0] in s.th && s.th[s.mx[m].pending[0]].state == Blocked
    ensures Placed(Unparked(s, m), Some(s.mx[m].pending[0]))
  {
    hide Unparked, Holds, Waiting, Queues;
    HeadBlocked(s, m);
    UnparkedWaiting(s, m);
    UnparkedQueues(s, m);
    UnparkedLists(s, m);
  }

  lemma WakeHeadPlaced(s: Sys, m: Mid, t: Tid)
    requires Placed(s, None) && m in s.mx && t in s.th && s.mx[m].pending != []
    ensures s.mx[m].pending[0] in s.th && s.th[s.mx[m].pending[0]].state == Blocked
    ensures Placed(WakeHead(s, m, t), None)
  {
    hide Placed;
    UnparkPlaced(s, m);
    var p := s.mx[m].pending[0];
    var s0 := Unparked(s, m);
    AttachPlaced(s0, p, Ready);
    var s1 := SetState(s0, p, Ready);
    SamePlaced(s1, SetRemaining(s1, t, 0), None);
  }

  ghost predicate WakesPeer(l: seq<Tid>, t: Tid) {
    exists p :: p in l && p.prio >= t.prio
  }

  /** From `s` to `s'`, exactly the threads of `l`, which waited for `m`, became ready; and the
      releasing thread `t` gave up its slice exactly if one of them has at least its priority. */
  ghost predicate Woken(s: Sys, s': Sys, m: Mid, t: Tid, l: seq<Tid>, rest: seq<Tid>)
    requires m in s.mx && t in s.th
  {
    && s'.mx == s.mx[m := s.mx[m].(pending := rest)]
    && s'.th.Keys == s.th.Keys
    && (forall u | u in s.th && u != t ::
          s'.th[u] == if u in l then s.th[u].(state := Ready, stamp := s'.th[u].stamp) else s.th[u])
    && s'.th[t] == s.th[t].(remaining := if WakesPeer(l, t) then 0 else s.th[t].remaining)
    && s' == s.(th := s'.th, mx := s'.mx, ready := s'.ready, clock := s'.clock)
    && (forall u | u in s'.ready :: u in s.ready || u in l)
    && (forall u | u in s.ready :: u in s'.ready)
    && (forall u | u in l :: u in s'.ready)
  }

  lemma WakeHeadFacts(s: Sys, m: Mid, t: Tid)
    requires m in s.mx && t in s.th && s.mx[m].pending != [] && t !in s.mx[m].pending
    requires s.mx[m].pending[0] in s.th && s.th[s.mx[m].pending[0]].state == Blocked
    ensures Woken(s, WakeHead(s, m, t), m, t, s.mx[m].pending[..1], s.mx[m].pending[1..])
  {
    var p := s.mx[m].pending[0];
    var l := s.mx[m].pending[..1];
    assert l == [p] && p in l;
    InsertMembers(s.ready, p);
    var s' := WakeHead(s, m, t);
    assert s'.ready == InsertSorted(s.ready, p);
    forall u | u in s'.ready ensures u in s.ready || u in l {
      assert u in InsertSorted(s.ready, p);
      assert u in s.ready || u == p;
    }
    assert WakesPeer(l, t) <==> p.prio >= t.prio by {
      if p.prio >= t.prio { assert p in l; }
    }
  }

  lemma WokenTrans(s: Sys, s1: Sys, s2: Sys, m: Mid, t: Tid, l1: seq<Tid>, l2: seq<Tid>, r1: seq<Tid>, r2: seq<Tid>)
    requires m in s.mx && t in s.th && m in s1.mx && t in s1.th
    requires Woken(s, s1, m, t, l1, r1) && Woken(s1, s2, m, t, l2, r2)
    ensures Woken(s, s2, m, t, l1 + l2, r2)
  {
    assert forall x :: x in l1 + l2 <==> x in l1 || x in l2;
    assert WakesPeer(l1 + l2, t) <==> WakesPeer(l1, t) || WakesPeer(l2, t) by {
      if WakesPeer(l1, t) {
        var p :| p in l1 && p.prio >= t.prio; assert p in l1 + l2;
      }
      if WakesPeer(l2, t) {
        var p :| p in l2 && p.prio >= t.prio; assert p in l1 + l2;
      }
    }
  }

  lemma NothingWoken(s: Sys, m: Mid, t: Tid)
    requires m in s.mx && t in s.th && s.mx[m].pending == []
    ensures Woken(s, s, m, t, [], [])
  {
    assert s.mx[m := s.mx[m].(pending := [])] == s.mx;
  }

  /** A full release empties the waiting list into the ready list and touches nothing else. */
  lemma {:induction false} DrainWakesAll(s: Sys, m: Mid, t: Tid)
    requires Placed(s, None) && m in s.mx && t in s.th && t !in s.mx[m].pending
    requires forall p | p in s.mx[m].pending :: p in s.th
    ensures Placed(Drain(s, m, t), None)
    ensures Woken(s, Drain(s, m, t), m, t, s.mx[m].pending, [])
    decreases |s.mx[m].pending|
  {
    hide Placed, Woken, WakeHead;
    var l := s.mx[m].pending;
    if l == [] {
      NothingWoken(s, m, t);
    } else {
      WakeHeadPlaced(s, m, t);
      DrainStep(s, m, t);
      var s1 := WakeHead(s, m, t);
      DrainWakesAll(s1, m, t);
      WokenTrans(s, s1, Drain(s1, m, t), m, t, l[..1], l[1..], l[1..], []);
      assert l == l[..1] + l[1..];
    }
  }

  lemma DrainStep(s: Sys, m: Mid, t: Tid)
    requires m in s.mx && t in s.th && s.mx[m].pending != [] && t !in s.mx[m].pending
    requires s.mx[m].pending[0] in s.th && s.th[s.mx[m].pending[0]].state == Blocked
    requires forall p | p in s.mx[m].pending :: p in s.th
    ensures var s1 := WakeHead(s, m, t); var l := s.mx[m].pending;
            && m in s1.mx && s1.mx[m].pending == l[1..] && t in s1.th && t !in l[1..]
            && (forall p | p in l[1..] :: p in s1.th)
            && Woken(s, s1, m, t, l[..1], l[1..]) && Drain(s, m, t) == Drain(s1, m, t)
  {
    WakeHeadFacts(s, m, t);
    assert forall x :: x in s.mx[m].pending[1..] ==> x in s.mx[m].pending;
  }

  lemma PendingKnown(s: Sys, m: Mid)
    requires Placed(s, None) && m in s.mx
    ensures forall p | p in s.mx[m].pending :: p in s.th && s.th[p].state == Blocked
  {
    assert WaitList(s.mx[m].pending, s.th, OnMutex(m), None);
  }

  /** The effect of an unlock that does not release, and of one that does. */
  ghost predicate Unlocked(s: Sys, s': Sys, m: Mid, t: Tid)
    requires m in s.mx && t in s.th
  {
    if s.mx[m].count > 1 then s' == SetCount(s, m, s.mx[m].count - 1)
    else Woken(s, s'.(mx := s'.mx[m := s.mx[m].(pending := [])]), m, t, s.mx[m].pending, [])
         && s'.mx == s.mx[m := FreeMutex]
  }

  /** The mutex with its count down and, at zero, its owner gone. */
  ghost function Freed(s: Sys, m: Mid): Sys
    requires m in s.mx
  {
    s.(mx := s.mx[m := MInfo(None, 0, s.mx[m].pending)])
  }

  lemma UnlockIs(s: Sys, m: Mid, t: Tid)
    requires m in s.mx && t in s.th && s.mx[m].owner == Some(t) && s.mx[m].count > 0
    requires forall p | p in s.mx[m].pending :: p in s.th
    ensures MutexUnlock(s, m, t) == if s.mx[m].count > 1 then SetCount(s, m, s.mx[m].count - 1) else Drain(Freed(s, m), m, t)
  {
    hide Drain;
    if s.mx[m].count == 1 { assert SetOwner(SetCount(s, m, 0), m, None) == Freed(s, m); }
  }

  lemma FreedPlaced(s: Sys, m: Mid, n: int)
    requires Placed(s, None) && m in s.mx
    ensures Placed(Freed(s, m), None) && Placed(SetCount(s, m, n), None)
  {
    hide Placed;
    SamePlaced(s, Freed(s, m), None);
    SamePlaced(s, SetCount(s, m, n), None);
  }

  lemma UnlockFacts(s: Sys, m: Mid, t: Tid)
    requires Placed(s, None) && m in s.mx && t in s.th && s.mx[m].owner == Some(t) && MutexOk(s.mx[m], s.th)
    requires forall p | p in s.mx[m].pending :: p in s.th
    ensures Placed(MutexUnlock(s, m, t), None)
    ensures Unlocked(s, MutexUnlock(s, m, t), m, t)
  {
    hide Placed, Woken, MutexUnlock, Drain;
    UnlockIs(s, m, t);
    FreedPlaced(s, m, s.mx[m].count - 1);
    if s.mx[m].count <= 1 {
      DrainWakesAll(Freed(s, m), m, t);
      WokenFrame(s, Freed(s, m), Drain(Freed(s, m), m, t), m, t);
    }
  }

  lemma WokenFrame(s: Sys, s2: Sys, s': Sys, m: Mid, t: Tid)
    requires m in s.mx && t in s.th && s2 == s.(mx := s.mx[m := MInfo(None, 0, s.mx[m].pending)])
    requires Woken(s2, s', m, t, s.mx[m].pending, [])
    ensures s'.mx == s.mx[m := FreeMutex]
    ensures Woken(s, s'.(mx := s'.mx[m := s.mx[m].(pending := [])]), m, t, s.mx[m].pending, [])
  {
    var s3 := s'.(mx := s'.mx[m := s.mx[m].(pending := [])]);
    assert s3.mx == s.mx[m := s.mx[m].(pending := [])];
    assert s' == s2.(th := s'.th, mx := s'.mx, ready := s'.ready, clock := s'.clock);
    assert s3 == s.(th := s3.th, mx := s3.mx, ready := s3.ready, clock := s3.clock);
  }

  lemma UnlockedFrame(s: Sys, s': Sys, m: Mid, t: Tid)
    requires m in s.mx && t in s.th && Unlocked(s, s', m, t)
    ensures s'.count == s.count && s'.mode == s.mode && s'.timeslice == s.timeslice && s'.current == s.current
    ensures s'.running == s.running && s'.zombie == s.zombie && s'.bl == s.bl
  {
  }

  lemma UnlockCore(s: Sys, m: Mid, t: Tid)
    requires Core(s) && m in s.mx && m.Managed? && t in s.th && s.mx[m].owner == Some(t)
    requires forall p | p in s.mx[m].pending :: p in s.th
    ensures Core(MutexUnlock(s, m, t))
    ensures Unlocked(s, MutexUnlock(s, m, t), m, t)
  {
    var s' := MutexUnlock(s, m, t);
    hide Placed;
    assert MutexOk(s.mx[m], s.th);
    UnlockFacts(s, m, t);
    UnlockedMutexes(s, s', m, t);
  }

  lemma UnlockedMutexes(s: Sys, s': Sys, m: Mid, t: Tid)
    requires Mutexes(s) && Joins(s) && CurrentOk(s) && m in s.mx && m.Managed? && t in s.th && s.mx[m].owner == Some(t)
    requires Unlocked(s, s', m, t)
    requires forall p | p in s.mx[m].pending :: p in s.th && s.th[p].state == Blocked
    ensures Mutexes(s') && Joins(s') && CurrentOk(s') && Alive(s'.th) == Alive(s.th)
    ensures s'.count == s.count && s'.mode == s.mode && s'.timeslice == s.timeslice
  {
    assert MutexOk(s.mx[m], s.th);
    SameAlive(s.th, s'.th);
    OneMutex(s, s', m);
  }

  // ------------------------------------------------- suspend and resume

  /** `t`, so far on no list, blocks on `b`. */
  ghost function Halted(s: Sys, b: Bid, t: Tid): Sys
    requires t in s.th && b in s.bl
  {
    var s1 := Attach(s.(bl := s.bl[b := s.bl[b] + [t]]), t, Blocked);
    s1.(th := s1.th[t := s1.th[t].(wait := OnBlocker(b))])
  }

  lemma HaltedLists(s: Sys, b: Bid, t: Tid)
    requires Placed(s, Some(t)) && t in s.th && b in s.bl
    ensures var s' := Halted(s, b, t);
            Holds(s'.ready, s'.th, Ready, None) && Holds(s'.running, s'.th, Running, None) && Holds(s'.zombie, s'.th, Zombie, None)
  {
  }

  lemma HaltedWaiting(s: Sys, b: Bid, t: Tid)
    requires Placed(s, Some(t)) && t in s.th && b in s.bl
    ensures Waiting(Halted(s, b, t), None)
  {
    var s' := Halted(s, b, t);
    forall n | n in s'.mx ensures WaitList(s'.mx[n].pending, s'.th, OnMutex(n), None) {
      assert WaitList(s.mx[n].pending, s.th, OnMutex(n), Some(t));
    }
    forall c | c in s'.bl ensures WaitList(s'.bl[c], s'.th, OnBlocker(c), None) {
      assert WaitList(s.bl[c], s.th, OnBlocker(c), Some(t));
      assert forall x :: x in s.bl[b] + [t] <==> x in s.bl[b] || x == t;
    }
    forall u | u in s'.th && s'.th[u].state == Blocked ensures Parked(s', u) {
      if u != t { assert Parked(s, u); }
    }
  }

  lemma HaltedQueues(s: Sys, b: Bid, t: Tid)
    requires Placed(s, Some(t)) && t in s.th && b in s.bl
    ensures Queues(Halted(s, b, t))
  {
    var s' := Halted(s, b, t);
    SameOrder(s.ready, s.th, s'.th);
    forall n | n in s'.mx ensures Sorted(s'.mx[n].pending, s'.th) {
      assert WaitList(s.mx[n].pending, s.th, OnMutex(n), Some(t));
      SameOrder(s.mx[n].pending, s.th, s'.th);
    }
  }

  lemma SuspendPlaced(s: Sys, b: Bid, t: Tid)
    requires Placed(s, Some(t)) && t in s.th && b in s.bl
    ensures Placed(Halted(s, b, t), None)
  {
    hide Halted, Holds, Waiting, Queues;
    HaltedLists(s, b, t);
    HaltedWaiting(s, b, t);
    HaltedQueues(s, b, t);
  }

  lemma SuspendCore(s: Sys, b: Bid, t: Tid)
    requires Core(s) && b in s.bl && t in s.th && s.th[t].state != Blocked && s.th[t].state != Zombie
    ensures Core(BlockerSuspend(s, b, t))
  {
    var s' := BlockerSuspend(s, b, t);
    hide Placed;
    UnlinkPlaced(s, t);
    SuspendPlaced(Unlink(s, t), b, t);
    hide Mutexes, Joins;
    SuspendLive(s, b, t);
  }

  lemma SuspendLive(s: Sys, b: Bid, t: Tid)
    requires Mutexes(s) && Joins(s) && CurrentOk(s)
    requires b in s.bl && t in s.th && s.th[t].state != Blocked && s.th[t].state != Zombie
    ensures var s' := BlockerSuspend(s, b, t);
            Mutexes(s') && Joins(s') && CurrentOk(s') && Alive(s'.th) == Alive(s.th)
  {
    var s' := BlockerSuspend(s, b, t);
    SameAlive(s.th, s'.th);
    SameMutexes(s, s');
  }

  lemma PopSuspendedWaiting(s: Sys, b: Bid)
    requires Placed(s, None) && b in s.bl && s.bl[b] != []
    ensures Last(s.bl[b]) in s.th && s.th[Last(s.bl[b])].state == Blocked
    ensures Waiting(PopSuspended(s, b), Some(Last(s.bl[b])))
  {
    var l := s.bl[b];
    var t := Last(l);
    assert t in l && WaitList(l, s.th, OnBlocker(b), None);
    var s0 := PopSuspended(s, b);
    var l0 := s0.bl[b];
    assert forall x :: x in l <==> x in l0 || x == t;
    assert t !in l0;
    forall m | m in s0.mx ensures WaitList(s0.mx[m].pending, s0.th, OnMutex(m), Some(t)) {
      assert WaitList(s.mx[m].pending, s.th, OnMutex(m), None);
    }
    forall c | c in s0.bl ensures WaitList(s0.bl[c], s0.th, OnBlocker(c), Some(t)) {
      assert WaitList(s.bl[c], s.th, OnBlocker(c), None);
    }
    forall u | u in s0.th && s0.th[u].state == Blocked && u != t ensures Parked(s0, u) {
      assert Parked(s, u);
    }
  }

  lemma PopSuspendedQueues(s: Sys, b: Bid)
    requires Placed(s, None) && b in s.bl && s.bl[b] != [] && Last(s.bl[b]) in s.th
    ensures Queues(PopSuspended(s, b))
  {
    var s0 := PopSuspended(s, b);
    SameOrder(s.ready, s.th, s0.th);
    forall m | m in s0.mx ensures Sorted(s0.mx[m].pending, s0.th) {
      assert WaitList(s.mx[m].pending, s.th, OnMutex(m), None);
      SameOrder(s.mx[m].pending, s.th, s0.th);
    }
  }

  lemma PopSuspendedLists(s: Sys, b: Bid)
    requires Placed(s, None) && b in s.bl && s.bl[b] != [] && Last(s.bl[b]) in s.th && s.th[Last(s.bl[b])].state == Blocked
    ensures var s0, x := PopSuspended(s, b), Some(Last(s.bl[b]));
            Holds(s0.ready, s0.th, Ready, x) && Holds(s0.running, s0.th, Running, x) && Holds(s0.zombie, s0.th, Zombie, x)
  {
  }

  lemma PopSuspendedPlaced(s: Sys, b: Bid)
    requires Placed(s, None) && b in s.bl && s.bl[b] != []
    ensures Last(s.bl[b]) in s.th && s.th[Last(s.bl[b])].state == Blocked
    ensures Placed(PopSuspended(s, b), Some(Last(s.bl[b])))
  {
    hide PopSuspended, Last, Holds, Waiting, Queues;
    PopSuspendedWaiting(s, b);
    PopSuspendedQueues(s, b);
    PopSuspendedLists(s, b);
  }

  lemma ReadyPlaced(s: Sys, t: Tid)
    requires Placed(s, Some(t)) && t in s.th && s.th[t].state == Blocked
    ensures Placed(SetState(s, t, Ready), None)
  {
    AttachPlaced(s, t, Ready);
  }

  lemma YieldToPlaced(s: Sys, t: Tid)
    requires Placed(s, None) && (s.current.Some? ==> s.current.value in s.th)
    ensures Placed(YieldTo(s, t), None)
  {
    SamePlaced(s, YieldTo(s, t), None);
  }

  lemma ResumeTopPlaced(s: Sys, b: Bid)
    requires Placed(s, None) && b in s.bl && s.bl[b] != []
    requires s.current.Some? ==> s.current.value in s.th
    ensures Last(s.bl[b]) in s.th && s.th[Last(s.bl[b])].state == Blocked
    ensures Placed(ResumeTop(s, b), None)
  {
    PopSuspendedPlaced(s, b);
    hide Placed, Last;
    ReadyPlaced(PopSuspended(s, b), Last(s.bl[b]));
    YieldToPlaced(SetState(PopSuspended(s, b), Last(s.bl[b]), Ready), Last(s.bl[b]));
  }

  lemma ResumeTopFields(s: Sys, b: Bid)
    requires b in s.bl && s.bl[b] != [] && (s.current.Some? ==> s.current.value in s.th)
    requires Last(s.bl[b]) in s.th && s.th[Last(s.bl[b])].state == Blocked
    ensures var s' := ResumeTop(s, b);
            && s'.mx == s.mx && s'.th.Keys == s.th.Keys
            && (forall t | t in s.th :: s'.th[t].state == Zombie <==> s.th[t].state == Zombie)
            && s'.current == s.current && s'.count == s.count && s'.mode == s.mode && s'.timeslice == s.timeslice
            && s'.bl == s.bl[b := s.bl[b][..|s.bl[b]| - 1]]
  {
  }

  lemma ResumeTopLive(s: Sys, b: Bid)
    requires Mutexes(s) && Joins(s) && CurrentOk(s) && b in s.bl && s.bl[b] != []
    requires Last(s.bl[b]) in s.th && s.th[Last(s.bl[b])].state == Blocked
    ensures var s' := ResumeTop(s, b);
            && Mutexes(s') && Joins(s') && CurrentOk(s') && Alive(s'.th) == Alive(s.th)
            && s'.current == s.current && s'.count == s.count && s'.mode == s.mode && s'.timeslice == s.timeslice
            && s'.bl == s.bl[b := s.bl[b][..|s.bl[b]| - 1]]
  {
    hide ResumeTop, Mutexes, Joins, Last;
    ResumeTopFields(s, b);
    SameAlive(s.th, ResumeTop(s, b).th);
    SameMutexes(s, ResumeTop(s, b));
  }

  lemma ResumeTopCore(s: Sys, b: Bid)
    requires Core(s) && b in s.bl && s.bl[b] != []
    ensures Last(s.bl[b]) in s.th && s.th[Last(s.bl[b])].state == Blocked
    ensures s.current.Some? ==> s.current.value in s.th
    ensures Core(ResumeTop(s, b)) && ResumeTop(s, b).current == s.current
    ensures ResumeTop(s, b).bl == s.bl[b := s.bl[b][..|s.bl[b]| - 1]]
  {
    hide Placed, Mutexes, Joins;
    ResumeTopPlaced(s, b);
    ResumeTopLive(s, b);
  }

  lemma BlockedKnown(s: Sys, b: Bid)
    requires Placed(s, None) && b in s.bl
    ensures forall p | p in s.bl[b] :: p in s.th && s.th[p].state == Blocked
  {
    assert WaitList(s.bl[b], s.th, OnBlocker(b), None);
  }

  lemma {:induction false} ResumeCore(s: Sys, b: Bid)
    requires Core(s) && b in s.bl && (forall t | t in s.bl[b] :: t in s.th)
    ensures var s' := BlockerResume(s, b); Core(s') && s'.current == s.current && s'.bl == s.bl[b := []]
    decreases |s.bl[b]|
  {
    hide Core;
    if s.bl[b] == [] {
      assert s.bl[b := []] == s.bl;
    } else {
      ResumeTopCore(s, b);
      var s1 := ResumeTop(s, b);
      assert s1.bl[b := []] == s.bl[b := []];
      ResumeCore(s1, b);
    }
  }

  // ------------------------------------------------- starting and killing

  /** A live thread that is on no waiting list can be killed. */
  ghost predicate Killable(s: Sys, t: Tid) {
    t in s.th && s.th[t].state != Blocked && s.th[t].state != Zombie
  }

  lemma RetiredPlaced(s: Sys, t: Tid)
    requires Placed(s, None)
    ensures Placed(Retired(s, t), None)
  {
    SamePlaced(s, Retired(s, t), None);
  }

  /** Up to the release of the join mutex. */
  lemma KillPlaced(s: Sys, t: Tid)
    requires Placed(s, None) && Killable(s, t) && JoinOf(t) in s.mx
    ensures var s1 := SetState(Retired(s, t), t, Zombie);
            && Placed(s1, None) && s1 == Retired(s, t).(th := s1.th, ready := s1.ready, running := s1.running, zombie := s1.zombie)
            && OnlyState(s.th, s1.th, t) && s1.th[t].state == Zombie
    ensures forall p | p in s.mx[JoinOf(t)].pending :: p in s.th && p != t
  {
    RetiredPlaced(s, t);
    SetStatePlaced(Retired(s, t), t, Zombie);
    assert WaitList(s.mx[JoinOf(t)].pending, s.th, OnMutex(JoinOf(t)), None);
  }

  lemma KillFacts(s: Sys, t: Tid)
    requires Placed(s, None) && Killable(s, t) && JoinOk(s, t) && MutexOk(s.mx[JoinOf(t)], s.th)
    requires forall p | p in s.mx[JoinOf(t)].pending :: p in s.th
    ensures var s1 := SetState(Retired(s, t), t, Zombie); var s' := KillThread(s, t);
            && Placed(s', None)
            && Unlocked(s1, s'.(mode := s.mode), JoinOf(t), t)
  {
    hide Placed, Unlocked, SetState;
    KillPlaced(s, t);
    var s1 := SetState(Retired(s, t), t, Zombie);
    UnlockFacts(s1, JoinOf(t), t);
    UnlockedFrame(s1, MutexUnlock(s1, JoinOf(t), t), JoinOf(t), t);
    SamePlaced(MutexUnlock(s1, JoinOf(t), t), KillThread(s, t), None);
    assert KillThread(s, t).(mode := s.mode) == MutexUnlock(s1, JoinOf(t), t);
  }

  lemma KillLive(s: Sys, s1: Sys, s': Sys, t: Tid)
    requires Mutexes(s) && Joins(s) && CurrentOk(s) && Killable(s, t)
    requires s1 == Retired(s, t).(th := s1.th, ready := s1.ready, running := s1.running, zombie := s1.zombie)
    requires OnlyState(s.th, s1.th, t) && s1.th[t].state == Zombie
    requires JoinOf(t) in s.mx && Unlocked(s1, s'.(mode := s.mode), JoinOf(t), t)
    requires forall p | p in s.mx[JoinOf(t)].pending :: p in s.th && p != t && s.th[p].state == Blocked
    ensures Killed(s, s', t) && s'.count == s.count - 1
  {
    assert JoinOk(s, t);
  }

  /** What is alive, owned and joined after a kill. */
  lemma AfterKill(s: Sys, s': Sys, t: Tid)
    requires Mutexes(s) && Joins(s) && CurrentOk(s) && Killable(s, t) && Killed(s, s', t)
    ensures Mutexes(s') && Joins(s') && CurrentOk(s') && Alive(s'.th) == Alive(s.th) - {t}
  {
    hide Mutexes;
    KilledMutexes(s, s', t);
    forall u | u in s'.th ensures JoinOk(s', u) { assert JoinOk(s, u); }
  }

  lemma KilledMutexes(s: Sys, s': Sys, t: Tid)
    requires Mutexes(s) && s'.mx == s.mx[JoinOf(t) := FreeMutex] && s'.th.Keys == s.th.Keys
    ensures Mutexes(s')
  {
    forall m | m in s'.mx ensures MutexOk(s'.mx[m], s'.th) { assert m != JoinOf(t) ==> MutexOk(s.mx[m], s.th); }
  }

  /** Killing frees the join mutex, makes its waiters ready and changes nothing else. */
  ghost predicate Killed(s: Sys, s': Sys, t: Tid) {
    && s'.th.Keys == s.th.Keys && t in s.th && s'.th[t].state == Zombie
    && s'.mx == s.mx[JoinOf(t) := FreeMutex]
    && s'.current == (if s.current == Some(t) then None else s.current)
    && s'.bl == s.bl && s'.timeslice == s.timeslice
    && (forall u | u in s.th && u != t ::
          s'.th[u] == s.th[u] || (s.th[u].state == Blocked && s'.th[u] == s.th[u].(state := Ready, stamp := s'.th[u].stamp)))
  }

  lemma KillLiveParts(s: Sys, t: Tid)
    requires Core(s) && Killable(s, t) && JoinOk(s, t) && MutexOk(s.mx[JoinOf(t)], s.th)
    requires forall p | p in s.mx[JoinOf(t)].pending :: p in s.th && s.th[p].state == Blocked
    ensures var s' := KillThread(s, t);
            && Mutexes(s') && Joins(s') && CurrentOk(s') && Killed(s, s', t)
            && Alive(s'.th) == Alive(s.th) - {t} && s'.count == s.count - 1
  {
    hide Placed, KillThread, SetState, Mutexes, Joins;
    KillPlaced(s, t);
    KillFacts(s, t);
    var s1, s' := SetState(Retired(s, t), t, Zombie), KillThread(s, t);
    UnlockedFrame(s1, s'.(mode := s.mode), JoinOf(t), t);
    KillLive(s, s1, s', t);
    AfterKill(s, s', t);
  }

  lemma OwnJoin(s: Sys, t: Tid)
    requires Core(s) && t in s.th && s.th[t].state != Zombie
    ensures JoinOk(s, t) && s.mx[JoinOf(t)].owner == Some(t) && MutexOk(s.mx[JoinOf(t)], s.th)
    ensures forall p | p in s.mx[JoinOf(t)].pending :: p in s.th && s.th[p].state == Blocked
    ensures t !in s.mx[JoinOf(t)].pending && Placed(s, None) && t in Alive(s.th) && Counted(s)
  {
    assert JoinOk(s, t) && MutexOk(s.mx[JoinOf(t)], s.th);
    PendingKnown(s, JoinOf(t));
  }

  lemma KillCore(s: Sys, t: Tid)
    requires Core(s) && Killable(s, t)
    requires JoinOf(t) in s.mx && s.mx[JoinOf(t)].owner == Some(t)
    requires forall p | p in s.mx[JoinOf(t)].pending :: p in s.th
    ensures Core(KillThread(s, t)) && Killed(s, KillThread(s, t), t)
  {
    hide Placed, Mutexes, Joins, KillThread;
    OwnJoin(s, t);
    KillFacts(s, t);
    KillLiveParts(s, t);
    KillMode(s, t);
  }

  lemma KillMode(s: Sys, t: Tid)
    requires Placed(s, None) && Killable(s, t) && JoinOk(s, t) && MutexOk(s.mx[JoinOf(t)], s.th)
    requires forall p | p in s.mx[JoinOf(t)].pending :: p in s.th
    ensures KillThread(s, t).mode == ModeAfterKill(s.mode, s.count - 1)
  {
    hide Placed;
    KillPlaced(s, t);
    var s1 := SetState(Retired(s, t), t, Zombie);
    UnlockFacts(s1, JoinOf(t), t);
    UnlockedFrame(s1, MutexUnlock(s1, JoinOf(t), t), JoinOf(t), t);
  }

  ghost predicate Startable(s: Sys, t: Tid) {
    t !in s.th && JoinOf(t) !in s.mx
  }

  lemma EnrolledLists(s: Sys, t: Tid, ip: int)
    requires Placed(s, None) && Startable(s, t)
    ensures var s' := Enrolled(s, t, ip);
            Holds(s'.ready, s'.th, Ready, None) && Holds(s'.running, s'.th, Running, None) && Holds(s'.zombie, s'.th, Zombie, None)
  {
    hide Enrolled;
    EnrolledIs(s, t, ip);
  }

  lemma EnrolledWaiting(s: Sys, t: Tid, ip: int)
    requires Placed(s, None) && Startable(s, t)
    ensures Waiting(Enrolled(s, t, ip), None)
  {
    hide Enrolled;
    EnrolledIs(s, t, ip);
    var s' := Enrolled(s, t, ip);
    forall m | m in s'.mx ensures WaitList(s'.mx[m].pending, s'.th, OnMutex(m), None) {
      if m != JoinOf(t) { assert WaitList(s.mx[m].pending, s.th, OnMutex(m), None); }
    }
    forall c | c in s'.bl ensures WaitList(s'.bl[c], s'.th, OnBlocker(c), None) {
      assert WaitList(s.bl[c], s.th, OnBlocker(c), None);
    }
    forall u | u in s'.th && s'.th[u].state == Blocked ensures Parked(s', u) {
      assert Parked(s, u);
    }
  }

  lemma EnrolledQueues(s: Sys, t: Tid, ip: int)
    requires Placed(s, None) && Startable(s, t)
    ensures Queues(Enrolled(s, t, ip))
  {
    hide Enrolled;
    EnrolledIs(s, t, ip);
    var s' := Enrolled(s, t, ip);
    SameOrder(s.ready, s.th, s'.th);
    forall m | m in s'.mx ensures Sorted(s'.mx[m].pending, s'.th) {
      if m != JoinOf(t) {
        assert WaitList(s.mx[m].pending, s.th, OnMutex(m), None);
        SameOrder(s.mx[m].pending, s.th, s'.th);
      }
    }
  }

  lemma EnrolledPlaced(s: Sys, t: Tid, ip: int)
    requires Placed(s, None) && Startable(s, t)
    ensures Placed(Enrolled(s, t, ip), None)
  {
    hide Enrolled, Holds, Waiting, Queues;
    EnrolledLists(s, t, ip);
    EnrolledWaiting(s, t, ip);
    EnrolledQueues(s, t, ip);
  }

  lemma EnrolledIs(s: Sys, t: Tid, ip: int)
    ensures var s' := Enrolled(s, t, ip);
            && s'.th == s.th[t := Fresh(ip).(depth := 1)] && s'.mx == s.mx[JoinOf(t) := MInfo(Some(t), 1, [])]
            && s' == s.(th := s'.th, mx := s'.mx, count := s.count + 1, mode := ModeAfterAdd(s.mode, s.count + 1))
  {
  }

  lemma EnrolledMutexes(s: Sys, t: Tid, ip: int)
    requires Mutexes(s) && Startable(s, t)
    ensures Mutexes(Enrolled(s, t, ip))
  {
    hide Enrolled;
    var s' := Enrolled(s, t, ip);
    EnrolledIs(s, t, ip);
    forall m | m in s'.mx ensures MutexOk(s'.mx[m], s'.th) { assert m != JoinOf(t) ==> MutexOk(s.mx[m], s.th); }
  }

  lemma EnrolledJoins(s: Sys, t: Tid, ip: int)
    requires Joins(s) && Startable(s, t)
    ensures Joins(Enrolled(s, t, ip))
  {
    hide Enrolled;
    var s' := Enrolled(s, t, ip);
    EnrolledIs(s, t, ip);
    forall u | u in s'.th ensures JoinOk(s', u) { assert u != t ==> JoinOk(s, u); }
  }

  lemma EnrolledLive(s: Sys, t: Tid, ip: int)
    requires Mutexes(s) && Joins(s) && CurrentOk(s) && Counted(s) && Startable(s, t)
    ensures var s' := Enrolled(s, t, ip); Mutexes(s') && Joins(s') && CurrentOk(s') && Counted(s')
  {
    hide Enrolled, Mutexes, Joins;
    EnrolledMutexes(s, t, ip);
    EnrolledJoins(s, t, ip);
    EnrolledIs(s, t, ip);
    assert Alive(Enrolled(s, t, ip).th) == Alive(s.th) + {t};
  }

  lemma AddCore(s: Sys, t: Tid, ip: int)
    requires Core(s) && Startable(s, t)
    ensures Core(AddThread(s, t, ip))
    ensures Settled(s) ==> Settled(AddThread(s, t, ip))
    ensures t in AddThread(s, t, ip).th
  {
    hide Placed, Mutexes, Joins;
    EnrolledPlaced(s, t, ip);
    EnrolledLive(s, t, ip);
    EnrolledIs(s, t, ip);
    hide Enrolled, SetState;
    var e := Enrolled(s, t, ip);
    SetStateCore(e, t, Ready);
    SetStatePlaced(e, t, Ready);
  }

  // ---------------------------------------------------------- scheduling

  lemma ListsKnown(s: Sys)
    requires Placed(s, None)
    ensures forall t | t in s.ready :: t in s.th && s.th[t].state == Ready
    ensures forall t | t in s.running :: t in s.th && s.th[t].state == Running
  {
  }

  lemma SetCurrentCore(s: Sys, c: Option<Tid>)
    requires Core(s) && (c.Some? ==> c.value in s.th && s.th[c.value].state != Zombie)
    ensures Core(s.(current := c))
  {
    var s' := s.(current := c);
    hide Placed;
    assert Placed(s', None) by { SamePlaced(s, s', None); }
    SameMutexes(s, s');
  }

  lemma PickCore(s: Sys)
    requires Core(s)
    requires s.current.Some? ==> s.current.value in s.th
    requires forall t | t in s.ready :: t in s.th
    ensures Core(Pick(s))
  {
    ListsKnown(s);
    NextRunningIn(s);
    hide Core, NextRunning;
    var c := NextRunning(s);
    if s.ready != [] && (c == None || c.value.prio <= s.ready[0].prio) {
      var r := s.ready[0];
      assert r in s.ready;
      SetCurrentCore(s, Some(r));
      SetStateCore(s.(current := Some(r)), r, Running);
    } else {
      SetCurrentCore(s, c);
    }
  }

  lemma CoreLists(s: Sys)
    requires Core(s)
    ensures forall t | t in s.ready :: t in s.th && s.th[t].state == Ready
    ensures forall t | t in s.running :: t in s.th && s.th[t].state == Running
  {
    ListsKnown(s);
  }

  lemma ScheduleCore(s: Sys)
    requires Core(s)
    requires s.current.Some? ==> s.current.value in s.th
    requires (forall t | t in s.ready :: t in s.th) && (forall t | t in s.running :: t in s.th)
    ensures Core(Schedule(s))
  {
    hide Core, Pick;
    PickCore(s);
    CoreLists(s);
    var s1 := Pick(s);
    if !KeepsRunning(s) && s1.current.Some? {
      ScheduleShape(s);
      SetRemainingCore(s1, s1.current.value, s1.timeslice);
    }
  }

  /** Promoting the head of the ready list. */
  lemma PromoteIs(s: Sys, r: Tid)
    requires r in s.th && s.th[r].state == Ready
    ensures SetState(s.(current := Some(r)), r, Running) ==
            s.(current := Some(r), th := s.th[r := s.th[r].(state := Running, remaining := s.timeslice)],
               ready := Remove(s.ready, r), running := s.running + [r])
  {
  }

  /** Choosing promotes at most one ready thread and refills the chosen thread's slice. */
  lemma ScheduleShape(s: Sys)
    requires s.current.Some? ==> s.current.value in s.th
    requires forall t | t in s.ready :: t in s.th && s.th[t].state == Ready
    requires forall t | t in s.running :: t in s.th
    ensures Pick(s).current.Some? ==> Pick(s).current.value in Pick(s).th
    ensures var s' := Schedule(s);
            || s' == s
            || (s'.current == None && s' == s.(current := None) && s.ready == [] && s.running == [])
            || (s'.current.Some? && s'.current.value in s.running
                && s' == s.(current := s'.current, th := s.th[s'.current.value := s.th[s'.current.value].(remaining := s.timeslice)]))
            || (s'.current.Some? && s.ready != [] && s'.current.value == s.ready[0] && s'.current.value in s.th
                && s' == s.(current := s'.current, th := s.th[s'.current.value := s.th[s'.current.value].(state := Running, remaining := s.timeslice)],
                            ready := Remove(s.ready, s.ready[0]), running := s.running + [s.ready[0]]))
  {
    NextRunningIn(s);
    if s.ready != [] {
      assert s.ready[0] in s.ready;
      PromoteIs(s, s.ready[0]);
    }
    hide SetState, NextRunning;
  }

  /** The scheduler picks a running thread if there is anything to run, and nothing otherwise. */
  lemma ScheduleChooses(s: Sys)
    requires Placed(s, None)
    requires s.current.Some? ==> s.current.value in s.th
    requires (forall t | t in s.ready :: t in s.th) && (forall t | t in s.running :: t in s.th)
    ensures var s' := Schedule(s);
            && (s'.current == None <==> s.ready == [] && s.running == [])
            && (s'.current.Some? ==> s'.current.value in s'.th && s'.th[s'.current.value].state == Running
                                     && s'.current.value in s'.running)
  {
    ListsKnown(s);
    if KeepsRunning(s) { assert s.current.value in s.running; }
    hide Placed;
    ScheduleShape(s);
    if !KeepsRunning(s) {
      PickNone(s);
    }
    hide Schedule;
  }

  lemma PickNone(s: Sys)
    requires s.current.Some? ==> s.current.value in s.th
    requires forall t | t in s.ready :: t in s.th
    ensures Pick(s).current == None <==> s.ready == [] && s.running == []
  {
    NextRunningIn(s);
  }

  /** A fresh choice leaves no ready thread of higher priority behind. */
  lemma ScheduleDominates(s: Sys, u: Tid)
    requires Placed(s, None)
    requires s.current.Some? ==> s.current.value in s.th
    requires (forall t | t in s.ready :: t in s.th) && (forall t | t in s.running :: t in s.th)
    requires !KeepsRunning(s) && Schedule(s).current.Some? && u in s.ready
    ensures Schedule(s).current.value.prio >= u.prio
  {
    var i :| 0 <= i < |s.ready| && s.ready[i] == u;
    if i > 0 { assert Precedes(s.th, s.ready[0], s.ready[i]); }
  }
}
