/** Nested synchronous runs: a thread waits inside one instruction while the machine goes on. */
module NestedRuns {

  datatype Frame = Frame(cs: nat, ip: nat)
  datatype Regs = Regs(program: nat, ip: nat, jmpSeg: nat, jmpOfs: nat, calls: seq<Frame>)

  /** A run in progress: whose it is, the registers it saved, and the height of the call stack that ends it.
      `kept` is the whole call stack at the start; the program does not save it. */
  datatype Waiting = Waiting(t: nat, program: nat, ip: nat, jmpSeg: nat, jmpOfs: nat, size: nat, kept: seq<Frame>)

  /** All threads, and the runs in progress, the innermost last. */
  datatype State = State(th: map<nat, Regs>, runs: seq<Waiting>)

  /** What one instruction of a thread does to its call stack. */
  datatype Effect = Keep | Call(f: Frame) | Cut(height: nat)
  datatype Event =
    | Cycle(t: nat, program: nat, ip: nat, jmpSeg: nat, jmpOfs: nat, effect: Effect)
    | Enter(t: nat, program: nat, ip: nat)
    | Leave
    | Create(t: nat, regs: Regs)
    | Remove(t: nat)

  function Calls(c: seq<Frame>, e: Effect): seq<Frame> {
    match e
    case Keep => c
    case Call(f) => c + [f]
    case Cut(h) => if h <= |c| then c[..h] else c
  }

  function Top(s: State): Waiting
    requires s.runs != []
  {
    s.runs[|s.runs| - 1]
  }

  /** The innermost run ends: its thread is back at the height where it started. */
  predicate Done(s: State) {
    s.runs != [] && Top(s).t in s.th && |s.th[Top(s).t].calls| == Top(s).size
  }

  /** The loop of the innermost run goes on exactly until it is done, whatever thread runs; threads start meanwhile, and
      threads that wait in no run die. */
  ghost predicate Legal(s: State, e: Event) {
    match e
    case Cycle(t, _, _, _, _, _) => t in s.th && !Done(s)
    case Enter(t, _, _) => t in s.th && !Done(s)
    case Leave => Done(s)
    case Create(t, _) => t !in s.th && !Done(s)
    case Remove(t) => t in s.th && !Done(s) && forall f | f in s.runs :: f.t != t
  }

  /** What a run that thread `t` starts now saves. */
  function Entered(s: State, t: nat): Waiting
    requires t in s.th
  {
    var r := s.th[t];
    Waiting(t, r.program, r.ip, r.jmpSeg, r.jmpOfs, |r.calls|, r.calls)
  }

  /** Thread `t` starts a nested run of `program`. */
  function Start(s: State, t: nat, program: nat, ip: nat): State
    requires t in s.th
  {
    var r := s.th[t];
    State(s.th[t := Regs(program, ip, program, 0, r.calls + [Frame(r.program, r.ip)])], s.runs + [Entered(s, t)])
  }

  /** The innermost run is over: its thread gets its registers back. */
  function Finish(s: State): State
    requires Done(s)
  {
    var f := Top(s);
    State(s.th[f.t := Regs(f.program, f.ip, f.jmpSeg, f.jmpOfs, s.th[f.t].calls)], s.runs[..|s.runs| - 1])
  }

  function Step(s: State, e: Event): State
    requires Legal(s, e)
  {
    match e
    case Cycle(t, program, ip, jmpSeg, jmpOfs, effect) =>
      s.(th := s.th[t := Regs(program, ip, jmpSeg, jmpOfs, Calls(s.th[t].calls, effect))])
    case Enter(t, program, ip) => Start(s, t, program, ip)
    case Leave => Finish(s)
    case Create(t, regs) => s.(th := s.th[t := regs])
    case Remove(t) => s.(th := s.th - {t})
  }

  // ------------------------------------------------------------- legal runs

  /** The events can happen one after the other. */
  ghost predicate LegalRun(s: State, es: seq<Event>)
    decreases es
  {
    es == [] || (Legal(s, es[0]) && LegalRun(Step(s, es[0]), es[1..]))
  }

  ghost function Play(s: State, es: seq<Event>): State
    requires LegalRun(s, es)
    decreases es
  {
    if es == [] then s else Play(Step(s, es[0]), es[1..])
  }

  /** At least `k` runs stay in progress. */
  ghost predicate Nested(s: State, es: seq<Event>, k: nat)
    requires LegalRun(s, es)
    decreases es
  {
    |s.runs| >= k && (es == [] || Nested(Step(s, es[0]), es[1..], k))
  }

  lemma {:induction false} NestedKeeps(s: State, es: seq<Event>, k: nat)
    requires LegalRun(s, es) && Nested(s, es, k)
    ensures k <= |s.runs| && k <= |Play(s, es).runs| && Play(s, es).runs[..k] == s.runs[..k]
    decreases es
  {
    if es != [] {
      NestedKeeps(Step(s, es[0]), es[1..], k);
      assert Step(s, es[0]).runs[..k] == s.runs[..k];
    }
  }

  /** `t` does not die in the course of the run. */
  ghost predicate Survives(es: seq<Event>, t: nat) {
    forall e | e in es :: !(e.Remove? && e.t == t)
  }

  function Min(a: nat, b: nat): nat {
    if a <= b then a else b
  }

  /** The lowest height that the call stack of `t` has in the course of the run. */
  ghost function Lowest(s: State, es: seq<Event>, t: nat): nat
    requires LegalRun(s, es) && t in s.th && Survives(es, t)
    decreases es
  {
    Min(|s.th[t].calls|, if es == [] then |s.th[t].calls| else Lowest(Step(s, es[0]), es[1..], t))
  }

  /** Whatever happens, the frames below the lowest height are still there. */
  lemma {:induction false} LowestAgrees(s: State, es: seq<Event>, t: nat)
    requires LegalRun(s, es) && t in s.th && Survives(es, t)
    ensures var m := Lowest(s, es, t);
            && t in Play(s, es).th && m <= |s.th[t].calls| && m <= |Play(s, es).th[t].calls|
            && Play(s, es).th[t].calls[..m] == s.th[t].calls[..m]
    decreases es
  {
    if es != [] {
      var s1, m := Step(s, es[0]), Lowest(s, es, t);
      LowestAgrees(s1, es[1..], t);
      var c := Play(s1, es[1..]).th[t].calls;
      assert c[..m] == c[..Lowest(s1, es[1..], t)][..m];
      assert s1.th[t].calls[..m] == s1.th[t].calls[..Lowest(s1, es[1..], t)][..m];
      assert s1.th[t].calls[..m] == s.th[t].calls[..m];
    }
  }

  /** A nested run from its start to its end: other threads run, and other runs nest, in any legal way. The thread
      always has its program, instruction pointer and pending jump back, and it has its call stack back if and
      only if the frames above the lowest height that it reached are the old ones. */
  lemma RunRestoresIff(s: State, t: nat, program: nat, ip: nat, es: seq<Event>)
    requires t in s.th && !Done(s) && LegalRun(Start(s, t, program, ip), es) && Nested(Start(s, t, program, ip), es, |s.runs| + 1)
    requires Survives(es, t)
    requires var s' := Play(Start(s, t, program, ip), es); |s'.runs| == |s.runs| + 1 && Done(s')
    ensures var s', m := Play(Start(s, t, program, ip), es), Lowest(Start(s, t, program, ip), es, t);
            && t in s'.th && m <= |s'.th[t].calls| == |s.th[t].calls|
            && Finish(s') == State(s'.th[t := s.th[t].(calls := s'.th[t].calls)], s.runs)
            && (Finish(s').th[t] == s.th[t] <==> s'.th[t].calls[m..] == s.th[t].calls[m..])
  {
    hide Play, LegalRun, Nested, Lowest;
    var s1 := Start(s, t, program, ip);
    var s', m := Play(s1, es), Lowest(s1, es, t);
    NestedKeeps(s1, es, |s.runs| + 1);
    assert s'.runs[..|s.runs| + 1] == s'.runs && s1.runs[..|s.runs| + 1] == s1.runs;
    LowestAgrees(s1, es, t);
    var c, c' := s.th[t].calls, s'.th[t].calls;
    assert s1.th[t].calls[..m] == c[..m];
    assert c == c[..m] + c[m..] && c' == c'[..m] + c'[m..];
  }

  /** So a nested run leaves its thread exactly as it was, whatever other threads do and however deep runs nest, if
      the thread's own call stack never drops below the height at which the run started. */
  lemma RunRestores(s: State, t: nat, program: nat, ip: nat, es: seq<Event>)
    requires t in s.th && !Done(s) && LegalRun(Start(s, t, program, ip), es) && Nested(Start(s, t, program, ip), es, |s.runs| + 1)
    requires Survives(es, t)
    requires var s' := Play(Start(s, t, program, ip), es); |s'.runs| == |s.runs| + 1 && Done(s')
    requires Lowest(Start(s, t, program, ip), es, t) >= |s.th[t].calls|
    ensures var s' := Play(Start(s, t, program, ip), es);
            t in Finish(s').th && Finish(s').th[t] == s.th[t] && Finish(s').runs == s.runs
  {
    hide Play, LegalRun, Nested, Lowest;
    RunRestoresIff(s, t, program, ip, es);
  }

  /** A thread that starts during a run is there with its registers, one that dies is gone, and nothing else changes. */
  lemma ThreadsComeAndGo(s: State, t: nat, regs: Regs)
    requires Legal(s, Create(t, regs)) && forall f | f in s.runs :: f.t != t
    ensures var s1 := Step(s, Create(t, regs));
            && t in s1.th && s1.th[t] == regs && s1.runs == s.runs && (forall u | u in s.th :: u in s1.th && s1.th[u] == s.th[u])
            && Legal(s1, Remove(t)) && Step(s1, Remove(t)) == s
  {
    assert s.th[t := regs] - {t} == s.th;
  }

  // --------------------------------------------------- when it does not hold

  /** A run that is not innermost is not watched: its thread comes back to the starting height, goes on from
      there with other calls, and its registers are set back under a different call stack. */
  lemma UnwatchedReturn(s: State, t: nat, u: nat, a: Frame, b: Frame)
    requires t in s.th && u in s.th && t != u && s.runs == [] && s.th[t].calls == [a] && a != b
    ensures var s1 := Start(Start(s, t, 1, 0), u, 2, 0);
            var back := Cycle(t, 1, 0, 1, 0, Cut(1));
            var down := Cycle(t, 1, 0, 1, 0, Cut(0));
            var call := Cycle(t, 1, 0, 1, 0, Call(b));
            var done := Cycle(u, 2, 0, 2, 0, Cut(|s.th[u].calls|));
            && Legal(s1, back) && Legal(Step(s1, back), down) && Legal(Step(Step(s1, back), down), call)
            && Legal(Step(Step(Step(s1, back), down), call), done)
            && var s2 := Step(Step(Step(Step(s1, back), down), call), done);
               Done(s2) && Done(Finish(s2)) && Finish(Finish(s2)).th[t].calls == [b] != s.th[t].calls
  {
    var c := s.th[u].calls;
    var f, g := Frame(s.th[t].program, s.th[t].ip), Frame(s.th[u].program, s.th[u].ip);
    assert ([a] + [f])[..1] == [a] && [a][..0] == [] && [] + [b] == [b] && (c + [g])[..|c|] == c;
    var s1 := Start(Start(s, t, 1, 0), u, 2, 0);
    assert s1.th[t].calls == [a] + [f] && s1.th[u].calls == c + [g] && |s1.runs| == 2;
    assert s1.runs[0].t == t && s1.runs[0].size == 1 && Top(s1).t == u && Top(s1).size == |c|;
  }

  // -------------------------------------------- exceptions out of nested runs

  /** The loop of the innermost run looks whether it is over. */
  function Looked(s: State): State {
    if Done(s) then Finish(s) else s
  }

  /** `t` is about to execute the instruction at `ip` of `program`. */
  predicate At(s: State, t: nat, program: nat, ip: nat) {
    t in s.th && s.th[t].program == program && s.th[t].ip == ip
  }

  /** The cycle in which thread `t` throws, or something throws in it: the catcher that it takes was installed at height
      `h`, so the call stack is cut back to that, and the thread moves to the handler. */
  function Caught(t: nat, program: nat, handler: nat, h: nat): Event {
    Cycle(t, program, handler, program, 0, Cut(h))
  }

  /** A caught exception ends the innermost run if and only if its thread throws, and the catcher was installed at exactly
      the height at which the run started, with the call stack not below it. Then the thread is set back to the instruction
      that started the run instead of the handler. In all other cases it is at the handler next: for a catcher of
      another height, and for a thread whose run, if it has one, is not the innermost. */
  lemma HandlerReachedIff(s: State, t: nat, program: nat, handler: nat, h: nat)
    requires t in s.th && s.runs != [] && !Done(s)
    ensures var e, f := Caught(t, program, handler, h), Top(s);
            var ends := t == f.t && h == f.size && h <= |s.th[t].calls|;
            && Legal(s, e)
            && (Done(Step(s, e)) <==> ends)
            && (At(Looked(Step(s, e)), t, program, handler) <==> !ends || (f.program == program && f.ip == handler))
            && (ends ==> At(Looked(Step(s, e)), t, f.program, f.ip) && Looked(Step(s, e)).runs == s.runs[..|s.runs| - 1])
  {
  }

  /** In the course of a run, with its thread not below the height of its start, a handler from before the run is reached
      if and only if its catcher was installed at a lower height than that of the start. */
  lemma OuterHandlerReachedIff(s: State, t: nat, program: nat, ip: nat, es: seq<Event>, outer: nat, handler: nat, h: nat)
    requires t in s.th && !Done(s) && h <= |s.th[t].calls| && (s.th[t].program != outer || s.th[t].ip != handler)
    requires LegalRun(Start(s, t, program, ip), es) && Nested(Start(s, t, program, ip), es, |s.runs| + 1)
    requires Survives(es, t)
    requires var s' := Play(Start(s, t, program, ip), es);
             |s'.runs| == |s.runs| + 1 && !Done(s') && t in s'.th && |s'.th[t].calls| >= |s.th[t].calls|
    ensures var s' := Play(Start(s, t, program, ip), es);
            Legal(s', Caught(t, outer, handler, h))
            && (At(Looked(Step(s', Caught(t, outer, handler, h))), t, outer, handler) <==> h < |s.th[t].calls|)
  {
    hide Play, LegalRun, Nested;
    var s1 := Start(s, t, program, ip);
    var s' := Play(s1, es);
    NestedKeeps(s1, es, |s.runs| + 1);
    assert s'.runs[..|s.runs| + 1] == s'.runs && s1.runs[..|s.runs| + 1] == s1.runs;
    assert Top(s') == Top(s1);
    HandlerReachedIff(s', t, outer, handler, h);
  }

  /** A run starts at its own place, with no jump pending and the thread's place on the call stack, and leaves every other
      thread alone; its end brings the thread back to that place. */
  lemma StartsAndEnds(s: State, t: nat, program: nat, ip: nat, u: nat)
    requires t in s.th && !Done(s)
    ensures var s1, r := Start(s, t, program, ip), s.th[t];
            && At(s1, t, program, ip) && s1.th[t].jmpOfs == 0 && s1.th[t].jmpSeg == program
            && s1.th[t].calls == r.calls + [Frame(r.program, r.ip)] && !Done(s1)
            && (u in s.th && u != t ==> u in s1.th && s1.th[u] == s.th[u])
            && var s2 := Step(s1, Cycle(t, program, ip, program, 0, Cut(|r.calls|)));
               Done(s2) && Finish(s2) == s
  {
    var r := s.th[t];
    assert (r.calls + [Frame(r.program, r.ip)])[..|r.calls|] == r.calls;
    var s2 := Step(Start(s, t, program, ip), Cycle(t, program, ip, program, 0, Cut(|r.calls|)));
    assert Finish(s2).th == s.th && Finish(s2).runs == s.runs;
  }

  /** For instance: a handler at exactly the starting height is lost at once. */
  lemma HandlerLost(s: State, t: nat, program: nat, outer: nat, handler: nat)
    requires t in s.th && s.runs == [] && (s.th[t].program != outer || s.th[t].ip != handler)
    ensures var s1 := Start(s, t, program, 0);
            var catch := Caught(t, outer, handler, |s.th[t].calls|);
            Legal(s1, catch) && At(Step(s1, catch), t, outer, handler) && Done(Step(s1, catch)) && Finish(Step(s1, catch)).th[t] == s.th[t]
  {
    var s1 := Start(s, t, program, 0);
    assert s1.th[t].calls[..|s.th[t].calls|] == s.th[t].calls;
  }

  // ---------------------------------------------------- the loop in the engine

  /** The events that are in the script: the loops see for themselves when they end. */
  ghost function Scripted(es: seq<Event>): seq<Event> {
    if es == [] then [] else (if es[0].Leave? then [] else [es[0]]) + Scripted(es[1..])
  }

  /** What a script may say: cycles and runs of the threads `ts`. */
  ghost predicate OfScript(es: seq<Event>, ts: set<nat>) {
    forall e | e in es :: (e.Cycle? || e.Enter?) && e.t in ts
  }

  lemma ScriptNext(es: seq<Event>, ts: set<nat>)
    requires OfScript(es, ts) && es != []
    ensures OfScript(es[1..], ts) && (es[0].Cycle? || es[0].Enter?) && es[0].t in ts
  {
    assert es[0] in es;
  }

  lemma ScriptRest(a: seq<Event>, b: seq<Event>, ts: set<nat>)
    requires OfScript(a + b, ts)
    ensures OfScript(b, ts)
  {
    forall e | e in b ensures e in a + b {
    }
  }

  ghost predicate NobodyDies(es: seq<Event>) {
    forall e | e in es :: !e.Remove?
  }

  /** What happens inside a run of thread `t`, from its start in state `s`: other runs start and end, but this one goes on
      until its thread is back at its height, if `over`. */
  ghost predicate RunInside(s: State, t: nat, program: nat, ip: nat, inside: seq<Event>, over: bool) {
    && t in s.th && LegalRun(Start(s, t, program, ip), inside) && Nested(Start(s, t, program, ip), inside, |s.runs| + 1)
    && (over <==> var s' := Play(Start(s, t, program, ip), inside); |s'.runs| == |s.runs| + 1 && Done(s'))
  }

  ghost function AfterRun(s: State, t: nat, program: nat, ip: nat, inside: seq<Event>, over: bool): State
    requires RunInside(s, t, program, ip, inside, over)
  {
    var s' := Play(Start(s, t, program, ip), inside);
    if over then Finish(s') else s'
  }

  /** The run as events of the surrounding one. */
  ghost function Whole(t: nat, program: nat, ip: nat, inside: seq<Event>, over: bool): seq<Event> {
    [Enter(t, program, ip)] + inside + if over then [Leave] else []
  }

  lemma {:induction false} PlayAppend(s: State, a: seq<Event>, b: seq<Event>, k: nat)
    requires LegalRun(s, a) && Nested(s, a, k) && LegalRun(Play(s, a), b) && Nested(Play(s, a), b, k)
    ensures LegalRun(s, a + b) && Play(s, a + b) == Play(Play(s, a), b) && Nested(s, a + b, k)
    decreases a
  {
    hide Step, Legal;
    if a == [] {
      assert a + b == b;
    } else {
      assert (a + b)[1..] == a[1..] + b;
      PlayAppend(Step(s, a[0]), a[1..], b, k);
    }
  }

  lemma {:induction false} ScriptedAppend(a: seq<Event>, b: seq<Event>)
    ensures Scripted(a + b) == Scripted(a) + Scripted(b)
  {
    if a == [] {
      assert a + b == b;
    } else {
      assert (a + b)[1..] == a[1..] + b;
      ScriptedAppend(a[1..], b);
    }
  }

  lemma {:induction false} NestedLess(s: State, es: seq<Event>, k: nat, l: nat)
    requires LegalRun(s, es) && Nested(s, es, k) && l <= k
    ensures Nested(s, es, l)
    decreases es
  {
    if es != [] { NestedLess(Step(s, es[0]), es[1..], k, l); }
  }

  lemma NothingYet(s: State)
    ensures LegalRun(s, []) && Play(s, []) == s && Nested(s, [], |s.runs|) && Scripted([]) == []
  {
  }

  lemma CycleRuns(s: State, e: Event)
    requires Legal(s, e) && e.Cycle?
    ensures Step(s, e).runs == s.runs
  {
  }

  lemma JustOne(s: State, e: Event, k: nat)
    requires Legal(s, e) && |s.runs| >= k && |Step(s, e).runs| >= k
    ensures LegalRun(s, [e]) && Play(s, [e]) == Step(s, e) && Nested(s, [e], k)
  {
    assert [e][1..] == [];
    assert LegalRun(Step(s, e), [e][1..]) && Nested(Step(s, e), [e][1..], k);
  }

  lemma OneMore(s: State, es: seq<Event>, e: Event, k: nat)
    requires LegalRun(s, es) && Nested(s, es, k) && !e.Leave?
    requires Legal(Play(s, es), e) && |Step(Play(s, es), e).runs| >= k
    ensures LegalRun(s, es + [e]) && Play(s, es + [e]) == Step(Play(s, es), e) && Nested(s, es + [e], k)
    ensures Scripted(es + [e]) == Scripted(es) + [e] && (NobodyDies(es) && !e.Remove? ==> NobodyDies(es + [e]))
  {
    hide Play, LegalRun, Nested, Legal;
    NestedKeeps(s, es, k);
    JustOne(Play(s, es), e, k);
    PlayAppend(s, es, [e], k);
    ScriptedAppend(es, [e]);
    assert Scripted([e]) == [e] + Scripted([]);
  }

  lemma StillInside(s: State, t: nat, program: nat, ip: nat, inside: seq<Event>)
    requires RunInside(s, t, program, ip, inside, false)
    ensures |AfterRun(s, t, program, ip, inside, false).runs| > |s.runs|
  {
    hide Play, LegalRun, Nested;
    NestedKeeps(Start(s, t, program, ip), inside, |s.runs| + 1);
  }

  /** A run inside a run is a legal part of it, and leaves the runs outside in progress. */
  lemma WholeRun(s: State, t: nat, program: nat, ip: nat, inside: seq<Event>, over: bool)
    requires RunInside(s, t, program, ip, inside, over) && !Done(s)
    ensures var es := Whole(t, program, ip, inside, over);
            LegalRun(s, es) && Play(s, es) == AfterRun(s, t, program, ip, inside, over) && Nested(s, es, |s.runs|)
  {
    hide Play, LegalRun, Nested;
    var k, s1, enter := |s.runs|, Start(s, t, program, ip), Enter(t, program, ip);
    JustOne(s, enter, k);
    NestedLess(s1, inside, k + 1, k);
    PlayAppend(s, [enter], inside, k);
    if over {
      JustOne(Play(s1, inside), Leave, k);
      PlayAppend(s, [enter] + inside, [Leave], k);
    } else {
      assert Whole(t, program, ip, inside, over) == [enter] + inside;
    }
  }

  lemma RunMore(s: State, es: seq<Event>, t: nat, program: nat, ip: nat, inside: seq<Event>, over: bool, k: nat)
    requires LegalRun(s, es) && Nested(s, es, k) && !Done(Play(s, es)) && RunInside(Play(s, es), t, program, ip, inside, over)
    ensures var all := es + Whole(t, program, ip, inside, over);
            LegalRun(s, all) && Play(s, all) == AfterRun(Play(s, es), t, program, ip, inside, over) && Nested(s, all, k)
    ensures Scripted(es + Whole(t, program, ip, inside, over)) == Scripted(es) + [Enter(t, program, ip)] + Scripted(inside)
    ensures NobodyDies(es) && NobodyDies(inside) ==> NobodyDies(es + Whole(t, program, ip, inside, over))
  {
    hide Play, LegalRun, Nested, RunInside;
    var m, w := Play(s, es), Whole(t, program, ip, inside, over);
    NestedKeeps(s, es, k);
    WholeRun(m, t, program, ip, inside, over);
    NestedLess(m, w, |m.runs|, k);
    PlayAppend(s, es, w, k);
    ScriptedAppend(es, w);
    ScriptedWhole(t, program, ip, inside, over);
  }

  lemma ScriptedWhole(t: nat, program: nat, ip: nat, inside: seq<Event>, over: bool)
    ensures Scripted(Whole(t, program, ip, inside, over)) == [Enter(t, program, ip)] + Scripted(inside)
  {
    var enter := [Enter(t, program, ip)];
    ScriptedAppend(enter + inside, if over then [Leave] else []);
    ScriptedAppend(enter, inside);
    assert Scripted(enter) == enter + Scripted([]);
    assert Scripted([Leave]) == Scripted([Leave][1..]);
  }

  /** After its run, whose lowest height was `m`, the thread has its registers back. It is as it was if and only if the
      frames from there on are the old ones, and in any case if the run never dropped below the height of its start. */
  ghost predicate GivenBack(s: State, s': State, t: nat, m: nat) {
    && s'.runs == s.runs && t in s.th && t in s'.th
    && s'.th[t] == s.th[t].(calls := s'.th[t].calls)
    && m <= |s'.th[t].calls| == |s.th[t].calls|
    && (s'.th[t] == s.th[t] <==> s'.th[t].calls[m..] == s.th[t].calls[m..])
    && (m == |s.th[t].calls| ==> s'.th[t] == s.th[t])
  }

  lemma NobodyYet()
    ensures NobodyDies([])
  {
  }

  lemma EverySurvives(es: seq<Event>, t: nat)
    requires NobodyDies(es)
    ensures Survives(es, t)
  {
  }

  lemma RunGivesBack(s: State, t: nat, program: nat, ip: nat, inside: seq<Event>)
    requires RunInside(s, t, program, ip, inside, true) && !Done(s) && Survives(inside, t)
    ensures GivenBack(s, AfterRun(s, t, program, ip, inside, true), t, Lowest(Start(s, t, program, ip), inside, t))
  {
    hide Play, LegalRun, Nested, Lowest;
    RunRestoresIff(s, t, program, ip, inside);
  }

  class Engine {
    var th: map<nat, Regs>
    ghost var runs: seq<Waiting>

    constructor (threads: map<nat, Regs>)
      ensures Value() == State(threads, [])
    {
      th, runs := threads, [];
    }

    ghost function Value(): State
      reads this
    {
      State(th, runs)
    }

    /** Push the caller and go to the start of `program`. */
    method EnterRun(t: nat, program: nat, ip: nat) returns (saved: Regs)
      requires t in th
      modifies this
      ensures t in old(th) && saved == old(th)[t] && Value() == Start(old(Value()), t, program, ip)
      ensures th.Keys == old(th).Keys && runs == old(runs) + [Entered(old(Value()), t)]
    {
      saved := th[t];
      runs := runs + [Entered(Value(), t)];
      th := th[t := Regs(program, ip, program, 0, saved.calls + [Frame(saved.program, saved.ip)])];
    }

    /** One cycle of the scheduler. */
    method Schedule(e: Event)
      requires e.Cycle? && e.t in th && !Done(Value())
      modifies this`th
      ensures Legal(old(Value()), e) && Value() == Step(old(Value()), e) && th.Keys == old(th).Keys
    {
      th := th[e.t := Regs(e.program, e.ip, e.jmpSeg, e.jmpOfs, Calls(th[e.t].calls, e.effect))];
    }

    /** Restore what the run saved. */
    method LeaveRun(t: nat, saved: Regs, ghost before: State)
      requires t in before.th && t in th && saved == before.th[t]
      requires runs == before.runs + [Entered(before, t)] && Done(Value())
      modifies this
      ensures Done(old(Value())) && Value() == Finish(old(Value())) && th.Keys == old(th).Keys && runs == before.runs
    {
      th := th[t := Regs(saved.program, saved.ip, saved.jmpSeg, saved.jmpOfs, th[t].calls)];
      runs := runs[..|runs| - 1];
    }

    /** Run `program` inside an instruction of thread `t`. The scheduler runs whatever `script` says, starting other
        nested runs as it goes; `over` unless the script ends first. What happens `inside` this run is a legal run of the
        states above: the script as far as it is used up, with a `Leave` wherever the loop of a nested run ends. */
    method RunSync(t: nat, program: nat, ip: nat, script: seq<Event>)
      returns (rest: seq<Event>, over: bool, ghost inside: seq<Event>)
      requires t in th && !Done(Value()) && OfScript(script, th.Keys)
      modifies this
      ensures th.Keys == old(th).Keys && NobodyDies(inside)
      ensures Scripted(inside) + rest == script && (over || rest == [])
      ensures RunInside(old(Value()), t, program, ip, inside, over) && Value() == AfterRun(old(Value()), t, program, ip, inside, over)
      ensures over ==> runs == old(runs)
      ensures over ==> GivenBack(old(Value()), Value(), t, Lowest(Start(old(Value()), t, program, ip), inside, t))
      decreases |script|
    {
      hide Play, LegalRun, Lowest, Nested, Scripted, GivenBack, Whole, NobodyDies, Step, Legal, Finish, Start, OfScript;
      ghost var s := Value();
      var saved := EnterRun(t, program, ip);
      ghost var s1 := Value();
      inside, rest := [], script;
      NothingYet(s1);
      NobodyYet();
      while rest != [] && |th[t].calls| != |saved.calls|
        invariant th.Keys == s.th.Keys && OfScript(rest, th.Keys) && |rest| <= |script|
        invariant Scripted(inside) + rest == script && NobodyDies(inside)
        invariant LegalRun(s1, inside) && Value() == Play(s1, inside) && Nested(s1, inside, |s.runs| + 1)
        invariant runs == s.runs + [Entered(s, t)]
        decreases |rest|
      {
        var e := rest[0];
        ScriptNext(rest, th.Keys);
        ghost var before := Value();
        if e.Cycle? {
          Schedule(e);
          CycleRuns(before, e);
          OneMore(s1, inside, e, |s.runs| + 1);
          rest := rest[1..];
          inside := inside + [e];
        } else {
          ghost var inner;
          ghost var todo := rest[1..];
          assert rest == [e] + todo;
          rest, over, inner := RunSync(e.t, e.program, e.ip, rest[1..]);
          RunMore(s1, inside, e.t, e.program, e.ip, inner, over, |s.runs| + 1);
          ScriptRest(Scripted(inner), rest, th.Keys);
          inside := inside + Whole(e.t, e.program, e.ip, inner, over);
          if !over {
            StillInside(before, e.t, e.program, e.ip, inner);
            return;
          }
        }
      }
      over := |th[t].calls| == |saved.calls|;
      if over {
        EverySurvives(inside, t);
        RunGivesBack(s, t, program, ip, inside);
        LeaveRun(t, saved, s);
      }
    }
  }
}
