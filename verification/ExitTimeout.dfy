/** Why the winner gives up: the shootdown loop times out only if it saw a thread that had not begun its callback. */
module ExitTimeout {
  import opened Options
  import opened ExitMachine
  import opened ExitLock
  import opened ExitRegistry
  import opened ExitRace
  import opened ExitInvariant
  import opened ExitTheorems

  /** Node x is on the frozen list, application-started, its callback has not begun, and it is not thread t's. */
  ghost predicate Unstarted(s: State, x: int, t: int) {
    var v := NodeAt(s.sh.reg, x);
    s.sh.gate.inExit && x in s.sh.reg.threadList && v.applStarted && !v.finiStarted && v.self != Some(t)
  }

  ghost predicate SeesUnstarted(s: State, t: int) { exists x :: Unstarted(s, x, t) }

  /** Some state up to i had such a node. */
  ghost predicate SawUnstarted(run: seq<State>, i: int, t: int)
    requires 0 <= i < |run|
  {
    exists k, x :: 0 <= k <= i && Unstarted(run[k], x, t)
  }

  /** The node under the walk has passed the test of tn_appl_started. */
  predicate ApplSeen(sh: Shared, fr: Frame) {
    fr.at.ScanStarted? || fr.at.ScanDone? ==> NodeAt(sh.reg, Walked(sh.reg, fr.pass.k)).applStarted
  }

  ghost predicate ApplAt(sh: Shared, f: int, fr: Frame) { ApplSeen(sh, fr) }

  /** The walk has counted an unstarted thread, or the loop has timed out. */
  predicate Counted(fr: Frame) {
    (InScan(fr.at) && fr.pass.unstarted > 0) || ((InOwn(fr.at) || InFini(fr.at)) && fr.pass.timedOut)
  }

  lemma ScanCounts(sh: Shared, fr: Frame, c: bool)
    requires InScan(fr.at)
    ensures var m := ScanMove(sh, fr, c);
      && m.Go? && m.e == Read && m.to.thread == fr.thread
      && (Counted(m.to) ==>
            Counted(fr) || (fr.at.ScanStarted? && !NodeAt(sh.reg, Walked(sh.reg, fr.pass.k)).finiStarted))
      && (ApplSeen(sh, fr) ==> ApplSeen(sh, m.to))
  {
  }

  lemma EndCounts(sh: Shared, fr: Frame)
    requires InOwn(fr.at) || InFini(fr.at)
    ensures var m := if InOwn(fr.at) then OwnMove(sh, fr) else FiniMove(fr);
      m.Go? ==> m.to.thread == fr.thread && (Counted(m.to) ==> Counted(fr)) && !InScan(m.to.at)
  {
  }

  lemma ShootCounts(sh: Shared, fr: Frame)
    requires InShoot(fr.at)
    ensures ShootMove(sh, fr).Go? && !Counted(ShootMove(sh, fr).to)
    ensures InScan(ShootMove(sh, fr).to.at) ==> ShootMove(sh, fr).to.at.ScanHead?
  {
  }

  lemma RestCounts(sh: Shared, fr: Frame, c: bool)
    requires !Won(fr.at)
    ensures MoveOf(sh, fr, c).Go? ==> !Counted(MoveOf(sh, fr, c).to) && !InScan(MoveOf(sh, fr, c).to.at)
  {
  }

  lemma CountsMove(sh: Shared, fr: Frame, c: bool)
    requires ApplSeen(sh, fr) && MoveOf(sh, fr, c).Go?
    ensures var m := MoveOf(sh, fr, c);
      && (Counted(m.to) ==>
            m.to.thread == fr.thread &&
            (Counted(fr) || (fr.at.ScanStarted? && !NodeAt(sh.reg, Walked(sh.reg, fr.pass.k)).finiStarted)))
      && (InScan(m.to.at) && !m.to.at.ScanHead? ==> m.e == Read && ApplSeen(sh, m.to))
  {
    if InScan(fr.at) { ScanCounts(sh, fr, c); }
    else if InOwn(fr.at) || InFini(fr.at) { EndCounts(sh, fr); }
    else if InShoot(fr.at) { ShootCounts(sh, fr); }
    else { RestCounts(sh, fr, c); }
  }

  lemma ApplListed(reg: Registry, reg': Registry, k: int)
    requires ListKept(reg, reg') && 0 <= k < |reg.threadList| && NodeAt(reg, Walked(reg, k)).applStarted
    ensures NodeAt(reg', Walked(reg', k)).applStarted
  {
    assert reg.threadList[k] in reg.threadList;
  }

  lemma InWalk(sh: Shared, h: int, hr: Frame)
    requires LocalOk(sh, h, hr) && (hr.at.ScanStarted? || hr.at.ScanDone?)
    ensures sh.gate.inExit && 0 <= hr.pass.k < |sh.reg.threadList|
  {
  }

  /** The frozen list keeps what a walk has seen. */
  lemma ApplKept(s: State, a: Action, h: int)
    requires Inv(s) && Enabled(s, a) && h in s.frames && ApplAt(s.sh, h, s.frames[h])
    ensures ApplAt(Do(s, a).sh, h, s.frames[h])
  {
    var at := s.frames[h].at;
    if at.ScanStarted? || at.ScanDone? {
      InWalk(s.sh, h, s.frames[h]);
      FrozenStep(s, a);
      ApplListed(s.sh.reg, Do(s, a).sh.reg, s.frames[h].pass.k);
    }
  }

  lemma ApplMover(sh: Shared, f: int, fr: Frame, c: bool)
    requires ApplSeen(sh, fr) && MoveOf(sh, fr, c).Go?
    ensures ApplSeen(Apply(sh, f, MoveOf(sh, fr, c).e), MoveOf(sh, fr, c).to)
  {
    CountsMove(sh, fr, c);
  }

  lemma ApplMoved(s: State, a: Action)
    requires Inv(s) && Enabled(s, a) && Everywhere(ApplAt, s)
    ensures var d := DeedOf(s, a); d.to.Some? ==> ApplAt(Apply(s.sh, d.actor, d.e), d.to.value.0, d.to.value.1)
  {
    match a
    case Step(f, c) =>
      assert ApplAt(s.sh, f, s.frames[f]);
      if MoveOf(s.sh, s.frames[f], c).Go? { ApplMover(s.sh, f, s.frames[f], c); }
    case Push(f, call) => CalleeIsNew(s.sh, s.frames[f].thread, f, call);
    case Block(t, on) =>
    case Support =>
  }

  lemma ApplStep(s: State, a: Action)
    requires Inv(s) && Enabled(s, a) && Everywhere(ApplAt, s)
    ensures Everywhere(ApplAt, Do(s, a))
  {
    ApplMoved(s, a);
    DeedDone(s, a);
    forall h | h in s.frames && DeedOf(s, a).from != Some(h) ensures ApplAt(Do(s, a).sh, h, s.frames[h]) {
      ApplKept(s, a, h);
    }
    Lift(ApplAt, s, DeedOf(s, a), Do(s, a));
  }

  lemma ApplNext(run: seq<State>, i: int)
    requires IsRun(run) && 0 < i < |run| && Everywhere(ApplAt, run[i - 1])
    ensures Everywhere(ApplAt, run[i])
  {
    InvRun(run, i - 1);
    var a := ActionAt(run, i);
    ApplStep(run[i - 1], a);
  }

  lemma ApplInitial()
    ensures Everywhere(ApplAt, INITIAL) && forall f :: f in INITIAL.frames ==> !Counted(INITIAL.frames[f])
  {
  }

  lemma {:induction false} ApplRun(run: seq<State>, i: int)
    requires IsRun(run) && 0 <= i < |run|
    ensures Everywhere(ApplAt, run[i])
  {
    if i == 0 {
      ApplInitial();
    } else {
      ApplRun(run, i - 1);
      ApplNext(run, i);
    }
  }

  /** A frame that has counted had done so before, or sees an unstarted thread now. */
  predicate CountsFrom(s: State, fr: Frame, f: int) {
    f in s.frames && fr.thread == s.frames[f].thread && Counted(s.frames[f])
  }

  lemma CountedStep(s: State, a: Action, f: int)
    requires Inv(s) && Enabled(s, a) && Everywhere(ApplAt, s) && f in Do(s, a).frames && Counted(Do(s, a).frames[f])
    ensures CountsFrom(s, Do(s, a).frames[f], f) || SeesUnstarted(s, Do(s, a).frames[f].thread)
  {
    DeedDone(s, a);
    match a
    case Step(g, c) =>
      if g == f && MoveOf(s.sh, s.frames[g], c).Go? { MoverCounts(s, f, c); }
    case Push(g, call) => CalleeIsNew(s.sh, s.frames[g].thread, g, call);
    case Block(t, on) =>
    case Support =>
  }

  lemma MoverCounts(s: State, f: int, c: bool)
    requires Inv(s) && f in s.frames && Everywhere(ApplAt, s) && MoveOf(s.sh, s.frames[f], c).Go?
    requires Counted(MoveOf(s.sh, s.frames[f], c).to)
    ensures CountsFrom(s, MoveOf(s.sh, s.frames[f], c).to, f) ||
      SeesUnstarted(s, MoveOf(s.sh, s.frames[f], c).to.thread)
  {
    var fr := s.frames[f];
    assert ApplAt(s.sh, f, fr) && LocalOk(s.sh, f, fr);
    CountsMove(s.sh, fr, c);
    if !Counted(fr) { assert Unstarted(s, Walked(s.sh.reg, fr.pass.k), fr.thread); }
  }

  /** Every frame that has counted has seen an unstarted thread. */
  ghost predicate CountsSeen(run: seq<State>, i: int)
    requires 0 <= i < |run|
  {
    forall f :: f in run[i].frames && Counted(run[i].frames[f]) ==> SawUnstarted(run, i, run[i].frames[f].thread)
  }

  lemma SawLater(run: seq<State>, i: int, t: int)
    requires 0 < i < |run| && SawUnstarted(run, i - 1, t)
    ensures SawUnstarted(run, i, t)
  {
  }

  lemma CountedNext(run: seq<State>, i: int, f: int)
    requires IsRun(run) && 0 < i < |run| && f in run[i].frames && Counted(run[i].frames[f])
    ensures CountsFrom(run[i - 1], run[i].frames[f], f) || SeesUnstarted(run[i - 1], run[i].frames[f].thread)
  {
    InvRun(run, i - 1);
    ApplRun(run, i - 1);
    var a := ActionAt(run, i);
    CountedStep(run[i - 1], a, f);
  }

  lemma SeenFrame(run: seq<State>, i: int, f: int)
    requires IsRun(run) && 0 < i < |run| && CountsSeen(run, i - 1)
    requires f in run[i].frames && Counted(run[i].frames[f])
    ensures SawUnstarted(run, i, run[i].frames[f].thread)
  {
    var t := run[i].frames[f].thread;
    CountedNext(run, i, f);
    if CountsFrom(run[i - 1], run[i].frames[f], f) {
      SawLater(run, i, t);
    } else {
      var x :| Unstarted(run[i - 1], x, t);
      assert SawUnstarted(run, i, t);
    }
  }

  lemma SeenNext(run: seq<State>, i: int)
    requires IsRun(run) && 0 < i < |run| && CountsSeen(run, i - 1)
    ensures CountsSeen(run, i)
  {
    forall f | f in run[i].frames && Counted(run[i].frames[f]) ensures SawUnstarted(run, i, run[i].frames[f].thread) {
      SeenFrame(run, i, f);
    }
  }

  lemma {:induction false} SeenRun(run: seq<State>, i: int)
    requires IsRun(run) && 0 <= i < |run|
    ensures CountsSeen(run, i)
  {
    if i == 0 {
      ApplInitial();
    } else {
      SeenRun(run, i - 1);
      SeenNext(run, i);
    }
  }

  /** If the shootdown loop has ended by its timeout, the winner has seen a thread, not its own, that was linked and
      application-started and whose callback had not begun. */
  lemma TimeOutSaw(run: seq<State>, i: int, w: int) returns (k: int, x: int)
    requires IsRun(run) && 0 <= i < |run| && w in run[i].frames
    requires InOwn(run[i].frames[w].at) || InFini(run[i].frames[w].at)
    requires run[i].frames[w].pass.timedOut
    ensures 0 <= k <= i && run[k].sh.gate.inExit && x in run[k].sh.reg.threadList
    ensures var v := NodeAt(run[k].sh.reg, x);
      v.applStarted && !v.finiStarted && v.self != Some(run[i].frames[w].thread)
  {
    SeenRun(run, i);
    k, x :| 0 <= k <= i && Unstarted(run[k], x, run[i].frames[w].thread);
  }

  // ----- the handler --------------------------------------------------------------------------

  predicate HandlerAt(sh: Shared, f: int, fr: Frame) { InScan(fr.at) || InOwn(fr.at) ==> sh.gate.handlerOn }

  lemma HandlerMove(sh: Shared, f: int, fr: Frame, c: bool)
    requires HandlerAt(sh, f, fr) && MoveOf(sh, fr, c).Go?
    ensures HandlerAt(Apply(sh, f, MoveOf(sh, fr, c).e), f, MoveOf(sh, fr, c).to)
  {
    if InShoot(fr.at) { HandlerShoot(sh, f, fr); } else if !Won(fr.at) { NoWalk(sh, fr, c); }
  }

  lemma HandlerShoot(sh: Shared, f: int, fr: Frame)
    requires InShoot(fr.at)
    ensures var m := ShootMove(sh, fr); m.Go? ==> HandlerAt(Apply(sh, f, m.e), f, m.to)
  {
  }

  lemma NoWalk(sh: Shared, fr: Frame, c: bool)
    requires !Won(fr.at)
    ensures MoveOf(sh, fr, c).Go? ==> !InScan(MoveOf(sh, fr, c).to.at) && !InOwn(MoveOf(sh, fr, c).to.at)
  {
  }

  lemma HandlerStep(s: State, a: Action)
    requires Enabled(s, a) && Everywhere(HandlerAt, s)
    ensures Everywhere(HandlerAt, Do(s, a))
  {
    match a {
      case Step(f, c) =>
        assert HandlerAt(s.sh, f, s.frames[f]);
        if MoveOf(s.sh, s.frames[f], c).Go? { HandlerMove(s.sh, f, s.frames[f], c); }
      case Push(f, call) => CalleeIsNew(s.sh, s.frames[f].thread, f, call);
      case Block(t, on) =>
      case Support =>
    }
    DeedDone(s, a);
    HandlerStays(s.sh.gate, DeedOf(s, a).actor, DeedOf(s, a).e);
    Lift(HandlerAt, s, DeedOf(s, a), Do(s, a));
  }

  lemma HandlerStays(g: Gate, f: int, e: Effect)
    ensures g.handlerOn ==> ApplyGate(g, f, e).handlerOn
  {
  }

  lemma HandlerNext(run: seq<State>, i: int)
    requires IsRun(run) && 0 < i < |run| && Everywhere(HandlerAt, run[i - 1])
    ensures Everywhere(HandlerAt, run[i])
  {
    var a := ActionAt(run, i);
    HandlerStep(run[i - 1], a);
  }

  /** The winner walks the list only after the shootdown handler is installed, and goes on from the loop with it. */
  lemma {:induction false} HandlerFirst(run: seq<State>, i: int)
    requires IsRun(run) && 0 <= i < |run|
    ensures Everywhere(HandlerAt, run[i])
    ensures forall f :: f in run[i].frames && (InScan(run[i].frames[f].at) || InOwn(run[i].frames[f].at)) ==>
      run[i].sh.gate.handlerOn
  {
    if i > 0 {
      HandlerFirst(run, i - 1);
      HandlerNext(run, i);
    }
    forall f | f in run[i].frames && (InScan(run[i].frames[f].at) || InOwn(run[i].frames[f].at))
      ensures run[i].sh.gate.handlerOn
    {
      assert HandlerAt(run[i].sh, f, run[i].frames[f]);
    }
  }
}
