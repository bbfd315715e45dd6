/** What the flags of process exit stand for: monitor_fini_thread_done closes the door to thread callbacks,
    the winner walks the thread list unless there was no thread, and it releases the losers. */
module ExitWinner {
  import opened Options
  import opened ExitMachine
  import opened ExitRace
  import opened ExitInvariant
  import opened ExitCallbacks

  // ----- the cutoff ---------------------------------------------------------------------------

  /** Past the test of monitor_fini_thread_done, and about to test or set tn_fini_started. */
  predicate PastCutoff(at: At) {
    match at
    case CleanSet | WaitTest | SigSet => true
    case _ => false
  }

  lemma CutoffMove(sh: Shared, fr: Frame, c: bool)
    requires sh.race.finiThreadDone && MoveOf(sh, fr, c).Go? && PastCutoff(MoveOf(sh, fr, c).to.at)
    ensures PastCutoff(fr.at)
  {
  }

  lemma CutoffStep(s: State, a: Action, f: int)
    requires Enabled(s, a) && s.sh.race.finiThreadDone
    requires f in Do(s, a).frames && PastCutoff(Do(s, a).frames[f].at)
    ensures Do(s, a).sh.race.finiThreadDone && f in s.frames && PastCutoff(s.frames[f].at)
  {
    DeedDone(s, a);
    match a
    case Step(g, c) =>
      var m := MoveOf(s.sh, s.frames[g], c);
      if m.Go? && PastCutoff(m.to.at) { CutoffMove(s.sh, s.frames[g], c); }
    case Push(g, call) => CalleeIsNew(s.sh, s.frames[g].thread, g, call);
    case Block(t, on) =>
    case Support =>
  }

  /** What a step keeps of a frame that is past the cutoff. */
  predicate CutoffPair(s: State, s': State, f: int) {
    s.sh.race.finiThreadDone ==>
      && s'.sh.race.finiThreadDone
      && (f in s'.frames && PastCutoff(s'.frames[f].at) ==> f in s.frames && PastCutoff(s.frames[f].at))
  }

  lemma CutoffNext(run: seq<State>, j: int, f: int)
    requires IsRun(run) && 0 < j < |run|
    ensures CutoffPair(run[j - 1], run[j], f)
  {
    var a := ActionAt(run, j);
    if run[j - 1].sh.race.finiThreadDone {
      DoneStays(run[j - 1], a);
      if f in run[j].frames && PastCutoff(run[j].frames[f].at) { CutoffStep(run[j - 1], a, f); }
    }
  }

  lemma DoneStays(s: State, a: Action)
    requires Enabled(s, a)
    ensures s.sh.race.finiThreadDone ==> Do(s, a).sh.race.finiThreadDone
    ensures s.sh.race.finiProcessDone ==> Do(s, a).sh.race.finiProcessDone
  {
  }

  lemma {:induction false} CutoffChain(run: seq<State>, i: int, j: int, f: int)
    requires 0 <= i <= j < |run| && run[i].sh.race.finiThreadDone
    requires forall k :: 0 < k < |run| ==> CutoffPair(run[k - 1], run[k], f)
    ensures run[j].sh.race.finiThreadDone
    ensures f in run[j].frames && PastCutoff(run[j].frames[f].at) ==>
      f in run[i].frames && PastCutoff(run[i].frames[f].at)
    decreases j
  {
    if i < j {
      CutoffChain(run, i, j - 1, f);
      assert CutoffPair(run[j - 1], run[j], f);
    }
  }

  /** After monitor_fini_thread_done is set, only a call that had passed its test before can go on to start a
      callback; the handler, the cleanup routine and the sigwait helper let no other by.  (The winner's own
      call is not one of these.) */
  lemma NoNewCallers(run: seq<State>, i: int, j: int, f: int)
    requires IsRun(run) && 0 <= i <= j < |run| && run[i].sh.race.finiThreadDone
    requires f in run[j].frames && PastCutoff(run[j].frames[f].at)
    ensures f in run[i].frames && PastCutoff(run[i].frames[f].at)
  {
    forall k | 0 < k < |run| ensures CutoffPair(run[k - 1], run[k], f) { CutoffNext(run, k, f); }
    CutoffChain(run, i, j, f);
  }

  /** Some run goes on from here until frame f, on top, is about to set tn_fini_started and to begin the callback. */
  ghost predicate CanStillCall(run: seq<State>, f: int) {
    exists run' :: IsRun(run') && run <= run' && AboutToCall(run'[|run'| - 1], f)
  }

  /** In the handler, the cleanup routine or the sigwait helper; the winner's own call is not meant. */
  predicate AboutToCall(s: State, f: int) {
    Top(s, f) && (s.frames[f].at.CleanSet? || s.frames[f].at.SigSet?)
  }

  lemma GoesOn(run: seq<State>, f: int) returns (run': seq<State>)
    requires IsRun(run) && Top(run[|run| - 1], f) && run[|run| - 1].frames[f].at.WaitTest?
    requires MayStart(NodeAt(run[|run| - 1].sh.reg, run[|run| - 1].frames[f].n))
    ensures IsRun(run') && run <= run' && AboutToCall(run'[|run'| - 1], f)
  {
    var s := run[|run| - 1];
    var s' := Do(s, Step(f, false));
    assert Next(s, s');
    run' := run + [s'];
    forall i | 0 <= i < |run'| - 1 ensures Next(run'[i], run'[i + 1]) {
      if i < |run| - 1 { assert run'[i] == run[i] && run'[i + 1] == run[i + 1]; }
    }
  }

  /** Exactly which calls can still begin a callback after monitor_fini_thread_done: a call on top of its thread can
      if and only if it has passed its test of that flag.  (The sigwait helper tests the node after the flag, so its
      node must pass then.) */
  lemma CallsAfterDone(run: seq<State>, f: int)
    requires IsRun(run) && run[|run| - 1].sh.race.finiThreadDone && Top(run[|run| - 1], f)
    requires run[|run| - 1].frames[f].at.WaitTest? ==>
      MayStart(NodeAt(run[|run| - 1].sh.reg, run[|run| - 1].frames[f].n))
    ensures CanStillCall(run, f) <==> PastCutoff(run[|run| - 1].frames[f].at)
  {
    var s := run[|run| - 1];
    if CanStillCall(run, f) {
      var run' :| IsRun(run') && run <= run' && AboutToCall(run'[|run'| - 1], f);
      assert run'[|run| - 1] == s;
      NoNewCallers(run', |run| - 1, |run'| - 1, f);
    }
    if s.frames[f].at.WaitTest? {
      var run' := GoesOn(run, f);
      assert CanStillCall(run, f);
    } else if PastCutoff(s.frames[f].at) {
      assert AboutToCall(run[|run| - 1], f);
    }
  }

  // ----- the winner's way ---------------------------------------------------------------------

  /** From the end of the walk on, monitor_fini_thread_done is set. */
  predicate DoorClosed(sh: Shared, f: int, fr: Frame) {
    (InOwn(fr.at) && !fr.at.ShootDone?) || (InFini(fr.at) && fr.pass.walked) ==> sh.race.finiThreadDone
  }

  lemma DoorOpening(sh: Shared, fr: Frame, c: bool)
    requires !InOwn(fr.at) && !InFini(fr.at) && MoveOf(sh, fr, c).Go?
    ensures var to := MoveOf(sh, fr, c).to; (InOwn(to.at) ==> to.at.ShootDone?) && (InFini(to.at) ==> !to.pass.walked)
  {
  }

  lemma DoorMove(sh: Shared, f: int, fr: Frame, c: bool)
    requires DoorClosed(sh, f, fr) && MoveOf(sh, fr, c).Go?
    ensures DoorClosed(Apply(sh, f, MoveOf(sh, fr, c).e), f, MoveOf(sh, fr, c).to)
  {
    if !InOwn(fr.at) && !InFini(fr.at) { DoorOpening(sh, fr, c); }
  }

  ghost predicate DoorInv(s: State) { forall f :: f in s.frames ==> DoorClosed(s.sh, f, s.frames[f]) }

  lemma DoorNew(s: State, a: Action)
    requires Inv(s) && DoorInv(s) && Enabled(s, a)
    ensures var d := DeedOf(s, a);
      d.to.Some? ==> DoorClosed(Apply(s.sh, d.actor, d.e), d.to.value.0, d.to.value.1)
  {
    match a
    case Step(f, c) => if MoveOf(s.sh, s.frames[f], c).Go? { DoorMove(s.sh, f, s.frames[f], c); }
    case Push(f, call) => CalleeIsNew(s.sh, s.frames[f].thread, f, call);
    case Block(t, on) =>
    case Support =>
  }

  lemma DoorStep(s: State, a: Action)
    requires Inv(s) && DoorInv(s) && Enabled(s, a)
    ensures DoorInv(Do(s, a))
  {
    DoorNew(s, a);
    DeedDone(s, a);
    DoneStays(s, a);
    Lift((sh: Shared, f: int, fr: Frame) => DoorClosed(sh, f, fr), s, DeedOf(s, a), Do(s, a));
  }

  /** The winner's call is under way, or monitor_fini_process_done is set. */
  ghost predicate WinnerInv(s: State) {
    s.sh.race.winner.Some? ==>
      s.sh.race.finiProcessDone || (s.sh.race.winner.value in s.frames && Won(s.frames[s.sh.race.winner.value].at))
  }

  /** The winner stays on its way until it sets monitor_fini_process_done. */
  predicate OnTheWay(m: Move) { !m.e.Win? && if m.Go? then Won(m.to.at) else m.e.SetProcessDone? }

  lemma WonShoot(sh: Shared, fr: Frame)
    requires InShoot(fr.at)
    ensures OnTheWay(ShootMove(sh, fr))
  {
  }

  lemma WonScan(sh: Shared, fr: Frame, c: bool)
    requires InScan(fr.at)
    ensures OnTheWay(ScanMove(sh, fr, c))
  {
  }

  lemma WonEnd(sh: Shared, fr: Frame)
    requires InOwn(fr.at) || InFini(fr.at)
    ensures OnTheWay(if InOwn(fr.at) then OwnMove(sh, fr) else FiniMove(fr))
  {
  }

  lemma WonMove(sh: Shared, fr: Frame, c: bool)
    requires Won(fr.at)
    ensures OnTheWay(MoveOf(sh, fr, c))
  {
    if InShoot(fr.at) { WonShoot(sh, fr); } else if InScan(fr.at) { WonScan(sh, fr, c); } else { WonEnd(sh, fr); }
  }

  lemma WinMove(sh: Shared, fr: Frame, c: bool)
    requires !Won(fr.at)
    ensures var m := MoveOf(sh, fr, c); m.e.Win? ==> m.Go? && Won(m.to.at)
  {
  }

  lemma WinnerStep(s: State, a: Action)
    requires Inv(s) && WinnerInv(s) && Enabled(s, a)
    ensures WinnerInv(Do(s, a))
  {
    match a
    case Step(f, c) => if Won(s.frames[f].at) { WinnerMoves(s, f, c); } else { OtherMoves(s, f, c); }
    case Push(f, call) => WinnerStays(s, a);
    case Block(t, on) => WinnerStays(s, a);
    case Support => WinnerStays(s, a);
  }

  lemma WinnerMoves(s: State, f: int, c: bool)
    requires Inv(s) && WinnerInv(s) && Enabled(s, Step(f, c)) && Won(s.frames[f].at)
    ensures WinnerInv(Do(s, Step(f, c)))
  {
    WonMove(s.sh, s.frames[f], c);
    assert LocalOk(s.sh, f, s.frames[f]);
  }

  lemma OtherMoves(s: State, f: int, c: bool)
    requires Inv(s) && WinnerInv(s) && Enabled(s, Step(f, c)) && !Won(s.frames[f].at)
    ensures WinnerInv(Do(s, Step(f, c)))
  {
    var m := MoveOf(s.sh, s.frames[f], c);
    WinMove(s.sh, s.frames[f], c);
    if m.e.Win? { WinsNow(s, f, c); } else { LeavesWinner(s, f, c); }
  }

  lemma WinsNow(s: State, f: int, c: bool)
    requires Enabled(s, Step(f, c))
    requires var m := MoveOf(s.sh, s.frames[f], c); m.e.Win? && m.Go? && Won(m.to.at)
    ensures WinnerInv(Do(s, Step(f, c)))
  {
  }

  lemma LeavesWinner(s: State, f: int, c: bool)
    requires Inv(s) && WinnerInv(s) && Enabled(s, Step(f, c)) && !Won(s.frames[f].at)
    requires !MoveOf(s.sh, s.frames[f], c).e.Win?
    ensures WinnerInv(Do(s, Step(f, c)))
  {
    KeptBy(s, Step(f, c));
    WinnerSame(s, f, MoveDeed(f, MoveOf(s.sh, s.frames[f], c), s.sh.gate.nextFrame, s.nextThread), Do(s, Step(f, c)));
  }

  lemma WinnerSame(s: State, f: int, d: Deed, s': State)
    requires WinnerInv(s) && Kept(s, d, s') && d.from == Some(f) && f in s.frames && !Won(s.frames[f].at) && !d.e.Win?
    requires d.to.Some? ==> d.to.value.0 !in s.frames || d.to.value.0 == f
    ensures WinnerInv(s')
  {
    var w := s.sh.race.winner;
    assert s'.sh.race == ApplyRace(s.sh.race, d.actor, d.e);
    assert s'.sh.race.winner == w && (s.sh.race.finiProcessDone ==> s'.sh.race.finiProcessDone);
    if w.Some? && !s.sh.race.finiProcessDone {
      assert w.value in s.frames && Won(s.frames[w.value].at) && w.value != f;
      assert w.value in s'.frames;
      assert s'.frames[w.value] == s.frames[w.value];
    }
  }

  lemma WinnerStays(s: State, a: Action)
    requires Inv(s) && WinnerInv(s) && Enabled(s, a) && !a.Step?
    ensures WinnerInv(Do(s, a))
  {
    assert s.sh.gate.nextFrame !in s.frames;
  }

  lemma DoorNext(s: State, s': State)
    requires Inv(s) && DoorInv(s) && Next(s, s')
    ensures DoorInv(s')
  {
    var a :| Enabled(s, a) && s' == Do(s, a);
    DoorStep(s, a);
  }

  lemma WinnerNext(s: State, s': State)
    requires Inv(s) && WinnerInv(s) && Next(s, s')
    ensures WinnerInv(s')
  {
    var a :| Enabled(s, a) && s' == Do(s, a);
    WinnerStep(s, a);
  }

  lemma DoorAt(run: seq<State>, i: int)
    requires IsRun(run) && 0 < i < |run| && DoorInv(run[i - 1])
    ensures DoorInv(run[i])
  {
    InvRun(run, i - 1);
    assert Next(run[i - 1], run[(i - 1) + 1]);
    DoorNext(run[i - 1], run[i]);
  }

  lemma WinnerAt(run: seq<State>, i: int)
    requires IsRun(run) && 0 < i < |run| && WinnerInv(run[i - 1])
    ensures WinnerInv(run[i])
  {
    InvRun(run, i - 1);
    assert Next(run[i - 1], run[(i - 1) + 1]);
    WinnerNext(run[i - 1], run[i]);
  }

  lemma DoorInitial()
    ensures DoorInv(INITIAL) && WinnerInv(INITIAL)
  {
  }

  lemma {:induction false} DoorRun(run: seq<State>, i: int)
    requires IsRun(run) && 0 <= i < |run|
    ensures DoorInv(run[i])
  {
    if i == 0 {
      DoorInitial();
    } else {
      DoorRun(run, i - 1);
      DoorAt(run, i);
    }
  }

  lemma {:induction false} WinnerRun(run: seq<State>, i: int)
    requires IsRun(run) && 0 <= i < |run|
    ensures WinnerInv(run[i])
  {
    if i == 0 {
      DoorInitial();
    } else {
      WinnerRun(run, i - 1);
      WinnerAt(run, i);
    }
  }

  /** When the winner is about to call monitor_fini_process after a walk, the door is closed. */
  lemma ClosedBeforeProcess(run: seq<State>, i: int, w: int)
    requires IsRun(run) && 0 <= i < |run| && w in run[i].frames
    requires run[i].frames[w].at.ExitFini? && run[i].frames[w].pass.walked
    ensures run[i].sh.race.finiThreadDone
  {
    DoorRun(run, i);
  }

  /** When the winner's call has returned, every loser can go on. */
  lemma WinnerReleases(run: seq<State>, i: int, l: int)
    requires IsRun(run) && 0 <= i < |run| && run[i].sh.race.winner.Some? &&
      run[i].sh.race.winner.value !in run[i].frames
    requires Top(run[i], l) && run[i].frames[l].at.ExitWait?
    ensures Enabled(run[i], Step(l, false))
  {
    WinnerRun(run, i);
  }

  lemma SkipMove(sh: Shared, fr: Frame, c: bool)
    requires !fr.at.ExitFini? && (InOwn(fr.at) ==> fr.pass.walked)
    ensures var m := MoveOf(sh, fr, c); m.Go? && m.to.at.ExitFini? && !m.to.pass.walked ==>
      fr.at.ExitUsed? && !sh.race.used
  {
  }

  /** The winner passes over the shootdown only if no thread has ever been created: then the thread list is
      empty. */
  lemma SkipsOnlyUnused(run: seq<State>, i: int, w: int)
    requires IsRun(run) && 0 < i < |run| && w in run[i].frames && run[i].frames[w].at.ExitFini? &&
      !run[i].frames[w].pass.walked
    requires !(w in run[i - 1].frames && run[i - 1].frames[w].at.ExitFini?)
    ensures !run[i - 1].sh.race.used && run[i - 1].sh.reg.threadList == []
  {
    InvRun(run, i - 1);
    var a := ActionAt(run, i);
    SkipStep(run[i - 1], a, w);
    UnusedEmpty(run[i - 1].sh);
  }

  lemma UnusedEmpty(sh: Shared)
    requires SharedOk(sh) && !sh.race.used
    ensures sh.reg.threadList == []
  {
    if sh.reg.threadList != [] { HasElement(sh.reg.threadList); }
  }

  lemma HasElement(q: seq<int>)
    requires q != []
    ensures exists x :: x in q
  {
    var x := q[0];
    assert x in q;
  }

  lemma SkipStep(s: State, a: Action, w: int)
    requires Inv(s) && Enabled(s, a) && w in Do(s, a).frames
    requires Do(s, a).frames[w].at.ExitFini? && !Do(s, a).frames[w].pass.walked
    requires !(w in s.frames && s.frames[w].at.ExitFini?)
    ensures !s.sh.race.used
  {
    DeedDone(s, a);
    match a
    case Step(f, c) =>
      assert LocalOk(s.sh, f, s.frames[f]);
      SkipMove(s.sh, s.frames[f], c);
    case Push(f, call) => CalleeIsNew(s.sh, s.frames[f].thread, f, call);
    case Block(t, on) =>
    case Support =>
  }
}
