/** What each test of the registry and of process exit lets by, in terms of the flags of the shared state. */
module ExitTests {
  import opened Options
  import opened ExitMachine
  import opened ExitInvariant

  /** The frame of a call after its step: None if the call has returned. */
  function FrameAfter(s: State, f: int, c: bool): Option<Frame>
    requires Enabled(s, Step(f, c))
  {
    var frames := Do(s, Step(f, c)).frames;
    if f in frames then Some(frames[f]) else None
  }

  function Place(m: Move): Option<Frame> { if m.Go? then Some(m.to) else None }

  lemma PlaceIs(s: State, f: int, c: bool)
    requires Inv(s) && Enabled(s, Step(f, c))
    ensures FrameAfter(s, f, c) == Place(MoveOf(s.sh, s.frames[f], c))
  {
    assert LocalOk(s.sh, f, s.frames[f]);
  }

  lemma PlaceInRun(run: seq<State>, i: int, f: int, c: bool)
    requires IsRun(run) && 0 <= i < |run| && Enabled(run[i], Step(f, c))
    ensures FrameAfter(run[i], f, c) == Place(MoveOf(run[i].sh, run[i].frames[f], c))
  {
    InvRun(run, i);
    PlaceIs(run[i], f, c);
  }

  // ----- the thread callback ------------------------------------------------------------------

  lemma CleanPlace(sh: Shared, fr: Frame, c: bool)
    requires fr.at.CleanTest? || fr.at.CleanDone?
    ensures MoveOf(sh, fr, c) == CleanMove(sh, fr)
  {
  }

  lemma SignalPlace(sh: Shared, fr: Frame, c: bool)
    requires InSignal(fr.at)
    ensures MoveOf(sh, fr, c) == SignalMove(sh, fr)
  {
  }

  /** The three tests of the node: the call goes on if and only if the node is application-started, its callback has
      not begun and shootdown is not blocked; otherwise the cleanup routine ends, and the handler and the sigwait
      helper return. */
  lemma NodeTests(run: seq<State>, i: int, f: int, c: bool)
    requires IsRun(run) && 0 <= i < |run| && Enabled(run[i], Step(f, c))
    ensures var fr, v, next := run[i].frames[f], NodeAt(run[i].sh.reg, run[i].frames[f].n), FrameAfter(run[i], f, c);
      var goes := v.applStarted && !v.finiStarted && !v.block;
      && (fr.at.CleanTest? ==> next == Some(fr.(at := if goes then CleanDone else Tail)))
      && (fr.at.HandTest? ==> next == if goes then Some(fr.(at := HandDone)) else None)
      && (fr.at.WaitTest? ==> next == if goes then Some(fr.(at := SigSet)) else None)
  {
    var sh, fr := run[i].sh, run[i].frames[f];
    PlaceInRun(run, i, f, c);
    if fr.at.CleanTest? { CleanPlace(sh, fr, c); }
    if fr.at.HandTest? || fr.at.WaitTest? { SignalPlace(sh, fr, c); }
  }

  /** The tests of monitor_fini_thread_done, and that of monitor_in_exit_cleanup by the sigwait helper. */
  lemma CutoffTests(run: seq<State>, i: int, f: int, c: bool)
    requires IsRun(run) && 0 <= i < |run| && Enabled(run[i], Step(f, c))
    ensures var fr, sh, next := run[i].frames[f], run[i].sh, FrameAfter(run[i], f, c);
      && (fr.at.CleanDone? ==> next == Some(fr.(at := if sh.race.finiThreadDone then Tail else CleanSet)))
      && (fr.at.HandDone? ==> next == if sh.race.finiThreadDone then None else Some(fr.(at := SigSet)))
      && (fr.at.WaitDone? ==> next == if sh.race.finiThreadDone then None else Some(fr.(at := WaitTest)))
      && (fr.at.WaitExit? ==> next == if sh.gate.inExit then Some(fr.(at := WaitDone)) else None)
  {
    var sh, fr := run[i].sh, run[i].frames[f];
    PlaceInRun(run, i, f, c);
    if fr.at.CleanDone? { CleanPlace(sh, fr, c); }
    if InSignal(fr.at) { SignalPlace(sh, fr, c); }
  }

  // ----- the registry -------------------------------------------------------------------------

  lemma RegistryPlace(sh: Shared, fr: Frame, c: bool)
    ensures fr.at.BeginWait? ==>
      Place(MoveOf(sh, fr, c)) == Some(fr.(at := if sh.race.supportDone then BeginSelf else BeginSleep))
    ensures fr.at.BeginSleep? && !c ==> Place(MoveOf(sh, fr, c)) == Some(fr.(at := BeginWait))
    ensures fr.at.LinkTest? ==>
      Place(MoveOf(sh, fr, c)) == Some(fr.(at := if sh.gate.inExit then LinkRefuse else LinkInsert))
    ensures fr.at.UnTest? ==>
      Place(MoveOf(sh, fr, c)) == Some(fr.(at := if sh.gate.inExit then UnMark else UnRemove))
    ensures fr.at.CastTry? ==>
      Place(MoveOf(sh, fr, c)) == if sh.gate.lockWord == 0 then Some(fr.(at := CastHold)) else None
  {
  }

  /** A new thread goes on only when thread support is done, and waits again otherwise; a thread is linked, and its
      node taken off the list again, only before exit cleanup; a broadcast goes on only if the thread lock is free. */
  lemma RegistryTests(run: seq<State>, i: int, f: int, c: bool)
    requires IsRun(run) && 0 <= i < |run| && Enabled(run[i], Step(f, c))
    ensures var fr, sh, next := run[i].frames[f], run[i].sh, FrameAfter(run[i], f, c);
      && (fr.at.BeginWait? ==> next == Some(fr.(at := if sh.race.supportDone then BeginSelf else BeginSleep)))
      && (fr.at.BeginSleep? && !c ==> next == Some(fr.(at := BeginWait)))
      && (fr.at.LinkTest? ==> next == Some(fr.(at := if sh.gate.inExit then LinkRefuse else LinkInsert)))
      && (fr.at.UnTest? ==> next == Some(fr.(at := if sh.gate.inExit then UnMark else UnRemove)))
      && (fr.at.CastTry? ==> next == if sh.gate.lockWord == 0 then Some(fr.(at := CastHold)) else None)
  {
    PlaceInRun(run, i, f, c);
    RegistryPlace(run[i].sh, run[i].frames[f], c);
  }

  // ----- process exit -------------------------------------------------------------------------

  lemma ExitPlace(sh: Shared, fr: Frame, c: bool)
    ensures fr.at.ExitCas? ==>
      Place(MoveOf(sh, fr, c)) == Some(fr.(at := if sh.race.cookie == 0 then ExitMark else ExitLost))
    ensures fr.at.ExitLost? ==>
      Place(MoveOf(sh, fr, c)) ==
        Some(fr.(at := if fr.tn.Some? && NodeAt(sh.reg, fr.tn.value).exitWin then ExitRepeat else ExitWait))
    ensures fr.at.ExitUsed? ==>
      Place(MoveOf(sh, fr, c)) == Some(fr.(at := if sh.race.used then ShootLock else ExitFini, pass := FIRST_PASS))
    ensures fr.at.OwnTest? ==>
      Place(MoveOf(sh, fr, c)) ==
        Some(if fr.pass.mine.Some? && !NodeAt(sh.reg, fr.pass.mine.value).finiStarted
             then fr.(at := OwnSet, n := fr.pass.mine.value) else fr.(at := ExitFini))
  {
  }

  /** A call of exit() wins if and only if it finds the cookie unset; a loser is taken for the winner calling again if
      and only if its node is marked; the winner shoots down threads if and only if some thread was ever created, and
      calls its own thread callback if and only if its walk found its node and the callback has not begun. */
  lemma ExitCallTests(run: seq<State>, i: int, f: int, c: bool)
    requires IsRun(run) && 0 <= i < |run| && Enabled(run[i], Step(f, c))
    ensures var fr, sh, next := run[i].frames[f], run[i].sh, FrameAfter(run[i], f, c);
      && (fr.at.ExitCas? ==> next == Some(fr.(at := if sh.race.cookie == 0 then ExitMark else ExitLost)))
      && (fr.at.ExitLost? ==>
            next == Some(fr.(at :=
              if fr.tn.Some? && NodeAt(sh.reg, fr.tn.value).exitWin then ExitRepeat else ExitWait)))
      && (fr.at.ExitUsed? ==> next == Some(fr.(at := if sh.race.used then ShootLock else ExitFini, pass := FIRST_PASS)))
      && (fr.at.OwnTest? ==>
            next == Some(if fr.pass.mine.Some? && !NodeAt(sh.reg, fr.pass.mine.value).finiStarted
                         then fr.(at := OwnSet, n := fr.pass.mine.value) else fr.(at := ExitFini)))
  {
    PlaceInRun(run, i, f, c);
    ExitPlace(run[i].sh, run[i].frames[f], c);
  }

  // ----- the walk -----------------------------------------------------------------------------

  lemma WalkInList(run: seq<State>, i: int, f: int)
    requires IsRun(run) && 0 <= i < |run| && f in run[i].frames && InScan(run[i].frames[f].at)
    ensures var fr, reg := run[i].frames[f], run[i].sh.reg;
      0 <= fr.pass.k && (!fr.at.ScanHead? ==>
        fr.pass.k < |reg.threadList| && NodeAt(reg, reg.threadList[fr.pass.k]).self != Some(fr.thread))
  {
    InvRun(run, i);
    assert LocalOk(run[i].sh, f, run[i].frames[f]);
  }

  lemma WalkPlace(sh: Shared, fr: Frame, c: bool)
    requires fr.at.ScanAppl? || fr.at.ScanStarted? || fr.at.ScanDone?
    requires 0 <= fr.pass.k < |sh.reg.threadList|
    ensures var x, p := sh.reg.threadList[fr.pass.k], fr.pass; var v := NodeAt(sh.reg, x);
      Place(MoveOf(sh, fr, c)) == Some(
        if fr.at.ScanAppl? && v.applStarted then fr.(at := ScanStarted)
        else if fr.at.ScanAppl? then fr.(at := ScanHead, pass := p.(k := p.k + 1, skipped := p.skipped + [x]))
        else if fr.at.ScanStarted? then
          fr.(at := ScanDone, pass := p.(unstarted := p.unstarted + if v.finiStarted then 0 else 1))
        else fr.(at := ScanHead,
                 pass := p.(k := p.k + 1, unfinished := p.unfinished + if v.finiDone then 0 else 1)))
  {
  }

  /** The walk counts, of the nodes that are not the winner's own, those application-started and not started as
      unstarted, and those application-started and not done as unfinished; it passes over the others. */
  lemma WalkTests(run: seq<State>, i: int, f: int, c: bool)
    requires IsRun(run) && 0 <= i < |run| && Enabled(run[i], Step(f, c))
    requires var at := run[i].frames[f].at; at.ScanAppl? || at.ScanStarted? || at.ScanDone?
    ensures var fr, reg := run[i].frames[f], run[i].sh.reg; var p := fr.pass;
      && 0 <= p.k < |reg.threadList| && NodeAt(reg, reg.threadList[p.k]).self != Some(fr.thread)
      && var x := reg.threadList[p.k]; var v := NodeAt(reg, x);
         FrameAfter(run[i], f, c) == Some(
           if fr.at.ScanAppl? && v.applStarted then fr.(at := ScanStarted)
           else if fr.at.ScanAppl? then fr.(at := ScanHead, pass := p.(k := p.k + 1, skipped := p.skipped + [x]))
           else if fr.at.ScanStarted? then
             fr.(at := ScanDone, pass := p.(unstarted := p.unstarted + if v.finiStarted then 0 else 1))
           else fr.(at := ScanHead,
                    pass := p.(k := p.k + 1, unfinished := p.unfinished + if v.finiDone then 0 else 1)))
  {
    WalkInList(run, i, f);
    PlaceInRun(run, i, f, c);
    WalkPlace(run[i].sh, run[i].frames[f], c);
  }

  lemma HeadPlace(sh: Shared, fr: Frame, c: bool)
    requires fr.at.ScanHead? && 0 <= fr.pass.k
    ensures var p, q := fr.pass, sh.reg.threadList;
      Place(MoveOf(sh, fr, c)) == Some(
        if p.k < |q| && NodeAt(sh.reg, q[p.k]).self == Some(fr.thread) then
          fr.(pass := p.(k := p.k + 1, mine := Some(q[p.k])))
        else if p.k < |q| then fr.(at := ScanAppl)
        else if p.unfinished == 0 then fr.(at := ShootDone, pass := p.(walked := true, timedOut := false))
        else if c && p.unstarted > 0 then fr.(at := ShootDone, pass := p.(walked := true, timedOut := true))
        else fr.(pass := Pass(0, p.mine, [], 0, 0, false, false)))
  {
  }

  /** The walk skips the winner's own node, and at the end of the list the loop ends if nothing was counted as
      unfinished, or on the timeout if something was counted as unstarted; otherwise the next walk starts afresh. */
  lemma HeadTests(run: seq<State>, i: int, f: int, c: bool)
    requires IsRun(run) && 0 <= i < |run| && Enabled(run[i], Step(f, c)) && run[i].frames[f].at.ScanHead?
    ensures var fr, reg := run[i].frames[f], run[i].sh.reg; var p, q := fr.pass, reg.threadList;
      && 0 <= p.k
      && FrameAfter(run[i], f, c) == Some(
        if p.k < |q| && NodeAt(reg, q[p.k]).self == Some(fr.thread) then
          fr.(pass := p.(k := p.k + 1, mine := Some(q[p.k])))
        else if p.k < |q| then fr.(at := ScanAppl)
        else if p.unfinished == 0 then fr.(at := ShootDone, pass := p.(walked := true, timedOut := false))
        else if c && p.unstarted > 0 then fr.(at := ShootDone, pass := p.(walked := true, timedOut := true))
        else fr.(pass := Pass(0, p.mine, [], 0, 0, false, false)))
  {
    WalkInList(run, i, f);
    PlaceInRun(run, i, f, c);
    HeadPlace(run[i].sh, run[i].frames[f], c);
  }
}
