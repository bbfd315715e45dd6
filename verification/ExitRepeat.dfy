/** Who is taken for the winner calling exit() again: monitor_end_process_fcn asks the node that
    pthread_getspecific gives, and a thread that has given its node back still has its address. */
module ExitRepeat {
  import opened Options
  import opened ExitMachine
  import opened ExitRace
  import opened ExitInvariant
  import opened ExitStacks
  import opened ExitOwners

  predicate WonExit(l: Log, t: int) { ExitWon(t) in l.trace }

  /** One thread has won, and the winner's call is made by it. */
  ghost predicate WinInv(s: State) {
    && (forall f :: f in s.frames && Won(s.frames[f].at) ==> WonExit(s.sh.log, s.frames[f].thread))
    && (forall t, u :: WonExit(s.sh.log, t) && WonExit(s.sh.log, u) ==> t == u)
  }

  /** The call that is about to mark the winner's node has its thread's own. */
  ghost predicate MarksOwn(s: State) {
    forall f :: f in s.frames && s.frames[f].at.ExitMark? && s.frames[f].tn.Some? ==>
      Own(s.sh.reg, s.frames[f].thread, s.frames[f].tn.value)
  }

  /** A node with tn_exit_win is the winner's own. */
  ghost predicate MarkedOwn(s: State, n: int) {
    NodeAt(s.sh.reg, n).exitWin ==> exists t :: WonExit(s.sh.log, t) && Own(s.sh.reg, t, n)
  }

  ghost predicate AllMarkedOwn(s: State) { forall n :: MarkedOwn(s, n) }

  /** Every call of exit() under way has its thread's own node. */
  ghost predicate CallsOwn(s: State) {
    forall f :: f in s.frames && s.frames[f].tn.Some? ==> Own(s.sh.reg, s.frames[f].thread, s.frames[f].tn.value)
  }

  ghost predicate RepeatsWon(s: State) {
    forall t :: RepeatWinner(t) in s.sh.log.trace ==> WonExit(s.sh.log, t)
  }

  /** If the step calls exit(), the thread's node is its own: it has not given it back. */
  ghost predicate OwnCall(s: State, s': State) {
    forall f :: f in s'.frames && f !in s.frames && s'.frames[f].tn.Some? ==>
      Own(s.sh.reg, s'.frames[f].thread, s'.frames[f].tn.value)
  }

  // ----- one step -----------------------------------------------------------------------------

  /** Who wins, who marks a node and who is taken for the winner. */
  predicate ExitEvents(sh: Shared, fr: Frame, m: Move) {
    && (m.e.Win? ==> m.e.t == fr.thread && sh.race.cookie == 0)
    && (m.e.SetWin? ==> fr.at.ExitMark? && fr.tn == Some(m.e.n))
    && (m.e.Emit? && m.e.e.RepeatWinner? ==>
          m.e.e.thread == fr.thread && fr.tn.Some? && NodeAt(sh.reg, fr.tn.value).exitWin)
    && (m.e.Emit? ==> !m.e.e.ExitWon?)
    && (m.Go? && Won(m.to.at) ==> m.to.thread == fr.thread && (Won(fr.at) || m.e.Win?))
  }

  lemma EventsLow(sh: Shared, fr: Frame, c: bool)
    requires InMake(fr.at) || Basal(fr.at) || InSignal(fr.at)
    ensures ExitEvents(sh, fr, MoveOf(sh, fr, c))
  {
    SameCalls(sh, fr, c);
  }

  lemma EventsWinner(sh: Shared, fr: Frame, c: bool)
    requires InShoot(fr.at) || InScan(fr.at)
    ensures ExitEvents(sh, fr, MoveOf(sh, fr, c))
  {
    SameCalls(sh, fr, c);
  }

  lemma EventsEnd(sh: Shared, fr: Frame, c: bool)
    requires InOwn(fr.at) || InFini(fr.at)
    ensures ExitEvents(sh, fr, MoveOf(sh, fr, c))
  {
    SameCalls(sh, fr, c);
  }

  lemma EventsExit(sh: Shared, fr: Frame)
    requires !Won(fr.at)
    ensures ExitEvents(sh, fr, ExitMove(sh, fr))
  {
  }

  lemma Events(sh: Shared, fr: Frame, c: bool)
    ensures ExitEvents(sh, fr, MoveOf(sh, fr, c))
  {
    if InMake(fr.at) || Basal(fr.at) || InSignal(fr.at) { EventsLow(sh, fr, c); }
    else if InShoot(fr.at) || InScan(fr.at) { EventsWinner(sh, fr, c); }
    else if InOwn(fr.at) || InFini(fr.at) { EventsEnd(sh, fr, c); }
    else { EventsExit(sh, fr); }
  }

  lemma WonGrows(l: Log, f: int, e: Effect, t: int)
    ensures WonExit(l, t) ==> WonExit(ApplyLog(l, f, e), t)
    ensures WonExit(ApplyLog(l, f, e), t) ==> WonExit(l, t) || e == Win(t) || e == Emit(ExitWon(t))
  {
  }

  lemma WinStep(s: State, f: int, c: bool)
    requires Inv(s) && WinInv(s) && Enabled(s, Step(f, c))
    ensures WinInv(Do(s, Step(f, c)))
  {
    var s' := Do(s, Step(f, c));
    var m := MoveOf(s.sh, s.frames[f], c);
    Events(s.sh, s.frames[f], c);
    forall t ensures WonExit(s.sh.log, t) ==> WonExit(s'.sh.log, t)
      ensures WonExit(s'.sh.log, t) ==> WonExit(s.sh.log, t) || m.e == Win(t)
    {
      WonGrows(s.sh.log, f, m.e, t);
    }
    assert m.e.Win? ==> s.sh.race.winner.None?;
    DeedDone(s, Step(f, c));
  }

  lemma WinQuiet(s: State, a: Action)
    requires Inv(s) && WinInv(s) && Enabled(s, a) && !a.Step?
    ensures WinInv(Do(s, a))
  {
    if a.Push? { CalleeIsNew(s.sh, s.frames[a.f].thread, a.f, a.call); }
    DeedDone(s, a);
  }

  lemma WinNext(s: State, s': State)
    requires Inv(s) && WinInv(s) && Next(s, s')
    ensures WinInv(s')
  {
    var a :| Enabled(s, a) && s' == Do(s, a);
    if a.Step? { WinStep(s, a.f, a.c); } else { WinQuiet(s, a); }
  }

  lemma MarkedSame(reg: Registry, f: int, e: Effect, id: int, n: int)
    requires NodeAt(ApplyReg(reg, f, e, id), n).exitWin && e != SetWin(n)
    ensures NodeAt(reg, n).exitWin && !(e.Wipe? && e.n == n)
  {
  }

  /** The winner marks its node. */
  lemma MarksNow(s: State, f: int, c: bool, n: int)
    requires Inv(s) && WinInv(s) && MarksOwn(s) && Enabled(s, Step(f, c)) && DeedOf(s, Step(f, c)).e == SetWin(n)
    ensures MarkedOwn(Do(s, Step(f, c)), n)
  {
    var sh' := Do(s, Step(f, c)).sh;
    var t := s.frames[f].thread;
    Events(s.sh, s.frames[f], c);
    assert Own(s.sh.reg, t, n) && WonExit(s.sh.log, t);
    OwnMarked(s.sh, f, t, n);
    assert sh' == Apply(s.sh, f, SetWin(n));
    assert WonExit(sh'.log, t) && Own(sh'.reg, t, n);
  }

  lemma OwnMarked(sh: Shared, f: int, t: int, n: int)
    requires Own(sh.reg, t, n)
    ensures Own(Apply(sh, f, SetWin(n)).reg, t, n) && Apply(sh, f, SetWin(n)).log == sh.log
  {
  }

  /** A node stays marked and the winner's. */
  lemma StaysMarked(s: State, f: int, c: bool, n: int)
    requires Inv(s) && SelfInv(s) && MarkedOwn(s, n) && Enabled(s, Step(f, c)) && DeedOf(s, Step(f, c)).e != SetWin(n)
    ensures MarkedOwn(Do(s, Step(f, c)), n)
  {
    var s' := Do(s, Step(f, c));
    var e := DeedOf(s, Step(f, c)).e;
    if NodeAt(s'.sh.reg, n).exitWin {
      MarkedSame(s.sh.reg, f, e, s.sh.gate.nextFrame, n);
      var t :| WonExit(s.sh.log, t) && Own(s.sh.reg, t, n);
      WonGrows(s.sh.log, f, e, t);
      if n != MAIN_NODE { SelfSame(s, f, c, n); }
      assert WonExit(s'.sh.log, t) && Own(s'.sh.reg, t, n);
    }
  }

  lemma MarkedStep(s: State, f: int, c: bool, n: int)
    requires Inv(s) && SelfInv(s) && WinInv(s) && MarksOwn(s) && MarkedOwn(s, n) && Enabled(s, Step(f, c))
    ensures MarkedOwn(Do(s, Step(f, c)), n)
  {
    if DeedOf(s, Step(f, c)).e == SetWin(n) { MarksNow(s, f, c, n); } else { StaysMarked(s, f, c, n); }
  }

  lemma MarkedQuiet(s: State, a: Action, n: int)
    requires Inv(s) && MarkedOwn(s, n) && Enabled(s, a) && !a.Step?
    ensures MarkedOwn(Do(s, a), n)
  {
    if NodeAt(Do(s, a).sh.reg, n).exitWin {
      var t :| WonExit(s.sh.log, t) && Own(s.sh.reg, t, n);
      assert WonExit(Do(s, a).sh.log, t) && Own(Do(s, a).sh.reg, t, n);
    }
  }

  lemma MarkedNext(s: State, s': State)
    requires Inv(s) && SelfInv(s) && WinInv(s) && MarksOwn(s) && AllMarkedOwn(s) && Next(s, s')
    ensures AllMarkedOwn(s')
  {
    var a :| Enabled(s, a) && s' == Do(s, a);
    forall n ensures MarkedOwn(s', n) {
      if a.Step? { MarkedStep(s, a.f, a.c, n); } else { MarkedQuiet(s, a, n); }
    }
  }

  lemma CallsOwnStep(s: State, a: Action)
    requires Inv(s) && SelfInv(s) && Enabled(s, a) && CallsOwn(s) && OwnCall(s, Do(s, a))
    ensures CallsOwn(Do(s, a))
  {
    var s' := Do(s, a);
    forall g | g in s'.frames && s'.frames[g].tn.Some?
      ensures Own(s'.sh.reg, s'.frames[g].thread, s'.frames[g].tn.value)
    {
      SameThreads(s, a, g);
      if g in s.frames { OwnKept(s, a, g); } else { OwnNew(s, a, g); }
    }
  }

  lemma OwnNew(s: State, a: Action, g: int)
    requires Inv(s) && Enabled(s, a) && g in Do(s, a).frames && g !in s.frames && Do(s, a).frames[g].tn.Some?
    requires Own(s.sh.reg, Do(s, a).frames[g].thread, Do(s, a).frames[g].tn.value)
    ensures Own(Do(s, a).sh.reg, Do(s, a).frames[g].thread, Do(s, a).frames[g].tn.value)
  {
  }

  lemma RepeatsStep(s: State, a: Action)
    requires Inv(s) && WinInv(s) && AllMarkedOwn(s) && CallsOwn(s) && RepeatsWon(s) && Enabled(s, a)
    ensures RepeatsWon(Do(s, a))
  {
    var s' := Do(s, a);
    var d := DeedOf(s, a);
    if a.Step? { Events(s.sh, s.frames[a.f], a.c); }
    forall t | RepeatWinner(t) in s'.sh.log.trace ensures WonExit(s'.sh.log, t) {
      WonGrows(s.sh.log, d.actor, d.e, t);
      if RepeatWinner(t) !in s.sh.log.trace {
        assert d.e == Emit(RepeatWinner(t));
        var n := s.frames[a.f].tn.value;
        assert MarkedOwn(s, n);
      }
    }
  }

  lemma CallsNext(s: State, s': State)
    requires Inv(s) && SelfInv(s) && WinInv(s) && AllMarkedOwn(s) && CallsOwn(s) && RepeatsWon(s)
    requires Next(s, s') && OwnCall(s, s')
    ensures CallsOwn(s') && RepeatsWon(s') && MarksOwn(s')
  {
    var a :| Enabled(s, a) && s' == Do(s, a);
    CallsOwnStep(s, a);
    RepeatsStep(s, a);
  }

  // ----- runs ---------------------------------------------------------------------------------

  lemma WinInitial()
    ensures WinInv(INITIAL) && AllMarkedOwn(INITIAL) && CallsOwn(INITIAL) && RepeatsWon(INITIAL) && MarksOwn(INITIAL)
  {
  }

  lemma {:induction false} WinRun(run: seq<State>, i: int)
    requires IsRun(run) && 0 <= i < |run|
    ensures WinInv(run[i])
  {
    if i == 0 {
      WinInitial();
    } else {
      WinRun(run, i - 1);
      InvRun(run, i - 1);
      assert Next(run[i - 1], run[(i - 1) + 1]);
      WinNext(run[i - 1], run[i]);
    }
  }

  lemma MarkedAt(run: seq<State>, i: int)
    requires IsRun(run) && 0 < i < |run| && AllMarkedOwn(run[i - 1]) && MarksOwn(run[i - 1])
    ensures AllMarkedOwn(run[i])
  {
    SelfRun(run, i - 1);
    WinRun(run, i - 1);
    assert Next(run[i - 1], run[(i - 1) + 1]);
    MarkedNext(run[i - 1], run[i]);
  }

  lemma {:induction false} MarkedRun(run: seq<State>, i: int)
    requires IsRun(run) && 0 <= i < |run| && forall j :: 0 <= j < i ==> MarksOwn(run[j])
    ensures AllMarkedOwn(run[i])
  {
    if i == 0 {
      WinInitial();
    } else {
      MarkedRun(run, i - 1);
      MarkedAt(run, i);
    }
  }

  lemma CallsAt(run: seq<State>, i: int)
    requires IsRun(run) && 0 < i < |run| && OwnCall(run[i - 1], run[i])
    requires CallsOwn(run[i - 1]) && RepeatsWon(run[i - 1]) && forall j :: 0 <= j < i ==> MarksOwn(run[j])
    ensures CallsOwn(run[i]) && RepeatsWon(run[i]) && MarksOwn(run[i])
  {
    SelfRun(run, i - 1);
    WinRun(run, i - 1);
    MarkedRun(run, i - 1);
    assert Next(run[i - 1], run[(i - 1) + 1]);
    CallsNext(run[i - 1], run[i]);
  }

  lemma {:induction false} CallsRun(run: seq<State>, i: int)
    requires IsRun(run) && 0 <= i < |run| && forall j :: 0 <= j < i ==> OwnCall(run[j], run[j + 1])
    ensures CallsOwn(run[i]) && RepeatsWon(run[i]) && forall j :: 0 <= j <= i ==> MarksOwn(run[j])
  {
    if i == 0 {
      WinInitial();
    } else {
      CallsRun(run, i - 1);
      assert OwnCall(run[i - 1], run[(i - 1) + 1]);
      CallsAt(run, i);
    }
  }

  // ----- the results --------------------------------------------------------------------------

  /** Exactly one thread wins process exit, in every run. */
  lemma OneWinner(run: seq<State>, i: int, t: int, u: int)
    requires IsRun(run) && 0 <= i < |run| && WonExit(run[i].sh.log, t) && WonExit(run[i].sh.log, u)
    ensures t == u
  {
    WinRun(run, i);
  }

  /** When the winner has marked its own node, a call that is taken for the repeat winner is made by the winner's
      thread if and only if the node it found is its thread's own. */
  lemma TakenForWinner(run: seq<State>, i: int, f: int)
    requires IsRun(run) && 0 <= i < |run| && (forall j :: 0 <= j < i ==> MarksOwn(run[j]))
    requires f in run[i].frames && run[i].frames[f].at.ExitLost?
    requires run[i].frames[f].tn.Some? && NodeAt(run[i].sh.reg, run[i].frames[f].tn.value).exitWin
    ensures WonExit(run[i].sh.log, run[i].frames[f].thread) <==>
            Own(run[i].sh.reg, run[i].frames[f].thread, run[i].frames[f].tn.value)
  {
    var n := run[i].frames[f].tn.value;
    WinRun(run, i);
    MarkedRun(run, i);
    assert MarkedOwn(run[i], n);
    var t :| WonExit(run[i].sh.log, t) && Own(run[i].sh.reg, t, n);
  }

  /** If no thread calls exit() after it has given its node back, then only the winner's thread is taken for the
      winner, and no loser goes on before monitor_fini_process has returned unless that thread has called exit()
      again. */
  lemma LosersWaitForWinner(run: seq<State>, i: int, k: int)
    requires IsRun(run) && 0 <= i < |run| && forall j :: 0 <= j < i ==> OwnCall(run[j], run[j + 1])
    requires 0 <= k < |run[i].sh.log.trace| && run[i].sh.log.trace[k].LoserResumed?
    ensures var trace := run[i].sh.log.trace;
      FiniProcessEnd in trace[..k] || exists t :: RepeatWinner(t) in trace[..k] && ExitWon(t) in trace
  {
    InvRun(run, i);
    CallsRun(run, i);
    var trace := run[i].sh.log.trace;
    if FiniProcessEnd !in trace[..k] {
      var t :| RepeatWinner(t) in trace[..k];
      assert RepeatWinner(t) in trace;
    }
  }

  /** The converse: a thread whose node has tn_exit_win, be it the winner's own or one that it has given back and
      the winner has taken since, can call exit() at any time and let a waiting loser go. */
  lemma RepeatReleases(s: State, w: int, l: int)
    requires Inv(s) && Top(s, w) && s.sh.race.used && s.sh.race.cookie != 0
    requires s.frames[w].thread in s.sh.reg.tsd && NodeAt(s.sh.reg, s.sh.reg.tsd[s.frames[w].thread]).exitWin
    requires Top(s, l) && s.frames[l].at.ExitWait? && s.frames[l].thread != s.frames[w].thread
    ensures exists s' :: Leads(s, s') && s'.sh.log.trace
              == s.sh.log.trace + [RepeatWinner(s.frames[w].thread), LoserResumed(s.frames[l].thread)]
  {
    assert LocalOk(s.sh, w, s.frames[w]) && LocalOk(s.sh, l, s.frames[l]);
    var s' := ReenterAndReturn(s, w);
    var s'' := ResumeStep(s', l);
    LeadsNext(s, s', s'');
    assert s''.sh.log.trace == s.sh.log.trace + [RepeatWinner(s.frames[w].thread), LoserResumed(s.frames[l].thread)];
  }

  /** exit() called by a thread whose node has tn_exit_win. */
  lemma ReenterAndReturn(s: State, w: int) returns (s': State)
    requires Top(s, w) && w != s.sh.gate.nextFrame && s.sh.race.used && s.sh.race.cookie != 0
    requires s.frames[w].thread in s.sh.reg.tsd && NodeAt(s.sh.reg, s.sh.reg.tsd[s.frames[w].thread]).exitWin
    ensures Leads(s, s') && s'.sh.race.finiProcessDone &&
      s'.sh.log.trace == s.sh.log.trace + [RepeatWinner(s.frames[w].thread)]
    ensures s'.tops == s.tops
    ensures forall f :: f in s.frames && f != s.sh.gate.nextFrame ==> f in s'.frames && s'.frames[f] == s.frames[f]
  {
    var id := s.sh.gate.nextFrame;
    var s2 := ReenterAndLose(s, w);
    var s3 := RepeatStep(s2, id);
    s' := SetDoneStep(s3, id);
    LeadsNext(s, s2, s3);
    LeadsNext(s, s3, s');
  }

  /** The call finds the race lost. */
  lemma ReenterAndLose(s: State, w: int) returns (s': State)
    requires Top(s, w) && w != s.sh.gate.nextFrame && s.sh.race.used && s.sh.race.cookie != 0
    requires s.frames[w].thread in s.sh.reg.tsd
    ensures var id := s.sh.gate.nextFrame; var t := s.frames[w].thread;
      && Leads(s, s') && s'.tops == s.tops[t := Some(id)] && s'.sh.log == s.sh.log && s'.sh.reg == s.sh.reg
      && s'.frames == s.frames[id := Frame(t, Some(w), ExitLost, 0, Some(s.sh.reg.tsd[t]), FIRST_PASS)]
  {
    var id := s.sh.gate.nextFrame;
    var s1 := ReenterStep(s, w);
    s' := LostStep(s1, id);
    LeadsOne(s, s1);
    LeadsNext(s, s1, s');
  }

  lemma SetDoneStep(s: State, f: int) returns (s': State)
    requires Top(s, f) && s.frames[f].at.ExitRepeat?
    ensures Next(s, s') && s'.sh.log == s.sh.log && s'.sh.race.finiProcessDone
    ensures s'.tops == s.tops[s.frames[f].thread := s.frames[f].parent] && s'.frames == s.frames - {f}
  {
    s' := Do(s, Step(f, false));
  }

  lemma ResumeStep(s: State, f: int) returns (s': State)
    requires Top(s, f) && s.frames[f].at.ExitWait? && s.sh.race.finiProcessDone
    ensures Next(s, s') && s'.sh.log.trace == s.sh.log.trace + [LoserResumed(s.frames[f].thread)]
  {
    s' := Do(s, Step(f, false));
  }

  lemma ReenterStep(s: State, w: int) returns (s': State)
    requires Top(s, w) && s.sh.race.used && s.frames[w].thread in s.sh.reg.tsd
    ensures Next(s, s') && s'.sh.log == s.sh.log && s'.sh.reg == s.sh.reg && s'.sh.race == s.sh.race
    ensures var id := s.sh.gate.nextFrame; var t := s.frames[w].thread;
      && s'.tops == s.tops[t := Some(id)]
      && s'.frames == s.frames[id := Frame(t, Some(w), ExitCas, 0, Some(s.sh.reg.tsd[t]), FIRST_PASS)]
  {
    s' := Do(s, Push(w, Exit));
  }

  lemma LostStep(s: State, f: int) returns (s': State)
    requires Top(s, f) && s.frames[f].at.ExitCas? && s.sh.race.cookie != 0
    ensures Next(s, s') && s'.sh == s.sh && s'.tops == s.tops
    ensures s'.frames == s.frames[f := s.frames[f].(at := ExitLost)]
  {
    s' := Do(s, Step(f, false));
  }

  lemma RepeatStep(s: State, f: int) returns (s': State)
    requires Top(s, f) && s.frames[f].at.ExitLost? && s.frames[f].tn.Some?
    requires NodeAt(s.sh.reg, s.frames[f].tn.value).exitWin
    ensures Next(s, s') && s'.tops == s.tops && s'.sh.log.trace == s.sh.log.trace + [RepeatWinner(s.frames[f].thread)]
    ensures s'.frames == s.frames[f := s.frames[f].(at := ExitRepeat)]
  {
    s' := Do(s, Step(f, false));
  }
}
