/** What identifies a thread: the tn_tid of a node tells where the node is, and the handler and the sigwait helper act
    on the node of their own thread. */
module ExitIds {
  import opened Options
  import opened ExitMachine
  import opened ExitRegistry
  import opened ExitRace
  import opened ExitInvariant
  import opened ExitStacks
  import opened ExitOwners

  // ----- tn_tid -------------------------------------------------------------------------------

  /** Between monitor_make_thread_node and the insertion in the thread list. */
  predicate Unnumbered(at: At) {
    match at
    case MakeUnlock | MakePre | MakeDone | BeginWait | BeginSleep | BeginSelf => true
    case LinkLock | LinkTest | LinkRefuse | Refused | LinkInsert => true
    case _ => false
  }

  predicate TidLocal(reg: Registry, at: At, n: int) {
    && (Unnumbered(at) ==> NodeAt(reg, n).tid == -1)
    && (at.UnPut? ==> NodeAt(reg, n).tid == 0)
  }

  predicate TidShared(reg: Registry) {
    && reg.threadNum >= 0 && NodeAt(reg, MAIN_NODE).tid == 0
    && (forall x :: x in reg.threadList ==> NodeAt(reg, x).tid > 0)
    && (forall x :: x in reg.freeList ==> NodeAt(reg, x).tid == 0)
  }

  predicate TidKept(sh: Shared, f: int, m: Move) {
    && (m.e.Put? ==> NodeAt(sh.reg, m.e.n).tid == 0)
    && (m.e.Spawn? ==> NodeAt(sh.reg, m.e.n).tid == -1)
    && (m.Go? ==> TidLocal(ApplyReg(sh.reg, f, m.e, sh.gate.nextFrame), m.to.at, m.to.n))
  }

  predicate TidPre(sh: Shared, f: int, fr: Frame) { HoldFrame(sh.reg, f, fr) && TidLocal(sh.reg, fr.at, fr.n) }

  lemma TidMake(sh: Shared, f: int, fr: Frame, c: bool)
    requires TidPre(sh, f, fr) && InMake(fr.at)
    ensures TidKept(sh, f, MakeMove(sh, fr, c))
  {
  }

  lemma TidBegin(sh: Shared, f: int, fr: Frame, c: bool)
    requires TidPre(sh, f, fr) && InBegin(fr.at)
    ensures TidKept(sh, f, BeginMove(sh, fr, c))
  {
  }

  lemma TidUnlink(sh: Shared, f: int, fr: Frame)
    requires TidPre(sh, f, fr) && InUnlink(fr.at)
    ensures TidKept(sh, f, UnlinkMove(sh, fr))
  {
  }

  predicate NoTid(m: Move) { !m.e.Put? && !m.e.Spawn? && (m.Go? ==> !Unnumbered(m.to.at) && !m.to.at.UnPut?) }

  lemma NoTidRest(sh: Shared, fr: Frame, c: bool)
    requires !InMake(fr.at) && !Basal(fr.at)
    ensures NoTid(MoveOf(sh, fr, c))
  {
    RestMoves(sh, fr, c);
    SameCalls(sh, fr, c);
    NotMaking(sh, fr, c);
  }

  lemma NotMaking(sh: Shared, fr: Frame, c: bool)
    requires !InMake(fr.at) && !Basal(fr.at)
    ensures MoveOf(sh, fr, c).Go? ==> !InMake(MoveOf(sh, fr, c).to.at)
  {
  }

  lemma NoTidClean(sh: Shared, fr: Frame)
    requires InClean(fr.at)
    ensures NoTid(CleanMove(sh, fr))
  {
  }

  lemma TidMove(sh: Shared, f: int, fr: Frame, c: bool)
    requires TidPre(sh, f, fr)
    ensures TidKept(sh, f, MoveOf(sh, fr, c))
  {
    if InMake(fr.at) { TidMake(sh, f, fr, c); }
    else if InBegin(fr.at) { TidBegin(sh, f, fr, c); }
    else if InClean(fr.at) { NoTidClean(sh, fr); }
    else if InUnlink(fr.at) { TidUnlink(sh, f, fr); }
    else { NoTidRest(sh, fr, c); }
  }

  lemma TidEffect(reg: Registry, f: int, e: Effect, id: int)
    requires ListsOk(reg) && TidShared(reg) && RegGuard(reg, f, e) && (e.Put? ==> NodeAt(reg, e.n).tid == 0)
    ensures TidShared(ApplyReg(reg, f, e, id))
  {
    match e
    case Remove(n) => DeleteIs(reg.threadList, n);
    case Take =>
      var q := reg.freeList;
      assert q != [] ==> forall x :: x in q[1..] ==> x in q;
    case _ =>
  }

  lemma TidOther(reg: Registry, f: int, e: Effect, id: int, h: int, hr: Frame)
    requires ListsOk(reg) && RegGuard(reg, f, e) && HoldFrame(reg, h, hr) && TidLocal(reg, hr.at, hr.n) && h != f
    ensures TidLocal(ApplyReg(reg, f, e, id), hr.at, hr.n)
  {
  }

  ghost predicate TidAt(sh: Shared, f: int, fr: Frame) { TidLocal(sh.reg, fr.at, fr.n) }

  ghost predicate TidInv(s: State) { TidShared(s.sh.reg) && Everywhere(TidAt, s) }

  lemma TidMoved(s: State, a: Action)
    requires Inv(s) && TidInv(s) && Enabled(s, a)
    ensures var d := DeedOf(s, a);
      && (d.e.Put? ==> NodeAt(s.sh.reg, d.e.n).tid == 0)
      && (d.to.Some? ==> TidAt(Apply(s.sh, d.actor, d.e), d.to.value.0, d.to.value.1))
  {
    match a
    case Step(f, c) =>
      assert LocalOk(s.sh, f, s.frames[f]) && TidAt(s.sh, f, s.frames[f]);
      TidMove(s.sh, f, s.frames[f], c);
    case Push(f, call) => CalleeIsNew(s.sh, s.frames[f].thread, f, call);
    case Block(t, on) =>
    case Support =>
  }

  lemma TidStep(s: State, a: Action)
    requires Inv(s) && TidInv(s) && Enabled(s, a)
    ensures TidInv(Do(s, a))
  {
    var d := DeedOf(s, a);
    TidMoved(s, a);
    MovedKept(s, a);
    TidEffect(s.sh.reg, d.actor, d.e, s.sh.gate.nextFrame);
    forall h | h in s.frames && d.from != Some(h) ensures TidAt(Apply(s.sh, d.actor, d.e), h, s.frames[h]) {
      TidRest(s, a, h);
    }
    DeedDone(s, a);
    Lift(TidAt, s, d, Do(s, a));
  }

  lemma TidRest(s: State, a: Action, h: int)
    requires Inv(s) && TidInv(s) && Enabled(s, a) && h in s.frames && DeedOf(s, a).from != Some(h)
    ensures TidAt(Apply(s.sh, DeedOf(s, a).actor, DeedOf(s, a).e), h, s.frames[h])
  {
    var d := DeedOf(s, a);
    MovedKept(s, a);
    assert LocalOk(s.sh, h, s.frames[h]) && TidAt(s.sh, h, s.frames[h]);
    assert h != d.actor;
    TidOther(s.sh.reg, d.actor, d.e, s.sh.gate.nextFrame, h, s.frames[h]);
  }

  lemma TidNext(run: seq<State>, i: int)
    requires IsRun(run) && 0 < i < |run| && TidInv(run[i - 1])
    ensures TidInv(run[i])
  {
    InvRun(run, i - 1);
    var a := ActionAt(run, i);
    TidStep(run[i - 1], a);
  }

  lemma TidInitial()
    ensures TidInv(INITIAL)
  {
  }

  lemma {:induction false} TidRun(run: seq<State>, i: int)
    requires IsRun(run) && 0 <= i < |run|
    ensures TidInv(run[i])
  {
    if i == 0 {
      TidInitial();
    } else {
      TidRun(run, i - 1);
      TidNext(run, i);
    }
  }

  /** In every run the tn_tid of a node tells where it is: -1 from monitor_make_thread_node until the thread is linked,
      positive and at most monitor_thread_num on the thread list, 0 on the free list and for the main thread. */
  lemma TidTells(run: seq<State>, i: int)
    requires IsRun(run) && 0 <= i < |run|
    ensures var reg := run[i].sh.reg;
      && (forall x :: x in reg.threadList ==> 0 < NodeAt(reg, x).tid <= reg.threadNum)
      && (forall x :: x in reg.freeList ==> NodeAt(reg, x).tid == 0)
      && NodeAt(reg, MAIN_NODE).tid == 0
    ensures forall f :: f in run[i].frames && Unnumbered(run[i].frames[f].at) ==>
      NodeAt(run[i].sh.reg, run[i].frames[f].n).tid == -1
  {
    InvRun(run, i);
    TidRun(run, i);
    var s := run[i];
    forall f | f in s.frames && Unnumbered(s.frames[f].at) ensures NodeAt(s.sh.reg, s.frames[f].n).tid == -1 {
      assert TidAt(s.sh, f, s.frames[f]);
    }
  }

  // ----- the node of a signal -----------------------------------------------------------------

  /** The handler and the sigwait helper have the node that pthread_getspecific gives their thread. */
  predicate SignalLocal(reg: Registry, fr: Frame) {
    InSignal(fr.at) ==> fr.thread in reg.tsd && reg.tsd[fr.thread] == fr.n
  }

  ghost predicate SignalAt(sh: Shared, f: int, fr: Frame) { SignalLocal(sh.reg, fr) }

  lemma SignalMoves(sh: Shared, fr: Frame, c: bool)
    ensures var m := MoveOf(sh, fr, c);
      m.Go? && InSignal(m.to.at) ==> InSignal(fr.at) && m.to.n == fr.n && !m.e.SetSelf?
  {
  }

  lemma TsdEffect(reg: Registry, f: int, e: Effect, id: int)
    ensures ApplyReg(reg, f, e, id).tsd == if e.SetSelf? then reg.tsd[e.t := e.n] else reg.tsd
  {
  }

  lemma SignalMoved(s: State, a: Action)
    requires Inv(s) && Enabled(s, a) && Everywhere(SignalAt, s)
    ensures var d := DeedOf(s, a); d.to.Some? ==> SignalAt(Apply(s.sh, d.actor, d.e), d.to.value.0, d.to.value.1)
  {
    var d := DeedOf(s, a);
    TsdEffect(s.sh.reg, d.actor, d.e, s.sh.gate.nextFrame);
    match a
    case Step(f, c) =>
      SignalMoves(s.sh, s.frames[f], c);
      SameCalls(s.sh, s.frames[f], c);
    case Push(f, call) => CalleeIsNew(s.sh, s.frames[f].thread, f, call);
    case Block(t, on) =>
    case Support =>
  }

  lemma SetsOwn(sh: Shared, fr: Frame, c: bool)
    ensures var e := MoveOf(sh, fr, c).e; e.SetSelf? ==> Basal(fr.at) && e.t == fr.thread
  {
  }

  /** tn_self of a thread is set by its only call. */
  lemma SetsNotUnder(s: State, a: Action, h: int)
    requires StackInv(s) && Enabled(s, a) && h in s.frames && DeedOf(s, a).from != Some(h)
    ensures var e := DeedOf(s, a).e; !(e.SetSelf? && e.t == s.frames[h].thread)
  {
    if a.Step? {
      SetsOwn(s.sh, s.frames[a.f], a.c);
      if DeedOf(s, a).e.SetSelf? && s.frames[h].thread == s.frames[a.f].thread {
        assert FrameOk(s.tops, s.nextThread, a.f, s.frames[a.f]);
        Alone(s, a.f, h);
      }
    }
  }

  lemma SignalKept(s: State, a: Action, h: int)
    requires Inv(s) && StackInv(s) && Enabled(s, a) && h in s.frames && DeedOf(s, a).from != Some(h)
    requires SignalAt(s.sh, h, s.frames[h])
    ensures SignalAt(Apply(s.sh, DeedOf(s, a).actor, DeedOf(s, a).e), h, s.frames[h])
  {
    var d := DeedOf(s, a);
    TsdEffect(s.sh.reg, d.actor, d.e, s.sh.gate.nextFrame);
    SetsNotUnder(s, a, h);
  }

  lemma SignalStep(s: State, a: Action)
    requires Inv(s) && StackInv(s) && Enabled(s, a) && Everywhere(SignalAt, s)
    ensures Everywhere(SignalAt, Do(s, a))
  {
    SignalMoved(s, a);
    forall h | h in s.frames && DeedOf(s, a).from != Some(h)
      ensures SignalAt(Apply(s.sh, DeedOf(s, a).actor, DeedOf(s, a).e), h, s.frames[h])
    {
      SignalKept(s, a, h);
    }
    DeedDone(s, a);
    Lift(SignalAt, s, DeedOf(s, a), Do(s, a));
  }

  lemma SignalNext(run: seq<State>, i: int)
    requires IsRun(run) && 0 < i < |run| && Everywhere(SignalAt, run[i - 1])
    ensures Everywhere(SignalAt, run[i])
  {
    SelfRun(run, i - 1);
    var a := ActionAt(run, i);
    SignalStep(run[i - 1], a);
  }

  lemma SignalInitial()
    ensures Everywhere(SignalAt, INITIAL)
  {
  }

  lemma {:induction false} SignalRun(run: seq<State>, i: int)
    requires IsRun(run) && 0 <= i < |run|
    ensures Everywhere(SignalAt, run[i])
  {
    if i == 0 {
      SignalInitial();
    } else {
      SignalRun(run, i - 1);
      SignalNext(run, i);
    }
  }

  /** In every run the handler and the sigwait helper, from their first test to the end of the callback, act on the
      node that pthread_getspecific gives the thread they run on. */
  lemma SignalsUseOwnNode(run: seq<State>, i: int, f: int)
    requires IsRun(run) && 0 <= i < |run| && f in run[i].frames && InSignal(run[i].frames[f].at)
    ensures var fr, tsd := run[i].frames[f], run[i].sh.reg.tsd; fr.thread in tsd && tsd[fr.thread] == fr.n
  {
    SignalRun(run, i);
    assert SignalAt(run[i].sh, f, run[i].frames[f]);
  }

  /** A call of exit() finds the node that pthread_getspecific gives its thread, whichever way monitor_get_tn takes. */
  lemma ExitFindsOwn(run: seq<State>, i: int, f: int)
    requires IsRun(run) && 0 <= i < |run| && Enabled(run[i], Push(f, Exit))
    ensures var t, tsd := run[i].frames[f].thread, run[i].sh.reg.tsd;
      Callee(run[i].sh, t, f, Exit) ==
        Frame(t, Some(f), ExitCas, 0, if t in tsd then Some(tsd[t]) else None, FIRST_PASS)
  {
    SelfRun(run, i);
    assert SelfLocal(run[i].sh.reg, run[i].sh.race.used, run[i].frames[f]);
  }

  // ----- the winner's mark --------------------------------------------------------------------

  /** The winner has marked its node, if that is its own. */
  predicate MarkLocal(reg: Registry, fr: Frame) {
    Won(fr.at) && !fr.at.ExitMark? && fr.tn.Some? && Own(reg, fr.thread, fr.tn.value) ==>
      NodeAt(reg, fr.tn.value).exitWin
  }

  ghost predicate MarkAt(sh: Shared, f: int, fr: Frame) { MarkLocal(sh.reg, fr) }

  /** A node that is thread t's own after an effect was so before and keeps its mark, unless tn_self is set now. */
  lemma MarkEffect(reg: Registry, f: int, e: Effect, id: int, t: int, n: int)
    requires RegGuard(reg, f, e) && |reg.nodes| > 0 && Own(ApplyReg(reg, f, e, id), t, n)
    requires !(e.SetSelf? && e.n == n && e.t == t)
    ensures Own(reg, t, n) && (NodeAt(reg, n).exitWin ==> NodeAt(ApplyReg(reg, f, e, id), n).exitWin)
    ensures e == SetWin(n) ==> NodeAt(ApplyReg(reg, f, e, id), n).exitWin
  {
  }

  predicate WinnerMove(fr: Frame, m: Move) {
    m.Go? && Won(m.to.at) && !m.to.at.ExitMark? ==>
      if fr.at.ExitMark? then fr.tn.Some? ==> m.e == SetWin(fr.tn.value) else Won(fr.at) && !m.e.SetSelf?
  }

  lemma MarkShoot(sh: Shared, fr: Frame)
    requires InShoot(fr.at)
    ensures WinnerMove(fr, ShootMove(sh, fr))
  {
  }

  lemma MarkMoves(sh: Shared, fr: Frame, c: bool)
    ensures WinnerMove(fr, MoveOf(sh, fr, c))
  {
    if InShoot(fr.at) { MarkShoot(sh, fr); }
    else if Won(fr.at) { RestMoves(sh, fr, c); }
    else { NotWinning(sh, fr, c); }
  }

  lemma NotWinning(sh: Shared, fr: Frame, c: bool)
    requires !Won(fr.at)
    ensures var m := MoveOf(sh, fr, c); m.Go? && Won(m.to.at) ==> m.to.at.ExitMark?
  {
  }

  lemma MarkMoved(s: State, a: Action)
    requires Inv(s) && Enabled(s, a) && Everywhere(MarkAt, s)
    ensures var d := DeedOf(s, a); d.to.Some? ==> MarkAt(Apply(s.sh, d.actor, d.e), d.to.value.0, d.to.value.1)
  {
    MovedKept(s, a);
    match a
    case Step(f, c) =>
      assert MarkAt(s.sh, f, s.frames[f]);
      if MoveOf(s.sh, s.frames[f], c).Go? { MarkMover(s.sh, f, s.frames[f], c); }
    case Push(f, call) => CalleeIsNew(s.sh, s.frames[f].thread, f, call);
    case Block(t, on) =>
    case Support =>
  }

  lemma MarkMover(sh: Shared, f: int, fr: Frame, c: bool)
    requires MarkLocal(sh.reg, fr) && MoveOf(sh, fr, c).Go? && |sh.reg.nodes| > 0
    requires RegGuard(sh.reg, f, MoveOf(sh, fr, c).e)
    ensures MarkLocal(ApplyReg(sh.reg, f, MoveOf(sh, fr, c).e, sh.gate.nextFrame), MoveOf(sh, fr, c).to)
  {
    var m := MoveOf(sh, fr, c);
    MarkMoves(sh, fr, c);
    SameCalls(sh, fr, c);
    var reg' := ApplyReg(sh.reg, f, m.e, sh.gate.nextFrame);
    if Won(m.to.at) && !m.to.at.ExitMark? && fr.tn.Some? && Own(reg', fr.thread, fr.tn.value) {
      MarkEffect(sh.reg, f, m.e, sh.gate.nextFrame, fr.thread, fr.tn.value);
    }
  }

  lemma MarkKept(s: State, a: Action, h: int)
    requires Inv(s) && StackInv(s) && Enabled(s, a) && h in s.frames && DeedOf(s, a).from != Some(h)
    requires MarkAt(s.sh, h, s.frames[h])
    ensures MarkAt(Apply(s.sh, DeedOf(s, a).actor, DeedOf(s, a).e), h, s.frames[h])
  {
    var d, hr := DeedOf(s, a), s.frames[h];
    MovedKept(s, a);
    if hr.tn.Some? && Own(Apply(s.sh, d.actor, d.e).reg, hr.thread, hr.tn.value) {
      SetsNotUnder(s, a, h);
      MarkEffect(s.sh.reg, d.actor, d.e, s.sh.gate.nextFrame, hr.thread, hr.tn.value);
    }
  }

  lemma MarkStep(s: State, a: Action)
    requires Inv(s) && StackInv(s) && Enabled(s, a) && Everywhere(MarkAt, s)
    ensures Everywhere(MarkAt, Do(s, a))
  {
    MarkMoved(s, a);
    forall h | h in s.frames && DeedOf(s, a).from != Some(h)
      ensures MarkAt(Apply(s.sh, DeedOf(s, a).actor, DeedOf(s, a).e), h, s.frames[h])
    {
      MarkKept(s, a, h);
    }
    DeedDone(s, a);
    Lift(MarkAt, s, DeedOf(s, a), Do(s, a));
  }

  lemma MarkNext(run: seq<State>, i: int)
    requires IsRun(run) && 0 < i < |run| && Everywhere(MarkAt, run[i - 1])
    ensures Everywhere(MarkAt, run[i])
  {
    SelfRun(run, i - 1);
    var a := ActionAt(run, i);
    MarkStep(run[i - 1], a);
  }

  lemma MarkInitial()
    ensures Everywhere(MarkAt, INITIAL)
  {
  }

  lemma {:induction false} MarkRun(run: seq<State>, i: int)
    requires IsRun(run) && 0 <= i < |run|
    ensures Everywhere(MarkAt, run[i])
  {
    if i == 0 {
      MarkInitial();
    } else {
      MarkRun(run, i - 1);
      MarkNext(run, i);
    }
  }

  /** From its store to the end of its call, the winner's own node has tn_exit_win, so that the winner is known if it
      calls exit() again. */
  lemma WinnerMarked(run: seq<State>, i: int, w: int)
    requires IsRun(run) && 0 <= i < |run| && w in run[i].frames && Won(run[i].frames[w].at)
    requires !run[i].frames[w].at.ExitMark? && run[i].frames[w].tn.Some?
    requires Own(run[i].sh.reg, run[i].frames[w].thread, run[i].frames[w].tn.value)
    ensures NodeAt(run[i].sh.reg, run[i].frames[w].tn.value).exitWin
  {
    MarkRun(run, i);
    assert MarkAt(run[i].sh, w, run[i].frames[w]);
  }
}
