/** Stretches of runs of the exit machine: what a property that every action keeps says after a thread is created,
    linked, ended, and after a call of exit() wins or loses. */
module ExitRuns {
  import opened Options
  import opened ExitMachine

  type Property = State -> bool

  /** A property that every action keeps. */
  ghost predicate Closed(p: Property) {
    forall s, a {:trigger Do(s, a)} :: p(s) && Enabled(s, a) ==> p(Do(s, a))
  }

  /** State s with frame f somewhere else and another shared state. */
  function With(s: State, f: int, fr: Frame, sh: Shared): State {
    State(s.frames[f := fr], s.tops, s.nextThread, sh)
  }

  /** What a stretch starts from: frame f of state s is on top, has got to `fr` and the shared state to `sh`. */
  ghost predicate Reached(p: Property, s: State, f: int, fr: Frame, sh: Shared) {
    Closed(p) && Top(s, f) && fr.thread == s.frames[f].thread && p(With(s, f, fr, sh))
  }

  lemma Here(p: Property, s: State, f: int)
    requires Closed(p) && p(s) && Top(s, f)
    ensures Reached(p, s, f, s.frames[f], s.sh)
  {
    assert s.frames[f := s.frames[f]] == s.frames;
  }

  lemma Go(p: Property, s: State, f: int, fr: Frame, sh: Shared, c: bool, e: Effect, to: Frame)
    requires Reached(p, s, f, fr, sh) && Ready(sh, fr) && MoveOf(sh, fr, c) == Move.Go(e, to) && to.thread == fr.thread
    ensures Reached(p, s, f, to, Apply(sh, f, e))
  {
    var s0 := With(s, f, fr, sh);
    var s' := Do(s0, Step(f, c));
    assert (s.frames[f := fr] - {f})[f := to] == s.frames[f := to];
    assert s' == With(s, f, to, Apply(sh, f, e));
  }

  lemma GoMake(p: Property, s: State, f: int, fr: Frame, sh: Shared, e: Effect, to: Frame)
    requires Reached(p, s, f, fr, sh) && Ready(sh, fr) && InMake(fr.at)
    requires MakeMove(sh, fr, false) == Move.Go(e, to) && to.thread == fr.thread
    ensures Reached(p, s, f, to, Apply(sh, f, e))
  {
    Go(p, s, f, fr, sh, false, e, to);
  }

  lemma GoBegin(p: Property, s: State, f: int, fr: Frame, sh: Shared, e: Effect, to: Frame)
    requires Reached(p, s, f, fr, sh) && Ready(sh, fr) && InBegin(fr.at)
    requires BeginMove(sh, fr, false) == Move.Go(e, to) && to.thread == fr.thread
    ensures Reached(p, s, f, to, Apply(sh, f, e))
  {
    Go(p, s, f, fr, sh, false, e, to);
  }

  lemma GoClean(p: Property, s: State, f: int, fr: Frame, sh: Shared, e: Effect, to: Frame)
    requires Reached(p, s, f, fr, sh) && Ready(sh, fr) && InClean(fr.at)
    requires CleanMove(sh, fr) == Move.Go(e, to) && to.thread == fr.thread
    ensures Reached(p, s, f, to, Apply(sh, f, e))
  {
    Go(p, s, f, fr, sh, false, e, to);
  }

  lemma GoUnlink(p: Property, s: State, f: int, fr: Frame, sh: Shared, e: Effect, to: Frame)
    requires Reached(p, s, f, fr, sh) && Ready(sh, fr) && InUnlink(fr.at)
    requires UnlinkMove(sh, fr) == Move.Go(e, to) && to.thread == fr.thread
    ensures Reached(p, s, f, to, Apply(sh, f, e))
  {
    Go(p, s, f, fr, sh, false, e, to);
  }

  lemma GoSignal(p: Property, s: State, f: int, fr: Frame, sh: Shared, e: Effect, to: Frame)
    requires Reached(p, s, f, fr, sh) && Ready(sh, fr) && InSignal(fr.at)
    requires SignalMove(sh, fr) == Move.Go(e, to) && to.thread == fr.thread
    ensures Reached(p, s, f, to, Apply(sh, f, e))
  {
    Go(p, s, f, fr, sh, false, e, to);
  }

  lemma GoShoot(p: Property, s: State, f: int, fr: Frame, sh: Shared, e: Effect, to: Frame)
    requires Reached(p, s, f, fr, sh) && Ready(sh, fr) && InShoot(fr.at)
    requires ShootMove(sh, fr) == Move.Go(e, to) && to.thread == fr.thread
    ensures Reached(p, s, f, to, Apply(sh, f, e))
  {
    Go(p, s, f, fr, sh, false, e, to);
  }

  lemma GoScan(p: Property, s: State, f: int, fr: Frame, sh: Shared, c: bool, to: Frame)
    requires Reached(p, s, f, fr, sh) && Ready(sh, fr) && InScan(fr.at)
    requires ScanMove(sh, fr, c) == Move.Go(Read, to) && to.thread == fr.thread
    ensures Reached(p, s, f, to, sh)
  {
    Go(p, s, f, fr, sh, c, Read, to);
  }

  lemma GoOwn(p: Property, s: State, f: int, fr: Frame, sh: Shared, e: Effect, to: Frame)
    requires Reached(p, s, f, fr, sh) && Ready(sh, fr) && InOwn(fr.at)
    requires OwnMove(sh, fr) == Move.Go(e, to) && to.thread == fr.thread
    ensures Reached(p, s, f, to, Apply(sh, f, e))
  {
    Go(p, s, f, fr, sh, false, e, to);
  }

  lemma GoExit(p: Property, s: State, f: int, fr: Frame, sh: Shared, e: Effect, to: Frame)
    requires Reached(p, s, f, fr, sh) && Ready(sh, fr) && (fr.at.ExitCas? || fr.at.ExitLost?)
    requires ExitMove(sh, fr) == Move.Go(e, to) && to.thread == fr.thread
    ensures Reached(p, s, f, to, Apply(sh, f, e))
  {
    Go(p, s, f, fr, sh, false, e, to);
  }

  // ----- the routines -------------------------------------------------------------------------

  predicate Unlocked(g: Gate) { g.lockWord == 0 && g.owner == None && g.unlinking == None }

  function Locked(sh: Shared, f: int): Shared { sh.(gate := sh.gate.(lockWord := 1, owner := Some(f))) }

  /** A routine is called on top of frame f. */
  function Pushed(s: State, f: int, call: Call): State
    requires Top(s, f)
  {
    var t, id := s.frames[f].thread, s.sh.gate.nextFrame;
    State(s.frames[id := Callee(s.sh, t, f, call)], s.tops[t := Some(id)], s.nextThread,
          s.sh.(gate := s.sh.gate.(nextFrame := id + 1), race := s.sh.race.(used := s.sh.race.used || call.Create?)))
  }

  lemma Pushes(p: Property, s: State, f: int, call: Call)
    requires Closed(p) && p(s) && Enabled(s, Push(f, call))
    ensures p(Pushed(s, f, call))
  {
    assert Do(s, Push(f, call)) == Pushed(s, f, call);
  }

  /** Thread support is done. */
  function Supported(s: State): State { s.(sh := s.sh.(race := s.sh.race.(supportDone := true))) }

  lemma Supports(p: Property, s: State)
    requires Closed(p) && p(s)
    ensures p(Supported(s))
  {
    assert Do(s, Support) == Supported(s);
  }

  /** The registry after monitor_make_thread_node by frame f. */
  function MadeReg(reg: Registry, f: int, id: int): Registry {
    ApplyReg(ApplyReg(reg, f, Take, id), f, Wipe(Taken(reg), -1), id)
  }

  /** monitor_make_thread_node. */
  lemma Make(p: Property, s: State, f: int, fr: Frame, sh: Shared)
    requires Reached(p, s, f, fr, sh) && fr.at.MakeLock? && Unlocked(sh.gate)
    ensures Reached(p, s, f, fr.(at := MakePre, n := Taken(sh.reg)), sh.(reg := MadeReg(sh.reg, f, sh.gate.nextFrame)))
  {
    var n := Taken(sh.reg);
    var sh1 := Locked(sh, f);
    var sh2 := sh1.(reg := ApplyReg(sh.reg, f, Take, sh.gate.nextFrame));
    GoMake(p, s, f, fr, sh, Lock, fr.(at := MakeTake));
    GoMake(p, s, f, fr.(at := MakeTake), sh1, Take, fr.(at := MakeClear, n := n));
    GoMake(p, s, f, fr.(at := MakeClear, n := n), sh2, Wipe(n, -1), fr.(at := MakeUnlock, n := n));
    var sh3 := sh1.(reg := MadeReg(sh.reg, f, sh.gate.nextFrame));
    GoMake(p, s, f, fr.(at := MakeUnlock, n := n), sh3, Unlock, fr.(at := MakePre, n := n));
  }

  /** The real pthread_create starts the thread, and the call returns. */
  function Spawned(s: State, f: int, fr: Frame, sh: Shared): State {
    var id := sh.gate.nextFrame;
    State((s.frames - {f})[id := FirstFrame(s.nextThread, fr.n)],
          s.tops[fr.thread := fr.parent][s.nextThread := Some(id)], s.nextThread + 1,
          sh.(gate := sh.gate.(nextFrame := id + 1), reg := sh.reg.(holder := sh.reg.holder[fr.n := id])))
  }

  lemma Spawns(p: Property, s: State, f: int, fr: Frame, sh: Shared)
    requires Reached(p, s, f, fr, sh) && fr.at.MakePre? && sh.gate.nextFrame != f
    ensures p(Spawned(s, f, fr, sh))
  {
    var fr' := fr.(at := MakeDone);
    GoMake(p, s, f, fr, sh, Read, fr');
    var s0 := With(s, f, fr', sh);
    assert MakeMove(sh, fr', true) == Ret(Spawn(fr.n));
    assert s.frames[f := fr'] - {f} == s.frames - {f};
    assert Do(s0, Step(f, true)) == Spawned(s, f, fr, sh);
  }

  /** A frame ends its call with node n lost. */
  function Ended(s: State, f: int, fr: Frame, sh: Shared): State {
    State(s.frames - {f}, s.tops[fr.thread := fr.parent], s.nextThread, Apply(sh, f, Emit(NodeLost(fr.n))))
  }

  lemma Loses(p: Property, s: State, f: int, fr: Frame, sh: Shared, c: bool)
    requires Reached(p, s, f, fr, sh) && Ready(sh, fr) && MoveOf(sh, fr, c) == Ret(Emit(NodeLost(fr.n)))
    ensures p(Ended(s, f, fr, sh))
  {
    assert s.frames[f := fr] - {f} == s.frames - {f};
    assert Do(With(s, f, fr, sh), Step(f, c)) == Ended(s, f, fr, sh);
  }

  /** The registry after thread t has linked node n. */
  function LinkedReg(reg: Registry, t: int, n: int): Registry {
    ApplyReg(ApplyReg(reg, 0, SetSelf(n, t), 0), 0, Insert(n), 0)
  }

  /** monitor_begin_thread, up to the test of monitor_in_exit_cleanup. */
  lemma Enters(p: Property, s: State, f: int, fr: Frame, sh: Shared)
    requires Reached(p, s, f, fr, sh) && fr.at.BeginWait? && Unlocked(sh.gate) && sh.race.supportDone
    ensures var sh1 := sh.(reg := ApplyReg(sh.reg, 0, SetSelf(fr.n, fr.thread), 0));
      Reached(p, s, f, fr.(at := LinkTest), Locked(sh1, f))
  {
    var sh1 := sh.(reg := ApplyReg(sh.reg, 0, SetSelf(fr.n, fr.thread), 0));
    GoBegin(p, s, f, fr, sh, Read, fr.(at := BeginSelf));
    GoBegin(p, s, f, fr.(at := BeginSelf), sh, SetSelf(fr.n, fr.thread), fr.(at := LinkLock));
    GoBegin(p, s, f, fr.(at := LinkLock), sh1, Lock, fr.(at := LinkTest));
  }

  /** monitor_begin_thread, up to the call of monitor_init_thread. */
  lemma Inserts(p: Property, s: State, f: int, fr: Frame, sh: Shared)
    requires Reached(p, s, f, fr, sh) && fr.at.BeginWait? && Unlocked(sh.gate) && !sh.gate.inExit && sh.race.supportDone
    ensures Reached(p, s, f, fr.(at := InInit), sh.(reg := LinkedReg(sh.reg, fr.thread, fr.n)))
  {
    var sh1 := sh.(reg := ApplyReg(sh.reg, 0, SetSelf(fr.n, fr.thread), 0));
    var sh2 := Locked(sh1, f);
    var sh3 := sh2.(reg := LinkedReg(sh.reg, fr.thread, fr.n));
    Enters(p, s, f, fr, sh);
    GoBegin(p, s, f, fr.(at := LinkTest), sh2, Read, fr.(at := LinkInsert));
    GoBegin(p, s, f, fr.(at := LinkInsert), sh2, Insert(fr.n), fr.(at := LinkUnlock));
    GoBegin(p, s, f, fr.(at := LinkUnlock), sh3, Unlock, fr.(at := InInit));
  }

  /** monitor_begin_thread, up to the end of monitor_init_thread. */
  lemma Link(p: Property, s: State, f: int, fr: Frame, sh: Shared)
    requires Reached(p, s, f, fr, sh) && fr.at.BeginWait? && Unlocked(sh.gate) && !sh.gate.inExit && sh.race.supportDone
    ensures Reached(p, s, f, fr.(at := ApplSet), sh.(reg := LinkedReg(sh.reg, fr.thread, fr.n)))
  {
    Inserts(p, s, f, fr, sh);
    GoBegin(p, s, f, fr.(at := InInit), sh.(reg := LinkedReg(sh.reg, fr.thread, fr.n)), Read, fr.(at := ApplSet));
  }

  /** The thread is cancelled in monitor_init_thread: its cleanup routine finds that it has not started, and it ends. */
  lemma InitCancels(p: Property, s: State, f: int, fr: Frame, sh: Shared)
    requires Reached(p, s, f, fr, sh) && fr.at.InInit? && !NodeAt(sh.reg, fr.n).applStarted
    ensures p(State(s.frames - {f}, s.tops[fr.thread := fr.parent], s.nextThread, sh))
  {
    Go(p, s, f, fr, sh, true, Read, fr.(at := CleanTest));
    GoClean(p, s, f, fr.(at := CleanTest), sh, Read, fr.(at := Tail));
    assert s.frames[f := fr.(at := Tail)] - {f} == s.frames - {f};
    assert Do(With(s, f, fr.(at := Tail), sh), Step(f, false)) ==
      State(s.frames - {f}, s.tops[fr.thread := fr.parent], s.nextThread, sh);
  }

  /** monitor_begin_thread in exit cleanup: the thread is refused. */
  lemma Refuses(p: Property, s: State, f: int, fr: Frame, sh: Shared)
    requires Reached(p, s, f, fr, sh) && fr.at.BeginWait? && Unlocked(sh.gate) && sh.gate.inExit && sh.race.supportDone
    ensures Reached(p, s, f, fr.(at := Refused), sh.(reg := ApplyReg(sh.reg, 0, SetSelf(fr.n, fr.thread), 0)))
  {
    var sh1 := sh.(reg := ApplyReg(sh.reg, 0, SetSelf(fr.n, fr.thread), 0));
    Enters(p, s, f, fr, sh);
    GoBegin(p, s, f, fr.(at := LinkTest), Locked(sh1, f), Read, fr.(at := LinkRefuse));
    GoBegin(p, s, f, fr.(at := LinkRefuse), Locked(sh1, f), Unlock, fr.(at := Refused));
  }

  function StartedReg(reg: Registry, n: int): Registry { ApplyReg(reg, 0, SetAppl(n), 0) }

  /** The start routine of the application is called. */
  lemma Start(p: Property, s: State, f: int, fr: Frame, sh: Shared)
    requires Reached(p, s, f, fr, sh) && fr.at.ApplSet?
    ensures Reached(p, s, f, fr.(at := Running), sh.(reg := StartedReg(sh.reg, fr.n)))
  {
    GoBegin(p, s, f, fr, sh, SetAppl(fr.n), fr.(at := Running));
  }

  /** The thread ends, up to the store of tn_fini_started. */
  lemma Ends(p: Property, s: State, f: int, fr: Frame, sh: Shared)
    requires Reached(p, s, f, fr, sh) && fr.at.Running? && MayStart(NodeAt(sh.reg, fr.n)) && !sh.race.finiThreadDone
    ensures Reached(p, s, f, fr.(at := CleanSet), sh)
  {
    GoBegin(p, s, f, fr, sh, Read, fr.(at := CleanTest));
    GoClean(p, s, f, fr.(at := CleanTest), sh, Read, fr.(at := CleanDone));
    GoClean(p, s, f, fr.(at := CleanDone), sh, Read, fr.(at := CleanSet));
  }

  /** The callback begins. */
  lemma CallBegins(p: Property, s: State, f: int, fr: Frame, sh: Shared)
    requires Reached(p, s, f, fr, sh) && fr.at.CleanSet?
    ensures Reached(p, s, f, fr.(at := CleanIn), Apply(sh, f, Begin(fr.n, NodeAt(sh.reg, fr.n).life)))
  {
    GoClean(p, s, f, fr, sh, Begin(fr.n, NodeAt(sh.reg, fr.n).life), fr.(at := CleanIn));
  }

  /** The registry after node n has been given back. */
  function UnlinkedReg(reg: Registry, n: int): Registry {
    ApplyReg(ApplyReg(ApplyReg(reg, 0, Remove(n), 0), 0, Wipe(n, 0), 0), 0, Put(n), 0)
  }

  /** The callback returns. */
  lemma CallReturns(p: Property, s: State, f: int, fr: Frame, sh: Shared)
    requires Reached(p, s, f, fr, sh) && fr.at.CleanIn?
    ensures Reached(p, s, f, fr.(at := UnLock), Apply(sh, f, End(fr.n, NodeAt(sh.reg, fr.n).life)))
  {
    GoClean(p, s, f, fr, sh, End(fr.n, NodeAt(sh.reg, fr.n).life), fr.(at := UnLock));
  }

  /** The first half of monitor_unlink_thread_node before the freeze. */
  lemma TakeOff(p: Property, s: State, f: int, fr: Frame, sh: Shared)
    requires Reached(p, s, f, fr, sh) && fr.at.UnLock? && Unlocked(sh.gate) && !sh.gate.inExit
    ensures var sh1 := Locked(sh, f);
      Reached(p, s, f, fr.(at := UnClear), sh1.(reg := ApplyReg(sh.reg, 0, Remove(fr.n), 0),
                                                gate := sh1.gate.(unlinking := Some((fr.n, f)))))
  {
    var sh1 := Locked(sh, f);
    GoUnlink(p, s, f, fr, sh, Lock, fr.(at := UnTest));
    GoUnlink(p, s, f, fr.(at := UnTest), sh1, Read, fr.(at := UnRemove));
    GoUnlink(p, s, f, fr.(at := UnRemove), sh1, Remove(fr.n), fr.(at := UnClear));
  }

  /** monitor_unlink_thread_node before the freeze. */
  lemma Unlink(p: Property, s: State, f: int, fr: Frame, sh: Shared)
    requires Reached(p, s, f, fr, sh) && fr.at.UnLock? && Unlocked(sh.gate) && !sh.gate.inExit
    ensures Reached(p, s, f, fr.(at := Tail), sh.(reg := UnlinkedReg(sh.reg, fr.n)))
  {
    var sh1 := Locked(sh, f);
    var reg2 := ApplyReg(sh.reg, 0, Remove(fr.n), 0);
    var sh2 := sh1.(reg := reg2, gate := sh1.gate.(unlinking := Some((fr.n, f))));
    var sh3 := sh1.(reg := ApplyReg(reg2, 0, Wipe(fr.n, 0), 0));
    var sh4 := sh1.(reg := UnlinkedReg(sh.reg, fr.n));
    TakeOff(p, s, f, fr, sh);
    GoUnlink(p, s, f, fr.(at := UnClear), sh2, Wipe(fr.n, 0), fr.(at := UnPut));
    GoUnlink(p, s, f, fr.(at := UnPut), sh3, Put(fr.n), fr.(at := UnUnlock));
    GoUnlink(p, s, f, fr.(at := UnUnlock), sh4, Unlock, fr.(at := Tail));
  }

  /** The shared state after frame f, with node n, has won. */
  function WonBy(sh: Shared, f: int, t: int, n: int): Shared {
    Apply(Apply(sh, f, Win(t)), f, SetWin(n))
  }

  /** A call of exit() wins the race. */
  lemma Wins(p: Property, s: State, f: int, fr: Frame, sh: Shared)
    requires Reached(p, s, f, fr, sh) && fr.at.ExitCas? && sh.race.cookie == 0 && fr.tn.Some?
    ensures Reached(p, s, f, fr.(at := ExitUsed), WonBy(sh, f, fr.thread, fr.tn.value))
  {
    GoExit(p, s, f, fr, sh, Win(fr.thread), fr.(at := ExitMark));
    GoShoot(p, s, f, fr.(at := ExitMark), Apply(sh, f, Win(fr.thread)), SetWin(fr.tn.value), fr.(at := ExitUsed));
  }

  /** A call of exit() loses the race and waits. */
  lemma LosesRace(p: Property, s: State, f: int, fr: Frame, sh: Shared)
    requires Reached(p, s, f, fr, sh) && fr.at.ExitCas? && sh.race.cookie != 0
    requires fr.tn.Some? ==> !NodeAt(sh.reg, fr.tn.value).exitWin
    ensures Reached(p, s, f, fr.(at := ExitWait), sh)
  {
    GoExit(p, s, f, fr, sh, Read, fr.(at := ExitLost));
    GoExit(p, s, f, fr.(at := ExitLost), sh, Read, fr.(at := ExitWait));
  }

  function Armed(sh: Shared): Shared { sh.(gate := sh.gate.(inExit := true, handlerOn := true)) }

  /** The winner freezes the list. */
  lemma Freezes(p: Property, s: State, f: int, fr: Frame, sh: Shared)
    requires Reached(p, s, f, fr, sh) && fr.at.ExitUsed? && sh.race.used && Unlocked(sh.gate)
    ensures var sh1 := Locked(sh, f);
      Reached(p, s, f, fr.(at := ShootUnlock, pass := FIRST_PASS), sh1.(gate := sh1.gate.(inExit := true)))
  {
    var fr1 := fr.(at := ShootLock, pass := FIRST_PASS);
    GoShoot(p, s, f, fr, sh, Read, fr1);
    GoShoot(p, s, f, fr1, sh, Lock, fr1.(at := ShootSet));
    GoShoot(p, s, f, fr1.(at := ShootSet), Locked(sh, f), SetInExit, fr1.(at := ShootUnlock));
  }

  /** The winner freezes the list and installs the handler. */
  lemma Arms(p: Property, s: State, f: int, fr: Frame, sh: Shared)
    requires Reached(p, s, f, fr, sh) && fr.at.ExitUsed? && sh.race.used && Unlocked(sh.gate)
    ensures Reached(p, s, f, fr.(at := ScanHead, pass := FIRST_PASS), Armed(sh))
  {
    var fr1 := fr.(at := ShootUnlock, pass := FIRST_PASS);
    var sh1 := Locked(sh, f);
    var sh2 := sh1.(gate := sh1.gate.(inExit := true));
    var sh3 := sh.(gate := sh.gate.(inExit := true));
    Freezes(p, s, f, fr, sh);
    GoShoot(p, s, f, fr1, sh2, Unlock, fr1.(at := ShootInstall));
    GoShoot(p, s, f, fr1.(at := ShootInstall), sh3, SetHandler, fr1.(at := ScanHead));
  }

  /** The winner's walk over a list of its own node only. */
  lemma WalksOwn(p: Property, s: State, f: int, fr: Frame, sh: Shared, x: int)
    requires Reached(p, s, f, fr, sh) && fr.at.ScanHead? && fr.pass == FIRST_PASS
    requires sh.reg.threadList == [x] && NodeAt(sh.reg, x).self == Some(fr.thread)
    ensures Reached(p, s, f, fr.(at := ShootDone, pass := FIRST_PASS.(k := 1, mine := Some(x), walked := true)), sh)
  {
    var q := FIRST_PASS.(k := 1, mine := Some(x));
    GoScan(p, s, f, fr, sh, false, fr.(pass := q));
    GoScan(p, s, f, fr.(pass := q), sh, false, fr.(at := ShootDone, pass := q.(walked := true, timedOut := false)));
  }

  /** The winner's walk over a list of one other node, which is not application-started. */
  lemma WalksPast(p: Property, s: State, f: int, fr: Frame, sh: Shared, x: int)
    requires Reached(p, s, f, fr, sh) && fr.at.ScanHead? && fr.pass == FIRST_PASS
    requires sh.reg.threadList == [x] && NodeAt(sh.reg, x).self != Some(fr.thread) && !NodeAt(sh.reg, x).applStarted
    ensures Reached(p, s, f, fr.(at := ShootDone, pass := FIRST_PASS.(k := 1, skipped := [x], walked := true)), sh)
  {
    var q := FIRST_PASS.(k := 1, skipped := [x]);
    GoScan(p, s, f, fr, sh, false, fr.(at := ScanAppl));
    GoScan(p, s, f, fr.(at := ScanAppl), sh, false, fr.(at := ScanHead, pass := q));
    GoScan(p, s, f, fr.(pass := q), sh, false, fr.(at := ShootDone, pass := q.(walked := true, timedOut := false)));
  }

  /** The winner's walk over a list of one other node, whose thread never answers: it gives up. */
  lemma WalksOut(p: Property, s: State, f: int, fr: Frame, sh: Shared, x: int)
    requires Reached(p, s, f, fr, sh) && fr.at.ScanHead? && fr.pass == FIRST_PASS
    requires sh.reg.threadList == [x] && NodeAt(sh.reg, x).self != Some(fr.thread) && NodeAt(sh.reg, x).applStarted
    requires !NodeAt(sh.reg, x).finiStarted && !NodeAt(sh.reg, x).finiDone
    ensures Reached(p, s, f, fr.(at := ShootDone, pass := Pass(1, None, [], 1, 1, true, true)), sh)
  {
    var q := FIRST_PASS.(unstarted := 1);
    var q' := FIRST_PASS.(k := 1, unstarted := 1, unfinished := 1);
    GoScan(p, s, f, fr, sh, false, fr.(at := ScanAppl));
    GoScan(p, s, f, fr.(at := ScanAppl), sh, false, fr.(at := ScanStarted));
    GoScan(p, s, f, fr.(at := ScanStarted), sh, false, fr.(at := ScanDone, pass := q));
    GoScan(p, s, f, fr.(at := ScanDone, pass := q), sh, false, fr.(at := ScanHead, pass := q'));
    GoScan(p, s, f, fr.(pass := q'), sh, true, fr.(at := ShootDone, pass := q'.(walked := true, timedOut := true)));
  }

  /** The winner's walk over a list of one other node, whose callback has returned. */
  lemma WalksDone(p: Property, s: State, f: int, fr: Frame, sh: Shared, x: int)
    requires Reached(p, s, f, fr, sh) && fr.at.ScanHead? && fr.pass == FIRST_PASS
    requires sh.reg.threadList == [x] && NodeAt(sh.reg, x).self != Some(fr.thread) && NodeAt(sh.reg, x).applStarted
    requires NodeAt(sh.reg, x).finiStarted && NodeAt(sh.reg, x).finiDone
    ensures Reached(p, s, f, fr.(at := ShootDone, pass := FIRST_PASS.(k := 1, walked := true)), sh)
  {
    var q := FIRST_PASS.(k := 1);
    GoScan(p, s, f, fr, sh, false, fr.(at := ScanAppl));
    GoScan(p, s, f, fr.(at := ScanAppl), sh, false, fr.(at := ScanStarted));
    GoScan(p, s, f, fr.(at := ScanStarted), sh, false, fr.(at := ScanDone));
    GoScan(p, s, f, fr.(at := ScanDone), sh, false, fr.(at := ScanHead, pass := q));
    GoScan(p, s, f, fr.(pass := q), sh, false, fr.(at := ShootDone, pass := q.(walked := true, timedOut := false)));
  }

  function DoorClosed(sh: Shared): Shared { sh.(race := sh.race.(finiThreadDone := true)) }

  /** The winner's own callback has begun already, or there is none. */
  lemma SkipsOwn(p: Property, s: State, f: int, fr: Frame, sh: Shared)
    requires Reached(p, s, f, fr, sh) && fr.at.ShootDone?
    requires fr.pass.mine.Some? ==> NodeAt(sh.reg, fr.pass.mine.value).finiStarted
    ensures Reached(p, s, f, fr.(at := ExitFini), DoorClosed(sh))
  {
    GoOwn(p, s, f, fr, sh, SetThreadDone, fr.(at := OwnTest));
    GoOwn(p, s, f, fr.(at := OwnTest), DoorClosed(sh), Read, fr.(at := ExitFini));
  }

  /** The shared state after frame f has called the callback of node n. */
  function CalledOwn(sh: Shared, f: int, n: int): Shared {
    var life := NodeAt(sh.reg, n).life;
    Apply(Apply(sh, f, Begin(n, life)), f, End(n, life))
  }

  /** The winner's own callback. */
  lemma RunsOwn(p: Property, s: State, f: int, fr: Frame, sh: Shared)
    requires Reached(p, s, f, fr, sh) && fr.at.ShootDone? && fr.pass.mine.Some?
    requires !NodeAt(sh.reg, fr.pass.mine.value).finiStarted
    ensures Reached(p, s, f, fr.(at := ExitFini, n := fr.pass.mine.value),
      CalledOwn(DoorClosed(sh), f, fr.pass.mine.value))
  {
    var n := fr.pass.mine.value;
    var life := NodeAt(sh.reg, n).life;
    var sh1 := Apply(DoorClosed(sh), f, Begin(n, life));
    GoOwn(p, s, f, fr, sh, SetThreadDone, fr.(at := OwnTest));
    GoOwn(p, s, f, fr.(at := OwnTest), DoorClosed(sh), Read, fr.(at := OwnSet, n := n));
    GoOwn(p, s, f, fr.(at := OwnSet, n := n), DoorClosed(sh), Begin(n, life), fr.(at := OwnIn, n := n));
    GoOwn(p, s, f, fr.(at := OwnIn, n := n), sh1, End(n, life), fr.(at := ExitFini, n := n));
  }

  /** monitor_fini_process begins. */
  lemma Begins(p: Property, s: State, f: int, fr: Frame, sh: Shared)
    requires Reached(p, s, f, fr, sh) && fr.at.ExitFini?
    ensures Reached(p, s, f, fr.(at := InProcess), Apply(sh, f, Emit(FiniProcessBegin)))
  {
    Go(p, s, f, fr, sh, false, Emit(FiniProcessBegin), fr.(at := InProcess));
  }

  // ----- the signal ---------------------------------------------------------------------------

  /** The signal is delivered on top of frame f, its callback for node n begins and returns. */
  function Answered(s: State, n: int): State {
    var id := s.sh.gate.nextFrame;
    s.(sh := CalledOwn(s.sh.(gate := s.sh.gate.(nextFrame := id + 1)), id, n))
  }

  predicate MayAnswer(s: State, f: int, n: int) {
    && Top(s, f) && s.sh.gate.handlerOn && !s.sh.race.finiThreadDone && s.sh.gate.nextFrame !in s.frames
    && s.frames[f].thread in s.sh.reg.tsd && s.sh.reg.tsd[s.frames[f].thread] == n && MayStart(NodeAt(s.sh.reg, n))
    && 0 <= n < |s.sh.reg.nodes|
  }

  function Handler(s: State, f: int, at: At, n: int): Frame
    requires f in s.frames
  {
    Frame(s.frames[f].thread, Some(f), at, n, None, FIRST_PASS)
  }

  /** The signal is delivered, up to the store of tn_fini_started. */
  lemma Delivers(p: Property, s: State, f: int, n: int)
    requires Closed(p) && p(s) && MayAnswer(s, f, n)
    ensures var s1 := Pushed(s, f, Deliver); Reached(p, s1, s.sh.gate.nextFrame, Handler(s, f, SigSet, n), s1.sh)
  {
    var id := s.sh.gate.nextFrame;
    Pushes(p, s, f, Deliver);
    var s1 := Pushed(s, f, Deliver);
    assert s1.frames[id] == Handler(s, f, HandTest, n);
    Here(p, s1, id);
    GoSignal(p, s1, id, Handler(s, f, HandTest, n), s1.sh, Read, Handler(s, f, HandDone, n));
    GoSignal(p, s1, id, Handler(s, f, HandDone, n), s1.sh, Read, Handler(s, f, SigSet, n));
  }

  lemma Answers(p: Property, s: State, f: int, n: int)
    requires Closed(p) && p(s) && MayAnswer(s, f, n)
    ensures p(Answered(s, n))
  {
    var id, life := s.sh.gate.nextFrame, NodeAt(s.sh.reg, n).life;
    var s1 := Pushed(s, f, Deliver);
    Delivers(p, s, f, n);
    GoSignal(p, s1, id, Handler(s, f, SigSet, n), s1.sh, Begin(n, life), Handler(s, f, SigIn, n));
    var sh2 := Apply(s1.sh, id, Begin(n, life));
    HandlerReturns(p, s, f, n, sh2);
    assert NodeAt(sh2.reg, n).life == life;
  }

  lemma HandlerReturns(p: Property, s: State, f: int, n: int, sh: Shared)
    requires MayAnswer(s, f, n)
    requires Reached(p, Pushed(s, f, Deliver), s.sh.gate.nextFrame, Handler(s, f, SigIn, n), sh)
    ensures p(s.(sh := Apply(sh, s.sh.gate.nextFrame, End(n, NodeAt(sh.reg, n).life))))
  {
    var id := s.sh.gate.nextFrame;
    var s2 := With(Pushed(s, f, Deliver), id, Handler(s, f, SigIn, n), sh);
    assert SignalMove(sh, Handler(s, f, SigIn, n)) == Ret(End(n, NodeAt(sh.reg, n).life));
    assert s2.frames - {id} == s.frames;
    assert s2.tops[s.frames[f].thread := Some(f)] == s.tops;
    assert Do(s2, Step(id, false)) == s.(sh := Apply(sh, id, End(n, NodeAt(sh.reg, n).life)));
  }
}
