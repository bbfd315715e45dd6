/** The race of process exit: one winner, one process callback, and what the winner's walk of the
    thread list has established. */
module ExitRace {
  import opened Options
  import opened ExitMachine
  import opened ExitLock
  import opened ExitRegistry

  /** The winner's program points. */
  predicate Won(at: At) { InShoot(at) || InScan(at) || InOwn(at) || InFini(at) }

  predicate Making(at: At) {
    match at
    case MakeLock | MakeTake | MakeClear | MakeUnlock | MakePre | MakeDone => true
    case _ => false
  }

  /** A loser may go on. */
  ghost predicate Released(trace: seq<Event>) { FiniProcessEnd in trace || exists t :: RepeatWinner(t) in trace }

  ghost predicate RaceOk(r: Race, l: Log, g: Gate) {
    && r.cookie == (if r.winner.Some? then 1 else 0)
    && (r.winner.Some? ==> r.winner.value < g.nextFrame)
    && (r.winner.None? ==>
          FiniProcessBegin !in l.trace && FiniProcessEnd !in l.trace && forall t :: ExitWon(t) !in l.trace)
    && (r.finiProcessDone ==> Released(l.trace))
  }

  /** The process callback starts once, and each loser goes on after it has ended or after a repeat
      winner came by. */
  ghost predicate TraceOk(l: Log) {
    && (forall i, j :: 0 <= i < j < |l.trace| ==> !(l.trace[i].FiniProcessBegin? && l.trace[j].FiniProcessBegin?))
    && (forall i :: 0 <= i < |l.trace| && l.trace[i].LoserResumed? ==> Released(l.trace[..i]))
  }

  ghost predicate RaceLocal(r: Race, l: Log, f: int, at: At) {
    && (Won(at) ==> r.winner == Some(f))
    && (Won(at) && !at.InProcess? && !at.ExitSetDone? ==> FiniProcessBegin !in l.trace)
    && (Won(at) && !at.ExitSetDone? ==> FiniProcessEnd !in l.trace)
    && (at.ExitSetDone? ==> FiniProcessEnd in l.trace)
    && (at.ExitRepeat? || at.ExitResume? ==> Released(l.trace))
    && (Making(at) ==> r.used)
  }

  /** What a frame must know before it changes the race or the log. */
  ghost predicate RaceGuard(r: Race, l: Log, f: int, e: Effect) {
    match e
    case Win(_) => r.cookie == 0
    case SetProcessDone => Released(l.trace)
    case Emit(ev) =>
      && !ev.FiniThreadBegin? && !ev.FiniThreadEnd? && !ev.ExitWon?
      && (ev.FiniProcessBegin? ==> r.winner == Some(f) && FiniProcessBegin !in l.trace)
      && (ev.FiniProcessEnd? ==> r.winner == Some(f))
      && (ev.LoserResumed? ==> Released(l.trace))
    case Take => r.used
    case _ => true
  }

  lemma RaceEffect(r: Race, l: Log, g: Gate, f: int, e: Effect)
    requires RaceOk(r, l, g) && RaceGuard(r, l, f, e) && f < g.nextFrame
    ensures RaceOk(ApplyRace(r, f, e), ApplyLog(l, f, e), ApplyGate(g, f, e))
  {
  }

  lemma TraceEffect(r: Race, l: Log, f: int, e: Effect)
    requires TraceOk(l) && RaceGuard(r, l, f, e)
    ensures TraceOk(ApplyLog(l, f, e))
  {
    var l' := ApplyLog(l, f, e);
    assert forall i :: 0 <= i < |l.trace| ==> l'.trace[i] == l.trace[i] && l'.trace[..i] == l.trace[..i];
    assert |l'.trace| > |l.trace| ==> l'.trace[..|l.trace|] == l.trace;
  }

  lemma RaceOther(r: Race, l: Log, f: int, e: Effect, h: int, at: At)
    requires RaceGuard(r, l, f, e) && RaceLocal(r, l, h, at) && h != f
    requires r.cookie == (if r.winner.Some? then 1 else 0)
    ensures RaceLocal(ApplyRace(r, f, e), ApplyLog(l, f, e), h, at)
  {
  }

  // ----- the walk -----------------------------------------------------------------------------

  /** What a walk knows of node x: it is the winner's own, was not application-started when the walk
      came by, or has finished its callback. */
  predicate Settled(reg: Registry, fr: Frame, x: int) {
    NodeAt(reg, x).self == Some(fr.thread) || x in fr.pass.skipped || NodeAt(reg, x).finiDone
  }

  predicate OwnSeen(reg: Registry, fr: Frame, x: int) {
    NodeAt(reg, x).self == Some(fr.thread) ==> fr.pass.mine.Some?
  }

  predicate PassLocal(reg: Registry, g: Gate, fr: Frame) {
    && (InScan(fr.at) || InOwn(fr.at) ==> MineOk(reg, fr))
    && (InScan(fr.at) ==>
          && 0 <= fr.pass.k <= |reg.threadList|
          && 0 <= fr.pass.unfinished
          && (!fr.at.ScanHead? ==>
                fr.pass.k < |reg.threadList| && NodeAt(reg, reg.threadList[fr.pass.k]).self != Some(fr.thread))
          && (fr.pass.unfinished == 0 ==> forall j :: 0 <= j < fr.pass.k ==> Settled(reg, fr, reg.threadList[j]))
          && (forall j :: 0 <= j < fr.pass.k ==> OwnSeen(reg, fr, reg.threadList[j])))
    && (InOwn(fr.at) ==> fr.pass.walked)
    && ((InOwn(fr.at) || InFini(fr.at)) && fr.pass.walked ==>
          && g.inExit
          && (fr.pass.timedOut || forall x :: x in reg.threadList ==> Settled(reg, fr, x))
          && (forall x :: x in reg.threadList ==> OwnSeen(reg, fr, x)))
    && (InFini(fr.at) && fr.pass.walked ==> MineOk(reg, fr))
    && (fr.at.OwnIn? ==> fr.pass.mine == Some(fr.n) && NodeAt(reg, fr.n).finiStarted)
    && (fr.at.OwnSet? ==> fr.pass.mine == Some(fr.n))
    && (InFini(fr.at) && fr.pass.walked && fr.pass.mine.Some? ==> NodeAt(reg, fr.pass.mine.value).finiStarted)
  }

  /** The frozen list: same members, same threads, and no callback undone. */
  predicate ListKept(reg: Registry, reg': Registry) {
    && reg'.threadList == reg.threadList
    && forall x :: x in reg.threadList ==>
         && NodeAt(reg', x).self == NodeAt(reg, x).self
         && (NodeAt(reg, x).applStarted ==> NodeAt(reg', x).applStarted)
         && (NodeAt(reg, x).finiStarted ==> NodeAt(reg', x).finiStarted)
         && (NodeAt(reg, x).finiDone ==> NodeAt(reg', x).finiDone)
  }

  lemma ListEffect(reg: Registry, f: int, e: Effect, id: int)
    requires ListsOk(reg) && RegGuard(reg, f, e) && !e.Insert? && !e.Remove?
    ensures ListKept(reg, ApplyReg(reg, f, e, id))
  {
  }

  lemma PassOther(reg: Registry, reg': Registry, g: Gate, g': Gate, fr: Frame)
    requires PassLocal(reg, g, fr) && ListKept(reg, reg') && (g.inExit ==> g'.inExit)
    ensures PassLocal(reg', g', fr)
  {
    var q := reg.threadList;
    assert forall j :: 0 <= j < |q| ==> q[j] in q;
    assert InScan(fr.at) && 0 <= fr.pass.k < |q| ==> q[fr.pass.k] in q;
  }

  predicate Walking(at: At) { InScan(at) || InOwn(at) || InFini(at) }

  predicate PassKept(sh: Shared, f: int, m: Move) {
    m.Go? ==> PassLocal(ApplyReg(sh.reg, f, m.e, sh.gate.nextFrame), ApplyGate(sh.gate, f, m.e), m.to)
  }

  lemma PassHead(reg: Registry, g: Gate, fr: Frame, c: bool)
    requires fr.at.ScanHead? && PassLocal(reg, g, fr) && g.inExit
    ensures PassLocal(reg, g, ScanFrom(reg, fr, c))
  {
    var q := reg.threadList;
    assert forall x :: x in q ==> exists j :: 0 <= j < |q| && q[j] == x;
    assert forall j :: 0 <= j < |q| ==> q[j] in q;
  }

  lemma PassScan(sh: Shared, f: int, fr: Frame, c: bool)
    requires InScan(fr.at) && PassLocal(sh.reg, sh.gate, fr) && sh.gate.inExit
    ensures PassKept(sh, f, ScanMove(sh, fr, c))
  {
    if fr.at.ScanHead? { PassHead(sh.reg, sh.gate, fr, c); }
  }

  lemma PassShoot(sh: Shared, f: int, fr: Frame)
    requires InShoot(fr.at)
    ensures PassKept(sh, f, ShootMove(sh, fr))
  {
  }

  lemma PassOwn(sh: Shared, f: int, fr: Frame)
    requires InOwn(fr.at) && PassLocal(sh.reg, sh.gate, fr) && sh.gate.inExit
    requires ListKept(sh.reg, ApplyReg(sh.reg, f, OwnMove(sh, fr).e, sh.gate.nextFrame))
    ensures PassKept(sh, f, OwnMove(sh, fr))
  {
  }

  lemma PassFini(sh: Shared, f: int, fr: Frame)
    requires InFini(fr.at) && PassLocal(sh.reg, sh.gate, fr)
    ensures PassKept(sh, f, FiniMove(fr))
  {
  }

  lemma PassRest(sh: Shared, f: int, fr: Frame, c: bool)
    requires !Walking(fr.at) && !InShoot(fr.at)
    ensures PassKept(sh, f, MoveOf(sh, fr, c))
  {
    RestIdle(sh, fr, c);
  }

  lemma RestIdle(sh: Shared, fr: Frame, c: bool)
    requires !Walking(fr.at) && !InShoot(fr.at)
    ensures MoveOf(sh, fr, c).Go? ==> !Walking(MoveOf(sh, fr, c).to.at)
  {
  }

  lemma PassMove(sh: Shared, f: int, fr: Frame, c: bool)
    requires PassLocal(sh.reg, sh.gate, fr) && LockLocal(sh.gate, f, fr.at, fr.n) && ListsOk(sh.reg)
    requires RegGuard(sh.reg, f, MoveOf(sh, fr, c).e)
    ensures PassKept(sh, f, MoveOf(sh, fr, c))
  {
    if InShoot(fr.at) { PassShoot(sh, f, fr); }
    else if InScan(fr.at) { PassScan(sh, f, fr, c); }
    else if InOwn(fr.at) {
      ListEffect(sh.reg, f, OwnMove(sh, fr).e, sh.gate.nextFrame);
      PassOwn(sh, f, fr);
    }
    else if InFini(fr.at) { PassFini(sh, f, fr); }
    else { PassRest(sh, f, fr, c); }
  }

  // ----- the moves ----------------------------------------------------------------------------

  ghost predicate RacePre(sh: Shared, f: int, fr: Frame) {
    && RaceOk(sh.race, sh.log, sh.gate) && RaceLocal(sh.race, sh.log, f, fr.at)
    && LockLocal(sh.gate, f, fr.at, fr.n)
  }

  ghost predicate RaceKept(sh: Shared, f: int, m: Move) {
    && RaceGuard(sh.race, sh.log, f, m.e)
    && (m.Go? ==> RaceLocal(ApplyRace(sh.race, f, m.e), ApplyLog(sh.log, f, m.e), f, m.to.at))
  }

  lemma RaceMake(sh: Shared, f: int, fr: Frame, c: bool)
    requires RacePre(sh, f, fr) && InMake(fr.at)
    ensures RaceKept(sh, f, MakeMove(sh, fr, c))
  {
  }

  lemma RaceBegin(sh: Shared, f: int, fr: Frame, c: bool)
    requires RacePre(sh, f, fr) && InBegin(fr.at)
    ensures RaceKept(sh, f, BeginMove(sh, fr, c))
  {
  }

  lemma RaceClean(sh: Shared, f: int, fr: Frame)
    requires RacePre(sh, f, fr) && InClean(fr.at)
    ensures RaceKept(sh, f, CleanMove(sh, fr))
  {
  }

  lemma RaceUnlink(sh: Shared, f: int, fr: Frame)
    requires RacePre(sh, f, fr) && InUnlink(fr.at)
    ensures RaceKept(sh, f, UnlinkMove(sh, fr))
  {
  }

  lemma RaceSignal(sh: Shared, f: int, fr: Frame)
    requires RacePre(sh, f, fr) && InSignal(fr.at)
    ensures RaceKept(sh, f, SignalMove(sh, fr))
  {
  }

  lemma RaceShoot(sh: Shared, f: int, fr: Frame)
    requires RacePre(sh, f, fr) && InShoot(fr.at)
    ensures RaceKept(sh, f, ShootMove(sh, fr))
  {
  }

  lemma RaceScan(sh: Shared, f: int, fr: Frame, c: bool)
    requires RacePre(sh, f, fr) && InScan(fr.at)
    ensures RaceKept(sh, f, ScanMove(sh, fr, c))
  {
  }

  lemma RaceOwn(sh: Shared, f: int, fr: Frame)
    requires RacePre(sh, f, fr) && InOwn(fr.at)
    ensures RaceKept(sh, f, OwnMove(sh, fr))
  {
  }

  lemma RaceFini(sh: Shared, f: int, fr: Frame)
    requires RacePre(sh, f, fr) && InFini(fr.at)
    ensures RaceKept(sh, f, FiniMove(fr))
  {
  }

  lemma RaceExit(sh: Shared, f: int, fr: Frame)
    requires RacePre(sh, f, fr) && Ready(sh, fr)
    ensures RaceKept(sh, f, ExitMove(sh, fr))
  {
  }

  lemma RaceMove(sh: Shared, f: int, fr: Frame, c: bool)
    requires RacePre(sh, f, fr) && Ready(sh, fr)
    ensures RaceKept(sh, f, MoveOf(sh, fr, c))
  {
    if InMake(fr.at) { RaceMake(sh, f, fr, c); }
    else if InBegin(fr.at) { RaceBegin(sh, f, fr, c); }
    else if InClean(fr.at) { RaceClean(sh, f, fr); }
    else if InUnlink(fr.at) { RaceUnlink(sh, f, fr); }
    else if InSignal(fr.at) { RaceSignal(sh, f, fr); }
    else if InShoot(fr.at) { RaceShoot(sh, f, fr); }
    else if InScan(fr.at) { RaceScan(sh, f, fr, c); }
    else if InOwn(fr.at) { RaceOwn(sh, f, fr); }
    else if InFini(fr.at) { RaceFini(sh, f, fr); }
    else { RaceExit(sh, f, fr); }
  }
}
