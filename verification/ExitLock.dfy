/** Mutual exclusion of the thread lock and the freeze of the thread list. */
module ExitLock {
  import opened Options
  import opened ExitMachine

  /** Between the lock's CAS and its release. */
  predicate HoldsLock(at: At) {
    match at
    case MakeTake | MakeClear | MakeUnlock | LinkTest | LinkRefuse | LinkInsert | LinkUnlock | UnTest
          | UnMark | UnRemove | UnClear | UnPut | UnUnlock | ShootSet | ShootUnlock | CastHold => true
    case _ => false
  }

  /** About to change the thread list or half way through an unlink. */
  predicate Mutating(at: At) {
    match at
    case LinkInsert | UnRemove | UnClear | UnPut => true
    case _ => false
  }

  /** Program points reached only after monitor_in_exit_cleanup was set. */
  predicate AfterFreeze(at: At) {
    match at
    case ShootUnlock | ShootInstall | ScanHead | ScanAppl | ScanStarted | ScanDone | ShootDone | OwnTest
          | OwnSet | OwnIn | WaitDone | WaitTest | HandTest | HandDone | SigSet | SigIn => true
    case _ => false
  }

  predicate GateOk(g: Gate) {
    && g.lockWord == (if g.owner.Some? then 1 else 0)
    && 0 < g.nextFrame
    && (g.owner.Some? ==> g.owner.value < g.nextFrame)
    && (g.unlinking.Some? ==> g.owner == Some(g.unlinking.value.1))
    && (g.handlerOn ==> g.inExit)
    && (g.inExit ==> g.unlinking.None?)
  }

  predicate LockLocal(g: Gate, f: int, at: At, n: int) {
    && (HoldsLock(at) <==> g.owner == Some(f))
    && (at.UnClear? <==> g.unlinking.Some? && g.unlinking.value.1 == f)
    && (at.UnClear? ==> g.unlinking.value.0 == n)
    && (g.inExit ==> !Mutating(at))
    && (AfterFreeze(at) ==> g.inExit)
  }

  /** What a frame must know before it changes the gate. */
  predicate GateGuard(g: Gate, f: int, e: Effect) {
    && (e.Lock? ==> g.lockWord == 0)
    && (e.Unlock? || e.SetInExit? || e.Wipe? || e.Remove? ==> g.owner == Some(f))
    && (e.Unlock? || e.SetInExit? || e.Remove? ==> g.unlinking.None?)
    && (e.Wipe? ==> g.unlinking.None? || g.unlinking.value.0 == e.n)
    && (e.Remove? || e.Insert? ==> !g.inExit)
    && (e.SetHandler? ==> g.inExit)
  }

  lemma GateEffect(g: Gate, f: int, e: Effect)
    requires GateOk(g) && f < g.nextFrame && GateGuard(g, f, e)
    ensures GateOk(ApplyGate(g, f, e))
  {
  }

  lemma GateOther(g: Gate, f: int, e: Effect, h: int, hr: Frame)
    requires GateOk(g) && GateGuard(g, f, e) && LockLocal(g, h, hr.at, hr.n) && h != f
    ensures LockLocal(ApplyGate(g, f, e), h, hr.at, hr.n)
  {
  }

  predicate GateKept(sh: Shared, f: int, m: Move) {
    GateGuard(sh.gate, f, m.e) && (m.Go? ==> LockLocal(ApplyGate(sh.gate, f, m.e), f, m.to.at, m.to.n))
  }

  lemma GateMake(sh: Shared, f: int, fr: Frame, c: bool)
    requires GateOk(sh.gate) && LockLocal(sh.gate, f, fr.at, fr.n) && Ready(sh, fr) && InMake(fr.at)
    ensures GateKept(sh, f, MakeMove(sh, fr, c))
  {
  }

  lemma GateBegin(sh: Shared, f: int, fr: Frame, c: bool)
    requires GateOk(sh.gate) && LockLocal(sh.gate, f, fr.at, fr.n) && Ready(sh, fr) && InBegin(fr.at)
    ensures GateKept(sh, f, BeginMove(sh, fr, c))
  {
  }

  lemma GateClean(sh: Shared, f: int, fr: Frame)
    requires GateOk(sh.gate) && LockLocal(sh.gate, f, fr.at, fr.n) && Ready(sh, fr) && InClean(fr.at)
    ensures GateKept(sh, f, CleanMove(sh, fr))
  {
  }

  lemma GateUnlink(sh: Shared, f: int, fr: Frame)
    requires GateOk(sh.gate) && LockLocal(sh.gate, f, fr.at, fr.n) && Ready(sh, fr) && InUnlink(fr.at)
    ensures GateKept(sh, f, UnlinkMove(sh, fr))
  {
  }

  lemma GateSignal(sh: Shared, f: int, fr: Frame)
    requires GateOk(sh.gate) && LockLocal(sh.gate, f, fr.at, fr.n) && Ready(sh, fr) && InSignal(fr.at)
    ensures GateKept(sh, f, SignalMove(sh, fr))
  {
  }

  lemma GateShoot(sh: Shared, f: int, fr: Frame)
    requires GateOk(sh.gate) && LockLocal(sh.gate, f, fr.at, fr.n) && Ready(sh, fr) && InShoot(fr.at)
    ensures GateKept(sh, f, ShootMove(sh, fr))
  {
  }

  lemma GateScan(sh: Shared, f: int, fr: Frame, c: bool)
    requires GateOk(sh.gate) && LockLocal(sh.gate, f, fr.at, fr.n) && Ready(sh, fr) && InScan(fr.at)
    ensures GateKept(sh, f, ScanMove(sh, fr, c))
  {
  }

  lemma GateOwn(sh: Shared, f: int, fr: Frame)
    requires GateOk(sh.gate) && LockLocal(sh.gate, f, fr.at, fr.n) && Ready(sh, fr) && InOwn(fr.at)
    ensures GateKept(sh, f, OwnMove(sh, fr))
  {
  }

  lemma GateFini(sh: Shared, f: int, fr: Frame)
    requires GateOk(sh.gate) && LockLocal(sh.gate, f, fr.at, fr.n) && Ready(sh, fr) && InFini(fr.at)
    ensures GateKept(sh, f, FiniMove(fr))
  {
  }

  lemma GateExit(sh: Shared, f: int, fr: Frame)
    requires GateOk(sh.gate) && LockLocal(sh.gate, f, fr.at, fr.n) && Ready(sh, fr)
    ensures GateKept(sh, f, ExitMove(sh, fr))
  {
  }

  lemma GateMove(sh: Shared, f: int, fr: Frame, c: bool)
    requires GateOk(sh.gate) && LockLocal(sh.gate, f, fr.at, fr.n) && Ready(sh, fr)
    ensures GateKept(sh, f, MoveOf(sh, fr, c))
  {
    if InMake(fr.at) { GateMake(sh, f, fr, c); }
    else if InBegin(fr.at) { GateBegin(sh, f, fr, c); }
    else if InClean(fr.at) { GateClean(sh, f, fr); }
    else if InUnlink(fr.at) { GateUnlink(sh, f, fr); }
    else if InSignal(fr.at) { GateSignal(sh, f, fr); }
    else if InShoot(fr.at) { GateShoot(sh, f, fr); }
    else if InScan(fr.at) { GateScan(sh, f, fr, c); }
    else if InOwn(fr.at) { GateOwn(sh, f, fr); }
    else if InFini(fr.at) { GateFini(sh, f, fr); }
    else { GateExit(sh, f, fr); }
  }
}
