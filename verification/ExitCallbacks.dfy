/** The thread callback, under the assumption that no two frames are between the test of a node's
    tn_fini_started and the store to it. */
module ExitCallbacks {
  import opened Options
  import opened ExitMachine
  import opened ExitRegistry
  import opened ExitInvariant

  /** Between the test of tn_fini_started and the store to it. */
  predicate Tested(at: At) {
    match at
    case CleanDone | CleanSet | HandDone | SigSet | OwnSet => true
    case _ => false
  }

  /** About to set tn_fini_started and to call monitor_fini_thread. */
  predicate Storing(at: At) {
    match at
    case CleanSet | SigSet | OwnSet => true
    case _ => false
  }

  /** Inside the monitor_fini_thread callback. */
  predicate InCallback(at: At) {
    match at
    case CleanIn | SigIn | OwnIn => true
    case _ => false
  }

  predicate Finished(at: At) {
    match at
    case UnLock | UnTest | UnMark => true
    case _ => false
  }

  /** No signal handler, sigwait helper, cleanup routine or winner is between its test and its store
      for a node while another is. */
  ghost predicate RaceFree(s: State) {
    forall f, g :: f in s.frames && g in s.frames && f != g && Tested(s.frames[f].at) && Tested(s.frames[g].at) ==>
      s.frames[f].n != s.frames[g].n
  }

  predicate AtMostOnce(trace: seq<Event>) {
    forall i, j :: 0 <= i < j < |trace| && trace[i].FiniThreadBegin? && trace[j].FiniThreadBegin? ==>
      trace[i].life != trace[j].life
  }

  /** What the flags of a node say about the callback of its life. */
  predicate NodeCalls(v: Node, l: Log) {
    && (v.finiStarted <==> FiniThreadBegin(v.life) in l.trace)
    && (v.finiDone <==> FiniThreadEnd(v.life) in l.trace)
    && (v.finiDone ==> v.finiStarted)
  }

  ghost predicate CallsOk(reg: Registry, l: Log) {
    && AtMostOnce(l.trace)
    && (forall life :: FiniThreadBegin(life) in l.trace ==> life < reg.nextLife)
    && (forall life :: FiniThreadEnd(life) in l.trace ==> life < reg.nextLife)
    && (forall n :: 0 <= n < |reg.nodes| ==> NodeCalls(reg.nodes[n], l))
  }

  predicate Calling(reg: Registry, l: Log, f: int, n: int) {
    && NodeAt(reg, n).finiStarted && !NodeAt(reg, n).finiDone
    && FiniThreadBegin(NodeAt(reg, n).life) in l.trace
    && FiniThreadEnd(NodeAt(reg, n).life) !in l.trace
    && NodeAt(reg, n).life in l.caller && l.caller[NodeAt(reg, n).life] == f
  }

  predicate CallLocal(reg: Registry, l: Log, f: int, at: At, n: int) {
    && (Tested(at) ==> !NodeAt(reg, n).finiStarted)
    && (InCallback(at) ==> Calling(reg, l, f, n))
    && (Finished(at) ==> NodeAt(reg, n).finiStarted && NodeAt(reg, n).finiDone)
  }

  predicate CallGuard(reg: Registry, l: Log, f: int, e: Effect) {
    match e
    case Begin(n, _) => !NodeAt(reg, n).finiStarted
    case End(n, _) => Calling(reg, l, f, n)
    case Mark(n) => NodeAt(reg, n).finiStarted && NodeAt(reg, n).finiDone
    case _ => true
  }

  lemma CallsEffect(sh: Shared, f: int, e: Effect)
    requires SharedOk(sh) && Guard(sh, f, e) && CallsOk(sh.reg, sh.log) && CallGuard(sh.reg, sh.log, f, e)
    ensures CallsOk(ApplyReg(sh.reg, f, e, sh.gate.nextFrame), ApplyLog(sh.log, f, e))
  {
    if e.Begin? || e.End? { CallsLogged(sh, f, e); } else { CallsUnlogged(sh, f, e); }
  }

  lemma CallsLogged(sh: Shared, f: int, e: Effect)
    requires SharedOk(sh) && Guard(sh, f, e) && CallsOk(sh.reg, sh.log) && CallGuard(sh.reg, sh.log, f, e)
    requires e.Begin? || e.End?
    ensures CallsOk(ApplyReg(sh.reg, f, e, sh.gate.nextFrame), ApplyLog(sh.log, f, e))
  {
  }

  lemma CallsUnlogged(sh: Shared, f: int, e: Effect)
    requires SharedOk(sh) && Guard(sh, f, e) && CallsOk(sh.reg, sh.log) && CallGuard(sh.reg, sh.log, f, e)
    requires !e.Begin? && !e.End?
    ensures CallsOk(ApplyReg(sh.reg, f, e, sh.gate.nextFrame), ApplyLog(sh.log, f, e))
  {
  }

  lemma CallOther(sh: Shared, f: int, e: Effect, h: int, hr: Frame)
    requires SharedOk(sh) && Guard(sh, f, e) && CallGuard(sh.reg, sh.log, f, e) && h != f
    requires HoldFrame(sh.reg, h, hr) && CallLocal(sh.reg, sh.log, h, hr.at, hr.n)
    requires e.Begin? && Tested(hr.at) ==> hr.n != e.n
    ensures CallLocal(ApplyReg(sh.reg, f, e, sh.gate.nextFrame), ApplyLog(sh.log, f, e), h, hr.at, hr.n)
  {
  }

  predicate CallPre(sh: Shared, f: int, fr: Frame) {
    && CallLocal(sh.reg, sh.log, f, fr.at, fr.n)
    && (0 <= fr.n < |sh.reg.nodes| ==> NodeCalls(sh.reg.nodes[fr.n], sh.log))
    && HoldFrame(sh.reg, f, fr) && (fr.at.OwnTest? ==> MineOk(sh.reg, fr)) && ListsOk(sh.reg)
  }

  predicate CallKept(sh: Shared, f: int, fr: Frame, m: Move) {
    && CallGuard(sh.reg, sh.log, f, m.e)
    && (m.e.Begin? ==> Tested(fr.at) && fr.n == m.e.n && m.Go? && InCallback(m.to.at) && m.to.n == m.e.n)
    && (InCallback(fr.at) ==> m.e == End(fr.n, NodeAt(sh.reg, fr.n).life))
    && (m.Go? ==>
          CallLocal(ApplyReg(sh.reg, f, m.e, sh.gate.nextFrame), ApplyLog(sh.log, f, m.e), f, m.to.at, m.to.n))
  }

  lemma CallMake(sh: Shared, f: int, fr: Frame, c: bool)
    requires CallPre(sh, f, fr) && InMake(fr.at)
    ensures CallKept(sh, f, fr, MakeMove(sh, fr, c))
  {
  }

  lemma CallBegin(sh: Shared, f: int, fr: Frame, c: bool)
    requires CallPre(sh, f, fr) && InBegin(fr.at)
    ensures CallKept(sh, f, fr, BeginMove(sh, fr, c))
  {
  }

  lemma CallClean(sh: Shared, f: int, fr: Frame)
    requires CallPre(sh, f, fr) && InClean(fr.at)
    ensures CallKept(sh, f, fr, CleanMove(sh, fr))
  {
  }

  lemma CallUnlink(sh: Shared, f: int, fr: Frame)
    requires CallPre(sh, f, fr) && InUnlink(fr.at)
    ensures CallKept(sh, f, fr, UnlinkMove(sh, fr))
  {
  }

  lemma CallSignal(sh: Shared, f: int, fr: Frame)
    requires CallPre(sh, f, fr) && InSignal(fr.at)
    ensures CallKept(sh, f, fr, SignalMove(sh, fr))
  {
  }

  lemma CallShoot(sh: Shared, f: int, fr: Frame)
    requires CallPre(sh, f, fr) && InShoot(fr.at)
    ensures CallKept(sh, f, fr, ShootMove(sh, fr))
  {
  }

  lemma CallScan(sh: Shared, f: int, fr: Frame, c: bool)
    requires CallPre(sh, f, fr) && InScan(fr.at)
    ensures CallKept(sh, f, fr, ScanMove(sh, fr, c))
  {
  }

  lemma CallOwn(sh: Shared, f: int, fr: Frame)
    requires CallPre(sh, f, fr) && InOwn(fr.at)
    ensures CallKept(sh, f, fr, OwnMove(sh, fr))
  {
  }

  lemma CallFini(sh: Shared, f: int, fr: Frame)
    requires CallPre(sh, f, fr) && InFini(fr.at)
    ensures CallKept(sh, f, fr, FiniMove(fr))
  {
  }

  lemma CallExit(sh: Shared, f: int, fr: Frame)
    requires CallPre(sh, f, fr) && !InClean(fr.at) && !InSignal(fr.at) && !InOwn(fr.at)
    ensures CallKept(sh, f, fr, ExitMove(sh, fr))
  {
  }

  lemma CallMove(sh: Shared, f: int, fr: Frame, c: bool)
    requires CallPre(sh, f, fr)
    ensures CallKept(sh, f, fr, MoveOf(sh, fr, c))
  {
    if InMake(fr.at) { CallMake(sh, f, fr, c); }
    else if InBegin(fr.at) { CallBegin(sh, f, fr, c); }
    else if InClean(fr.at) { CallClean(sh, f, fr); }
    else if InUnlink(fr.at) { CallUnlink(sh, f, fr); }
    else if InSignal(fr.at) { CallSignal(sh, f, fr); }
    else if InShoot(fr.at) { CallShoot(sh, f, fr); }
    else if InScan(fr.at) { CallScan(sh, f, fr, c); }
    else if InOwn(fr.at) { CallOwn(sh, f, fr); }
    else if InFini(fr.at) { CallFini(sh, f, fr); }
    else { CallExit(sh, f, fr); }
  }

  // ----- states and runs ----------------------------------------------------------------------

  /** Every callback that has begun and not ended is on the stack of the frame that called it. */
  ghost predicate OpenOk(s: State) {
    forall life :: FiniThreadBegin(life) in s.sh.log.trace && FiniThreadEnd(life) !in s.sh.log.trace ==>
      life in s.sh.log.caller && Open(s, s.sh.log.caller[life], life)
  }

  ghost predicate Open(s: State, f: int, life: int) {
    && f in s.frames && InCallback(s.frames[f].at)
    && 0 <= s.frames[f].n < |s.sh.reg.nodes| && s.sh.reg.nodes[s.frames[f].n].life == life
  }

  ghost predicate CallInv(s: State) {
    && CallsOk(s.sh.reg, s.sh.log)
    && (forall f :: f in s.frames ==> CallLocal(s.sh.reg, s.sh.log, f, s.frames[f].at, s.frames[f].n))
    && OpenOk(s)
  }

  /** What the moved frame contributes; `fr` is where it was, if it was anywhere. */
  predicate CallDeed(sh: Shared, fr: Option<Frame>, d: Deed) {
    && CallGuard(sh.reg, sh.log, d.actor, d.e)
    && (d.e.Begin? ==>
          && d.to.Some? && d.to.value.0 == d.actor && InCallback(d.to.value.1.at) && d.to.value.1.n == d.e.n
          && d.from == Some(d.actor) && fr.Some? && Tested(fr.value.at) && fr.value.n == d.e.n)
    && (fr.Some? && InCallback(fr.value.at) ==> d.e == End(fr.value.n, NodeAt(sh.reg, fr.value.n).life))
    && (d.to.Some? ==>
          var sh' := Apply(sh, d.actor, d.e);
          CallLocal(sh'.reg, sh'.log, d.to.value.0, d.to.value.1.at, d.to.value.1.n))
  }

  function Before(s: State, a: Action): Option<Frame>
    requires Enabled(s, a)
  {
    if a.Step? then Some(s.frames[a.f]) else None
  }

  lemma CallDeedKept(sh: Shared, f: int, fr: Frame, m: Move, t: int)
    requires CallKept(sh, f, fr, m)
    ensures CallDeed(sh, Some(fr), MoveDeed(f, m, sh.gate.nextFrame, t))
  {
  }

  lemma CallMoved(s: State, a: Action)
    requires Inv(s) && CallInv(s) && Enabled(s, a)
    ensures CallDeed(s.sh, Before(s, a), DeedOf(s, a))
  {
    match a
    case Step(f, c) =>
      CallMove(s.sh, f, s.frames[f], c);
      CallDeedKept(s.sh, f, s.frames[f], MoveOf(s.sh, s.frames[f], c), s.nextThread);
    case Push(f, call) => CalleeIsNew(s.sh, s.frames[f].thread, f, call);
    case Block(t, on) =>
    case Support =>
  }

  lemma OpenStep(s: State, a: Action)
    requires Inv(s) && CallInv(s) && Enabled(s, a)
    ensures OpenOk(Do(s, a))
  {
    var d := DeedOf(s, a);
    var s' := Do(s, a);
    CallMoved(s, a);
    MovedKept(s, a);
    KeptBy(s, a);
    forall life | FiniThreadBegin(life) in s'.sh.log.trace && FiniThreadEnd(life) !in s'.sh.log.trace
      ensures life in s'.sh.log.caller && Open(s', s'.sh.log.caller[life], life)
    {
      if d.e.Begin? && d.e.life == life { OpenNew(s, Before(s, a), d, s'); }
      else { OpenOld(s, Before(s, a), d, life, s'); }
    }
  }

  /** The frames other than the moved one are where they were. */
  ghost predicate Kept(s: State, d: Deed, s': State) {
    && s'.sh == Apply(s.sh, d.actor, d.e)
    && (forall f :: f in s.frames && d.from != Some(f) ==> f in s'.frames && s'.frames[f] == s.frames[f])
    && (d.to.Some? ==> d.to.value.0 in s'.frames && s'.frames[d.to.value.0] == d.to.value.1)
  }

  lemma KeptBy(s: State, a: Action)
    requires Inv(s) && Enabled(s, a)
    ensures Kept(s, DeedOf(s, a), Do(s, a))
    ensures var f := DeedOf(s, a).from; f.Some? ==> f.value in s.frames && Before(s, a) == Some(s.frames[f.value])
  {
    assert s.sh.gate.nextFrame !in s.frames;
  }

  lemma OpenNew(s: State, fr: Option<Frame>, d: Deed, s': State)
    requires Inv(s) && Guard(s.sh, d.actor, d.e) && CallDeed(s.sh, fr, d) && Kept(s, d, s') && d.e.Begin?
    ensures d.e.life in s'.sh.log.caller && Open(s', s'.sh.log.caller[d.e.life], d.e.life)
  {
  }

  lemma LifeKept(sh: Shared, f: int, e: Effect, n: int)
    requires RegGuard(sh.reg, f, e) && n in sh.reg.threadList && ListsOk(sh.reg)
    ensures n < |ApplyReg(sh.reg, f, e, sh.gate.nextFrame).nodes|
    ensures NodeAt(ApplyReg(sh.reg, f, e, sh.gate.nextFrame), n).life == NodeAt(sh.reg, n).life
  {
  }

  lemma OpenOld(s: State, fr: Option<Frame>, d: Deed, life: int, s': State)
    requires Inv(s) && CallInv(s) && Guard(s.sh, d.actor, d.e) && CallDeed(s.sh, fr, d) && Kept(s, d, s')
    requires d.from.Some? ==> d.from.value in s.frames && fr == Some(s.frames[d.from.value])
    requires FiniThreadBegin(life) in s.sh.log.trace && FiniThreadEnd(life) !in s'.sh.log.trace
    requires !(d.e.Begin? && d.e.life == life)
    ensures life in s'.sh.log.caller && Open(s', s'.sh.log.caller[life], life)
  {
    assert forall e :: e in s.sh.log.trace ==> e in s'.sh.log.trace;
    var f := s.sh.log.caller[life];
    assert Open(s, f, life);
    assert LocalOk(s.sh, f, s.frames[f]);
    LifeKept(s.sh, d.actor, d.e, s.frames[f].n);
  }

  lemma CallStep(s: State, a: Action)
    requires Inv(s) && CallInv(s) && Enabled(s, a) && RaceFree(s)
    ensures CallInv(Do(s, a))
  {
    var d := DeedOf(s, a);
    var s' := Do(s, a);
    CallMoved(s, a);
    MovedKept(s, a);
    CallsEffect(s.sh, d.actor, d.e);
    forall h | h in s.frames && d.from != Some(h)
      ensures CallLocal(s'.sh.reg, s'.sh.log, h, s.frames[h].at, s.frames[h].n)
    {
      CallOther(s.sh, d.actor, d.e, h, s.frames[h]);
    }
    OpenStep(s, a);
    DeedDone(s, a);
    Lift((sh: Shared, f: int, fr: Frame) => CallLocal(sh.reg, sh.log, f, fr.at, fr.n), s, d, s');
  }

  lemma CallNext(s: State, s': State)
    requires Inv(s) && CallInv(s) && RaceFree(s) && Next(s, s')
    ensures CallInv(s')
  {
    var a :| Enabled(s, a) && s' == Do(s, a);
    CallStep(s, a);
  }

  lemma CallInitial()
    ensures CallInv(INITIAL)
  {
  }

  lemma {:induction false} CallRun(run: seq<State>, i: int)
    requires IsRun(run) && 0 <= i < |run|
    requires forall j :: 0 <= j < i ==> RaceFree(run[j])
    ensures Inv(run[i]) && CallInv(run[i])
  {
    InvRun(run, i);
    if i == 0 {
      CallInitial();
    } else {
      CallRun(run, i - 1);
      assert Next(run[i - 1], run[(i - 1) + 1]);
      CallNext(run[i - 1], run[i]);
    }
  }
}
