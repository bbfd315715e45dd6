/** Exactly when the thread callback is called twice: when a store to tn_fini_started finds it already set. */
module ExitOnce {
  import opened Options
  import opened ExitMachine
  import opened ExitRegistry
  import opened ExitInvariant
  import opened ExitCallbacks

  /** tn_fini_started and tn_fini_done tell whether a callback of the node's life has begun and one has returned. */
  predicate FlagTells(v: Node, l: Log) {
    && (v.finiStarted <==> FiniThreadBegin(v.life) in l.trace)
    && (v.finiDone <==> FiniThreadEnd(v.life) in l.trace) && (v.finiDone ==> v.finiStarted)
  }

  ghost predicate FlagsTell(reg: Registry, l: Log) {
    && (forall life :: FiniThreadBegin(life) in l.trace || FiniThreadEnd(life) in l.trace ==> life < reg.nextLife)
    && (forall n :: 0 <= n < |reg.nodes| ==> FlagTells(reg.nodes[n], l))
  }

  /** The callback has been called. */
  predicate Called(at: At) { InCallback(at) || Finished(at) }

  /** What a frame must know before it touches the flags. */
  predicate FlagGuard(reg: Registry, e: Effect) {
    && (e.Mark? ==> NodeAt(reg, e.n).finiStarted && NodeAt(reg, e.n).finiDone)
    && (e.End? ==> NodeAt(reg, e.n).finiStarted)
  }

  predicate CalledLocal(reg: Registry, fr: Frame) {
    (Called(fr.at) ==> NodeAt(reg, fr.n).finiStarted) && (Finished(fr.at) ==> NodeAt(reg, fr.n).finiDone)
  }

  ghost predicate OnceInv(s: State) {
    FlagsTell(s.sh.reg, s.sh.log) && forall f :: f in s.frames ==> CalledLocal(s.sh.reg, s.frames[f])
  }

  lemma FlagsEffect(sh: Shared, f: int, e: Effect)
    requires SharedOk(sh) && Guard(sh, f, e) && FlagsTell(sh.reg, sh.log)
    requires FlagGuard(sh.reg, e)
    ensures FlagsTell(ApplyReg(sh.reg, f, e, sh.gate.nextFrame), ApplyLog(sh.log, f, e))
  {
  }

  lemma CalledOther(sh: Shared, f: int, e: Effect, h: int, hr: Frame)
    requires SharedOk(sh) && Guard(sh, f, e) && h != f && HoldFrame(sh.reg, h, hr) && CalledLocal(sh.reg, hr)
    ensures CalledLocal(ApplyReg(sh.reg, f, e, sh.gate.nextFrame), hr)
  {
  }

  predicate CalledKept(sh: Shared, f: int, m: Move) {
    && FlagGuard(sh.reg, m.e)
    && (m.Go? ==> CalledLocal(ApplyReg(sh.reg, f, m.e, sh.gate.nextFrame), m.to))
  }

  lemma CalledClean(sh: Shared, f: int, fr: Frame)
    requires HoldFrame(sh.reg, f, fr) && CalledLocal(sh.reg, fr) && InClean(fr.at) && ListsOk(sh.reg)
    ensures CalledKept(sh, f, CleanMove(sh, fr))
  {
  }

  lemma CalledUnlink(sh: Shared, f: int, fr: Frame)
    requires HoldFrame(sh.reg, f, fr) && CalledLocal(sh.reg, fr) && InUnlink(fr.at)
    ensures CalledKept(sh, f, UnlinkMove(sh, fr))
  {
  }

  lemma CalledSignal(sh: Shared, f: int, fr: Frame)
    requires HoldFrame(sh.reg, f, fr) && CalledLocal(sh.reg, fr) && InSignal(fr.at)
    ensures CalledKept(sh, f, SignalMove(sh, fr))
  {
  }

  lemma CalledOwn(sh: Shared, f: int, fr: Frame)
    requires HoldFrame(sh.reg, f, fr) && CalledLocal(sh.reg, fr) && InOwn(fr.at) && ListsOk(sh.reg)
    ensures CalledKept(sh, f, OwnMove(sh, fr))
  {
  }

  predicate Uncalled(m: Move) { !m.e.Mark? && !m.e.End? && (m.Go? ==> !Called(m.to.at)) }

  lemma CalledLow(sh: Shared, fr: Frame, c: bool)
    requires InMake(fr.at) || InBegin(fr.at)
    ensures Uncalled(MoveOf(sh, fr, c))
  {
  }

  lemma CalledHigh(sh: Shared, fr: Frame, c: bool)
    requires InShoot(fr.at) || InScan(fr.at) || InFini(fr.at)
    ensures Uncalled(MoveOf(sh, fr, c))
  {
  }

  lemma CalledExit(sh: Shared, fr: Frame)
    ensures Uncalled(ExitMove(sh, fr))
  {
  }

  lemma CalledMove(sh: Shared, f: int, fr: Frame, c: bool)
    requires HoldFrame(sh.reg, f, fr) && CalledLocal(sh.reg, fr) && ListsOk(sh.reg)
    ensures CalledKept(sh, f, MoveOf(sh, fr, c))
  {
    if InClean(fr.at) { CalledClean(sh, f, fr); }
    else if InUnlink(fr.at) { CalledUnlink(sh, f, fr); }
    else if InSignal(fr.at) { CalledSignal(sh, f, fr); }
    else if InOwn(fr.at) { CalledOwn(sh, f, fr); }
    else if InMake(fr.at) || InBegin(fr.at) { CalledLow(sh, fr, c); }
    else if InShoot(fr.at) || InScan(fr.at) || InFini(fr.at) { CalledHigh(sh, fr, c); }
    else { CalledExit(sh, fr); }
  }

  lemma CalledNew(s: State, a: Action)
    requires Inv(s) && OnceInv(s) && Enabled(s, a)
    ensures var d := DeedOf(s, a);
      && FlagGuard(s.sh.reg, d.e)
      && (d.to.Some? ==> CalledLocal(Apply(s.sh, d.actor, d.e).reg, d.to.value.1))
  {
    match a
    case Step(f, c) => CalledMove(s.sh, f, s.frames[f], c);
    case Push(f, call) => CalleeIsNew(s.sh, s.frames[f].thread, f, call);
    case Block(t, on) =>
    case Support =>
  }

  lemma OnceStep(s: State, a: Action)
    requires Inv(s) && OnceInv(s) && Enabled(s, a)
    ensures OnceInv(Do(s, a))
  {
    var d := DeedOf(s, a);
    CalledNew(s, a);
    MovedKept(s, a);
    FlagsEffect(s.sh, d.actor, d.e);
    forall h | h in s.frames && d.from != Some(h) ensures CalledLocal(Do(s, a).sh.reg, s.frames[h]) {
      CalledOther(s.sh, d.actor, d.e, h, s.frames[h]);
    }
    DeedDone(s, a);
    Lift((sh: Shared, f: int, fr: Frame) => CalledLocal(sh.reg, fr), s, d, Do(s, a));
  }

  /** Frame f is about to set tn_fini_started of its node, which is set already. */
  predicate Stale(s: State, f: int) {
    Top(s, f) && Storing(s.frames[f].at) && NodeAt(s.sh.reg, s.frames[f].n).finiStarted
  }

  /** The step of such a frame. */
  ghost predicate StaleStore(s: State, s': State) {
    exists f :: Stale(s, f) && s' == Do(s, Step(f, false))
  }

  /** Only a frame at its store begins the callback, for its own node. */
  lemma BeginsAt(sh: Shared, fr: Frame, c: bool)
    ensures var e := MoveOf(sh, fr, c).e;
      if Storing(fr.at) then e == Begin(fr.n, NodeAt(sh.reg, fr.n).life) && MoveOf(sh, fr, c) == MoveOf(sh, fr, false)
      else !e.Begin?
  {
  }

  lemma StoreTrace(s: State, f: int, c: bool)
    requires Inv(s) && OnceInv(s) && Enabled(s, Step(f, c)) && Storing(s.frames[f].at)
    ensures AtMostOnce(Do(s, Step(f, c)).sh.log.trace) <==> AtMostOnce(s.sh.log.trace) && !Stale(s, f)
    ensures Do(s, Step(f, c)) == Do(s, Step(f, false))
    ensures !NoBegin(s.sh.log.trace, Do(s, Step(f, c)).sh.log.trace)
  {
    var n := s.frames[f].n;
    BeginsAt(s.sh, s.frames[f], c);
    MovedKept(s, Step(f, c));
    assert FlagTells(s.sh.reg.nodes[n], s.sh.log);
    OneMore(s.sh.log.trace, s.sh.reg.nodes[n].life);
  }

  lemma QuietTrace(s: State, a: Action)
    requires Inv(s) && Enabled(s, a) && (a.Step? ==> !Storing(s.frames[a.f].at))
    ensures AtMostOnce(Do(s, a).sh.log.trace) <==> AtMostOnce(s.sh.log.trace)
    ensures NoBegin(s.sh.log.trace, Do(s, a).sh.log.trace)
  {
    if a.Step? { BeginsAt(s.sh, s.frames[a.f], a.c); }
    MovedKept(s, a);
    OtherTrace(s.sh.log, DeedOf(s, a).actor, DeedOf(s, a).e);
  }

  lemma StaleBegins(s: State, s': State)
    requires Inv(s) && OnceInv(s) && StaleStore(s, s')
    ensures !AtMostOnce(s'.sh.log.trace)
  {
    var f :| Stale(s, f) && s' == Do(s, Step(f, false));
    StoreTrace(s, f, false);
  }

  lemma TraceStep(s: State, a: Action, s': State)
    requires Inv(s) && OnceInv(s) && Enabled(s, a) && s' == Do(s, a)
    ensures AtMostOnce(s'.sh.log.trace) <==> AtMostOnce(s.sh.log.trace) && !StaleStore(s, s')
  {
    if StaleStore(s, s') { StaleBegins(s, s'); }
    if a.Step? && Storing(s.frames[a.f].at) { StoreTrace(s, a.f, a.c); } else { QuietTrace(s, a); }
  }

  lemma OneMore(trace: seq<Event>, life: int)
    ensures AtMostOnce(trace + [FiniThreadBegin(life)]) <==> AtMostOnce(trace) && FiniThreadBegin(life) !in trace
  {
    var trace' := trace + [FiniThreadBegin(life)];
    assert forall i :: 0 <= i < |trace| ==> trace'[i] == trace[i];
    assert trace'[|trace|] == FiniThreadBegin(life);
    if FiniThreadBegin(life) in trace {
      var i :| 0 <= i < |trace| && trace[i] == FiniThreadBegin(life);
      assert trace'[i] == trace'[|trace|];
    }
  }

  lemma OtherTrace(l: Log, f: int, e: Effect)
    requires !e.Begin? && (e.Emit? ==> !e.e.FiniThreadBegin?)
    ensures AtMostOnce(ApplyLog(l, f, e).trace) <==> AtMostOnce(l.trace)
    ensures NoBegin(l.trace, ApplyLog(l, f, e).trace)
  {
    var trace' := ApplyLog(l, f, e).trace;
    assert forall i :: 0 <= i < |l.trace| ==> trace'[i] == l.trace[i];
  }

  predicate NoBegin(trace: seq<Event>, trace': seq<Event>) { |trace'| > |trace| ==> !trace'[|trace|].FiniThreadBegin? }

  lemma OnceNext(s: State, s': State)
    requires Inv(s) && OnceInv(s) && Next(s, s')
    ensures OnceInv(s')
    ensures AtMostOnce(s'.sh.log.trace) <==> AtMostOnce(s.sh.log.trace) && !StaleStore(s, s')
  {
    var a :| Enabled(s, a) && s' == Do(s, a);
    OnceStep(s, a);
    TraceStep(s, a, s');
  }

  lemma OnceInitial()
    ensures OnceInv(INITIAL) && AtMostOnce(INITIAL.sh.log.trace)
  {
  }

  lemma {:induction false} OnceRun(run: seq<State>, i: int)
    requires IsRun(run) && 0 <= i < |run|
    ensures Inv(run[i]) && OnceInv(run[i])
    ensures AtMostOnce(run[i].sh.log.trace) <==> forall j :: 0 <= j < i ==> !StaleStore(run[j], run[j + 1])
  {
    InvRun(run, i);
    if i == 0 {
      OnceInitial();
    } else {
      OnceRun(run, i - 1);
      assert Next(run[i - 1], run[(i - 1) + 1]);
      OnceNext(run[i - 1], run[i]);
    }
  }

  /** In every run, races and all, monitor_fini_thread has started at most once per life of a node if and only
      if no frame at its store found tn_fini_started of its node already set: re-testing the flag there would be
      enough. */
  lemma OnceExactly(run: seq<State>, i: int)
    requires IsRun(run) && 0 <= i < |run|
    ensures AtMostOnce(run[i].sh.log.trace) <==> forall j :: 0 <= j < i ==> !StaleStore(run[j], run[j + 1])
    ensures forall n :: 0 <= n < |run[i].sh.reg.nodes| ==> FlagTells(run[i].sh.reg.nodes[n], run[i].sh.log)
  {
    OnceRun(run, i);
  }
}
