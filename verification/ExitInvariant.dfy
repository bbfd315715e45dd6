/** The invariant of the exit machine: it holds in every state of every run. */
module ExitInvariant {
  import opened Options
  import opened ExitMachine
  import opened ExitLock
  import opened ExitRegistry
  import opened ExitRace

  ghost predicate SharedOk(sh: Shared) {
    && GateOk(sh.gate) && ListsOk(sh.reg) && NodesOk(sh.reg, sh.gate)
    && RaceOk(sh.race, sh.log, sh.gate) && TraceOk(sh.log)
    && (sh.race.used || |sh.reg.nodes| == 1)
  }

  ghost predicate LocalOk(sh: Shared, f: int, fr: Frame) {
    && 0 <= f < sh.gate.nextFrame
    && LockLocal(sh.gate, f, fr.at, fr.n)
    && HoldFrame(sh.reg, f, fr)
    && RaceLocal(sh.race, sh.log, f, fr.at)
    && PassLocal(sh.reg, sh.gate, fr)
  }

  ghost predicate Inv(s: State) {
    SharedOk(s.sh) && forall f :: f in s.frames ==> LocalOk(s.sh, f, s.frames[f])
  }

  /** All that a frame must know before it writes. */
  ghost predicate Guard(sh: Shared, f: int, e: Effect) {
    && GateGuard(sh.gate, f, e) && RegGuard(sh.reg, f, e) && RaceGuard(sh.race, sh.log, f, e)
    && f < sh.gate.nextFrame
  }

  lemma SharedKept(sh: Shared, f: int, e: Effect)
    requires SharedOk(sh) && Guard(sh, f, e)
    ensures SharedOk(Apply(sh, f, e))
  {
    GateEffect(sh.gate, f, e);
    ListsEffect(sh.reg, f, e, sh.gate.nextFrame);
    NodesEffect(sh.reg, sh.gate, f, e);
    RaceEffect(sh.race, sh.log, sh.gate, f, e);
    TraceEffect(sh.race, sh.log, f, e);
    NodesGrow(sh.reg, f, e, sh.gate.nextFrame);
  }

  lemma NodesGrow(reg: Registry, f: int, e: Effect, id: int)
    ensures |ApplyReg(reg, f, e, id).nodes| >= |reg.nodes|
    ensures !e.Take? ==> |ApplyReg(reg, f, e, id).nodes| == |reg.nodes|
  {
  }

  lemma OtherKept(sh: Shared, f: int, e: Effect, h: int, hr: Frame)
    requires SharedOk(sh) && Guard(sh, f, e) && LocalOk(sh, h, hr) && h != f
    ensures LocalOk(Apply(sh, f, e), h, hr)
  {
    var id := sh.gate.nextFrame;
    GateOther(sh.gate, f, e, h, hr);
    RegUndisturbed(sh.reg, f, e, id, h, hr.n, Holding(hr.at));
    HoldUndisturbed(sh.reg, ApplyReg(sh.reg, f, e, id), h, hr.at, hr.n, hr.thread, e.Remove?);
    RaceOther(sh.race, sh.log, f, e, h, hr.at);
    if e.Insert? || e.Remove? {
      PassIdle(sh.reg, ApplyReg(sh.reg, f, e, id), sh.gate, ApplyGate(sh.gate, f, e), hr);
    } else {
      ListEffect(sh.reg, f, e, id);
      PassOther(sh.reg, ApplyReg(sh.reg, f, e, id), sh.gate, ApplyGate(sh.gate, f, e), hr);
    }
  }

  /** Before the freeze nobody walks the list. */
  lemma PassIdle(reg: Registry, reg': Registry, g: Gate, g': Gate, fr: Frame)
    requires PassLocal(reg, g, fr) && !g.inExit && !AfterFreeze(fr.at)
    ensures PassLocal(reg', g', fr)
  {
  }

  ghost predicate DeedKept(sh: Shared, d: Deed) {
    && Guard(sh, d.actor, d.e)
    && (d.to.Some? ==> LocalOk(Apply(sh, d.actor, d.e), d.to.value.0, d.to.value.1))
  }

  lemma MoveDeedKept(sh: Shared, f: int, m: Move, t: int)
    requires SharedOk(sh) && Guard(sh, f, m.e) && (m.Go? ==> LocalOk(Apply(sh, f, m.e), f, m.to))
    ensures DeedKept(sh, MoveDeed(f, m, sh.gate.nextFrame, t))
  {
    if m.Ret? && m.e.Spawn? { SpawnKept(sh, f, m.e.n, t); }
  }

  lemma MovedKept(s: State, a: Action)
    requires Inv(s) && Enabled(s, a)
    ensures DeedKept(s.sh, DeedOf(s, a))
  {
    match a
    case Step(f, c) =>
      StepKept(s.sh, f, s.frames[f], c);
      MoveDeedKept(s.sh, f, MoveOf(s.sh, s.frames[f], c), s.nextThread);
    case Push(f, call) => PushKept(s.sh, s.frames[f].thread, f, call);
    case Block(t, on) =>
    case Support =>
  }

  lemma SpawnKept(sh: Shared, f: int, n: int, t: int)
    requires SharedOk(sh) && RegGuard(sh.reg, f, Spawn(n))
    ensures LocalOk(Apply(sh, f, Spawn(n)), sh.gate.nextFrame, FirstFrame(t, n))
  {
  }

  lemma PushKept(sh: Shared, t: int, f: int, call: Call)
    requires SharedOk(sh) && (call.Deliver? ==> sh.gate.handlerOn)
    requires call.Deliver? || call.Sigwait? ==> t in sh.reg.tsd
    ensures LocalOk(Apply(sh, -1, Enter(call.Create?)), sh.gate.nextFrame, Callee(sh, t, f, call))
  {
    var fr := Callee(sh, t, f, call);
    CalleeIsNew(sh, t, f, call);
    assert PassLocal(sh.reg, sh.gate, fr);
    assert HoldFrame(sh.reg, sh.gate.nextFrame, fr);
  }

  lemma CalleeIsNew(sh: Shared, t: int, f: int, call: Call)
    ensures var at := Callee(sh, t, f, call).at;
      && !Walking(at) && !Won(at) && !HoldsLock(at) && !Mutating(at) && !Holding(at) && !InFlight(at) && !HasSelf(at)
      && !PastTest(at) && (Making(at) ==> call.Create?) && (AfterFreeze(at) ==> call.Deliver?)
      && (InSignal(at) ==> call.Deliver? || call.Sigwait?)
      && !at.UnClear? && !at.ExitRepeat? && !at.ExitResume? && !at.ExitSetDone? && !at.OwnSet? && !at.OwnIn?
  {
  }

  lemma StepKept(sh: Shared, f: int, fr: Frame, c: bool)
    requires SharedOk(sh) && LocalOk(sh, f, fr) && Ready(sh, fr)
    ensures var m := MoveOf(sh, fr, c);
      && Guard(sh, f, m.e)
      && (m.Go? ==> LocalOk(Apply(sh, f, m.e), f, m.to))
  {
    GateMove(sh, f, fr, c);
    HoldMove(sh, f, fr, c);
    RaceMove(sh, f, fr, c);
    PassMove(sh, f, fr, c);
  }

  lemma InvStep(s: State, a: Action)
    requires Inv(s) && Enabled(s, a)
    ensures Inv(Do(s, a))
  {
    var d := DeedOf(s, a);
    MovedKept(s, a);
    SharedKept(s.sh, d.actor, d.e);
    forall h | h in s.frames && d.from != Some(h)
      ensures LocalOk(Apply(s.sh, d.actor, d.e), h, s.frames[h])
    {
      OtherKept(s.sh, d.actor, d.e, h, s.frames[h]);
    }
    DeedDone(s, a);
    Lift((sh: Shared, f: int, fr: Frame) => LocalOk(sh, f, fr), s, d, Do(s, a));
  }

  lemma InvInitial()
    ensures Inv(INITIAL)
  {
  }

  lemma InvNext(s: State, s': State)
    requires Inv(s) && Next(s, s')
    ensures Inv(s')
  {
    var a :| Enabled(s, a) && s' == Do(s, a);
    InvStep(s, a);
  }

  lemma {:induction false} InvRun(run: seq<State>, i: int)
    requires IsRun(run) && 0 <= i < |run|
    ensures Inv(run[i])
  {
    if i == 0 {
      InvInitial();
    } else {
      InvRun(run, i - 1);
      assert Next(run[i - 1], run[(i - 1) + 1]);
      InvNext(run[i - 1], run[i]);
    }
  }
}
