/** How calls begin and end: no thread starts before thread support is done, no call leaves with the thread lock, and
    a thread that has had its callback gives its node back. */
module ExitEnds {
  import opened Options
  import opened ExitMachine
  import opened ExitLock
  import opened ExitRegistry
  import opened ExitInvariant
  import opened ExitCallbacks
  import opened ExitStacks
  import opened ExitOwners

  // ----- the thread lock ----------------------------------------------------------------------

  /** The frame that owns the lock has not returned. */
  ghost predicate OwnerStays(s: State) { s.sh.gate.owner.Some? ==> s.sh.gate.owner.value in s.frames }

  /** A frame that holds the lock does not return without releasing it, and one that takes it goes on. */
  lemma LockMove(sh: Shared, fr: Frame, c: bool)
    ensures HoldsLock(fr.at) ==> MoveOf(sh, fr, c).Go? || MoveOf(sh, fr, c).e.Unlock?
    ensures MoveOf(sh, fr, c).e.Lock? ==> MoveOf(sh, fr, c).Go?
  {
  }

  lemma OwnerEffect(g: Gate, f: int, e: Effect)
    ensures ApplyGate(g, f, e).owner == if e.Lock? then Some(f) else if e.Unlock? then None else g.owner
  {
  }

  lemma OwnerStep(s: State, a: Action)
    requires Inv(s) && OwnerStays(s) && Enabled(s, a)
    ensures OwnerStays(Do(s, a))
  {
    var d := DeedOf(s, a);
    KeptBy(s, a);
    OwnerEffect(s.sh.gate, d.actor, d.e);
    if a.Step? {
      assert LocalOk(s.sh, a.f, s.frames[a.f]);
      LockMove(s.sh, s.frames[a.f], a.c);
    }
  }

  lemma OwnerAt(run: seq<State>, i: int)
    requires IsRun(run) && 0 < i < |run| && OwnerStays(run[i - 1])
    ensures OwnerStays(run[i])
  {
    InvRun(run, i - 1);
    var a := ActionAt(run, i);
    OwnerStep(run[i - 1], a);
  }

  lemma OwnerInitial()
    ensures OwnerStays(INITIAL)
  {
  }

  lemma {:induction false} OwnerRun(run: seq<State>, i: int)
    requires IsRun(run) && 0 <= i < |run|
    ensures OwnerStays(run[i])
  {
    if i == 0 {
      OwnerInitial();
    } else {
      OwnerRun(run, i - 1);
      OwnerAt(run, i);
    }
  }

  /** The lock word is set if and only if some call is in the critical section: no call takes the lock without
      entering it, and none leaves it, or returns, without releasing the lock. */
  lemma LockHeldExactly(run: seq<State>, i: int)
    requires IsRun(run) && 0 <= i < |run|
    ensures run[i].sh.gate.lockWord != 0 <==> exists f :: f in run[i].frames && HoldsLock(run[i].frames[f].at)
  {
    InvRun(run, i);
    OwnerRun(run, i);
    var s := run[i];
    if s.sh.gate.owner.Some? {
      var f := s.sh.gate.owner.value;
      assert LocalOk(s.sh, f, s.frames[f]);
    }
    if f :| f in s.frames && HoldsLock(s.frames[f].at) { assert LocalOk(s.sh, f, s.frames[f]); }
  }

  // ----- thread support -----------------------------------------------------------------------

  /** In monitor_begin_thread past the wait, or in what follows it. */
  predicate PastWait(at: At) {
    (InBegin(at) && !at.BeginWait? && !at.BeginSleep?) || InClean(at) || InUnlink(at)
  }

  ghost predicate SupportInv(s: State) {
    && (forall f :: f in s.frames && PastWait(s.frames[f].at) ==> s.sh.race.supportDone)
    && (s.sh.reg.threadList != [] ==> s.sh.race.supportDone)
  }

  lemma SupportBegin(sh: Shared, fr: Frame, c: bool)
    requires InBegin(fr.at)
    ensures var m := BeginMove(sh, fr, c);
      && (m.Go? && PastWait(m.to.at) ==> PastWait(fr.at) || sh.race.supportDone)
      && (m.e.Insert? ==> PastWait(fr.at))
  {
  }

  lemma InsertsAt(sh: Shared, fr: Frame, c: bool)
    ensures MoveOf(sh, fr, c).e.Insert? ==> InBegin(fr.at)
  {
  }

  lemma SupportMove(sh: Shared, fr: Frame, c: bool)
    ensures var m := MoveOf(sh, fr, c);
      && (m.Go? && PastWait(m.to.at) ==> PastWait(fr.at) || sh.race.supportDone)
      && (m.e.Insert? ==> PastWait(fr.at))
  {
    SameCalls(sh, fr, c);
    InsertsAt(sh, fr, c);
    if InBegin(fr.at) { SupportBegin(sh, fr, c); }
  }

  lemma SupportEffect(sh: Shared, f: int, e: Effect)
    ensures sh.race.supportDone ==> ApplyRace(sh.race, f, e).supportDone
    ensures sh.reg.threadList == [] && !e.Insert? ==>
      ApplyReg(sh.reg, f, e, sh.gate.nextFrame).threadList == []
  {
  }

  lemma SupportStep(s: State, a: Action)
    requires Enabled(s, a) && SupportInv(s)
    ensures SupportInv(Do(s, a))
  {
    var d := DeedOf(s, a);
    DeedDone(s, a);
    SupportEffect(s.sh, d.actor, d.e);
    match a
    case Step(f, c) => SupportMove(s.sh, s.frames[f], c);
    case Push(f, call) => CalleeIsNew(s.sh, s.frames[f].thread, f, call);
    case Block(t, on) =>
    case Support =>
  }

  lemma SupportAt(run: seq<State>, i: int)
    requires IsRun(run) && 0 < i < |run| && SupportInv(run[i - 1])
    ensures SupportInv(run[i])
  {
    var a := ActionAt(run, i);
    SupportStep(run[i - 1], a);
  }

  lemma SupportInitial()
    ensures SupportInv(INITIAL)
  {
  }

  lemma {:induction false} SupportRun(run: seq<State>, i: int)
    requires IsRun(run) && 0 <= i < |run|
    ensures SupportInv(run[i])
  {
    if i == 0 {
      SupportInitial();
    } else {
      SupportRun(run, i - 1);
      SupportAt(run, i);
    }
  }

  /** No thread goes past the wait in monitor_begin_thread, and none is linked, before monitor_init_thread_support has
      returned. */
  lemma SupportFirst(run: seq<State>, i: int)
    requires IsRun(run) && 0 <= i < |run| && !run[i].sh.race.supportDone
    ensures run[i].sh.reg.threadList == []
    ensures forall f :: f in run[i].frames ==>
      var at := run[i].frames[f].at; (InBegin(at) ==> at.BeginWait? || at.BeginSleep?) && !InClean(at) && !InUnlink(at)
  {
    SupportRun(run, i);
  }

  // ----- giving the node back -----------------------------------------------------------------

  /** The node is as monitor_unlink_thread_node clears it, but for the marks that any thread may set. */
  predicate Cleared(v: Node) { v.tid == 0 && v.self == None && !v.applStarted && !v.finiStarted && !v.finiDone }

  /** What monitor_unlink_thread_node has done at its end. */
  predicate EndLocal(g: Gate, reg: Registry, at: At, n: int) {
    && (at.UnMark? ==> g.inExit)
    && (at.UnPut? ==> Cleared(NodeAt(reg, n)))
    && (at.UnUnlock? ==>
          if g.inExit then n in reg.threadList && NodeAt(reg, n).finiStarted && NodeAt(reg, n).finiDone
          else reg.freeList != [] && reg.freeList[0] == n && Cleared(NodeAt(reg, n)))
  }

  predicate Ending(at: At) { at.UnMark? || at.UnPut? || at.UnUnlock? }

  /** The lists, and monitor_in_exit_cleanup, are written in the critical section only. */
  lemma WritesLocked(sh: Shared, fr: Frame, c: bool)
    ensures var e := MoveOf(sh, fr, c).e;
      e.Take? || e.Put? || e.Insert? || e.Remove? || e.Wipe? || e.SetInExit? ==> HoldsLock(fr.at)
  {
  }

  lemma SelfSetAt(sh: Shared, fr: Frame, c: bool)
    ensures MoveOf(sh, fr, c).e.SetSelf? ==> fr.at.BeginSelf? && MoveOf(sh, fr, c).e.n == fr.n
  {
  }

  /** An effect from outside the critical section. */
  predicate Outside(e: Effect) {
    !e.Take? && !e.Put? && !e.Insert? && !e.Remove? && !e.Wipe? && !e.SetInExit?
  }

  lemma EndOther(sh: Shared, f: int, e: Effect, h: int, hr: Frame)
    requires ListsOk(sh.reg) && RegGuard(sh.reg, f, e) && HoldFrame(sh.reg, h, hr) && h != f && Outside(e)
    requires e.SetSelf? ==> e.n !in sh.reg.freeList
    requires EndLocal(sh.gate, sh.reg, hr.at, hr.n)
    ensures EndLocal(ApplyGate(sh.gate, f, e), ApplyReg(sh.reg, f, e, sh.gate.nextFrame), hr.at, hr.n)
  {
  }

  lemma EndUnlink(sh: Shared, f: int, fr: Frame)
    requires InUnlink(fr.at) && HoldFrame(sh.reg, f, fr) && LockLocal(sh.gate, f, fr.at, fr.n)
    requires EndLocal(sh.gate, sh.reg, fr.at, fr.n)
    ensures var m := UnlinkMove(sh, fr);
      m.Go? ==> EndLocal(ApplyGate(sh.gate, f, m.e), ApplyReg(sh.reg, f, m.e, sh.gate.nextFrame), m.to.at, m.to.n)
  {
  }

  /** Only monitor_unlink_thread_node gets to these points. */
  lemma EndsInUnlink(sh: Shared, fr: Frame, c: bool)
    ensures MoveOf(sh, fr, c).Go? && Ending(MoveOf(sh, fr, c).to.at) ==>
      InUnlink(fr.at) && MoveOf(sh, fr, c) == UnlinkMove(sh, fr)
  {
  }

  lemma EndMoved(s: State, a: Action)
    requires Inv(s) && Enabled(s, a) && Everywhere(EndAt, s)
    ensures var d := DeedOf(s, a); d.to.Some? ==> EndAt(Apply(s.sh, d.actor, d.e), d.to.value.0, d.to.value.1)
  {
    match a
    case Step(f, c) =>
      assert LocalOk(s.sh, f, s.frames[f]) && EndAt(s.sh, f, s.frames[f]);
      EndsInUnlink(s.sh, s.frames[f], c);
      if InUnlink(s.frames[f].at) { EndUnlink(s.sh, f, s.frames[f]); }
    case Push(f, call) => CalleeIsNew(s.sh, s.frames[f].thread, f, call);
    case Block(t, on) =>
    case Support =>
  }

  ghost predicate EndAt(sh: Shared, f: int, fr: Frame) { EndLocal(sh.gate, sh.reg, fr.at, fr.n) }

  /** A frame at such a point is in the critical section, so no other frame writes the lists. */
  lemma OthersOutside(s: State, a: Action, h: int)
    requires Inv(s) && Enabled(s, a) && h in s.frames && DeedOf(s, a).from != Some(h) && Ending(s.frames[h].at)
    ensures var e := DeedOf(s, a).e; Outside(e) && (e.SetSelf? ==> e.n !in s.sh.reg.freeList)
  {
    assert LocalOk(s.sh, h, s.frames[h]);
    if a.Step? {
      assert LocalOk(s.sh, a.f, s.frames[a.f]);
      WritesLocked(s.sh, s.frames[a.f], a.c);
      SelfSetAt(s.sh, s.frames[a.f], a.c);
    }
  }

  lemma EndKept(s: State, a: Action, h: int)
    requires Inv(s) && Enabled(s, a) && h in s.frames && DeedOf(s, a).from != Some(h) && EndAt(s.sh, h, s.frames[h])
    ensures var d := DeedOf(s, a); EndAt(Apply(s.sh, d.actor, d.e), h, s.frames[h])
  {
    var d := DeedOf(s, a);
    if Ending(s.frames[h].at) {
      OthersOutside(s, a, h);
      MovedKept(s, a);
      assert LocalOk(s.sh, h, s.frames[h]);
      assert h != d.actor;
      EndOther(s.sh, d.actor, d.e, h, s.frames[h]);
    }
  }

  lemma EndStep(s: State, a: Action)
    requires Inv(s) && Enabled(s, a) && Everywhere(EndAt, s)
    ensures Everywhere(EndAt, Do(s, a))
  {
    EndMoved(s, a);
    forall h | h in s.frames && DeedOf(s, a).from != Some(h)
      ensures EndAt(Apply(s.sh, DeedOf(s, a).actor, DeedOf(s, a).e), h, s.frames[h])
    {
      EndKept(s, a, h);
    }
    DeedDone(s, a);
    Lift(EndAt, s, DeedOf(s, a), Do(s, a));
  }

  lemma EndNext(run: seq<State>, i: int)
    requires IsRun(run) && 0 < i < |run| && Everywhere(EndAt, run[i - 1])
    ensures Everywhere(EndAt, run[i])
  {
    InvRun(run, i - 1);
    var a := ActionAt(run, i);
    EndStep(run[i - 1], a);
  }

  lemma EndInitial()
    ensures Everywhere(EndAt, INITIAL)
  {
  }

  lemma {:induction false} EndRun(run: seq<State>, i: int)
    requires IsRun(run) && 0 <= i < |run|
    ensures Everywhere(EndAt, run[i])
  {
    if i == 0 {
      EndInitial();
    } else {
      EndRun(run, i - 1);
      EndNext(run, i);
    }
  }

  /** From the end of its callback to the end of monitor_unlink_thread_node. */
  predicate GivingBack(at: At) {
    match at
    case CleanIn | UnLock | UnTest | UnMark | UnRemove | UnClear | UnPut | UnUnlock => true
    case _ => false
  }

  lemma GivingMove(sh: Shared, fr: Frame, c: bool)
    requires GivingBack(fr.at)
    ensures var m := MoveOf(sh, fr, c); m.Go? && m.to.n == fr.n && (GivingBack(m.to.at) || fr.at.UnUnlock?)
  {
  }

  /** The frame is still giving its node n back. */
  ghost predicate StillGiving(s: State, f: int, n: int) {
    f in s.frames && s.frames[f].n == n && GivingBack(s.frames[f].at)
  }

  ghost predicate GivingPair(s: State, s': State, f: int, n: int) {
    StillGiving(s, f, n) ==> StillGiving(s', f, n) || s.frames[f].at.UnUnlock?
  }

  lemma GivingAt(run: seq<State>, k: int, f: int, n: int)
    requires IsRun(run) && 0 < k < |run|
    ensures GivingPair(run[k - 1], run[k], f, n)
  {
    InvRun(run, k - 1);
    var a := ActionAt(run, k);
    KeptBy(run[k - 1], a);
    if a.Step? && GivingBack(run[k - 1].frames[a.f].at) { GivingMove(run[k - 1].sh, run[k - 1].frames[a.f], a.c); }
  }

  lemma {:induction false} GivingChain(run: seq<State>, i: int, j: int, f: int, n: int) returns (k: int)
    requires 0 <= i < j < |run| && StillGiving(run[i], f, n) && !StillGiving(run[j], f, n)
    requires forall k :: 0 < k < |run| ==> GivingPair(run[k - 1], run[k], f, n)
    ensures i <= k < j && StillGiving(run[k], f, n) && run[k].frames[f].at.UnUnlock?
    decreases j
  {
    assert GivingPair(run[j - 1], run[j], f, n);
    if StillGiving(run[j - 1], f, n) { k := j - 1; } else { k := GivingChain(run, i, j - 1, f, n); }
  }

  /** A thread whose callback the cleanup routine has called gives its node back before it ends: at the end of
      monitor_unlink_thread_node its node is cleared and at the head of the free list or, in exit cleanup, still on the
      thread list and marked as finished. */
  lemma GivesBack(run: seq<State>, i: int, j: int, f: int) returns (k: int)
    requires IsRun(run) && 0 <= i < j < |run| && f in run[i].frames && run[i].frames[f].at.CleanIn?
    requires f in run[j].frames && run[j].frames[f].at.Tail?
    ensures i < k < j && f in run[k].frames && run[k].frames[f].at.UnUnlock? && run[k].frames[f].n == run[i].frames[f].n
    ensures var n, reg := run[i].frames[f].n, run[k].sh.reg;
      if run[k].sh.gate.inExit then n in reg.threadList && NodeAt(reg, n).finiStarted && NodeAt(reg, n).finiDone
      else reg.freeList != [] && reg.freeList[0] == n && n !in reg.threadList && Cleared(NodeAt(reg, n))
  {
    var n := run[i].frames[f].n;
    forall k | 0 < k < |run| ensures GivingPair(run[k - 1], run[k], f, n) { GivingAt(run, k, f, n); }
    k := GivingChain(run, i, j, f, n);
    InvRun(run, k);
    EndRun(run, k);
    assert EndAt(run[k].sh, f, run[k].frames[f]);
  }

  // ----- the start routine --------------------------------------------------------------------

  /** In charge of a thread that has not come to its start routine. */
  predicate BeforeStart(at: At) {
    match at
    case MakeUnlock | MakePre | MakeDone | BeginWait | BeginSleep | BeginSelf => true
    case LinkLock | LinkTest | LinkRefuse | Refused | LinkInsert | LinkUnlock | InInit | ApplSet => true
    case _ => false
  }

  predicate StartLocal(reg: Registry, at: At, n: int) {
    (BeforeStart(at) ==> !NodeAt(reg, n).applStarted) && (at.Running? ==> NodeAt(reg, n).applStarted)
  }

  ghost predicate StartAt(sh: Shared, f: int, fr: Frame) { StartLocal(sh.reg, fr.at, fr.n) }

  predicate StartKept(sh: Shared, f: int, m: Move) {
    && (m.e.Spawn? ==> !NodeAt(sh.reg, m.e.n).applStarted)
    && (m.Go? ==> StartLocal(ApplyReg(sh.reg, f, m.e, sh.gate.nextFrame), m.to.at, m.to.n))
  }

  lemma StartMake(sh: Shared, f: int, fr: Frame, c: bool)
    requires HoldFrame(sh.reg, f, fr) && StartLocal(sh.reg, fr.at, fr.n) && InMake(fr.at)
    ensures StartKept(sh, f, MakeMove(sh, fr, c))
  {
  }

  lemma StartBegin(sh: Shared, f: int, fr: Frame, c: bool)
    requires HoldFrame(sh.reg, f, fr) && StartLocal(sh.reg, fr.at, fr.n) && InBegin(fr.at)
    ensures StartKept(sh, f, BeginMove(sh, fr, c))
  {
  }

  predicate NoStart(m: Move) { !m.e.Spawn? && (m.Go? ==> !BeforeStart(m.to.at) && !m.to.at.Running?) }

  lemma StartClean(sh: Shared, fr: Frame)
    requires InClean(fr.at) || InUnlink(fr.at)
    ensures NoStart(if InClean(fr.at) then CleanMove(sh, fr) else UnlinkMove(sh, fr))
  {
  }

  lemma StartRest(sh: Shared, fr: Frame, c: bool)
    requires !InMake(fr.at) && !InBegin(fr.at)
    ensures NoStart(MoveOf(sh, fr, c))
  {
    if InClean(fr.at) || InUnlink(fr.at) { StartClean(sh, fr); } else {
      RestMoves(sh, fr, c);
      SameCalls(sh, fr, c);
    }
  }

  lemma StartOther(reg: Registry, f: int, e: Effect, id: int, h: int, hr: Frame)
    requires ListsOk(reg) && RegGuard(reg, f, e) && HoldFrame(reg, h, hr) && StartLocal(reg, hr.at, hr.n) && h != f
    ensures StartLocal(ApplyReg(reg, f, e, id), hr.at, hr.n)
  {
  }

  lemma StartMoved(s: State, a: Action)
    requires Inv(s) && Enabled(s, a) && Everywhere(StartAt, s)
    ensures var d := DeedOf(s, a); d.to.Some? ==> StartAt(Apply(s.sh, d.actor, d.e), d.to.value.0, d.to.value.1)
  {
    match a
    case Step(f, c) =>
      assert LocalOk(s.sh, f, s.frames[f]) && StartAt(s.sh, f, s.frames[f]);
      if InMake(s.frames[f].at) { StartMake(s.sh, f, s.frames[f], c); }
      else if InBegin(s.frames[f].at) { StartBegin(s.sh, f, s.frames[f], c); }
      else { StartRest(s.sh, s.frames[f], c); }
    case Push(f, call) => CalleeIsNew(s.sh, s.frames[f].thread, f, call);
    case Block(t, on) =>
    case Support =>
  }

  lemma StartStays(s: State, a: Action, h: int)
    requires Inv(s) && Enabled(s, a) && h in s.frames && DeedOf(s, a).from != Some(h) && StartAt(s.sh, h, s.frames[h])
    ensures var d := DeedOf(s, a); StartAt(Apply(s.sh, d.actor, d.e), h, s.frames[h])
  {
    var d := DeedOf(s, a);
    MovedKept(s, a);
    assert LocalOk(s.sh, h, s.frames[h]) && h != d.actor;
    StartOther(s.sh.reg, d.actor, d.e, s.sh.gate.nextFrame, h, s.frames[h]);
  }

  lemma StartStep(s: State, a: Action)
    requires Inv(s) && Enabled(s, a) && Everywhere(StartAt, s)
    ensures Everywhere(StartAt, Do(s, a))
  {
    StartMoved(s, a);
    forall h | h in s.frames && DeedOf(s, a).from != Some(h)
      ensures StartAt(Apply(s.sh, DeedOf(s, a).actor, DeedOf(s, a).e), h, s.frames[h])
    {
      StartStays(s, a, h);
    }
    DeedDone(s, a);
    Lift(StartAt, s, DeedOf(s, a), Do(s, a));
  }

  lemma StartNext(run: seq<State>, i: int)
    requires IsRun(run) && 0 < i < |run| && Everywhere(StartAt, run[i - 1])
    ensures Everywhere(StartAt, run[i])
  {
    InvRun(run, i - 1);
    var a := ActionAt(run, i);
    StartStep(run[i - 1], a);
  }

  lemma StartInitial()
    ensures Everywhere(StartAt, INITIAL)
  {
  }

  lemma {:induction false} StartRun(run: seq<State>, i: int)
    requires IsRun(run) && 0 <= i < |run|
    ensures Everywhere(StartAt, run[i])
  {
    if i == 0 {
      StartInitial();
    } else {
      StartRun(run, i - 1);
      StartNext(run, i);
    }
  }

  /** In every run tn_appl_started is unset in the node of a thread from its making until its start routine is called,
      and set while that runs. */
  lemma ApplStartedTells(run: seq<State>, i: int, f: int)
    requires IsRun(run) && 0 <= i < |run| && f in run[i].frames
    ensures var fr, reg := run[i].frames[f], run[i].sh.reg;
      (fr.at.Running? ==> NodeAt(reg, fr.n).applStarted) && (BeforeStart(fr.at) ==> !NodeAt(reg, fr.n).applStarted)
  {
    StartRun(run, i);
    assert StartAt(run[i].sh, f, run[i].frames[f]);
  }

  lemma RunningMove(sh: Shared, fr: Frame, c: bool)
    requires fr.at.Running?
    ensures MoveOf(sh, fr, c).Go? && MoveOf(sh, fr, c).to.at.CleanTest?
  {
  }

  /** The frame is in the start routine of its thread. */
  ghost predicate IsRunning(s: State, f: int) { f in s.frames && s.frames[f].at.Running? }

  ghost predicate RunningPair(s: State, s': State, f: int) {
    IsRunning(s, f) ==> IsRunning(s', f) || (f in s'.frames && s'.frames[f].at.CleanTest?)
  }

  lemma RunningAt(run: seq<State>, k: int, f: int)
    requires IsRun(run) && 0 < k < |run|
    ensures RunningPair(run[k - 1], run[k], f)
  {
    InvRun(run, k - 1);
    var a := ActionAt(run, k);
    KeptBy(run[k - 1], a);
    if a.Step? && run[k - 1].frames[a.f].at.Running? { RunningMove(run[k - 1].sh, run[k - 1].frames[a.f], a.c); }
  }

  lemma {:induction false} RunningChain(run: seq<State>, i: int, j: int, f: int) returns (k: int)
    requires 0 <= i < j < |run| && IsRunning(run[i], f) && !IsRunning(run[j], f)
    requires forall k :: 0 < k < |run| ==> RunningPair(run[k - 1], run[k], f)
    ensures i < k <= j && f in run[k].frames && run[k].frames[f].at.CleanTest?
    decreases j
  {
    assert RunningPair(run[j - 1], run[j], f);
    if IsRunning(run[j - 1], f) { k := j; } else { k := RunningChain(run, i, j - 1, f); }
  }

  /** However a start routine ends, its thread comes to the cleanup routine. */
  lemma EndsInCleanup(run: seq<State>, i: int, j: int, f: int) returns (k: int)
    requires IsRun(run) && 0 <= i < j < |run| && f in run[i].frames && run[i].frames[f].at.Running?
    requires f !in run[j].frames || !run[j].frames[f].at.Running?
    ensures i < k <= j && f in run[k].frames && run[k].frames[f].at.CleanTest?
  {
    forall k | 0 < k < |run| ensures RunningPair(run[k - 1], run[k], f) { RunningAt(run, k, f); }
    k := RunningChain(run, i, j, f);
  }
}
