/** Whose node a thread node is: tn_self, the thread-specific data and the call in charge agree from the start of a
    thread until it gives its node back. */
module ExitOwners {
  import opened Options
  import opened ExitMachine
  import opened ExitRegistry
  import opened ExitInvariant
  import opened ExitStacks

  /** Node n is thread t's own: t is the main thread and n its node, or tn_self is t. */
  predicate Own(reg: Registry, t: int, n: int) {
    if n == MAIN_NODE then t == 0 else NodeAt(reg, n).self == Some(t)
  }

  /** A frame has charge of a node whose tn_self is not set. */
  predicate Unset(at: At) {
    match at
    case MakeClear | MakeUnlock | MakePre | MakeDone | BeginWait | BeginSleep | BeginSelf | UnPut => true
    case _ => false
  }

  predicate SelfLocal(reg: Registry, used: bool, fr: Frame) {
    && (Unset(fr.at) ==> NodeAt(reg, fr.n).self == None)
    && (HasSelf(fr.at) ==> fr.thread in reg.tsd && reg.tsd[fr.thread] == fr.n)
    && (fr.thread != 0 ==> used)
  }

  predicate SelfShared(reg: Registry) {
    && NodeAt(reg, MAIN_NODE).self == None
    && 0 in reg.tsd && reg.tsd[0] == MAIN_NODE && (forall t :: t in reg.tsd && reg.tsd[t] == MAIN_NODE ==> t == 0)
    && (forall n :: n in reg.freeList ==> NodeAt(reg, n).self == None)
  }

  /** The frame in charge of a node, if it is still there, is of the thread that tn_self names. */
  ghost predicate HolderOk(s: State, n: int) {
    NodeAt(s.sh.reg, n).self.Some? ==>
      && n in s.sh.reg.holder && s.sh.reg.holder[n] < s.sh.gate.nextFrame
      && (s.sh.reg.holder[n] in s.frames ==> Some(s.frames[s.sh.reg.holder[n]].thread) == NodeAt(s.sh.reg, n).self)
  }

  ghost predicate SelfInv(s: State) {
    && StackInv(s) && SelfShared(s.sh.reg)
    && (forall f :: f in s.frames ==> SelfLocal(s.sh.reg, s.sh.race.used, s.frames[f]))
    && (forall n :: HolderOk(s, n))
  }

  // ----- one move -----------------------------------------------------------------------------

  /** What a frame of thread t must know before it touches tn_self. */
  predicate SelfGuard(reg: Registry, f: int, t: int, e: Effect) {
    match e
    case SetSelf(n, u) => u == t != 0 && Owns(reg, f, n) && n !in reg.freeList
    case Spawn(n) => NodeAt(reg, n).self == None
    case Put(n) => NodeAt(reg, n).self == None
    case _ => true
  }

  predicate SelfKept(sh: Shared, f: int, fr: Frame, m: Move) {
    && SelfGuard(sh.reg, f, fr.thread, m.e)
    && (m.Go? ==> SelfLocal(ApplyReg(sh.reg, f, m.e, sh.gate.nextFrame), sh.race.used, m.to))
  }

  predicate SelfPre(sh: Shared, f: int, fr: Frame) {
    HoldFrame(sh.reg, f, fr) && SelfLocal(sh.reg, sh.race.used, fr)
  }

  lemma SelfMake(sh: Shared, f: int, fr: Frame, c: bool)
    requires SelfPre(sh, f, fr) && SelfShared(sh.reg) && InMake(fr.at)
    ensures SelfKept(sh, f, fr, MakeMove(sh, fr, c))
  {
    var q := sh.reg.freeList;
    assert q != [] ==> q[0] in q;
  }

  lemma SelfBegin(sh: Shared, f: int, fr: Frame, c: bool)
    requires SelfPre(sh, f, fr) && InBegin(fr.at) && fr.thread != 0
    ensures SelfKept(sh, f, fr, BeginMove(sh, fr, c))
  {
  }

  lemma SelfClean(sh: Shared, f: int, fr: Frame)
    requires SelfPre(sh, f, fr) && InClean(fr.at)
    ensures SelfKept(sh, f, fr, CleanMove(sh, fr))
  {
  }

  lemma SelfGiveBack(sh: Shared, f: int, fr: Frame)
    requires SelfPre(sh, f, fr) && (fr.at.UnRemove? || fr.at.UnClear? || fr.at.UnPut?)
    ensures SelfKept(sh, f, fr, UnlinkMove(sh, fr))
  {
  }

  lemma SelfUnlink(sh: Shared, f: int, fr: Frame)
    requires SelfPre(sh, f, fr) && InUnlink(fr.at)
    ensures SelfKept(sh, f, fr, UnlinkMove(sh, fr))
  {
    if fr.at.UnRemove? || fr.at.UnClear? || fr.at.UnPut? { SelfGiveBack(sh, f, fr); }
  }

  lemma SelfRest(sh: Shared, f: int, fr: Frame, c: bool)
    requires SelfPre(sh, f, fr) && !InMake(fr.at) && !Basal(fr.at)
    ensures SelfKept(sh, f, fr, MoveOf(sh, fr, c))
  {
    SameCalls(sh, fr, c);
    RestMoves(sh, fr, c);
  }

  /** A move that does not touch tn_self. */
  predicate Plain(m: Move) {
    !m.e.SetSelf? && !m.e.Spawn? && !m.e.Put? && (m.Go? ==> !Unset(m.to.at) && !HasSelf(m.to.at))
  }

  lemma PlainSignal(sh: Shared, fr: Frame)
    requires InSignal(fr.at)
    ensures Plain(SignalMove(sh, fr))
  {
  }

  lemma PlainWinner(sh: Shared, fr: Frame, c: bool)
    requires InShoot(fr.at) || InScan(fr.at)
    ensures Plain(if InShoot(fr.at) then ShootMove(sh, fr) else ScanMove(sh, fr, c))
  {
  }

  lemma PlainEnd(sh: Shared, fr: Frame)
    requires InOwn(fr.at) || InFini(fr.at)
    ensures Plain(if InOwn(fr.at) then OwnMove(sh, fr) else FiniMove(fr))
  {
  }

  lemma PlainExit(sh: Shared, fr: Frame)
    ensures Plain(ExitMove(sh, fr))
  {
  }

  lemma RestMoves(sh: Shared, fr: Frame, c: bool)
    requires !InMake(fr.at) && !Basal(fr.at)
    ensures Plain(MoveOf(sh, fr, c))
  {
    if InSignal(fr.at) { PlainSignal(sh, fr); }
    else if InShoot(fr.at) || InScan(fr.at) { PlainWinner(sh, fr, c); }
    else if InOwn(fr.at) || InFini(fr.at) { PlainEnd(sh, fr); }
    else { PlainExit(sh, fr); }
  }

  lemma SelfMove(sh: Shared, f: int, fr: Frame, c: bool)
    requires SelfPre(sh, f, fr) && SelfShared(sh.reg) && (Basal(fr.at) ==> fr.thread != 0)
    ensures SelfKept(sh, f, fr, MoveOf(sh, fr, c))
  {
    if InMake(fr.at) { SelfMake(sh, f, fr, c); }
    else if InBegin(fr.at) { SelfBegin(sh, f, fr, c); }
    else if InClean(fr.at) { SelfClean(sh, f, fr); }
    else if InUnlink(fr.at) { SelfUnlink(sh, f, fr); }
    else { SelfRest(sh, f, fr, c); }
  }

  // ----- one step -----------------------------------------------------------------------------

  lemma SharedSelf(reg: Registry, f: int, t: int, e: Effect, id: int)
    requires ListsOk(reg) && SelfShared(reg) && RegGuard(reg, f, e) && SelfGuard(reg, f, t, e)
    ensures SelfShared(ApplyReg(reg, f, e, id))
  {
    if e.Take? {
      var q := reg.freeList;
      assert q != [] ==> forall x :: x in q[1..] ==> x in q;
    }
  }

  /** The frames that have not moved. */
  lemma LocalSelf(reg: Registry, f: int, t: int, e: Effect, id: int, used: bool, h: int, hr: Frame)
    requires ListsOk(reg) && RegGuard(reg, f, e) && SelfGuard(reg, f, t, e) && h != f
    requires HoldFrame(reg, h, hr) && SelfLocal(reg, used, hr)
    requires e.SetSelf? ==> !HasSelf(hr.at) || hr.thread != t
    ensures SelfLocal(ApplyReg(reg, f, e, id), used, hr)
  {
  }

  /** What a step does to tn_self and to the holder of one node. */
  lemma HolderEffect(reg: Registry, f: int, t: int, e: Effect, id: int, n: int)
    requires ListsOk(reg) && SelfShared(reg) && RegGuard(reg, f, e) && SelfGuard(reg, f, t, e)
    requires NodeAt(ApplyReg(reg, f, e, id), n).self.Some?
    ensures var reg' := ApplyReg(reg, f, e, id);
      if e.SetSelf? && e.n == n then n in reg'.holder && reg'.holder[n] == f && NodeAt(reg', n).self == Some(t)
      else
        && NodeAt(reg', n).self == NodeAt(reg, n).self
        && (n in reg.holder ==> n in reg'.holder && reg'.holder[n] == reg.holder[n])
  {
    if e.Take? {
      var q := reg.freeList;
      assert q != [] ==> q[0] in q;
    }
  }

  lemma HolderStep(s: State, f: int, c: bool, n: int)
    requires Inv(s) && SelfInv(s) && Enabled(s, Step(f, c))
    ensures HolderOk(Do(s, Step(f, c)), n)
  {
    var s' := Do(s, Step(f, c));
    var m := MoveOf(s.sh, s.frames[f], c);
    var t, id := s.frames[f].thread, s.sh.gate.nextFrame;
    MovedKept(s, Step(f, c));
    SelfGuarded(s, f, c);
    assert HolderOk(s, n) && LocalOk(s.sh, f, s.frames[f]);
    if NodeAt(s'.sh.reg, n).self.Some? {
      HolderEffect(s.sh.reg, f, t, m.e, id, n);
      var h := s'.sh.reg.holder[n];
      if h in s'.frames { SameThreads(s, Step(f, c), h); }
    }
  }

  lemma SelfGuarded(s: State, f: int, c: bool)
    requires Inv(s) && SelfInv(s) && Enabled(s, Step(f, c))
    ensures SelfKept(s.sh, f, s.frames[f], MoveOf(s.sh, s.frames[f], c))
  {
    assert LocalOk(s.sh, f, s.frames[f]) && SelfLocal(s.sh.reg, s.sh.race.used, s.frames[f]);
    assert FrameOk(s.tops, s.nextThread, f, s.frames[f]);
    SelfMove(s.sh, f, s.frames[f], c);
  }

  /** The frame put in place by a step. */
  lemma SelfPlaced(s: State, f: int, c: bool)
    requires Inv(s) && SelfInv(s) && Enabled(s, Step(f, c))
    ensures var d := DeedOf(s, Step(f, c));
      d.to.Some? ==> SelfLocal(Apply(s.sh, f, d.e).reg, s.sh.race.used, d.to.value.1)
  {
    SelfGuarded(s, f, c);
    assert LocalOk(s.sh, f, s.frames[f]);
    var m := MoveOf(s.sh, s.frames[f], c);
    if m.Ret? && m.e.Spawn? { SpawnMaking(s.sh, s.frames[f], c); }
  }

  lemma SpawnMaking(sh: Shared, fr: Frame, c: bool)
    requires MoveOf(sh, fr, c).e.Spawn?
    ensures fr.at.MakeDone?
  {
  }

  lemma NoEntry(sh: Shared, fr: Frame, c: bool)
    ensures !MoveOf(sh, fr, c).e.Enter?
  {
  }

  lemma UsedEffect(r: Race, f: int, e: Effect)
    ensures r.used ==> ApplyRace(r, f, e).used
    ensures !e.Enter? ==> ApplyRace(r, f, e).used == r.used
  {
  }

  lemma UsedStays(s: State, a: Action)
    requires Enabled(s, a)
    ensures s.sh.race.used ==> Do(s, a).sh.race.used
    ensures a.Step? ==> Do(s, a).sh.race.used == s.sh.race.used
  {
    if a.Step? { NoEntry(s.sh, s.frames[a.f], a.c); }
    UsedEffect(s.sh.race, DeedOf(s, a).actor, DeedOf(s, a).e);
  }

  lemma SelfStep(s: State, f: int, c: bool)
    requires Inv(s) && SelfInv(s) && Enabled(s, Step(f, c))
    ensures SelfInv(Do(s, Step(f, c)))
  {
    var a := Step(f, c);
    var d, s' := DeedOf(s, a), Do(s, a);
    StackNext(s, a);
    MovedKept(s, a);
    SelfGuarded(s, f, c);
    UsedStays(s, a);
    SharedSelf(s.sh.reg, f, s.frames[f].thread, d.e, s.sh.gate.nextFrame);
    forall n ensures HolderOk(s', n) { HolderStep(s, f, c, n); }
    SelfPlaced(s, f, c);
    forall h | h in s.frames && h != f ensures SelfLocal(s'.sh.reg, s'.sh.race.used, s.frames[h]) {
      SelfOther(s, f, c, h);
    }
    DeedDone(s, a);
    Lift((sh: Shared, f: int, fr: Frame) => SelfLocal(sh.reg, sh.race.used, fr), s, d, s');
  }

  lemma SelfOther(s: State, f: int, c: bool, h: int)
    requires Inv(s) && SelfInv(s) && Enabled(s, Step(f, c)) && h in s.frames && h != f
    ensures SelfLocal(Apply(s.sh, f, DeedOf(s, Step(f, c)).e).reg, s.sh.race.used, s.frames[h])
  {
    var e := DeedOf(s, Step(f, c)).e;
    MovedKept(s, Step(f, c));
    SelfGuarded(s, f, c);
    assert LocalOk(s.sh, h, s.frames[h]) && SelfLocal(s.sh.reg, s.sh.race.used, s.frames[h]);
    if e.SetSelf? && s.frames[h].thread == s.frames[f].thread {
      SelfAtStart(s.sh, s.frames[f], c);
      assert FrameOk(s.tops, s.nextThread, f, s.frames[f]);
      Alone(s, f, h);
    } else {
      LocalSelf(s.sh.reg, f, s.frames[f].thread, e, s.sh.gate.nextFrame, s.sh.race.used, h, s.frames[h]);
    }
  }

  lemma SelfAtStart(sh: Shared, fr: Frame, c: bool)
    requires MoveOf(sh, fr, c).e.SetSelf?
    ensures Basal(fr.at)
  {
  }

  lemma HolderPushed(s: State, f: int, call: Call, n: int)
    requires Inv(s) && HolderOk(s, n) && Enabled(s, Push(f, call))
    ensures HolderOk(Do(s, Push(f, call)), n)
  {
  }

  lemma SelfPushed(s: State, f: int, call: Call)
    requires Inv(s) && SelfInv(s) && Enabled(s, Push(f, call))
    ensures SelfInv(Do(s, Push(f, call)))
  {
    var a := Push(f, call);
    var s' := Do(s, a);
    StackNext(s, a);
    UsedStays(s, a);
    CalleeIsNew(s.sh, s.frames[f].thread, f, call);
    CalleeStack(s.sh, s.frames[f].thread, f, call);
    assert SelfLocal(s.sh.reg, s.sh.race.used, s.frames[f]);
    forall h | h in s'.frames ensures SelfLocal(s'.sh.reg, s'.sh.race.used, s'.frames[h]) {
      if h in s.frames { assert SelfLocal(s.sh.reg, s.sh.race.used, s.frames[h]); }
    }
    forall n ensures HolderOk(s', n) { HolderPushed(s, f, call, n); }
  }

  lemma SelfBlocked(s: State, t: int, on: bool)
    requires SelfInv(s) && Enabled(s, Block(t, on))
    ensures SelfInv(Do(s, Block(t, on)))
  {
    var s' := Do(s, Block(t, on));
    forall h | h in s'.frames ensures SelfLocal(s'.sh.reg, s'.sh.race.used, s'.frames[h]) {
      assert SelfLocal(s.sh.reg, s.sh.race.used, s.frames[h]);
    }
    forall n ensures HolderOk(s', n) { assert HolderOk(s, n); }
  }

  lemma SelfSupported(s: State)
    requires SelfInv(s)
    ensures SelfInv(Do(s, Support))
  {
    var s' := Do(s, Support);
    forall h | h in s'.frames ensures SelfLocal(s'.sh.reg, s'.sh.race.used, s'.frames[h]) {
      assert SelfLocal(s.sh.reg, s.sh.race.used, s.frames[h]);
    }
    forall n ensures HolderOk(s', n) { assert HolderOk(s, n); }
  }

  lemma SelfNext(s: State, s': State)
    requires Inv(s) && SelfInv(s) && Next(s, s')
    ensures SelfInv(s')
  {
    var a :| Enabled(s, a) && s' == Do(s, a);
    match a
    case Step(f, c) => SelfStep(s, f, c);
    case Push(f, call) => SelfPushed(s, f, call);
    case Block(t, on) => SelfBlocked(s, t, on);
    case Support => SelfSupported(s);
  }

  lemma SelfInitial()
    ensures SelfInv(INITIAL)
  {
  }

  lemma {:induction false} SelfRun(run: seq<State>, i: int)
    requires IsRun(run) && 0 <= i < |run|
    ensures Inv(run[i]) && SelfInv(run[i])
  {
    InvRun(run, i);
    if i == 0 {
      SelfInitial();
    } else {
      SelfRun(run, i - 1);
      assert Next(run[i - 1], run[(i - 1) + 1]);
      SelfNext(run[i - 1], run[i]);
    }
  }

  // ----- what follows -------------------------------------------------------------------------

  /** From the moment it has set tn_self until it takes its node off the list, a thread's own node is the one
      that pthread_getspecific gives it. */
  lemma OwnWhileLinked(run: seq<State>, i: int, f: int)
    requires IsRun(run) && 0 <= i < |run| && f in run[i].frames && HasSelf(run[i].frames[f].at)
    ensures var t := run[i].frames[f].thread;
      t in run[i].sh.reg.tsd && Own(run[i].sh.reg, t, run[i].sh.reg.tsd[t])
  {
    SelfRun(run, i);
    assert LocalOk(run[i].sh, f, run[i].frames[f]);
    assert SelfLocal(run[i].sh.reg, run[i].sh.race.used, run[i].frames[f]);
  }

  /** The main thread's node is its own for ever. */
  lemma MainOwns(run: seq<State>, i: int)
    requires IsRun(run) && 0 <= i < |run|
    ensures 0 in run[i].sh.reg.tsd && Own(run[i].sh.reg, 0, run[i].sh.reg.tsd[0])
    ensures forall f :: f in run[i].frames && run[i].frames[f].thread != 0 ==> run[i].sh.race.used
  {
    SelfRun(run, i);
    forall f | f in run[i].frames && run[i].frames[f].thread != 0 ensures run[i].sh.race.used {
      assert SelfLocal(run[i].sh.reg, run[i].sh.race.used, run[i].frames[f]);
    }
  }

  /** A step takes a node from its thread only if it is that thread's, at the bottom of its stack, clearing it. */
  lemma OwnKept(s: State, a: Action, g: int)
    requires Inv(s) && SelfInv(s) && Enabled(s, a) && g in s.frames && s.frames[g].tn.Some?
    requires Own(s.sh.reg, s.frames[g].thread, s.frames[g].tn.value)
    ensures Own(Do(s, a).sh.reg, s.frames[g].thread, s.frames[g].tn.value)
  {
    var t, n := s.frames[g].thread, s.frames[g].tn.value;
    MovedKept(s, a);
    if a.Step? && n != MAIN_NODE {
      NotWiped(s, a.f, a.c, g);
      SelfSame(s, a.f, a.c, n);
    }
  }

  lemma SelfSame(s: State, f: int, c: bool, n: int)
    requires Inv(s) && SelfInv(s) && Enabled(s, Step(f, c)) && NodeAt(s.sh.reg, n).self.Some?
    requires var e := DeedOf(s, Step(f, c)).e; !(e.Wipe? && e.n == n)
    ensures NodeAt(Do(s, Step(f, c)).sh.reg, n).self == NodeAt(s.sh.reg, n).self
  {
    var e := DeedOf(s, Step(f, c)).e;
    if e.SetSelf? {
      SetsUnset(s.sh, s.frames[f], c);
      assert SelfLocal(s.sh.reg, s.sh.race.used, s.frames[f]);
    }
    SameSelf(s.sh.reg, f, e, s.sh.gate.nextFrame, n);
  }

  lemma SameSelf(reg: Registry, f: int, e: Effect, id: int, n: int)
    requires NodeAt(reg, n).self.Some? && !(e.Wipe? && e.n == n) && (e.SetSelf? ==> NodeAt(reg, e.n).self == None)
    ensures NodeAt(ApplyReg(reg, f, e, id), n).self == NodeAt(reg, n).self
  {
  }

  lemma SetsUnset(sh: Shared, fr: Frame, c: bool)
    requires MoveOf(sh, fr, c).e.SetSelf?
    ensures Unset(fr.at) && MoveOf(sh, fr, c).e.n == fr.n
  {
  }

  lemma NotWiped(s: State, f: int, c: bool, g: int)
    requires Inv(s) && SelfInv(s) && Enabled(s, Step(f, c)) && g in s.frames && s.frames[g].tn.Some?
    requires s.frames[g].tn.value != MAIN_NODE &&
      NodeAt(s.sh.reg, s.frames[g].tn.value).self == Some(s.frames[g].thread)
    ensures var e := DeedOf(s, Step(f, c)).e; !(e.Wipe? && e.n == s.frames[g].tn.value)
  {
    var n := s.frames[g].tn.value;
    var e := DeedOf(s, Step(f, c)).e;
    if e.Wipe? && e.n == n {
      MovedKept(s, Step(f, c));
      WipesAt(s.sh, s.frames[f], c);
      assert SelfLocal(s.sh.reg, s.sh.race.used, s.frames[f]) && HolderOk(s, n);
      assert FrameOk(s.tops, s.nextThread, f, s.frames[f]) && FrameOk(s.tops, s.nextThread, g, s.frames[g]);
      assert s.sh.reg.holder[n] == f;
      Alone(s, f, g);
    }
  }

  lemma WipesAt(sh: Shared, fr: Frame, c: bool)
    requires MoveOf(sh, fr, c).e.Wipe?
    ensures MoveOf(sh, fr, c).e.n == fr.n && (fr.at.UnClear? || Unset(fr.at))
  {
  }
}
