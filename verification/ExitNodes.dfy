/** Every thread node is accounted for: it is on the thread list, on the free list, in flight, or lost. */
module ExitNodes {
  import opened ExitMachine
  import opened ExitRegistry
  import opened ExitInvariant
  import opened ExitCallbacks

  /** A frame has node n in hand, off both lists. */
  ghost predicate Flying(s: State, n: int) {
    && n in s.sh.reg.holder && s.sh.reg.holder[n] in s.frames
    && InFlight(s.frames[s.sh.reg.holder[n]].at) && s.frames[s.sh.reg.holder[n]].n == n
  }

  predicate Lost(l: Log, n: int) { NodeLost(n) in l.trace }

  ghost predicate Covered(s: State, n: int) {
    n in s.sh.reg.threadList || n in s.sh.reg.freeList || Flying(s, n) || Lost(s.sh.log, n)
  }

  /** No frame that exists or is to come has charge of a lost node, and it is on no list. */
  ghost predicate OutOfReach(s: State, n: int) {
    && 0 < n < |s.sh.reg.nodes| && n !in s.sh.reg.threadList && n !in s.sh.reg.freeList
    && n in s.sh.reg.holder && s.sh.reg.holder[n] !in s.frames && s.sh.reg.holder[n] < s.sh.gate.nextFrame
  }

  ghost predicate NodesInv(s: State) {
    && (forall n :: 0 < n < |s.sh.reg.nodes| ==> Covered(s, n))
    && (forall n :: Lost(s.sh.log, n) ==> OutOfReach(s, n))
  }

  // ----- one move -----------------------------------------------------------------------------

  predicate Drops(e: Effect) { e.Emit? && e.e.NodeLost? }

  /** A node in flight stays in the hands of its frame, or goes to a list, to a new thread or nowhere. */
  predicate PassesOn(fr: Frame, m: Move) {
    || (m.Go? && InFlight(m.to.at) && m.to.n == fr.n && !m.e.Take?)
    || (m.Go? && (m.e == Insert(fr.n) || m.e == Put(fr.n)))
    || m == Ret(Spawn(fr.n))
    || m == Ret(Emit(NodeLost(fr.n)))
  }

  /** A node comes into flight by being taken from the free list or an array, or off the thread list; only
      one in flight is given to a new thread or dropped. */
  predicate PicksUp(reg: Registry, fr: Frame, m: Move) {
    && (m.e.Take? ==> m.Go? && InFlight(m.to.at) && m.to.n == Taken(reg))
    && (m.e.Remove? ==> m.Go? && InFlight(m.to.at) && m.to.n == m.e.n)
    && (m.e.Spawn? ==> InFlight(fr.at) && m == Ret(Spawn(fr.n)))
    && (Drops(m.e) ==> InFlight(fr.at) && m == Ret(Emit(NodeLost(fr.n))))
  }

  predicate NodeMove(reg: Registry, fr: Frame, m: Move) {
    PicksUp(reg, fr, m) && (InFlight(fr.at) ==> PassesOn(fr, m))
  }

  lemma MakeMoves(sh: Shared, fr: Frame, c: bool)
    requires InMake(fr.at)
    ensures NodeMove(sh.reg, fr, MakeMove(sh, fr, c))
  {
  }

  lemma BeginMoves(sh: Shared, fr: Frame, c: bool)
    requires InBegin(fr.at)
    ensures NodeMove(sh.reg, fr, BeginMove(sh, fr, c))
  {
  }

  lemma UnlinkMoves(sh: Shared, fr: Frame)
    requires InUnlink(fr.at)
    ensures NodeMove(sh.reg, fr, UnlinkMove(sh, fr))
  {
  }

  lemma CallMoves(sh: Shared, fr: Frame)
    requires InClean(fr.at) || InSignal(fr.at)
    ensures NodeMove(sh.reg, fr, if InClean(fr.at) then CleanMove(sh, fr) else SignalMove(sh, fr))
  {
  }

  lemma WinnerMoves(sh: Shared, fr: Frame, c: bool)
    requires InShoot(fr.at) || InScan(fr.at)
    ensures NodeMove(sh.reg, fr, if InShoot(fr.at) then ShootMove(sh, fr) else ScanMove(sh, fr, c))
  {
  }

  lemma EndMoves(sh: Shared, fr: Frame)
    requires InOwn(fr.at) || InFini(fr.at)
    ensures NodeMove(sh.reg, fr, if InOwn(fr.at) then OwnMove(sh, fr) else FiniMove(fr))
  {
  }

  lemma ExitMoves(sh: Shared, fr: Frame)
    requires !InFlight(fr.at)
    ensures NodeMove(sh.reg, fr, ExitMove(sh, fr))
  {
  }

  lemma NodeMoves(sh: Shared, fr: Frame, c: bool)
    ensures NodeMove(sh.reg, fr, MoveOf(sh, fr, c))
  {
    if InMake(fr.at) { MakeMoves(sh, fr, c); }
    else if InBegin(fr.at) { BeginMoves(sh, fr, c); }
    else if InUnlink(fr.at) { UnlinkMoves(sh, fr); }
    else if InClean(fr.at) || InSignal(fr.at) { CallMoves(sh, fr); }
    else if InShoot(fr.at) || InScan(fr.at) { WinnerMoves(sh, fr, c); }
    else if InOwn(fr.at) || InFini(fr.at) { EndMoves(sh, fr); }
    else { ExitMoves(sh, fr); }
  }

  // ----- one step -----------------------------------------------------------------------------

  /** The step of frame f. */
  ghost predicate Moved(s: State, f: int, m: Move, s': State) {
    && Inv(s) && f in s.frames && NodeMove(s.sh.reg, s.frames[f], m) && Guard(s.sh, f, m.e)
    && Kept(s, MoveDeed(f, m, s.sh.gate.nextFrame, s.nextThread), s')
    && (m.Ret? ==> f !in s'.frames)
    && (forall g :: g in s'.frames ==> g in s.frames || (g == s.sh.gate.nextFrame && m.e.Spawn?))
  }

  lemma StepMoved(s: State, f: int, c: bool)
    requires Inv(s) && Enabled(s, Step(f, c))
    ensures Moved(s, f, MoveOf(s.sh, s.frames[f], c), Do(s, Step(f, c)))
  {
    NodeMoves(s.sh, s.frames[f], c);
    KeptBy(s, Step(f, c));
    MovedKept(s, Step(f, c));
    assert s.sh.gate.nextFrame !in s.frames;
  }

  /** A node in flight in the hands of the moving frame. */
  lemma InHand(s: State, f: int, m: Move, s': State, n: int)
    requires Moved(s, f, m, s') && Flying(s, n) && s.sh.reg.holder[n] == f
    ensures Covered(s', n)
  {
    assert LocalOk(s.sh, f, s.frames[f]);
    if m.Go? && InFlight(m.to.at) && m.to.n == n && !m.e.Take? {
      assert s'.sh.reg.holder[n] == f;
    } else if m == Ret(Spawn(n)) {
      assert s'.frames[s.sh.gate.nextFrame].n == n;
    } else if m == Ret(Emit(NodeLost(n))) {
      assert s'.sh.log.trace == s.sh.log.trace + [NodeLost(n)];
    }
  }

  /** A node in flight in other hands. */
  lemma InOtherHands(s: State, f: int, m: Move, s': State, n: int)
    requires Moved(s, f, m, s') && Flying(s, n) && s.sh.reg.holder[n] != f
    ensures Flying(s', n)
  {
    var g := s.sh.reg.holder[n];
    assert LocalOk(s.sh, g, s.frames[g]);
    assert g in s'.frames && s'.frames[g] == s.frames[g];
    assert m.e.Take? && s.sh.reg.freeList != [] ==> s.sh.reg.freeList[0] in s.sh.reg.freeList;
  }

  lemma OnThreadList(s: State, f: int, m: Move, s': State, n: int)
    requires Moved(s, f, m, s') && n in s.sh.reg.threadList
    ensures Covered(s', n)
  {
    if m.e.Remove? { DeleteIs(s.sh.reg.threadList, m.e.n); }
  }

  lemma OnFreeList(s: State, f: int, m: Move, s': State, n: int)
    requires Moved(s, f, m, s') && n in s.sh.reg.freeList
    ensures Covered(s', n)
  {
    var q := s.sh.reg.freeList;
    assert q == [q[0]] + q[1..];
  }

  lemma CoveredStep(s: State, f: int, m: Move, s': State, n: int)
    requires Moved(s, f, m, s') && NodesInv(s) && 0 < n < |s'.sh.reg.nodes|
    ensures Covered(s', n)
  {
    if n >= |s.sh.reg.nodes| {
      NewNode(s, f, m, s', n);
    } else if n in s.sh.reg.threadList {
      OnThreadList(s, f, m, s', n);
    } else if n in s.sh.reg.freeList {
      OnFreeList(s, f, m, s', n);
    } else if Flying(s, n) {
      if s.sh.reg.holder[n] == f { InHand(s, f, m, s', n); } else { InOtherHands(s, f, m, s', n); }
    } else {
      assert Covered(s, n);
      TraceGrows(s.sh.log, f, m.e, n);
    }
  }

  lemma TraceGrows(l: Log, f: int, e: Effect, n: int)
    ensures Lost(l, n) ==> Lost(ApplyLog(l, f, e), n)
    ensures Lost(ApplyLog(l, f, e), n) ==> Lost(l, n) || e == Emit(NodeLost(n))
  {
  }

  lemma NewNode(s: State, f: int, m: Move, s': State, n: int)
    requires Moved(s, f, m, s') && |s.sh.reg.nodes| <= n < |s'.sh.reg.nodes|
    ensures Flying(s', n)
  {
    NodesGrow(s.sh.reg, f, m.e, s.sh.gate.nextFrame);
  }

  /** A node that frame f has no charge of and that is on no list. */
  predicate Untouched(reg: Registry, f: int, n: int) {
    && 0 < n < |reg.nodes| && n !in reg.threadList && n !in reg.freeList
    && n in reg.holder && reg.holder[n] != f
  }

  lemma UntouchedStays(reg: Registry, f: int, e: Effect, id: int, n: int)
    requires ListsOk(reg) && RegGuard(reg, f, e) && Untouched(reg, f, n)
    ensures Untouched(ApplyReg(reg, f, e, id), f, n) && ApplyReg(reg, f, e, id).holder[n] == reg.holder[n]
  {
    match e
    case Remove(k) => DeleteIs(reg.threadList, k);
    case Take =>
      var q := reg.freeList;
      assert q != [] ==> q[0] in q && forall x :: x in q[1..] ==> x in q;
    case _ =>
  }

  /** A node lost before stays out of reach. */
  lemma LostStays(s: State, f: int, m: Move, s': State, n: int)
    requires Moved(s, f, m, s') && OutOfReach(s, n)
    ensures OutOfReach(s', n)
  {
    UntouchedStays(s.sh.reg, f, m.e, s.sh.gate.nextFrame, n);
    assert s'.sh.reg.holder[n] == s.sh.reg.holder[n];
    assert s'.sh.gate.nextFrame >= s.sh.gate.nextFrame;
  }

  /** The node that a frame drops is out of reach from then on. */
  lemma LostNow(s: State, f: int, m: Move, s': State, n: int)
    requires Moved(s, f, m, s') && m.e == Emit(NodeLost(n))
    ensures OutOfReach(s', n)
  {
    assert LocalOk(s.sh, f, s.frames[f]);
  }

  lemma LostStep(s: State, f: int, m: Move, s': State, n: int)
    requires Moved(s, f, m, s') && NodesInv(s) && Lost(s'.sh.log, n)
    ensures OutOfReach(s', n)
  {
    TraceGrows(s.sh.log, f, m.e, n);
    if Lost(s.sh.log, n) {
      LostStays(s, f, m, s', n);
    } else {
      LostNow(s, f, m, s', n);
    }
  }

  /** A call or a change of the block flag moves no node. */
  lemma QuietStep(s: State, a: Action)
    requires Inv(s) && NodesInv(s) && Enabled(s, a) && !a.Step?
    ensures NodesInv(Do(s, a))
  {
    var s' := Do(s, a);
    KeptBy(s, a);
    forall n | 0 < n < |s'.sh.reg.nodes| ensures Covered(s', n) { assert Covered(s, n); }
    forall n | Lost(s'.sh.log, n) ensures OutOfReach(s', n) { assert OutOfReach(s, n); }
  }

  lemma NodesStep(s: State, a: Action)
    requires Inv(s) && NodesInv(s) && Enabled(s, a)
    ensures NodesInv(Do(s, a))
  {
    if a.Step? {
      var m, s' := MoveOf(s.sh, s.frames[a.f], a.c), Do(s, a);
      StepMoved(s, a.f, a.c);
      forall n | 0 < n < |s'.sh.reg.nodes| ensures Covered(s', n) { CoveredStep(s, a.f, m, s', n); }
      forall n | Lost(s'.sh.log, n) ensures OutOfReach(s', n) { LostStep(s, a.f, m, s', n); }
    } else {
      QuietStep(s, a);
    }
  }

  lemma NodesNext(s: State, s': State)
    requires Inv(s) && NodesInv(s) && Next(s, s')
    ensures NodesInv(s')
  {
    var a :| Enabled(s, a) && s' == Do(s, a);
    NodesStep(s, a);
  }

  lemma NodesInitial()
    ensures NodesInv(INITIAL)
  {
  }

  lemma {:induction false} NodesRun(run: seq<State>, i: int)
    requires IsRun(run) && 0 <= i < |run|
    ensures Inv(run[i]) && NodesInv(run[i])
  {
    InvRun(run, i);
    if i == 0 {
      NodesInitial();
    } else {
      NodesRun(run, i - 1);
      assert Next(run[i - 1], run[(i - 1) + 1]);
      NodesNext(run[i - 1], run[i]);
    }
  }

  // ----- the result ---------------------------------------------------------------------------

  function Count(b: bool): nat { if b then 1 else 0 }

  /** In every state of every run each node that was ever handed out, for any number of arrays, is in exactly
      one place: on the thread list, on the free list, in flight in the hands of one frame, or lost. */
  lemma ExactlyOnePlace(run: seq<State>, i: int, n: int)
    requires IsRun(run) && 0 <= i < |run| && 0 < n < |run[i].sh.reg.nodes|
    ensures var s := run[i];
      Count(n in s.sh.reg.threadList) + Count(n in s.sh.reg.freeList)
        + Count(Flying(s, n)) + Count(Lost(s.sh.log, n)) == 1
  {
    NodesRun(run, i);
    var s := run[i];
    assert Covered(s, n);
    if Flying(s, n) { assert LocalOk(s.sh, s.sh.reg.holder[n], s.frames[s.sh.reg.holder[n]]); }
    if Lost(s.sh.log, n) { assert OutOfReach(s, n); }
  }

  /** A thread is refused in exit cleanup or cancelled in the wait for thread support, or its creator's
      pthread_create fails or the creator is cancelled in monitor_thread_pre_create. */
  predicate LosesAt(at: At, c: bool) {
    at.Refused? || (at.BeginSleep? && c) || (at.MakeDone? && !c) || (at.MakePre? && c)
  }

  lemma DropsAt(sh: Shared, fr: Frame, c: bool)
    ensures Drops(MoveOf(sh, fr, c).e) <==> LosesAt(fr.at, c)
    ensures LosesAt(fr.at, c) ==> MoveOf(sh, fr, c) == Ret(Emit(NodeLost(fr.n)))
  {
  }

  /** A step loses node n if and only if it ends a call that has it in one of these four ways. */
  lemma LostHow(s: State, a: Action, n: int)
    requires Enabled(s, a) && !Lost(s.sh.log, n)
    ensures Lost(Do(s, a).sh.log, n) <==> a.Step? && s.frames[a.f].n == n && LosesAt(s.frames[a.f].at, a.c)
  {
    TraceGrows(s.sh.log, DeedOf(s, a).actor, DeedOf(s, a).e, n);
    if a.Step? { DropsAt(s.sh, s.frames[a.f], a.c); }
  }

  /** The step from s to s' ends a call that has node n in one of these ways. */
  ghost predicate Loses(s: State, s': State, n: int) {
    exists f, c :: Top(s, f) && s.frames[f].n == n && LosesAt(s.frames[f].at, c) && s' == Do(s, Step(f, c))
  }

  lemma LosesNow(s: State, s': State, n: int)
    requires Loses(s, s', n)
    ensures Lost(s'.sh.log, n)
  {
    var f, c :| Top(s, f) && s.frames[f].n == n && LosesAt(s.frames[f].at, c) && s' == Do(s, Step(f, c));
    DropsAt(s.sh, s.frames[f], c);
    assert s'.sh.log.trace == s.sh.log.trace + [NodeLost(n)];
  }

  /** What a step does to the lost nodes. */
  ghost predicate LostPair(s: State, s': State, n: int) {
    Lost(s'.sh.log, n) <==> Lost(s.sh.log, n) || Loses(s, s', n)
  }

  lemma LostNext(s: State, s': State, n: int)
    requires Next(s, s')
    ensures LostPair(s, s', n)
  {
    var a :| Enabled(s, a) && s' == Do(s, a);
    TraceGrows(s.sh.log, DeedOf(s, a).actor, DeedOf(s, a).e, n);
    if Loses(s, s', n) { LosesNow(s, s', n); }
    if Lost(s'.sh.log, n) && !Lost(s.sh.log, n) { LostHow(s, a, n); }
  }

  lemma LostAt(run: seq<State>, k: int, n: int)
    requires IsRun(run) && 0 <= k < |run| - 1
    ensures LostPair(run[k], run[k + 1], n)
  {
    assert Next(run[k], run[k + 1]);
    LostNext(run[k], run[k + 1], n);
  }

  lemma {:induction false} LostChain(run: seq<State>, i: int, n: int)
    requires 0 <= i < |run| && !Lost(run[0].sh.log, n)
    requires forall k :: 0 <= k < |run| - 1 ==> LostPair(run[k], run[k + 1], n)
    ensures Lost(run[i].sh.log, n) <==> exists j :: 0 <= j < i && Loses(run[j], run[j + 1], n)
  {
    if i > 0 {
      LostChain(run, i - 1, n);
      assert LostPair(run[i - 1], run[(i - 1) + 1], n);
    }
  }

  /** In every run the nodes that are lost are exactly those with which a call has ended in one of the four ways. */
  lemma LostExactly(run: seq<State>, i: int, n: int)
    requires IsRun(run) && 0 <= i < |run|
    ensures Lost(run[i].sh.log, n) <==> exists j :: 0 <= j < i && Loses(run[j], run[j + 1], n)
  {
    forall k | 0 <= k < |run| - 1 ensures LostPair(run[k], run[k + 1], n) { LostAt(run, k, n); }
    LostChain(run, i, n);
  }

  lemma LostLasts(run: seq<State>, i: int, j: int, n: int)
    requires IsRun(run) && 0 <= i <= j < |run| && Lost(run[i].sh.log, n)
    ensures Lost(run[j].sh.log, n)
  {
    LostExactly(run, i, n);
    LostExactly(run, j, n);
  }

  /** A lost node is lost for good: it is on no list again, no call has charge of it and none will take it. */
  lemma LostForGood(run: seq<State>, i: int, j: int, n: int)
    requires IsRun(run) && 0 <= i <= j < |run| && Lost(run[i].sh.log, n)
    ensures n !in run[j].sh.reg.threadList && n !in run[j].sh.reg.freeList && Taken(run[j].sh.reg) != n
    ensures forall f :: f in run[j].frames && Holding(run[j].frames[f].at) ==> run[j].frames[f].n != n
  {
    var s := run[j];
    LostLasts(run, i, j, n);
    NodesRun(run, j);
    assert OutOfReach(s, n);
    assert s.sh.reg.freeList != [] ==> s.sh.reg.freeList[0] in s.sh.reg.freeList;
    forall f | f in s.frames && Holding(s.frames[f].at) ensures s.frames[f].n != n {
      assert LocalOk(s.sh, f, s.frames[f]);
    }
  }
}
