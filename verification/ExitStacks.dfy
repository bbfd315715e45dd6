/** The call stacks of the exit machine: the frames of a thread are in the order in which they were pushed, and
    the routines that begin and end a thread are at the bottom. */
module ExitStacks {
  import opened Options
  import opened ExitMachine
  import opened ExitInvariant

  /** The first call of a thread: monitor_begin_thread with its cleanup. */
  predicate Basal(at: At) { InBegin(at) || InClean(at) || InUnlink(at) }

  /** Frames of one thread that were pushed between a frame and its parent, or below the bottom one. */
  predicate InOrder(fr: Frame, f: int, g: int) {
    f <= g || (fr.parent.Some? && g <= fr.parent.value)
  }

  ghost predicate Ordered(s: State) {
    forall f, g :: f in s.frames && g in s.frames && s.frames[f].thread == s.frames[g].thread ==>
      InOrder(s.frames[f], f, g)
  }

  predicate FrameOk(tops: map<int, Option<int>>, nextThread: int, f: int, fr: Frame) {
    && fr.thread < nextThread
    && fr.thread in tops && tops[fr.thread].Some? && f <= tops[fr.thread].value
    && (Basal(fr.at) ==> fr.parent == None && fr.thread != 0 && fr.tn == None)
  }

  ghost predicate StackInv(s: State) {
    && 0 < s.nextThread
    && Ordered(s) && forall f :: f in s.frames ==> FrameOk(s.tops, s.nextThread, f, s.frames[f])
  }

  /** A thread whose bottom frame is on top has no other frame. */
  lemma Alone(s: State, f: int, g: int)
    requires StackInv(s) && Top(s, f) && s.frames[f].parent.None? && g in s.frames
    requires s.frames[g].thread == s.frames[f].thread
    ensures g == f
  {
    assert InOrder(s.frames[f], f, g);
    assert FrameOk(s.tops, s.nextThread, g, s.frames[g]);
  }

  // ----- one move -----------------------------------------------------------------------------

  /** A move leaves the thread, the parent and the node pointer of a frame alone. */
  predicate SameCall(fr: Frame, m: Move) {
    m.Go? ==>
      && m.to.thread == fr.thread && m.to.parent == fr.parent && m.to.tn == fr.tn
      && (Basal(m.to.at) ==> Basal(fr.at))
  }

  lemma SameMake(sh: Shared, fr: Frame, c: bool)
    requires InMake(fr.at)
    ensures SameCall(fr, MakeMove(sh, fr, c))
  {
  }

  lemma SameBegin(sh: Shared, fr: Frame, c: bool)
    requires InBegin(fr.at)
    ensures SameCall(fr, BeginMove(sh, fr, c))
  {
  }

  lemma SameEnd(sh: Shared, fr: Frame)
    requires InClean(fr.at) || InUnlink(fr.at)
    ensures SameCall(fr, if InClean(fr.at) then CleanMove(sh, fr) else UnlinkMove(sh, fr))
  {
  }

  lemma SameSignal(sh: Shared, fr: Frame)
    requires InSignal(fr.at)
    ensures SameCall(fr, SignalMove(sh, fr))
  {
  }

  lemma SameShoot(sh: Shared, fr: Frame)
    requires InShoot(fr.at)
    ensures SameCall(fr, ShootMove(sh, fr))
  {
  }

  lemma SameScan(sh: Shared, fr: Frame, c: bool)
    requires InScan(fr.at)
    ensures SameCall(fr, ScanMove(sh, fr, c))
  {
  }

  lemma SameFini(sh: Shared, fr: Frame)
    requires InOwn(fr.at) || InFini(fr.at)
    ensures SameCall(fr, if InOwn(fr.at) then OwnMove(sh, fr) else FiniMove(fr))
  {
  }

  lemma SameExit(sh: Shared, fr: Frame)
    ensures SameCall(fr, ExitMove(sh, fr))
  {
  }

  lemma SameCalls(sh: Shared, fr: Frame, c: bool)
    ensures SameCall(fr, MoveOf(sh, fr, c))
  {
    if InMake(fr.at) { SameMake(sh, fr, c); }
    else if InBegin(fr.at) { SameBegin(sh, fr, c); }
    else if InClean(fr.at) || InUnlink(fr.at) { SameEnd(sh, fr); }
    else if InSignal(fr.at) { SameSignal(sh, fr); }
    else if InShoot(fr.at) { SameShoot(sh, fr); }
    else if InScan(fr.at) { SameScan(sh, fr, c); }
    else if InOwn(fr.at) || InFini(fr.at) { SameFini(sh, fr); }
    else { SameExit(sh, fr); }
  }

  // ----- one step -----------------------------------------------------------------------------

  /** Frame f moves on. */
  lemma StackGo(s: State, f: int, to: Frame, sh: Shared)
    requires StackInv(s) && f in s.frames && SameCall(s.frames[f], Move.Go(Read, to))
    ensures StackInv(State(s.frames[f := to], s.tops, s.nextThread, sh))
  {
    assert FrameOk(s.tops, s.nextThread, f, s.frames[f]);
    forall g, h | g in s.frames && h in s.frames && s.frames[g].thread == s.frames[h].thread
      ensures InOrder(if g == f then to else s.frames[g], g, h)
    {
      assert InOrder(s.frames[g], g, h);
    }
  }

  /** Frame f returns. */
  lemma StackRet(s: State, f: int, sh: Shared)
    requires StackInv(s) && Top(s, f)
    ensures StackInv(State(s.frames - {f}, s.tops[s.frames[f].thread := s.frames[f].parent], s.nextThread, sh))
  {
    var t := s.frames[f].thread;
    var tops := s.tops[t := s.frames[f].parent];
    forall g | g in s.frames && g != f ensures FrameOk(tops, s.nextThread, g, s.frames[g]) {
      assert FrameOk(s.tops, s.nextThread, g, s.frames[g]);
      if s.frames[g].thread == t { assert InOrder(s.frames[f], f, g); }
    }
  }

  /** A new thread starts with its bottom frame. */
  lemma StackSpawn(s: State, id: int, n: int, sh: Shared)
    requires StackInv(s) && id !in s.frames
    ensures StackInv(State(s.frames[id := FirstFrame(s.nextThread, n)], s.tops[s.nextThread := Some(id)],
      s.nextThread + 1, sh))
  {
    forall g | g in s.frames ensures FrameOk(s.tops[s.nextThread := Some(id)], s.nextThread + 1, g, s.frames[g]) {
      assert FrameOk(s.tops, s.nextThread, g, s.frames[g]);
    }
  }

  /** A call on top of frame f. */
  lemma StackPush(s: State, f: int, id: int, fr: Frame, sh: Shared)
    requires StackInv(s) && Top(s, f) && (forall g :: g in s.frames ==> g < id) && fr.thread == s.frames[f].thread
    requires fr.parent == Some(f) && !Basal(fr.at)
    ensures StackInv(State(s.frames[id := fr], s.tops[fr.thread := Some(id)], s.nextThread, sh))
  {
    var tops := s.tops[fr.thread := Some(id)];
    assert FrameOk(s.tops, s.nextThread, f, s.frames[f]);
    forall g | g in s.frames
      ensures FrameOk(tops, s.nextThread, g, s.frames[g]) && InOrder(s.frames[g], g, id)
      ensures s.frames[g].thread == fr.thread ==> InOrder(fr, id, g)
    {
      assert FrameOk(s.tops, s.nextThread, g, s.frames[g]);
    }
  }

  lemma CalleeStack(sh: Shared, t: int, f: int, call: Call)
    ensures var fr := Callee(sh, t, f, call);
      fr.thread == t && fr.parent == Some(f) && !Basal(fr.at)
  {
  }

  lemma StackStep(s: State, f: int, c: bool)
    requires Inv(s) && StackInv(s) && Enabled(s, Step(f, c))
    ensures StackInv(Do(s, Step(f, c)))
  {
    var m := MoveOf(s.sh, s.frames[f], c);
    var s' := Do(s, Step(f, c));
    SameCalls(s.sh, s.frames[f], c);
    assert FrameOk(s.tops, s.nextThread, f, s.frames[f]) && LocalOk(s.sh, f, s.frames[f]);
    if m.Go? {
      StackGo(s, f, m.to, s'.sh);
      assert (s.frames - {f})[f := m.to] == s.frames[f := m.to];
    } else {
      StackRet(s, f, s'.sh);
      if m.e.Spawn? {
        var mid := State(s.frames - {f}, s.tops[s.frames[f].thread := s.frames[f].parent], s.nextThread, s'.sh);
        assert s.sh.gate.nextFrame !in s.frames;
        StackSpawn(mid, s.sh.gate.nextFrame, m.e.n, s'.sh);
      }
    }
  }

  lemma StackCall(s: State, f: int, call: Call)
    requires Inv(s) && StackInv(s) && Enabled(s, Push(f, call))
    ensures StackInv(Do(s, Push(f, call)))
  {
    CalleeStack(s.sh, s.frames[f].thread, f, call);
    forall g | g in s.frames ensures g < s.sh.gate.nextFrame { assert LocalOk(s.sh, g, s.frames[g]); }
    StackPush(s, f, s.sh.gate.nextFrame, Callee(s.sh, s.frames[f].thread, f, call), Do(s, Push(f, call)).sh);
  }

  lemma StackNext(s: State, a: Action)
    requires Inv(s) && StackInv(s) && Enabled(s, a)
    ensures StackInv(Do(s, a))
  {
    match a
    case Step(f, c) => StackStep(s, f, c);
    case Push(f, call) => StackCall(s, f, call);
    case Block(t, on) =>
    case Support =>
  }

  /** Every frame after a step was there before, in the same call, or is new. */
  lemma SameThreads(s: State, a: Action, g: int)
    requires Inv(s) && Enabled(s, a) && g in Do(s, a).frames
    ensures g in s.frames ==>
      var fr, fr' := s.frames[g], Do(s, a).frames[g]; fr'.thread == fr.thread && fr'.tn == fr.tn
    ensures g !in s.frames ==> g == s.sh.gate.nextFrame
  {
    assert s.sh.gate.nextFrame !in s.frames;
    if a.Step? { SameCalls(s.sh, s.frames[a.f], a.c); }
  }
}
