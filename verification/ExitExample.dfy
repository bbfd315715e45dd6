/** Runs from the start of the process that show what each condition of the results about process exit is for. */
module ExitExample {
  import opened NodeLists
  import opened Options
  import opened ExitMachine
  import opened ExitInvariant
  import opened ExitCallbacks
  import opened ExitTheorems
  import opened ExitOwners
  import opened ExitRepeat
  import opened ExitRuns

  // ----- one thread ---------------------------------------------------------------------------

  const BOTTOM := Frame(0, None, App, 0, None, FIRST_PASS)
  const GATE := Gate(0, false, false, None, None, 3)
  const USED := Race(0, true, true, false, false, None)
  const NO_LOG := Log([], map[])
  const MADE := Registry([ZERO_NODE, ZERO_NODE.(tid := -1, life := 2)], [], [], 1, 0, map[0 := 0], 3, map[1 := 2])

  function TheNode(started: bool): Node { Node(1, Some(1), started, false, false, false, false, 2) }

  /** The main thread's node and that of thread 1, which is linked. */
  function TheRegistry(v: Node): Registry {
    Registry([ZERO_NODE, v], [1], [], 1, 1, map[0 := 0, 1 := 1], 3, map[1 := 2])
  }

  const LINKED := Shared(GATE, TheRegistry(TheNode(false)), USED, NO_LOG)
  const STARTED := Shared(GATE, TheRegistry(TheNode(true)), USED, NO_LOG)
  const CALLED :=
    Shared(GATE, TheRegistry(TheNode(true).(finiStarted := true)), USED, Log([FiniThreadBegin(2)], map[2 := 2]))

  /** The main thread runs the application and thread 1 is somewhere in monitor_begin_thread or its cleanup. */
  function Base(at: At, sh: Shared): State {
    State(map[0 := BOTTOM, 2 := FirstFrame(1, 1).(at := at)], map[0 := Some(0), 1 := Some(2)], 2, sh)
  }

  lemma Made(p: Property)
    requires Closed(p) && p(INITIAL)
    ensures p(Base(BeginWait, Shared(GATE, MADE, USED, NO_LOG)))
  {
    Supports(p, INITIAL);
    Pushes(p, Supported(INITIAL), 0, Create);
    var s := Pushed(Supported(INITIAL), 0, Create);
    var fr := Frame(0, Some(0), MakeLock, 0, None, FIRST_PASS);
    Here(p, s, 1);
    Make(p, s, 1, fr, s.sh);
    var fr' := fr.(at := MakePre, n := 1);
    var sh' := s.sh.(reg := MadeReg(s.sh.reg, 1, 2));
    assert sh'.reg.nodes == MADE.nodes;
    Spawns(p, s, 1, fr', sh');
    assert Spawned(s, 1, fr', sh').frames == Base(BeginWait, sh').frames;
    assert Spawned(s, 1, fr', sh').tops == Base(BeginWait, sh').tops;
    assert Spawned(s, 1, fr', sh').sh.reg.holder == MADE.holder;
  }

  /** Thread 1 goes on. */
  lemma Moves(p: Property, at: At, sh: Shared, at': At, sh': Shared)
    requires Reached(p, Base(at, sh), 2, FirstFrame(1, 1).(at := at'), sh')
    ensures p(Base(at', sh'))
  {
    assert With(Base(at, sh), 2, FirstFrame(1, 1).(at := at'), sh') == Base(at', sh');
  }

  lemma ToApplSet(p: Property)
    requires Closed(p) && p(INITIAL)
    ensures p(Base(ApplSet, LINKED))
  {
    var sh := Shared(GATE, MADE, USED, NO_LOG);
    Made(p);
    Here(p, Base(BeginWait, sh), 2);
    Link(p, Base(BeginWait, sh), 2, FirstFrame(1, 1), sh);
    assert LinkedReg(MADE, 1, 1) == LINKED.reg;
    Moves(p, BeginWait, sh, ApplSet, LINKED);
  }

  lemma ToRunning(p: Property)
    requires Closed(p) && p(INITIAL)
    ensures p(Base(Running, STARTED))
  {
    ToApplSet(p);
    Here(p, Base(ApplSet, LINKED), 2);
    Start(p, Base(ApplSet, LINKED), 2, FirstFrame(1, 1).(at := ApplSet), LINKED);
    assert StartedReg(LINKED.reg, 1) == STARTED.reg;
    Moves(p, ApplSet, LINKED, Running, STARTED);
  }

  lemma ToCleanSet(p: Property)
    requires Closed(p) && p(INITIAL)
    ensures p(Base(CleanSet, STARTED))
  {
    ToRunning(p);
    Here(p, Base(Running, STARTED), 2);
    Ends(p, Base(Running, STARTED), 2, FirstFrame(1, 1).(at := Running), STARTED);
    Moves(p, Running, STARTED, CleanSet, STARTED);
  }

  lemma ToCleanIn(p: Property)
    requires Closed(p) && p(INITIAL)
    ensures p(Base(CleanIn, CALLED))
  {
    ToCleanSet(p);
    Here(p, Base(CleanSet, STARTED), 2);
    CallBegins(p, Base(CleanSet, STARTED), 2, FirstFrame(1, 1).(at := CleanSet), STARTED);
    assert Apply(STARTED, 2, Begin(1, 2)) == CALLED;
    Moves(p, CleanSet, STARTED, CleanIn, CALLED);
  }

  // ----- process exit -------------------------------------------------------------------------

  /** The bottom frame of thread t. */
  function Bottom(t: int): int { if t == 0 then 0 else 2 }

  /** Thread t has called exit(). */
  function Exiting(t: int, at: At, sh: Shared): State
    requires t == 0 || t == 1
  {
    Pushed(Base(at, sh), Bottom(t), Exit)
  }

  function Winner(t: int, at: At, pass: Pass): Frame { Frame(t, Some(Bottom(t)), at, 0, Some(t), pass) }

  /** The shared state when thread t has won by its frame 3 and is about to walk the list. */
  function Walking(sh: Shared, t: int): Shared {
    var sh' := sh.(gate := sh.gate.(nextFrame := 4));
    Armed(WonBy(sh', 3, t, t))
  }

  predicate Ready1(sh: Shared) {
    && sh.gate == GATE && sh.race == USED && |sh.reg.nodes| == 2
  }

  lemma ExitWins(p: Property, t: int, at: At, sh: Shared)
    requires Closed(p) && p(Base(at, sh)) && Ready1(sh) && (t == 0 || t == 1) && t in sh.reg.tsd && sh.reg.tsd[t] == t
    ensures Reached(p, Exiting(t, at, sh), 3, Winner(t, ScanHead, FIRST_PASS), Walking(sh, t))
  {
    Pushes(p, Base(at, sh), Bottom(t), Exit);
    var s := Exiting(t, at, sh);
    assert s.frames[3] == Winner(t, ExitCas, FIRST_PASS);
    Here(p, s, 3);
    Wins(p, s, 3, Winner(t, ExitCas, FIRST_PASS), s.sh);
    Arms(p, s, 3, Winner(t, ExitUsed, FIRST_PASS), WonBy(s.sh, 3, t, t));
  }

  lemma {:induction false} ClosedPath(p: Property, path: seq<State>, k: int)
    requires Closed(p) && IsPath(path) && p(path[0]) && 0 <= k < |path|
    ensures p(path[k])
  {
    if k > 0 {
      ClosedPath(p, path, k - 1);
      assert Next(path[k - 1], path[(k - 1) + 1]);
      var a :| Enabled(path[k - 1], a) && path[k] == Do(path[k - 1], a);
    }
  }

  lemma ClosedLeads(p: Property, s: State, s': State)
    requires Closed(p) && p(s) && Leads(s, s')
    ensures p(s')
  {
    var path :| IsPath(path) && path[0] == s && path[|path| - 1] == s';
    ClosedPath(p, path, |path| - 1);
  }

  ghost predicate FromStart(s: State) { Leads(INITIAL, s) }

  lemma FromStartClosed()
    ensures Closed(FromStart) && FromStart(INITIAL)
  {
    forall s, a | FromStart(s) && Enabled(s, a) ensures FromStart(Do(s, a)) {
      LeadsNext(INITIAL, s, Do(s, a));
    }
    assert IsPath([INITIAL]);
  }

  lemma RunTo(s: State) returns (run: seq<State>)
    requires FromStart(s)
    ensures IsRun(run) && run[|run| - 1] == s
  {
    run :| IsPath(run) && run[0] == INITIAL && run[|run| - 1] == s;
  }

  // ----- the race on tn_fini_started ----------------------------------------------------------

  /** The main thread has won, and the signal arrives in the ending thread between its test and its store. */
  lemma Raced(p: Property) returns (s: State)
    requires Closed(p) && p(INITIAL)
    ensures p(s) && Top(s, 4) && 2 in s.frames
    ensures s.frames[2] == FirstFrame(1, 1).(at := CleanSet) &&
      s.frames[4] == Frame(1, Some(2), SigSet, 1, None, FIRST_PASS)
  {
    var s3 := MainWalks(p);
    Delivers(p, s3, 2, 1);
    s := With(Pushed(s3, 2, Deliver), 4, Handler(s3, 2, SigSet, 1), Pushed(s3, 2, Deliver).sh);
  }

  /** The main thread has won and is about to walk the list, and thread 1 is about to store tn_fini_started. */
  lemma MainWalks(p: Property) returns (s: State)
    requires Closed(p) && p(INITIAL)
    ensures p(s) && MayAnswer(s, 2, 1) && s.frames[2] == FirstFrame(1, 1).(at := CleanSet)
    ensures s == With(Exiting(0, CleanSet, STARTED), 3, Winner(0, ScanHead, FIRST_PASS), Walking(STARTED, 0))
    ensures s.sh.reg.nodes[1] == TheNode(true) && s.sh.gate.nextFrame == 4
  {
    ToCleanSet(p);
    ExitWins(p, 0, CleanSet, STARTED);
    s := With(Exiting(0, CleanSet, STARTED), 3, Winner(0, ScanHead, FIRST_PASS), Walking(STARTED, 0));
    assert s.sh.reg.nodes[1] == TheNode(true);
  }

  /** From the start of the process a run leads to two calls of monitor_fini_thread for one life of a node: the
      premise of FiniThreadAtMostOnce is needed. */
  lemma CallbackTwice() returns (run: seq<State>)
    ensures IsRun(run) && !AtMostOnce(run[|run| - 1].sh.log.trace)
  {
    FromStartClosed();
    var s := Raced(FromStart);
    RaceCallsTwice(s, 2, 4);
    var s' :| Leads(s, s') && !AtMostOnce(s'.sh.log.trace);
    ClosedLeads(FromStart, s, s');
    run := RunTo(s');
  }

  /** The signal's callback has returned before the walk, and the winner is about to call the process callback. */
  lemma StaleWalked(p: Property) returns (s: State)
    requires Closed(p) && p(INITIAL)
    ensures p(s) && Top(s, 3) && AtProcess(s, 3) && s.frames[3].thread == 0
    ensures Top(s, 2) && s.frames[2] == FirstFrame(1, 1).(at := CleanSet)
    ensures s.sh.reg.threadList == [1] && NodeAt(s.sh.reg, 1).self == Some(1)
  {
    var s3 := MainWalks(p);
    Answers(p, s3, 2, 1);
    var s4 := Answered(s3, 1);
    assert s4.sh.reg.nodes[1] == TheNode(true).(finiStarted := true, finiDone := true);
    Here(p, s4, 3);
    WalksDone(p, s4, 3, Winner(0, ScanHead, FIRST_PASS), s4.sh, 1);
    var pass := FIRST_PASS.(k := 1, walked := true);
    SkipsOwn(p, s4, 3, Winner(0, ShootDone, pass), s4.sh);
    s := With(s4, 3, Winner(0, ExitFini, pass), DoorClosed(s4.sh));
  }

  /** The race again, with the store after a clean walk: the callback of a thread that is not the winner's is about
      to begin, and then runs, when the process callback starts.  The premise of OnlyWinnerStarts, OpenIsWinners and
      ReturnedBeforeProcess is needed. */
  lemma StaleStoreLate() returns (run: seq<State>)
    ensures IsRun(run) && |run| > 1
    ensures var s := run[|run| - 2];
      && AtProcess(s, 3) && 2 in s.frames && Storing(s.frames[2].at)
      && NodeAt(s.sh.reg, s.frames[2].n).self != Some(s.frames[3].thread)
    ensures var s := run[|run| - 1];
      && AtProcess(s, 3) && SomeInside(s)
      && !InsideAreOf(s, s.frames[3].thread) && !OwnStillOpen(s.sh.reg, s.frames[3].thread)
  {
    FromStartClosed();
    var s := StaleWalked(FromStart);
    var s' := StaleStores(s);
    run := RunTo(s);
    run := RunOn(run, s');
  }

  lemma StaleStores(s: State) returns (s': State)
    requires Top(s, 2) && s.frames[2] == FirstFrame(1, 1).(at := CleanSet) && AtProcess(s, 3) && s.frames[3].thread == 0
    requires s.sh.reg.threadList == [1] && NodeAt(s.sh.reg, 1).self == Some(1)
    ensures Next(s, s') && AtProcess(s', 3) && SomeInside(s') && !InsideAreOf(s', s.frames[3].thread)
    ensures s'.frames[3] == s.frames[3] && !OwnStillOpen(s'.sh.reg, s.frames[3].thread)
  {
    s' := Do(s, Step(2, false));
    assert Next(s, s');
    assert s'.frames == s.frames[2 := FirstFrame(1, 1).(at := CleanIn)];
    assert InCallback(s'.frames[2].at);
  }

  lemma RunOn(run: seq<State>, s: State) returns (run': seq<State>)
    requires IsRun(run) && Next(run[|run| - 1], s)
    ensures IsRun(run') && run' == run + [s]
  {
    run' := run + [s];
    forall i | 0 <= i < |run'| - 1 ensures Next(run'[i], run'[i + 1]) {
      if i < |run| - 1 { assert run'[i] == run[i] && run'[i + 1] == run[i + 1]; }
    }
  }

  // ----- callbacks before the process callback ------------------------------------------------

  lemma OwnOpen(p: Property) returns (s: State)
    requires Closed(p) && p(INITIAL)
    ensures p(s) && Top(s, 3) && s.frames[3].at.ExitFini? && CleanWalk(s.sh.reg, s.frames[3])
    ensures s.sh.log.trace == [FiniThreadBegin(2), ExitWon(1)]
  {
    ToCleanIn(p);
    ExitWins(p, 1, CleanIn, CALLED);
    var s3 := Exiting(1, CleanIn, CALLED);
    var sh := Walking(CALLED, 1);
    assert sh.reg.nodes[1] == TheNode(true).(finiStarted := true, exitWin := true);
    WalksOwn(p, s3, 3, Winner(1, ScanHead, FIRST_PASS), sh, 1);
    var pass := FIRST_PASS.(k := 1, mine := Some(1), walked := true);
    SkipsOwn(p, s3, 3, Winner(1, ShootDone, pass), sh);
    s := With(s3, 3, Winner(1, ExitFini, pass), DoorClosed(sh));
  }

  /** A thread that calls exit() from inside its own callback starts the process callback while that is still
      open, after a walk without timeout or late start. */
  lemma OwnCallbackOpen() returns (run: seq<State>)
    ensures IsRun(run)
    ensures var s := run[|run| - 1];
      Top(s, 3) && s.frames[3].at.ExitFini? && CleanWalk(s.sh.reg, s.frames[3]) && SomeOpen(s.sh.log.trace)
  {
    FromStartClosed();
    var s := OwnOpen(FromStart);
    assert s.sh.log.trace[0] == FiniThreadBegin(2);
    assert FiniThreadEnd(2) !in s.sh.log.trace;
    run := RunTo(s);
  }

  /** Thread x is linked and application-started and not the winner's, and its callback has not begun. */
  ghost predicate Missed(s: State, w: int) {
    && Top(s, w) && s.frames[w].at.ExitFini? && s.frames[w].pass.walked
    && exists x :: x in s.sh.reg.threadList && NodeAt(s.sh.reg, x).applStarted
         && NodeAt(s.sh.reg, x).self != Some(s.frames[w].thread)
         && FiniThreadBegin(NodeAt(s.sh.reg, x).life) !in s.sh.log.trace
  }

  lemma LateStart(p: Property) returns (s: State)
    requires Closed(p) && p(INITIAL)
    ensures p(s) && Missed(s, 3) && !s.frames[3].pass.timedOut
  {
    ToApplSet(p);
    ExitWins(p, 0, ApplSet, LINKED);
    var s3 := Exiting(0, ApplSet, LINKED);
    var sh := Walking(LINKED, 0);
    assert sh.reg.nodes[1] == TheNode(false);
    WalksPast(p, s3, 3, Winner(0, ScanHead, FIRST_PASS), sh, 1);
    var pass := FIRST_PASS.(k := 1, skipped := [1], walked := true);
    SkipsOwn(p, s3, 3, Winner(0, ShootDone, pass), sh);
    s := StartsNow(p, With(s3, 3, Winner(0, ExitFini, pass), DoorClosed(sh)));
  }

  /** Thread 1 sets tn_appl_started while the winner is about to call the process callback. */
  lemma StartsNow(p: Property, s: State) returns (s': State)
    requires Closed(p) && p(s) && Top(s, 2) && s.frames[2] == FirstFrame(1, 1).(at := ApplSet)
    requires Top(s, 3) && s.frames[3].at.ExitFini? && s.frames[3].pass.walked && s.frames[3].thread == 0
    requires |s.sh.reg.nodes| == 2 && s.sh.reg.nodes[1] == TheNode(false) && 1 in s.sh.reg.threadList
    requires FiniThreadBegin(2) !in s.sh.log.trace
    ensures p(s') && Missed(s', 3) && s'.frames[3] == s.frames[3]
  {
    Here(p, s, 2);
    Start(p, s, 2, FirstFrame(1, 1).(at := ApplSet), s.sh);
    s' := With(s, 2, FirstFrame(1, 1).(at := Running), s.sh.(reg := StartedReg(s.sh.reg, 1)));
    assert s'.sh.reg.nodes[1] == TheNode(true) && 1 in s'.sh.reg.threadList;
  }

  /** A thread that sets tn_appl_started after the walk has passed it is missed, though there was no timeout. */
  lemma LateStartMissed() returns (run: seq<State>)
    ensures IsRun(run) && Missed(run[|run| - 1], 3) && !run[|run| - 1].frames[3].pass.timedOut
  {
    FromStartClosed();
    var s := LateStart(FromStart);
    run := RunTo(s);
  }

  lemma TimeOut(p: Property) returns (s: State)
    requires Closed(p) && p(INITIAL)
    ensures p(s) && Missed(s, 3) && s.frames[3].pass.skipped == []
  {
    ToRunning(p);
    ExitWins(p, 0, Running, STARTED);
    var s3 := Exiting(0, Running, STARTED);
    var sh := Walking(STARTED, 0);
    assert sh.reg.nodes[1] == TheNode(true);
    WalksOut(p, s3, 3, Winner(0, ScanHead, FIRST_PASS), sh, 1);
    var pass := Pass(1, None, [], 1, 1, true, true);
    SkipsOwn(p, s3, 3, Winner(0, ShootDone, pass), sh);
    s := With(s3, 3, Winner(0, ExitFini, pass), DoorClosed(sh));
    assert 1 in s.sh.reg.threadList;
  }

  /** A thread that does not answer the signal in time is missed, though no thread was passed over. */
  lemma TimeOutMissed() returns (run: seq<State>)
    ensures IsRun(run) && Missed(run[|run| - 1], 3) && run[|run| - 1].frames[3].pass.skipped == []
  {
    FromStartClosed();
    var s := TimeOut(FromStart);
    run := RunTo(s);
  }

  lemma ProcessBegun(p: Property) returns (s: State)
    requires Closed(p) && p(INITIAL)
    ensures p(s) && s.sh.log.trace == [ExitWon(0), FiniProcessBegin]
    ensures Top(s, 2) && s.frames[2] == FirstFrame(1, 1).(at := CleanSet) && NodeAt(s.sh.reg, 1).life == 2
  {
    var s3 := GivenUp(p);
    var fr := s3.frames[3];
    Here(p, s3, 3);
    Begins(p, s3, 3, fr, s3.sh);
    s := With(s3, 3, fr.(at := InProcess), Apply(s3.sh, 3, Emit(FiniProcessBegin)));
  }

  /** The main thread has given up waiting for thread 1 and is about to call the process callback. */
  lemma GivenUp(p: Property) returns (s: State)
    requires Closed(p) && p(INITIAL)
    ensures p(s) && Top(s, 3) && s.frames[3].at.ExitFini? && s.sh.log.trace == [ExitWon(0)]
    ensures Top(s, 2) && s.frames[2] == FirstFrame(1, 1).(at := CleanSet) && NodeAt(s.sh.reg, 1).life == 2
  {
    var s3 := MainWalks(p);
    Here(p, s3, 3);
    WalksOut(p, s3, 3, Winner(0, ScanHead, FIRST_PASS), s3.sh, 1);
    var pass := Pass(1, None, [], 1, 1, true, true);
    SkipsOwn(p, s3, 3, Winner(0, ShootDone, pass), s3.sh);
    s := With(s3, 3, Winner(0, ExitFini, pass), DoorClosed(s3.sh));
  }

  lemma InCallbackLate(p: Property) returns (s: State)
    requires Closed(p) && p(INITIAL)
    ensures p(s) && s.sh.log.trace == [ExitWon(0), FiniProcessBegin, FiniThreadBegin(2)]
  {
    var s4 := ProcessBegun(p);
    Here(p, s4, 2);
    CallBegins(p, s4, 2, FirstFrame(1, 1).(at := CleanSet), s4.sh);
    s := With(s4, 2, FirstFrame(1, 1).(at := CleanIn), Apply(s4.sh, 2, Begin(1, 2)));
  }

  /** A thread that passed its test of monitor_fini_thread_done in time begins its callback inside the process
      callback; only one call is ever between test and store here. */
  lemma CallbackInProcess() returns (run: seq<State>)
    ensures IsRun(run) && run[|run| - 1].sh.log.trace == [ExitWon(0), FiniProcessBegin, FiniThreadBegin(2)]
  {
    FromStartClosed();
    var s := InCallbackLate(FromStart);
    run := RunTo(s);
  }

  // ----- the winner calls exit() again --------------------------------------------------------

  /** Thread 1 has won and is inside the process callback. */
  lemma InProcessCallback(p: Property) returns (s: State)
    requires Closed(p) && p(INITIAL)
    ensures p(s) && Top(s, 3) && s.frames[3].at.InProcess? && s.frames[3].thread == 1
    ensures Top(s, 0) && s.frames[0] == BOTTOM && s.sh.gate.nextFrame == 4 && s.sh.reg.tsd == map[0 := 0, 1 := 1]
    ensures s.sh.race.used && s.sh.race.cookie != 0 && NodeAt(s.sh.reg, 1).exitWin && !NodeAt(s.sh.reg, 0).exitWin
    ensures s.sh.log.trace == [ExitWon(1), FiniThreadBegin(2), FiniThreadEnd(2), FiniProcessBegin]
  {
    var sh := OwnCalled(p);
    var s3 := Exiting(1, Running, STARTED);
    var fr := OwnWinner();
    Begins(p, s3, 3, fr, sh);
    s := With(s3, 3, fr.(at := InProcess), Apply(sh, 3, Emit(FiniProcessBegin)));
  }

  function OwnWinner(): Frame {
    Winner(1, ExitFini, FIRST_PASS.(k := 1, mine := Some(1), walked := true)).(n := 1)
  }

  /** Thread 1 has won, walked the list and had its own callback. */
  lemma OwnCalled(p: Property) returns (sh: Shared)
    requires Closed(p) && p(INITIAL)
    ensures Reached(p, Exiting(1, Running, STARTED), 3, OwnWinner(), sh)
    ensures sh.gate.nextFrame == 4 && sh.reg.tsd == map[0 := 0, 1 := 1]
    ensures sh.race.used && sh.race.cookie != 0 && NodeAt(sh.reg, 1).exitWin && !NodeAt(sh.reg, 0).exitWin
    ensures sh.log.trace == [ExitWon(1), FiniThreadBegin(2), FiniThreadEnd(2)]
  {
    OwnWalked(p);
    var sh0 := Walking(STARTED, 1);
    assert sh0.reg.nodes[1] == TheNode(true).(exitWin := true);
    RunsOwn(p, Exiting(1, Running, STARTED), 3, OwnWinner().(at := ShootDone, n := 0), sh0);
    sh := CalledOwn(DoorClosed(sh0), 3, 1);
  }

  lemma OwnWalked(p: Property)
    requires Closed(p) && p(INITIAL)
    ensures Reached(p, Exiting(1, Running, STARTED), 3, OwnWinner().(at := ShootDone, n := 0), Walking(STARTED, 1))
  {
    ToRunning(p);
    ExitWins(p, 1, Running, STARTED);
    assert Walking(STARTED, 1).reg.nodes[1] == TheNode(true).(exitWin := true);
    WalksOwn(p, Exiting(1, Running, STARTED), 3, Winner(1, ScanHead, FIRST_PASS), Walking(STARTED, 1), 1);
  }

  /** The main thread calls exit() as well, and waits. */
  lemma MainLoses(p: Property, s: State) returns (s': State)
    requires Closed(p) && p(s) && Top(s, 0) && s.frames[0] == BOTTOM && 0 in s.sh.reg.tsd && s.sh.reg.tsd[0] == 0
    requires s.sh.race.used && s.sh.race.cookie != 0 && !NodeAt(s.sh.reg, 0).exitWin
    ensures var id := s.sh.gate.nextFrame;
      && p(s')
      && s' == State(s.frames[id := Frame(0, Some(0), ExitWait, 0, Some(0), FIRST_PASS)], s.tops[0 := Some(id)],
                              s.nextThread, s.sh.(gate := s.sh.gate.(nextFrame := id + 1)))
  {
    var id := s.sh.gate.nextFrame;
    Pushes(p, s, 0, Exit);
    var s1 := Pushed(s, 0, Exit);
    var fr := Frame(0, Some(0), ExitCas, 0, Some(0), FIRST_PASS);
    assert s1.frames[id] == fr;
    Here(p, s1, id);
    LosesRace(p, s1, id, fr, s1.sh);
    s' := With(s1, id, fr.(at := ExitWait), s1.sh);
    assert s.frames[id := fr][id := fr.(at := ExitWait)] == s.frames[id := fr.(at := ExitWait)];
  }

  /** The process callback calls exit() again: a waiting loser goes on before the callback has returned. */
  lemma WinnerReenters() returns (run: seq<State>)
    ensures IsRun(run)
    ensures run[|run| - 1].sh.log.trace ==
      [ExitWon(1), FiniThreadBegin(2), FiniThreadEnd(2), FiniProcessBegin, RepeatWinner(1), LoserResumed(0)]
  {
    FromStartClosed();
    var s0 := InProcessCallback(FromStart);
    var s := MainLoses(FromStart, s0);
    ReachedInv(s);
    RepeatReleases(s, 3, 4);
    var s' :| Leads(s, s') && s'.sh.log.trace == s.sh.log.trace + [RepeatWinner(1), LoserResumed(0)];
    ClosedLeads(FromStart, s, s');
    run := RunTo(s');
  }

  lemma ReachedInv(s: State)
    requires FromStart(s)
    ensures Inv(s)
  {
    var run := RunTo(s);
    InvRun(run, |run| - 1);
  }

  // ----- a thread that has given its node back ------------------------------------------------

  const GIVEN_BACK := Registry([ZERO_NODE, ZERO_NODE.(life := 3)], [], [1], 1, 1, map[0 := 0, 1 := 1], 4, map[1 := 2])
  const ENDED := Shared(GATE, GIVEN_BACK, USED, Log([FiniThreadBegin(2), FiniThreadEnd(2)], map[2 := 2]))

  const RETURNED := CALLED.(reg := TheRegistry(TheNode(true).(finiStarted := true, finiDone := true)), log := ENDED.log)

  lemma ToUnLock(p: Property)
    requires Closed(p) && p(INITIAL)
    ensures p(Base(UnLock, RETURNED))
  {
    ToCleanIn(p);
    Here(p, Base(CleanIn, CALLED), 2);
    CallReturns(p, Base(CleanIn, CALLED), 2, FirstFrame(1, 1).(at := CleanIn), CALLED);
    assert Apply(CALLED, 2, End(1, 2)) == RETURNED;
    Moves(p, CleanIn, CALLED, UnLock, RETURNED);
  }

  lemma GivenBack()
    ensures UnlinkedReg(RETURNED.reg, 1) == GIVEN_BACK
  {
    assert Delete([1], 1) == [];
    assert UnlinkedReg(RETURNED.reg, 1).nodes == GIVEN_BACK.nodes;
  }

  lemma ToTail(p: Property)
    requires Closed(p) && p(INITIAL)
    ensures p(Base(Tail, ENDED))
  {
    ToUnLock(p);
    Here(p, Base(UnLock, RETURNED), 2);
    Unlink(p, Base(UnLock, RETURNED), 2, FirstFrame(1, 1).(at := UnLock), RETURNED);
    GivenBack();
    assert RETURNED.(reg := GIVEN_BACK) == ENDED;
    Moves(p, UnLock, RETURNED, Tail, ENDED);
  }

  /** The main thread runs the application, thread 1 is after its cleanup, and thread 2 has started. */
  function Second(at: At, sh: Shared): State {
    State(map[0 := BOTTOM, 2 := FirstFrame(1, 1).(at := Tail), 4 := FirstFrame(2, 1).(at := at)],
          map[0 := Some(0), 1 := Some(2), 2 := Some(4)], 3, sh)
  }

  const AGAIN_GATE := Gate(0, false, false, None, None, 5)

  function Again(reg: Registry): Shared { Shared(AGAIN_GATE, reg, USED, ENDED.log) }

  const REMADE :=
    Registry([ZERO_NODE, ZERO_NODE.(tid := -1, life := 4)], [], [], 1, 1, map[0 := 0, 1 := 1], 5, map[1 := 4])

  /** Thread 2 is given the node that thread 1 has given back. */
  lemma Remade(p: Property)
    requires Closed(p) && p(INITIAL)
    ensures p(Second(BeginWait, Again(REMADE)))
  {
    ToTail(p);
    Pushes(p, Base(Tail, ENDED), 0, Create);
    var s := Pushed(Base(Tail, ENDED), 0, Create);
    var fr := Frame(0, Some(0), MakeLock, 0, None, FIRST_PASS);
    assert s.frames[3] == fr;
    Here(p, s, 3);
    Make(p, s, 3, fr, s.sh);
    var fr' := fr.(at := MakePre, n := 1);
    var sh' := s.sh.(reg := MadeReg(s.sh.reg, 3, 4));
    Spawns(p, s, 3, fr', sh');
    RemadeIs(s, fr', sh');
  }

  lemma RemadeIs(s: State, fr: Frame, sh: Shared)
    requires s == Pushed(Base(Tail, ENDED), 0, Create) && fr == Frame(0, Some(0), MakePre, 1, None, FIRST_PASS)
    requires sh == s.sh.(reg := MadeReg(s.sh.reg, 3, 4))
    ensures Spawned(s, 3, fr, sh) == Second(BeginWait, Again(REMADE))
  {
    assert sh.reg.nodes == REMADE.nodes;
    assert Spawned(s, 3, fr, sh).frames == Second(BeginWait, sh).frames;
    assert Spawned(s, 3, fr, sh).tops == Second(BeginWait, sh).tops;
    assert Spawned(s, 3, fr, sh).sh.reg.holder == REMADE.holder;
  }

  const REUSED := Registry([ZERO_NODE, Node(2, Some(2), true, false, false, false, false, 4)], [1], [], 1, 2,
                           map[0 := 0, 1 := 1, 2 := 1], 5, map[1 := 4])

  lemma Restarted(p: Property)
    requires Closed(p) && p(INITIAL)
    ensures p(Second(Running, Again(REUSED)))
  {
    Remade(p);
    var s := Second(BeginWait, Again(REMADE));
    Here(p, s, 4);
    Link(p, s, 4, FirstFrame(2, 1), s.sh);
    var reg := LinkedReg(REMADE, 2, 1);
    Start(p, s, 4, FirstFrame(2, 1).(at := ApplSet), Again(reg));
    assert StartedReg(reg, 1) == REUSED;
    assert With(s, 4, FirstFrame(2, 1).(at := Running), Again(REUSED)) == Second(Running, Again(REUSED));
  }

  /** Thread 2 wins the race and marks its node, which is the one that thread 1 finds, and the main thread waits. */
  lemma StaleMarked(p: Property) returns (s: State)
    requires Closed(p) && p(INITIAL)
    ensures p(s) && Top(s, 2) && s.frames[2].thread == 1 && Top(s, 6) && s.frames[6].at.ExitWait? &&
      s.frames[6].thread == 0
    ensures s.sh.race.used && s.sh.race.cookie != 0 && 1 in s.sh.reg.tsd && s.sh.reg.tsd[1] == 1 &&
      NodeAt(s.sh.reg, 1).exitWin
    ensures !Own(s.sh.reg, 1, 1) && s.sh.log.trace == [FiniThreadBegin(2), FiniThreadEnd(2), ExitWon(2)]
  {
    Restarted(p);
    Pushes(p, Second(Running, Again(REUSED)), 4, Exit);
    var s4 := Pushed(Second(Running, Again(REUSED)), 4, Exit);
    var fr := Frame(2, Some(4), ExitCas, 0, Some(1), FIRST_PASS);
    assert s4.frames[5] == fr;
    Here(p, s4, 5);
    Wins(p, s4, 5, fr, s4.sh);
    s := MainLoses(p, With(s4, 5, fr.(at := ExitUsed), WonBy(s4.sh, 5, 2, 1)));
  }

  /** A thread that has given its node back calls exit() after the winner has taken that node: it is taken for the
      winner, and a waiting loser goes on before the process callback has begun. */
  lemma StaleNodeReleases() returns (run: seq<State>)
    ensures IsRun(run)
    ensures run[|run| - 1].sh.log.trace ==
      [FiniThreadBegin(2), FiniThreadEnd(2), ExitWon(2), RepeatWinner(1), LoserResumed(0)]
  {
    FromStartClosed();
    var s := StaleMarked(FromStart);
    ReachedInv(s);
    RepeatReleases(s, 2, 6);
    var s' :| Leads(s, s') && s'.sh.log.trace == s.sh.log.trace + [RepeatWinner(1), LoserResumed(0)];
    ClosedLeads(FromStart, s, s');
    run := RunTo(s');
  }
}
