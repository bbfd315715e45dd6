/** Runs from the start of the process that lose a node, one for each of the four ways, and one that leaves the node of
    a thread that is gone on the thread list. */
module ExitLosses {
  import opened Options
  import opened ExitMachine
  import opened ExitRuns
  import opened ExitExample

  // ----- before main: thread support is not done ----------------------------------------------

  /** The main thread is in monitor_thread_pre_create for the first thread. */
  function PreCreate(): Frame { Frame(0, Some(0), MakePre, 1, None, FIRST_PASS) }

  lemma InPreCreate(p: Property) returns (s: State, sh: Shared)
    requires Closed(p) && p(INITIAL)
    ensures s == Pushed(INITIAL, 0, Create) && Reached(p, s, 1, PreCreate(), sh)
    ensures sh.log.trace == [] && sh.gate.nextFrame == 2 && !sh.race.supportDone
  {
    Pushes(p, INITIAL, 0, Create);
    s := Pushed(INITIAL, 0, Create);
    var fr := Frame(0, Some(0), MakeLock, 0, None, FIRST_PASS);
    assert s.frames[1] == fr;
    Here(p, s, 1);
    Make(p, s, 1, fr, s.sh);
    sh := s.sh.(reg := MadeReg(s.sh.reg, 1, 2));
  }

  /** The creator is cancelled in monitor_thread_pre_create. */
  lemma CreatorCancelled() returns (run: seq<State>)
    ensures IsRun(run) && run[|run| - 1].sh.log.trace == [NodeLost(1)]
  {
    FromStartClosed();
    var s, sh := InPreCreate(FromStart);
    Loses(FromStart, s, 1, PreCreate(), sh, true);
    run := RunTo(Ended(s, 1, PreCreate(), sh));
  }

  /** The real pthread_create fails. */
  lemma CreateFails() returns (run: seq<State>)
    ensures IsRun(run) && run[|run| - 1].sh.log.trace == [NodeLost(1)]
  {
    FromStartClosed();
    var s, sh := InPreCreate(FromStart);
    var fr := PreCreate().(at := MakeDone);
    GoMake(FromStart, s, 1, PreCreate(), sh, Read, fr);
    Loses(FromStart, s, 1, fr, sh, false);
    run := RunTo(Ended(s, 1, fr, sh));
  }

  lemma Waiting(p: Property) returns (s: State)
    requires Closed(p) && p(INITIAL)
    ensures p(s) && Top(s, 2) && s.frames[2] == FirstFrame(1, 1) && s.sh.log.trace == [] && !s.sh.race.supportDone
  {
    var s1, sh := InPreCreate(p);
    Spawns(p, s1, 1, PreCreate(), sh);
    s := Spawned(s1, 1, PreCreate(), sh);
  }

  /** A thread that waits for thread support is cancelled in usleep. */
  lemma WaiterCancelled() returns (run: seq<State>)
    ensures IsRun(run) && run[|run| - 1].sh.log.trace == [NodeLost(1)]
  {
    FromStartClosed();
    var s := Waiting(FromStart);
    var fr := FirstFrame(1, 1).(at := BeginSleep);
    Here(FromStart, s, 2);
    GoBegin(FromStart, s, 2, FirstFrame(1, 1), s.sh, Read, fr);
    Loses(FromStart, s, 2, fr, s.sh, true);
    run := RunTo(Ended(s, 2, fr, s.sh));
  }

  // ----- in exit cleanup ----------------------------------------------------------------------

  lemma Frozen(p: Property) returns (s: State)
    requires Closed(p) && p(INITIAL)
    ensures p(s) && Top(s, 2) && s.frames[2] == FirstFrame(1, 1) && s.sh.log.trace == [ExitWon(0)]
    ensures Unlocked(s.sh.gate) && s.sh.gate.inExit && s.sh.race.supportDone
  {
    var sh := Shared(GATE, MADE, USED, NO_LOG);
    Made(p);
    ExitWins(p, 0, BeginWait, sh);
    s := With(Exiting(0, BeginWait, sh), 3, Winner(0, ScanHead, FIRST_PASS), Walking(sh, 0));
  }

  /** A thread starts after the freeze and is refused. */
  lemma ThreadRefused() returns (run: seq<State>)
    ensures IsRun(run) && run[|run| - 1].sh.log.trace == [ExitWon(0), NodeLost(1)]
  {
    FromStartClosed();
    var s := Frozen(FromStart);
    var fr := FirstFrame(1, 1).(at := Refused);
    var sh := s.sh.(reg := ApplyReg(s.sh.reg, 0, SetSelf(1, 1), 0));
    Here(FromStart, s, 2);
    Refuses(FromStart, s, 2, FirstFrame(1, 1), s.sh);
    Loses(FromStart, s, 2, fr, sh, false);
    run := RunTo(Ended(s, 2, fr, sh));
  }

  // ----- in the init callback -----------------------------------------------------------------

  /** A thread is cancelled in monitor_init_thread: it is gone, without a callback, and its node stays on the thread
      list. */
  lemma InitCancelled() returns (run: seq<State>)
    ensures IsRun(run)
    ensures var s := run[|run| - 1];
      && s.sh.log.trace == [] && s.sh.reg.threadList == [1] && NodeAt(s.sh.reg, 1).self == Some(1)
      && 1 in s.tops && s.tops[1] == None && forall f :: f in s.frames ==> s.frames[f].thread == 0
  {
    FromStartClosed();
    var sh := Shared(GATE, MADE, USED, NO_LOG);
    var s := Base(BeginWait, sh);
    var fr := FirstFrame(1, 1);
    Made(FromStart);
    Here(FromStart, s, 2);
    Inserts(FromStart, s, 2, fr, sh);
    InitCancels(FromStart, s, 2, fr.(at := InInit), sh.(reg := LinkedReg(MADE, 1, 1)));
    run := RunTo(State(s.frames - {2}, s.tops[1 := None], 2, sh.(reg := LinkedReg(MADE, 1, 1))));
  }
}
