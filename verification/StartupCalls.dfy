/** Who calls the start callbacks: main and every later pthread_create see to it that thread support is done, a
    process without threads never calls it, and monitor_init_thread is called once for each thread with a node. */
module StartupCalls {
  import opened Startup

  // ----- thread support -----------------------------------------------------------------------

  /** Inside monitor_call_thread_support. */
  predicate InCall(pc: Pc) { pc == SupTest || pc == SupCall || pc == InSupport || pc == SupSet }

  /** Thread support is done, or call k of thread t is to see to it. */
  predicate Provided(s: State, t: int, k: int) { s.flags.supportDone || InCall(PointAt(s, t, k)) }

  lemma ProvidedMove(s: State, u: int, t: int, k: int)
    requires Enabled(s, Step(u)) && InCall(PointAt(s, t, k))
    ensures Provided(Do(s, Step(u)), t, k)
  {
    StepPoints(s, u);
    assert PointAt(s, u, |s.threads[u].stack| - 1) == Top(s, u);
  }

  lemma ProvidedOther(s: State, a: Action, t: int, k: int)
    requires Enabled(s, a) && !a.Step? && InCall(PointAt(s, t, k))
    ensures Provided(Do(s, a), t, k)
  {
    assert PointAt(Do(s, a), t, k) == PointAt(s, t, k);
  }

  lemma ProvidedStep(s: State, a: Action, t: int, k: int)
    requires Enabled(s, a) && Provided(s, t, k)
    ensures Provided(Do(s, a), t, k)
  {
    if !s.flags.supportDone {
      if a.Step? { ProvidedMove(s, a.t, t, k); } else { ProvidedOther(s, a, t, k); }
    }
  }

  /** A call of monitor_call_thread_support returns only when thread support is done. */
  lemma {:induction false} ProvidedRun(run: seq<State>, acts: seq<Action>, i: int, j: int, t: int, k: int)
    requires IsRun(run, acts) && 0 <= i <= j < |run| && Provided(run[i], t, k)
    ensures Provided(run[j], t, k)
    decreases j
  {
    if i < j {
      ProvidedRun(run, acts, i, j - 1, t, k);
      ProvidedStep(run[j - 1], acts[j - 1], t, k);
      assert run[(j - 1) + 1] == Do(run[j - 1], acts[j - 1]);
    }
  }

  /** monitor_thread_release: if threads have been used when main tests for it, then main gets to its own code only
      after monitor_init_thread_support has returned, so that the threads created before main can start. */
  lemma ReleaseCallsSupport(run: seq<State>, acts: seq<Action>, i: int, j: int)
    requires IsRun(run, acts) && 0 <= i < j < |run| && acts[i] == Step(0)
    requires Top(run[i], 0) == RelTest && run[i].flags.used
    requires Running(run[j], 0) && run[j].threads[0].stack == [Code]
    ensures run[j].flags.supportDone && SupportEnd in run[j].trace
  {
    var k := |run[i].threads[0].stack|;
    StepPoints(run[i], 0);
    assert PointAt(run[i + 1], 0, k) == SupTest;
    ProvidedRun(run, acts, i + 1, j, 0, k);
    OrderRun(run, acts, j);
  }

  /** Call k of thread t is one of pthread_create on its way to start a thread, which will find thread support done. */
  predicate Creating(s: State, t: int, k: int) {
    match PointAt(s, t, k)
    case CreateUsed => s.flags.released
    case CreateIgnore => s.flags.released
    case CreateDone => s.flags.released
    case CreateMain => s.flags.released
    case CreateLaunch => s.flags.released && Provided(s, t, k + 1)
    case _ => false
  }

  predicate Deep(s: State, t: int, k: int) { 0 <= t < |s.threads| && 0 <= k < |s.threads[t].stack| }

  lemma CreatingMove(s: State, u: int, t: int, k: int)
    requires Enabled(s, Step(u)) && Creating(s, t, k) && Deep(Do(s, Step(u)), t, k)
    requires PointAt(s, t, k) == CreateLaunch ==> Provided(Do(s, Step(u)), t, k + 1)
    ensures Creating(Do(s, Step(u)), t, k)
  {
    StepPoints(s, u);
    assert PointAt(s, u, |s.threads[u].stack| - 1) == Top(s, u);
    assert u == t && k == |s.threads[u].stack| - 1 ==> PointAt(s, t, k) == Top(s, u);
  }

  lemma CreatingOther(s: State, a: Action, t: int, k: int)
    requires Enabled(s, a) && !a.Step? && Creating(s, t, k)
    requires PointAt(s, t, k) == CreateLaunch ==> Provided(Do(s, a), t, k + 1)
    ensures Creating(Do(s, a), t, k)
  {
    assert PointAt(Do(s, a), t, k) == PointAt(s, t, k);
  }

  lemma CreatingStep(s: State, a: Action, t: int, k: int)
    requires Enabled(s, a) && Creating(s, t, k) && Deep(Do(s, a), t, k)
    ensures Creating(Do(s, a), t, k)
  {
    if PointAt(s, t, k) == CreateLaunch { ProvidedStep(s, a, t, k + 1); }
    if a.Step? { CreatingMove(s, a.t, t, k); } else { CreatingOther(s, a, t, k); }
  }

  lemma {:induction false} CreatingRun(run: seq<State>, acts: seq<Action>, i: int, j: int, t: int, k: int)
    requires IsRun(run, acts) && 0 <= i <= j < |run| && Creating(run[i], t, k)
    requires forall m :: i <= m <= j ==> Deep(run[m], t, k)
    ensures Creating(run[j], t, k)
    decreases j
  {
    if i < j {
      CreatingRun(run, acts, i, j - 1, t, k);
      assert run[(j - 1) + 1] == Do(run[j - 1], acts[j - 1]);
      assert Deep(run[j], t, k);
      CreatingStep(run[j - 1], acts[j - 1], t, k);
    }
  }

  /** A call of pthread_create that begins after the release starts its thread only when monitor_init_thread_support
      has returned. */
  lemma CreateCallsSupport(run: seq<State>, acts: seq<Action>, i: int, j: int, t: int, k: int)
    requires IsRun(run, acts) && 0 <= i <= j < |run| && run[i].flags.released && PointAt(run[i], t, k) == CreateUsed
    requires forall m :: i <= m <= j ==> Deep(run[m], t, k)
    requires Deep(run[j], t, k) && |run[j].threads[t].stack| == k + 1 && run[j].threads[t].stack[k] == CreateLaunch
    ensures run[j].flags.supportDone && SupportEnd in run[j].trace
  {
    CreatingRun(run, acts, i, j, t, k);
    OrderRun(run, acts, j);
  }

  /** Past the store to monitor_has_used_threads. */
  predicate AfterUse(pc: Pc) {
    match pc
    case CreateIgnore | CreateDone | CreateMain | CreateLaunch | SupTest | SupCall | InSupport | SupSet => true
    case _ => false
  }

  ghost predicate UseInv(s: State) {
    && (forall t, k :: AfterUse(PointAt(s, t, k)) ==> s.flags.used)
    && (|s.threads| > 1 || s.flags.supportDone || SupportBegin in s.trace ==> s.flags.used)
  }

  lemma UseStep(s: State, a: Action)
    requires Enabled(s, a) && UseInv(s)
    ensures UseInv(Do(s, a))
  {
    match a
    case Step(u) =>
      StepPoints(s, u);
      assert PointAt(s, u, |s.threads[u].stack| - 1) == Top(s, u);
    case Create(u) => assert forall t, k :: AfterUse(PointAt(Do(s, a), t, k)) ==> AfterUse(PointAt(s, t, k));
    case Ignore(u, on) => assert forall t, k :: PointAt(Do(s, a), t, k) == PointAt(s, t, k);
  }

  lemma {:induction false} UseRun(run: seq<State>, acts: seq<Action>, i: int)
    requires IsRun(run, acts) && 0 <= i < |run|
    ensures UseInv(run[i])
  {
    if i > 0 {
      UseRun(run, acts, i - 1);
      UseStep(run[i - 1], acts[i - 1]);
      assert run[(i - 1) + 1] == Do(run[i - 1], acts[i - 1]);
    }
  }

  /** Thread support is called only in a process that uses threads. */
  lemma SupportOnlyIfUsed(run: seq<State>, acts: seq<Action>, i: int)
    requires IsRun(run, acts) && 0 <= i < |run|
    ensures |run[i].threads| > 1 || SupportBegin in run[i].trace || run[i].flags.supportDone ==> run[i].flags.used
  {
    UseRun(run, acts, i);
  }

  // ----- the threads --------------------------------------------------------------------------

  /** Which steps start a thread, and what it starts with: pthread_create, with a node and in the wait for thread
      support, or in its own code when the creating thread is told to ignore its threads. */
  lemma StepStarts(s: State, t: int)
    requires Enabled(s, Step(t))
    ensures var th, s' := s.threads[t], Do(s, Step(t));
      var n := |s.threads|;
      && |s'.threads| == n + (if Top(s, t) == CreateLaunch || (Top(s, t) == CreateIgnore && th.ignores && th.hasNode)
                              then 1 else 0)
      && (Top(s, t) == CreateLaunch ==> s'.threads[n] == Thread([Wait], true, false))
      && (Top(s, t) == CreateIgnore && th.ignores && th.hasNode ==> s'.threads[n] == Thread([Code], false, false))
  {
  }

  /** The bottom call of a thread: its own code, or for the main thread the calls before main, and for another
      monitor_begin_thread. */
  predicate Bottom(u: int, pc: Pc) {
    match pc
    case Code => true
    case Early | Reach | ProcTest | ProcCall | InProcess | RelTest | RelSet => u == 0
    case Wait | InitCall => u > 0
    case _ => false
  }

  predicate Upper(pc: Pc) {
    match pc
    case SupTest | SupCall | InSupport | SupSet => true
    case CreateUsed | CreateIgnore | CreateDone | CreateMain | CreateLaunch => true
    case _ => false
  }

  predicate ThreadOk(u: int, th: Thread) {
    && th.stack != [] && Bottom(u, th.stack[0]) && (th.stack[0] == Wait ==> |th.stack| == 1)
    && (forall k :: 0 < k < |th.stack| ==> Upper(th.stack[k]))
    && (!th.hasNode ==> u > 0 && th.stack[0] == Code)
  }

  /** What the main thread has been through. */
  predicate MainOk(g: Flags, trace: seq<Event>, pc: Pc) {
    match pc
    case ProcTest => g.reachedMain
    case InProcess => ProcessBegin in trace
    case RelTest | RelSet => ProcessBegin in trace && ProcessEnd in trace
    case Code => ProcessBegin in trace && ProcessEnd in trace && g.released
    case _ => true
  }

  predicate Started(s: State, u: int) {
    0 < u < |s.threads| && s.threads[u].hasNode && s.threads[u].stack != [] && s.threads[u].stack[0] == Code
  }

  predicate BeginsOnce(trace: seq<Event>) {
    forall i, j :: 0 <= i < j < |trace| && trace[i].ThreadBegin? && trace[j].ThreadBegin? ==> trace[i].t != trace[j].t
  }

  ghost predicate ThreadsInv(s: State) {
    && 0 < |s.threads| && (forall u :: 0 <= u < |s.threads| ==> ThreadOk(u, s.threads[u]))
    && MainOk(s.flags, s.trace, s.threads[0].stack[0])
    && BeginsOnce(s.trace) && (forall u :: ThreadBegin(u) in s.trace <==> Started(s, u))
  }

  /** The thread that moves. */
  lemma MovedThread(s: State, t: int)
    requires Enabled(s, Step(t)) && ThreadOk(t, s.threads[t])
    ensures ThreadOk(t, Do(s, Step(t)).threads[t])
  {
    var st := s.threads[t].stack;
    assert st[..|st| - 1] + EffectOf(s, t).to != [];
  }

  /** Which moves come to the thread's own code. */
  lemma MovedToCode(s: State, t: int)
    requires Enabled(s, Step(t)) && ThreadOk(t, s.threads[t])
    ensures Top(s, t) == InitCall ==> |s.threads[t].stack| == 1 && t > 0 && s.threads[t].hasNode
    ensures Do(s, Step(t)).threads[t].stack != []
    ensures Top(s, t) != InitCall ==> (Do(s, Step(t)).threads[t].stack[0] == Code <==>
      s.threads[t].stack[0] == Code || Top(s, t) == RelSet || (Top(s, t) == ProcTest && !s.flags.reachedMain))
  {
    var st := s.threads[t].stack;
    assert st[..|st| - 1] + EffectOf(s, t).to != [];
  }

  lemma MovedMain(s: State, t: int)
    requires Enabled(s, Step(t)) && 0 < |s.threads| && ThreadOk(0, s.threads[0])
    requires MainOk(s.flags, s.trace, s.threads[0].stack[0])
    ensures var s' := Do(s, Step(t)); s'.threads[0].stack != [] && MainOk(s'.flags, s'.trace, s'.threads[0].stack[0])
  {
    MainGrows(s, t);
    if t == 0 { MovedToCode(s, 0); }
  }

  lemma MainGrows(s: State, t: int)
    requires Enabled(s, Step(t))
    ensures var s' := Do(s, Step(t)); forall pc :: MainOk(s.flags, s.trace, pc) ==> MainOk(s'.flags, s'.trace, pc)
  {
  }

  /** monitor_init_thread begins for the thread that steps from its call, and for no other. */
  lemma BeginsFor(s: State, t: int, u: int)
    requires Enabled(s, Step(t))
    ensures ThreadBegin(u) in Do(s, Step(t)).trace <==> ThreadBegin(u) in s.trace || (u == t && Top(s, t) == InitCall)
    ensures BeginsOnce(s.trace) && (Top(s, t) == InitCall ==> ThreadBegin(t) !in s.trace) ==>
      BeginsOnce(Do(s, Step(t)).trace)
  {
    var more := EffectOf(s, t).events;
    assert |more| <= 1 && forall i :: 0 <= i < |s.trace| ==> (s.trace + more)[i] == s.trace[i];
  }

  lemma ThreadsStep(s: State, t: int)
    requires Enabled(s, Step(t)) && ThreadsInv(s)
    ensures ThreadsInv(Do(s, Step(t)))
  {
    var s' := Do(s, Step(t));
    assert ThreadOk(t, s.threads[t]);
    MovedThread(s, t);
    MovedToCode(s, t);
    MovedMain(s, t);
    StepStarts(s, t);
    forall u ensures ThreadBegin(u) in s'.trace <==> Started(s', u) {
      BeginsFor(s, t, u);
    }
    BeginsFor(s, t, t);
  }

  lemma ThreadsOther(s: State, a: Action)
    requires Enabled(s, a) && ThreadsInv(s) && !a.Step?
    ensures ThreadsInv(Do(s, a))
  {
    assert ThreadOk(a.t, s.threads[a.t]);
  }

  lemma {:induction false} ThreadsRun(run: seq<State>, acts: seq<Action>, i: int)
    requires IsRun(run, acts) && 0 <= i < |run|
    ensures ThreadsInv(run[i])
  {
    if i > 0 {
      ThreadsRun(run, acts, i - 1);
      if acts[i - 1].Step? { ThreadsStep(run[i - 1], acts[i - 1].t); } else { ThreadsOther(run[i - 1], acts[i - 1]); }
      assert run[(i - 1) + 1] == Do(run[i - 1], acts[i - 1]);
    }
  }

  /** In every run monitor_init_thread is called once for each thread with a node before its own code, and for no
      other: not for the main thread, an ignored thread or one that still waits. */
  lemma InitThreadExactly(run: seq<State>, acts: seq<Action>, i: int, u: int)
    requires IsRun(run, acts) && 0 <= i < |run|
    ensures ThreadBegin(u) in run[i].trace <==>
      (0 < u < |run[i].threads| && run[i].threads[u].hasNode && run[i].threads[u].stack != [] &&
       run[i].threads[u].stack[0] == Code)
    ensures var trace := run[i].trace;
      forall j, k :: 0 <= j < k < |trace| && trace[j].ThreadBegin? && trace[k].ThreadBegin? ==> trace[j].t != trace[k].t
  {
    ThreadsRun(run, acts, i);
  }

  /** Main gets to its own code only after monitor_init_process has been called and has returned. */
  lemma MainAfterProcess(run: seq<State>, acts: seq<Action>, i: int)
    requires IsRun(run, acts) && 0 <= i < |run|
    ensures Running(run[i], 0)
    ensures run[i].threads[0].stack[0] == Code ==>
      ProcessBegin in run[i].trace && ProcessEnd in run[i].trace && run[i].flags.released
  {
    ThreadsRun(run, acts, i);
  }

  /** About to call monitor_call_thread_support, or inside it. */
  predicate CallsSupport(pc: Pc) { pc == CreateMain || InCall(pc) }

  /** Main is in its own code, thread support is done and nobody is on the way to call it. */
  ghost predicate Settled(s: State) {
    && s.flags.supportDone && Running(s, 0) && s.threads[0].stack[0] == Code
    && forall t, k :: !CallsSupport(PointAt(s, t, k))
  }

  lemma SettledStep(s: State, u: int)
    requires Enabled(s, Step(u)) && ThreadsInv(s) && Settled(s)
    ensures Settled(Do(s, Step(u)))
  {
    assert ThreadOk(0, s.threads[0]) && ThreadOk(u, s.threads[u]);
    StepPoints(s, u);
    assert PointAt(s, u, |s.threads[u].stack| - 1) == Top(s, u);
    MovesOn(s.flags, Top(s, u), s.threads[u].ignores && s.threads[u].hasNode, u);
    if u == 0 { MovedToCode(s, 0); }
  }

  lemma MovesOn(g: Flags, pc: Pc, ignores: bool, t: int)
    requires g.supportDone && !CallsSupport(pc) && pc != RelTest
    ensures var e := Move(g, pc, ignores, t);
      e.flags.supportDone && forall k :: 0 <= k < |e.to| ==> !CallsSupport(e.to[k])
  {
  }

  lemma SettledOther(s: State, a: Action)
    requires Enabled(s, a) && Settled(s) && !a.Step?
    ensures Settled(Do(s, a))
  {
    assert forall t, k :: PointAt(Do(s, a), t, k) in {PointAt(s, t, k), CreateUsed};
  }

  lemma {:induction false} SettledRun(run: seq<State>, acts: seq<Action>, i: int, j: int)
    requires IsRun(run, acts) && 0 <= i <= j < |run| && Settled(run[i])
    ensures Settled(run[j])
    decreases j
  {
    if i < j {
      SettledRun(run, acts, i, j - 1);
      ThreadsRun(run, acts, j - 1);
      if acts[j - 1].Step? { SettledStep(run[j - 1], acts[j - 1].t); } else { SettledOther(run[j - 1], acts[j - 1]); }
      assert run[(j - 1) + 1] == Do(run[j - 1], acts[j - 1]);
    }
  }

  /** Once main is in its own code and thread support is done, with nobody on the way to call it, no pthread_create
      calls it again. */
  lemma NeverCalledAgain(run: seq<State>, acts: seq<Action>, i: int, j: int)
    requires IsRun(run, acts) && 0 <= i <= j < |run| && run[i].flags.supportDone && Running(run[i], 0)
    requires run[i].threads[0].stack[0] == Code
    requires forall t, k :: PointAt(run[i], t, k) != CreateMain && !InCall(PointAt(run[i], t, k))
    ensures forall t, k :: PointAt(run[j], t, k) != CreateMain && !InCall(PointAt(run[j], t, k))
  {
    SettledRun(run, acts, i, j);
  }
}
