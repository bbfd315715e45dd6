/** The order of the start callbacks: monitor_init_process, monitor_init_thread_support and
    monitor_init_thread, in a process whose threads may be created before main, inside callbacks or by
    threads that monitor ignores (monitor/src/main.c and monitor/src/pthread.c).  A thread is a stack
    of program points; each step makes one access to the shared flags. */
module Startup {

  datatype Event = ProcessBegin | ProcessEnd | SupportBegin | SupportEnd | ThreadBegin(t: int)

  datatype Pc =
    | Code                                        // application code
      // monitor_main, from the library constructors to the application's main
    | Early | Reach | ProcTest | ProcCall | InProcess | RelTest | RelSet
      // monitor_call_thread_support
    | SupTest | SupCall | InSupport | SupSet
      // pthread_create
    | CreateUsed | CreateIgnore | CreateDone | CreateMain | CreateLaunch
      // monitor_begin_thread
    | Wait | InitCall

  /** A thread: its calls, the last on top, and its tn_ignore_threads if it has a node. */
  datatype Thread = Thread(stack: seq<Pc>, hasNode: bool, ignores: bool)

  /** monitor_has_reached_main of main.c and of pthread.c, and the other two flags. */
  datatype Flags = Flags(reachedMain: bool, released: bool, used: bool, supportDone: bool)

  datatype State = State(threads: seq<Thread>, flags: Flags, trace: seq<Event>)

  const FLAGS0 := Flags(false, false, false, false)
  const START := State([Thread([Early], true, false)], FLAGS0, [])

  /** `Step` moves the top call of a thread, `Create` calls pthread_create on top of whatever runs, and
      `Ignore` is monitor_disable_new_threads or monitor_enable_new_threads. */
  datatype Action = Step(t: int) | Create(t: int) | Ignore(t: int, on: bool)

  predicate Running(s: State, t: int) { 0 <= t < |s.threads| && s.threads[t].stack != [] }

  function Top(s: State, t: int): Pc
    requires Running(s, t)
  {
    s.threads[t].stack[|s.threads[t].stack| - 1]
  }

  predicate Enabled(s: State, a: Action) {
    match a
    case Step(t) => Running(s, t) && Top(s, t) != Code && (Top(s, t) == Wait ==> s.flags.supportDone)
    case Create(t) => Running(s, t) && Top(s, t) != Wait
    case Ignore(t, _) => Running(s, t) && s.threads[t].hasNode
  }

  /** What a step does: the calls that replace the top one, the flags, the event, and the thread that
      is started. */
  datatype Effect = Effect(to: seq<Pc>, flags: Flags, events: seq<Event>, child: seq<Thread>)

  function Move(g: Flags, pc: Pc, ignores: bool, t: int): Effect {
    var e := Effect([], g, [], []);
    match pc
    case Code => e.(to := [Code])
    case Early => e.(to := [Reach])
    case Reach => e.(to := [ProcTest], flags := g.(reachedMain := true))
    case ProcTest => e.(to := [if g.reachedMain then ProcCall else Code])
    case ProcCall => e.(to := [InProcess], events := [ProcessBegin])
    case InProcess => e.(to := [RelTest], events := [ProcessEnd])
    case RelTest => e.(to := if g.used then [RelSet, SupTest] else [RelSet])
    case RelSet => e.(to := [Code], flags := g.(released := true))
    case SupTest => e.(to := if g.supportDone then [] else [SupCall])
    case SupCall => e.(to := [InSupport], events := [SupportBegin])
    case InSupport => e.(to := [SupSet], events := [SupportEnd])
    case SupSet => e.(flags := g.(supportDone := true))
    case CreateUsed => e.(to := [CreateIgnore], flags := g.(used := true))
    case CreateIgnore =>
      if ignores then e.(child := [Thread([Code], false, false)]) else e.(to := [CreateDone])
    case CreateDone => e.(to := [if g.supportDone then CreateLaunch else CreateMain])
    case CreateMain => e.(to := if g.released then [CreateLaunch, SupTest] else [CreateLaunch])
    case CreateLaunch => e.(child := [Thread([Wait], true, false)])
    case Wait => e.(to := [InitCall])
    case InitCall => e.(to := [Code], events := [ThreadBegin(t)])
  }

  function EffectOf(s: State, t: int): Effect
    requires Running(s, t)
  {
    Move(s.flags, Top(s, t), s.threads[t].ignores && s.threads[t].hasNode, t)
  }

  function Do(s: State, a: Action): State
    requires Enabled(s, a)
  {
    var th := s.threads[a.t];
    match a
    case Step(t) =>
      var e := EffectOf(s, t);
      var rest := th.stack[..|th.stack| - 1];
      State(s.threads[t := th.(stack := rest + e.to)] + e.child, e.flags, s.trace + e.events)
    case Create(t) => s.(threads := s.threads[t := th.(stack := th.stack + [CreateUsed])])
    case Ignore(t, on) => s.(threads := s.threads[t := th.(ignores := on)])
  }

  ghost predicate IsRun(run: seq<State>, acts: seq<Action>) {
    && |run| == |acts| + 1 && run[0] == START
    && forall i :: 0 <= i < |acts| ==> Enabled(run[i], acts[i]) && run[i + 1] == Do(run[i], acts[i])
  }

  // ----- the order ----------------------------------------------------------------------------

  /** What a program point of any thread knows. */
  predicate PcOk(g: Flags, trace: seq<Event>, pc: Pc) {
    match pc
    case RelTest | RelSet | SupTest | SupCall | InSupport => ProcessEnd in trace
    case SupSet => ProcessEnd in trace && SupportEnd in trace
    case InitCall => g.supportDone
    case _ => true
  }

  predicate FlagsOk(g: Flags, trace: seq<Event>) {
    && (g.released ==> ProcessEnd in trace)
    && (g.supportDone ==> SupportEnd in trace)
  }

  predicate InOrder(trace: seq<Event>) {
    && (forall i :: 0 <= i < |trace| && trace[i].SupportBegin? ==> ProcessEnd in trace[..i])
    && (forall i :: 0 <= i < |trace| && trace[i].SupportEnd? ==> ProcessEnd in trace[..i])
    && (forall i :: 0 <= i < |trace| && trace[i].ThreadBegin? ==> SupportEnd in trace[..i])
  }

  ghost predicate OrderInv(s: State) {
    && FlagsOk(s.flags, s.trace) && InOrder(s.trace)
    && forall t, k :: 0 <= t < |s.threads| && 0 <= k < |s.threads[t].stack| ==>
         PcOk(s.flags, s.trace, s.threads[t].stack[k])
  }

  /** What an event needs to come after. */
  predicate InPlace(trace: seq<Event>, e: Event) {
    && (e.SupportBegin? || e.SupportEnd? ==> ProcessEnd in trace)
    && (e.ThreadBegin? ==> SupportEnd in trace)
  }

  lemma OrderNext(trace: seq<Event>, e: Event)
    requires InOrder(trace) && InPlace(trace, e)
    ensures InOrder(trace + [e])
  {
    var trace' := trace + [e];
    assert forall i :: 0 <= i < |trace| ==> trace'[i] == trace[i] && trace'[..i] == trace[..i];
    assert trace'[..|trace|] == trace;
  }

  /** A move adds at most one event, in its place. */
  lemma MoveEvents(g: Flags, trace: seq<Event>, pc: Pc, ignores: bool, t: int)
    requires FlagsOk(g, trace) && PcOk(g, trace, pc)
    ensures var events := Move(g, pc, ignores, t).events; |events| <= 1 && (events != [] ==> InPlace(trace, events[0]))
  {
  }

  lemma MoveTrace(g: Flags, trace: seq<Event>, pc: Pc, ignores: bool, t: int)
    requires FlagsOk(g, trace) && InOrder(trace) && PcOk(g, trace, pc)
    ensures InOrder(trace + Move(g, pc, ignores, t).events)
  {
    var events := Move(g, pc, ignores, t).events;
    MoveEvents(g, trace, pc, ignores, t);
    if events == [] { assert trace + events == trace; } else {
      assert events == [events[0]];
      OrderNext(trace, events[0]);
    }
  }

  /** What a point knows stays true. */
  lemma PcStays(g: Flags, trace: seq<Event>, pc: Pc, ignores: bool, t: int, p: Pc)
    requires PcOk(g, trace, p)
    ensures var e := Move(g, pc, ignores, t); PcOk(e.flags, trace + e.events, p)
  {
  }

  lemma MovePcs(g: Flags, trace: seq<Event>, pc: Pc, ignores: bool, t: int)
    requires FlagsOk(g, trace) && PcOk(g, trace, pc) && (pc == Wait ==> g.supportDone)
    ensures var e := Move(g, pc, ignores, t);
      && FlagsOk(e.flags, trace + e.events)
      && (forall k :: 0 <= k < |e.to| ==> PcOk(e.flags, trace + e.events, e.to[k]))
  {
  }

  lemma MoveOrder(g: Flags, trace: seq<Event>, pc: Pc, ignores: bool, t: int)
    requires FlagsOk(g, trace) && InOrder(trace) && PcOk(g, trace, pc) && (pc == Wait ==> g.supportDone)
    ensures var e := Move(g, pc, ignores, t);
      && FlagsOk(e.flags, trace + e.events) && InOrder(trace + e.events)
      && (forall k :: 0 <= k < |e.to| ==> PcOk(e.flags, trace + e.events, e.to[k]))
      && (forall p :: PcOk(g, trace, p) ==> PcOk(e.flags, trace + e.events, p))
  {
    MoveTrace(g, trace, pc, ignores, t);
    MovePcs(g, trace, pc, ignores, t);
    forall p | PcOk(g, trace, p) ensures var e := Move(g, pc, ignores, t); PcOk(e.flags, trace + e.events, p) {
      PcStays(g, trace, pc, ignores, t, p);
    }
  }

  lemma OrderStep(s: State, a: Action)
    requires OrderInv(s) && Enabled(s, a)
    ensures OrderInv(Do(s, a))
  {
    if a.Step? {
      MoveOrder(s.flags, s.trace, Top(s, a.t), s.threads[a.t].ignores && s.threads[a.t].hasNode, a.t);
    }
  }

  lemma {:induction false} OrderRun(run: seq<State>, acts: seq<Action>, i: int)
    requires IsRun(run, acts) && 0 <= i < |run|
    ensures OrderInv(run[i])
  {
    if i > 0 {
      OrderRun(run, acts, i - 1);
      OrderStep(run[i - 1], acts[i - 1]);
      assert run[(i - 1) + 1] == Do(run[i - 1], acts[i - 1]);
    }
  }

  /** In every run, whatever creates threads and when: monitor_init_thread_support begins only after
      monitor_init_process has returned, and monitor_init_thread only after monitor_init_thread_support
      has returned. */
  lemma CallbackOrder(run: seq<State>, acts: seq<Action>, i: int, j: int)
    requires IsRun(run, acts) && 0 <= i < |run| && 0 <= j < |run[i].trace|
    ensures run[i].trace[j].SupportBegin? ==> ProcessEnd in run[i].trace[..j]
    ensures run[i].trace[j].ThreadBegin? ==> SupportEnd in run[i].trace[..j] && ProcessEnd in run[i].trace[..j]
  {
    OrderRun(run, acts, i);
    var trace := run[i].trace;
    if trace[j].ThreadBegin? {
      var m :| 0 <= m < j && trace[..j][m] == SupportEnd;
      assert trace[..m] == trace[..j][..m];
    }
  }

  // ----- at most once -------------------------------------------------------------------------

  /** Between the test of monitor_thread_support_done and the store to it. */
  predicate InWindow(pc: Pc) { pc == SupCall || pc == InSupport || pc == SupSet }

  function PointAt(s: State, t: int, k: int): Pc {
    if 0 <= t < |s.threads| && 0 <= k < |s.threads[t].stack| then s.threads[t].stack[k] else Code
  }

  /** Two calls of monitor_call_thread_support have seen the flag unset. */
  ghost predicate Overlap(s: State) {
    exists t, k, u, j :: (t != u || k != j) && InWindow(PointAt(s, t, k)) && InWindow(PointAt(s, u, j))
  }

  predicate Once(trace: seq<Event>) {
    forall i, j :: 0 <= i < j < |trace| ==> !(trace[i].SupportBegin? && trace[j].SupportBegin?)
  }

  /** Some call has begun the callback and not yet set the flag. */
  ghost predicate Begun(s: State) {
    exists t, k :: PointAt(s, t, k) == InSupport || PointAt(s, t, k) == SupSet
  }

  ghost predicate OnceInv(s: State) {
    && Once(s.trace)
    && (SupportBegin in s.trace <==> s.flags.supportDone || Begun(s))
    && (forall t, k :: PointAt(s, t, k) == SupCall ==> SupportBegin !in s.trace)
  }

  /** A step changes the points of one thread from its top up, and of a new thread. */
  lemma StepPoints(s: State, t: int)
    requires Enabled(s, Step(t))
    ensures var s' := Do(s, Step(t)); var top := |s.threads[t].stack| - 1; var to := EffectOf(s, t).to;
      forall u, j ::
        if u == t && j >= top then PointAt(s', u, j) == (if j - top < |to| then to[j - top] else Code)
        else PointAt(s', u, j) == PointAt(s, u, j) || (PointAt(s, u, j) == Code && PointAt(s', u, j) == Wait)
  {
  }

  /** Steps outside the window move no point in it. */
  lemma OnceOutside(s: State, t: int)
    requires OnceInv(s) && Enabled(s, Step(t)) && !InWindow(Top(s, t))
    requires Top(s, t) != SupTest || s.flags.supportDone
    ensures OnceInv(Do(s, Step(t)))
  {
    WindowKept(s, t);
    var s' := Do(s, Step(t));
    assert Begun(s') <==> Begun(s);
    assert SupportBegin in s'.trace <==> SupportBegin in s.trace;
  }

  lemma WindowKept(s: State, t: int)
    requires Enabled(s, Step(t)) && !InWindow(Top(s, t)) && (Top(s, t) != SupTest || s.flags.supportDone)
    ensures var s' := Do(s, Step(t));
      forall u, j :: InWindow(PointAt(s', u, j)) || InWindow(PointAt(s, u, j)) ==> PointAt(s', u, j) == PointAt(s, u, j)
  {
    StepPoints(s, t);
    assert Top(s, t) == PointAt(s, t, |s.threads[t].stack| - 1);
  }

  lemma OnceEnter(s: State, t: int)
    requires OnceInv(s) && Enabled(s, Step(t)) && Top(s, t) == SupTest && !s.flags.supportDone
    requires !Overlap(Do(s, Step(t)))
    ensures OnceInv(Do(s, Step(t)))
  {
    StepPoints(s, t);
    var s' := Do(s, Step(t));
    var top := |s.threads[t].stack| - 1;
    assert PointAt(s', t, top) == SupCall && PointAt(s, t, top) == SupTest;
    assert forall u, j :: PointAt(s, u, j) == InSupport || PointAt(s, u, j) == SupSet ==>
                            PointAt(s', u, j) == PointAt(s, u, j);
    assert !Begun(s');
    assert s'.trace == s.trace;
  }

  lemma OnceInside(s: State, t: int)
    requires OnceInv(s) && Enabled(s, Step(t)) && InWindow(Top(s, t)) && !Overlap(s)
    ensures OnceInv(Do(s, Step(t)))
  {
    StepPoints(s, t);
    var s' := Do(s, Step(t));
    var top := |s.threads[t].stack| - 1;
    assert PointAt(s, t, top) == Top(s, t);
    assert forall u, j :: InWindow(PointAt(s, u, j)) ==> u == t && j == top;
    assert forall u, j :: InWindow(PointAt(s', u, j)) ==> u == t && j == top;
    assert Begun(s) <==> Top(s, t) != SupCall;
    assert Begun(s') <==> Top(s, t) != SupSet by {
      assert Top(s, t) != SupSet ==> PointAt(s', t, top) == InSupport || PointAt(s', t, top) == SupSet;
    }
    assert SupportBegin in s'.trace;
  }

  lemma OnceStep(s: State, a: Action)
    requires OnceInv(s) && Enabled(s, a) && !Overlap(s) && !Overlap(Do(s, a))
    ensures OnceInv(Do(s, a))
  {
    match a
    case Step(t) =>
      if InWindow(Top(s, t)) { OnceInside(s, t); }
      else if Top(s, t) == SupTest && !s.flags.supportDone { OnceEnter(s, t); }
      else { OnceOutside(s, t); }
    case _ => OnceOther(s, a);
  }

  lemma OnceOther(s: State, a: Action)
    requires OnceInv(s) && Enabled(s, a) && !a.Step?
    ensures OnceInv(Do(s, a))
  {
    var s' := Do(s, a);
    assert forall u, j ::
      PointAt(s', u, j) == PointAt(s, u, j) || (PointAt(s', u, j) == CreateUsed && PointAt(s, u, j) == Code);
    assert Begun(s') <==> Begun(s);
  }

  lemma {:induction false} OnceRun(run: seq<State>, acts: seq<Action>, i: int)
    requires IsRun(run, acts) && 0 <= i < |run| && forall j :: 0 <= j <= i ==> !Overlap(run[j])
    ensures OnceInv(run[i])
  {
    if i > 0 {
      OnceRun(run, acts, i - 1);
      OnceStep(run[i - 1], acts[i - 1]);
      assert run[(i - 1) + 1] == Do(run[i - 1], acts[i - 1]);
    }
  }

  /** monitor_init_thread_support runs at most once unless two calls overlap. */
  lemma SupportOnce(run: seq<State>, acts: seq<Action>, i: int)
    requires IsRun(run, acts) && 0 <= i < |run|
    ensures Once(run[i].trace) || exists j :: 0 <= j <= i && Overlap(run[j])
  {
    if forall j :: 0 <= j <= i ==> !Overlap(run[j]) { OnceRun(run, acts, i); }
  }

  /** What a caller can see to, until thread support is done: no thread asks to be ignored, and nothing
      calls pthread_create from inside monitor_call_thread_support. */
  predicate Calm(s: State, a: Action)
    requires Enabled(s, a)
  {
    s.flags.supportDone || ((a.Ignore? ==> !a.on) && (a.Create? ==> !InWindow(Top(s, a.t))))
  }

  /** Until thread support is done only the main thread moves, and only its top call is in the window. */
  ghost predicate CalmInv(s: State) {
    && 0 < |s.threads|
    && (s.flags.supportDone ==> forall u, j :: !InWindow(PointAt(s, u, j)))
    && (!s.flags.supportDone ==>
          && (forall u :: 0 < u < |s.threads| ==> s.threads[u].stack == [Wait])
          && (forall u :: 0 <= u < |s.threads| ==> !s.threads[u].ignores)
          && (forall u, j :: InWindow(PointAt(s, u, j)) ==> u == 0 && j == |s.threads[0].stack| - 1))
  }

  lemma CalmMain(s: State, t: int)
    requires CalmInv(s) && Enabled(s, Step(t)) && !s.flags.supportDone
    ensures CalmInv(Do(s, Step(t)))
  {
    StepPoints(s, t);
    assert t == 0 && PointAt(s, t, |s.threads[t].stack| - 1) == Top(s, t);
  }

  lemma CalmDone(s: State, t: int)
    requires CalmInv(s) && Enabled(s, Step(t)) && s.flags.supportDone
    ensures CalmInv(Do(s, Step(t)))
  {
    StepPoints(s, t);
    assert PointAt(s, t, |s.threads[t].stack| - 1) == Top(s, t);
  }

  lemma CalmCreate(s: State, t: int)
    requires CalmInv(s) && Enabled(s, Create(t)) && Calm(s, Create(t))
    ensures CalmInv(Do(s, Create(t)))
  {
    var s' := Do(s, Create(t));
    assert PointAt(s, t, |s.threads[t].stack| - 1) == Top(s, t);
    assert forall u, j :: InWindow(PointAt(s', u, j)) ==> PointAt(s, u, j) == PointAt(s', u, j);
  }

  lemma CalmIgnore(s: State, t: int, on: bool)
    requires CalmInv(s) && Enabled(s, Ignore(t, on)) && Calm(s, Ignore(t, on))
    ensures CalmInv(Do(s, Ignore(t, on)))
  {
    assert forall u, j :: PointAt(Do(s, Ignore(t, on)), u, j) == PointAt(s, u, j);
  }

  lemma CalmStep(s: State, a: Action)
    requires CalmInv(s) && Enabled(s, a) && Calm(s, a)
    ensures CalmInv(Do(s, a))
  {
    match a
    case Step(t) => if s.flags.supportDone { CalmDone(s, t); } else { CalmMain(s, t); }
    case Create(t) => CalmCreate(s, t);
    case Ignore(t, on) => CalmIgnore(s, t, on);
  }

  lemma {:induction false} CalmRun(run: seq<State>, acts: seq<Action>, i: int)
    requires IsRun(run, acts) && 0 <= i < |run| && forall j :: 0 <= j < |acts| ==> Calm(run[j], acts[j])
    ensures CalmInv(run[i]) && !Overlap(run[i])
  {
    if i > 0 {
      CalmRun(run, acts, i - 1);
      CalmStep(run[i - 1], acts[i - 1]);
      assert run[(i - 1) + 1] == Do(run[i - 1], acts[i - 1]);
    }
  }

  /** Under these two conditions monitor_init_thread_support runs at most once. */
  lemma SupportOnceIfCalm(run: seq<State>, acts: seq<Action>, i: int)
    requires IsRun(run, acts) && 0 <= i < |run| && forall j :: 0 <= j < |acts| ==> Calm(run[j], acts[j])
    ensures Once(run[i].trace)
  {
    forall j | 0 <= j <= i ensures !Overlap(run[j]) { CalmRun(run, acts, j); }
    SupportOnce(run, acts, i);
  }

  // ----- each condition is needed -------------------------------------------------------------

  ghost predicate Reached(s: State) { exists run, acts :: IsRun(run, acts) && run[|run| - 1] == s }

  lemma ReachedStep(s: State, a: Action)
    requires Reached(s) && Enabled(s, a)
    ensures Reached(Do(s, a))
  {
    var run, acts :| IsRun(run, acts) && run[|run| - 1] == s;
    var run', acts' := run + [Do(s, a)], acts + [a];
    assert IsRun(run', acts') && run'[|run'| - 1] == Do(s, a);
  }

  predicate Ignored(th: Thread) { th.ignores && th.hasNode }

  const MAIN_THREAD := Thread([Code], true, false)
  const IGNORED := Thread([Code], false, false)

  /** A thread with a given stack, among others. */
  function With(pre: seq<Thread>, post: seq<Thread>, th: Thread, stack: seq<Pc>, g: Flags, trace: seq<Event>): State {
    State(pre + [th.(stack := stack)] + post, g, trace)
  }

  /** A step of that thread above `base`. */
  lemma Over(pre: seq<Thread>, post: seq<Thread>, th: Thread, base: seq<Pc>, pc: Pc, g: Flags, trace: seq<Event>,
             stack': seq<Pc>, g': Flags, trace': seq<Event>)
    requires Reached(With(pre, post, th, base + [pc], g, trace)) && pc != Code && pc != Wait
    requires Move(g, pc, Ignored(th), |pre|).child == [] && Move(g, pc, Ignored(th), |pre|).flags == g'
    requires base + Move(g, pc, Ignored(th), |pre|).to == stack' &&
      trace + Move(g, pc, Ignored(th), |pre|).events == trace'
    ensures Reached(With(pre, post, th, stack', g', trace'))
  {
    var s := With(pre, post, th, base + [pc], g, trace);
    ReachedStep(s, Step(|pre|));
    assert (base + [pc])[..|base|] == base;
    assert Do(s, Step(|pre|)).threads == pre + [th.(stack := stack')] + post;
  }

  lemma ProcessReached()
    ensures Reached(With([], [], MAIN_THREAD, [] + [ProcCall], FLAGS0.(reachedMain := true), []))
  {
    var g := FLAGS0.(reachedMain := true);
    assert IsRun([START], []) && [START][|[START]| - 1] == START;
    assert [] + [Early] == [Early];
    assert [] + [MAIN_THREAD.(stack := [] + [Early])] + [] == START.threads;
    Over([], [], MAIN_THREAD, [], Early, FLAGS0, [], [] + [Reach], FLAGS0, []);
    Over([], [], MAIN_THREAD, [], Reach, FLAGS0, [], [] + [ProcTest], g, []);
    Over([], [], MAIN_THREAD, [], ProcTest, g, [], [] + [ProcCall], g, []);
  }

  const AT_MAIN := Flags(true, true, false, false)
  const STARTED: seq<Event> := [ProcessBegin, ProcessEnd]

  lemma MainReached()
    ensures Reached(With([], [], MAIN_THREAD, [Code], AT_MAIN, STARTED))
  {
    var g := FLAGS0.(reachedMain := true);
    ProcessReached();
    Over([], [], MAIN_THREAD, [], ProcCall, g, [], [] + [InProcess], g, [ProcessBegin]);
    Over([], [], MAIN_THREAD, [], InProcess, g, [ProcessBegin], [] + [RelTest], g, STARTED);
    Over([], [], MAIN_THREAD, [], RelTest, g, STARTED, [] + [RelSet], g, STARTED);
    Over([], [], MAIN_THREAD, [], RelSet, g, STARTED, [Code], AT_MAIN, STARTED);
  }

  lemma CreateReached(pre: seq<Thread>, post: seq<Thread>, th: Thread, stack: seq<Pc>, g: Flags, trace: seq<Event>)
    requires Reached(With(pre, post, th, stack, g, trace)) && stack != [] && stack[|stack| - 1] != Wait
    ensures Reached(With(pre, post, th, stack + [CreateUsed], g, trace))
  {
    var s := With(pre, post, th, stack, g, trace);
    ReachedStep(s, Create(|pre|));
    assert Do(s, Create(|pre|)).threads == pre + [th.(stack := stack + [CreateUsed])] + post;
  }

  lemma TestReached(pre: seq<Thread>, post: seq<Thread>, th: Thread, b: seq<Pc>, g: Flags, trace: seq<Event>)
    requires Reached(With(pre, post, th, b, g, trace)) && b != [] && b[|b| - 1] != Wait && !g.supportDone &&
      !Ignored(th)
    ensures Reached(With(pre, post, th, b + [CreateMain], g.(used := true), trace))
  {
    var g' := g.(used := true);
    CreateReached(pre, post, th, b, g, trace);
    Over(pre, post, th, b, CreateUsed, g, trace, b + [CreateIgnore], g', trace);
    Over(pre, post, th, b, CreateIgnore, g', trace, b + [CreateDone], g', trace);
    Over(pre, post, th, b, CreateDone, g', trace, b + [CreateMain], g', trace);
  }

  /** pthread_create after main, up to the start of the callback. */
  lemma CallReached(pre: seq<Thread>, post: seq<Thread>, th: Thread, b: seq<Pc>, g: Flags, trace: seq<Event>)
    requires Reached(With(pre, post, th, b, g, trace)) && b != [] && b[|b| - 1] != Wait
    requires g.released && !g.supportDone && !Ignored(th)
    ensures Reached(With(pre, post, th, b + [CreateLaunch] + [SupCall], g.(used := true), trace))
  {
    var g' := g.(used := true);
    var c := b + [CreateLaunch];
    TestReached(pre, post, th, b, g, trace);
    Over(pre, post, th, b, CreateMain, g', trace, c + [SupTest], g', trace);
    Over(pre, post, th, c, SupTest, g', trace, c + [SupCall], g', trace);
  }

  /** A support callback that calls pthread_create is called again, from inside itself. */
  lemma NestedCreateRepeats()
    ensures exists s :: Reached(s) && !Once(s.trace) && |s.threads| == 1 && !s.threads[0].ignores
  {
    var g := AT_MAIN.(used := true);
    var b := [Code] + [CreateLaunch];
    var c := b + [InSupport] + [CreateLaunch];
    var trace := STARTED + [SupportBegin];
    MainReached();
    CallReached([], [], MAIN_THREAD, [Code], AT_MAIN, STARTED);
    Over([], [], MAIN_THREAD, b, SupCall, g, STARTED, b + [InSupport], g, trace);
    CallReached([], [], MAIN_THREAD, b + [InSupport], g, trace);
    Over([], [], MAIN_THREAD, c, SupCall, g, trace, c + [InSupport], g, trace + [SupportBegin]);
    var s := With([], [], MAIN_THREAD, c + [InSupport], g, trace + [SupportBegin]);
    assert s.trace[2].SupportBegin? && s.trace[3].SupportBegin?;
  }

  // ----- a thread that monitor ignores --------------------------------------------------------

  lemma IgnoredReached()
    ensures Reached(State([MAIN_THREAD, IGNORED], AT_MAIN.(used := true), STARTED))
  {
    var th := MAIN_THREAD.(ignores := true);
    var g := AT_MAIN.(used := true);
    MainReached();
    var s := With([], [], MAIN_THREAD, [Code], AT_MAIN, STARTED);
    ReachedStep(s, Ignore(0, true));
    assert Do(s, Ignore(0, true)).threads == [] + [th.(stack := [Code])] + [];
    CreateReached([], [], th, [Code], AT_MAIN, STARTED);
    Over([], [], th, [Code], CreateUsed, AT_MAIN, STARTED, [Code] + [CreateIgnore], g, STARTED);
    var s' := With([], [], th, [Code] + [CreateIgnore], g, STARTED);
    ReachedStep(s', Step(0));
    assert ([Code] + [CreateIgnore])[..1] + [] == [Code];
    assert Do(s', Step(0)).threads == [th, IGNORED];
    ReachedStep(Do(s', Step(0)), Ignore(0, false));
    assert Do(Do(s', Step(0)), Ignore(0, false)).threads == [MAIN_THREAD, IGNORED];
  }

  /** A thread that monitor was told to ignore is not known to it afterwards, so its pthread_create and
      one by the main thread can both call thread support, with no call nested in another. */
  lemma IgnoredCreateRepeats()
    ensures exists s :: Reached(s) && !Once(s.trace) && |s.threads| == 2 && s.threads[0].stack == s.threads[1].stack
  {
    var g := AT_MAIN.(used := true);
    var b := [Code] + [CreateLaunch];
    var m1, m2 := Thread(b + [SupCall], true, false), Thread(b + [InSupport], true, false);
    var i2 := Thread(b + [InSupport], false, false);
    var t1 := STARTED + [SupportBegin];
    IgnoredReached();
    assert [] + [MAIN_THREAD] + [IGNORED] == [MAIN_THREAD, IGNORED];
    CallReached([], [IGNORED], MAIN_THREAD, [Code], g, STARTED);
    assert [] + [m1] + [IGNORED] == [m1] + [IGNORED] + [];
    CallReached([m1], [], IGNORED, [Code], g, STARTED);
    Over([m1], [], IGNORED, b, SupCall, g, STARTED, b + [InSupport], g, t1);
    assert [m1] + [i2] + [] == [] + [m1] + [i2];
    Over([], [i2], MAIN_THREAD, b, SupCall, g, t1, b + [InSupport], g, t1 + [SupportBegin]);
    var s := With([], [i2], MAIN_THREAD, b + [InSupport], g, t1 + [SupportBegin]);
    assert s.trace[2].SupportBegin? && s.trace[3].SupportBegin?;
    assert s.threads[0].stack == b + [InSupport] == s.threads[1].stack;
  }
}
