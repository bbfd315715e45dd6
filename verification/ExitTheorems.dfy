/** What libmonitor promises about threads and process exit, over every run of the exit machine. */
module ExitTheorems {
  import opened NodeLists
  import opened Options
  import opened ExitMachine
  import opened ExitLock
  import opened ExitRegistry
  import opened ExitRace
  import opened ExitInvariant
  import opened ExitCallbacks
  import opened ExitOnce

  // ----- the registry -------------------------------------------------------------------------

  /** At most one frame is inside the critical section of the thread lock. */
  lemma MutualExclusion(run: seq<State>, i: int, f: int, g: int)
    requires IsRun(run) && 0 <= i < |run|
    requires f in run[i].frames && g in run[i].frames
    requires HoldsLock(run[i].frames[f].at) && HoldsLock(run[i].frames[g].at)
    ensures f == g
  {
    InvRun(run, i);
    assert LocalOk(run[i].sh, f, run[i].frames[f]) && LocalOk(run[i].sh, g, run[i].frames[g]);
  }

  lemma FrozenStep(s: State, a: Action)
    requires Inv(s) && Enabled(s, a) && s.sh.gate.inExit
    ensures Do(s, a).sh.gate.inExit && ListKept(s.sh.reg, Do(s, a).sh.reg)
  {
    var d := DeedOf(s, a);
    MovedKept(s, a);
    ListEffect(s.sh.reg, d.actor, d.e, s.sh.gate.nextFrame);
  }

  /** What a step after the freeze keeps. */
  predicate FrozenPair(s: State, s': State) {
    s.sh.gate.inExit ==> s'.sh.gate.inExit && ListKept(s.sh.reg, s'.sh.reg)
  }

  lemma FrozenNext(run: seq<State>, j: int)
    requires IsRun(run) && 0 < j < |run|
    ensures FrozenPair(run[j - 1], run[j])
  {
    InvRun(run, j - 1);
    var a := ActionAt(run, j);
    if run[j - 1].sh.gate.inExit { FrozenStep(run[j - 1], a); }
  }

  lemma ListKeptTrans(a: Registry, b: Registry, c: Registry)
    requires ListKept(a, b) && ListKept(b, c)
    ensures ListKept(a, c)
  {
  }

  lemma {:induction false} FrozenChain(run: seq<State>, i: int, j: int)
    requires 0 <= i <= j < |run| && run[i].sh.gate.inExit
    requires forall k :: 0 < k < |run| ==> FrozenPair(run[k - 1], run[k])
    ensures run[j].sh.gate.inExit && ListKept(run[i].sh.reg, run[j].sh.reg)
    decreases j
  {
    if i < j {
      FrozenChain(run, i, j - 1);
      assert FrozenPair(run[j - 1], run[j]);
      ListKeptTrans(run[i].sh.reg, run[j - 1].sh.reg, run[j].sh.reg);
    }
  }

  /** Once monitor_in_exit_cleanup is set, no step of any thread changes the members or the order of
      the thread list, and on it tn_self stays while the flags only go up. */
  lemma FrozenList(run: seq<State>, i: int, j: int)
    requires IsRun(run) && 0 <= i <= j < |run| && run[i].sh.gate.inExit
    ensures run[j].sh.gate.inExit && ListKept(run[i].sh.reg, run[j].sh.reg)
  {
    forall k | 0 < k < |run| ensures FrozenPair(run[k - 1], run[k]) {
      FrozenNext(run, k);
    }
    FrozenChain(run, i, j);
  }

  /** Every node is on at most one list and there once, no two frames have charge of one node, a frame
      that is creating or starting a thread has a node that is on neither list, and a linked thread's
      node is on the thread list; the thread list is strictly decreasing in tn_tid. */
  lemma NodePlaces(run: seq<State>, i: int)
    requires IsRun(run) && 0 <= i < |run|
    ensures var reg := run[i].sh.reg;
      && NoDup(reg.threadList) && NoDup(reg.freeList) && Sorted(reg.nodes, reg.threadList)
      && (forall x :: x in reg.threadList + reg.freeList ==> 0 < x < |reg.nodes|)
      && (forall x :: !(x in reg.threadList && x in reg.freeList))
    ensures forall f :: f in run[i].frames && Holding(run[i].frames[f].at) ==>
      var n := run[i].frames[f].n;
      && n !in run[i].sh.reg.freeList
      && (n in run[i].sh.reg.threadList <==> !InFlight(run[i].frames[f].at))
      && forall g :: g in run[i].frames && g != f && Holding(run[i].frames[g].at) ==> run[i].frames[g].n != n
  {
    InvRun(run, i);
    var s := run[i];
    forall f, g | f in s.frames && g in s.frames && g != f && Holding(s.frames[f].at) && Holding(s.frames[g].at)
      ensures s.frames[g].n != s.frames[f].n
    {
      assert LocalOk(s.sh, f, s.frames[f]) && LocalOk(s.sh, g, s.frames[g]);
    }
    forall f | f in s.frames && Holding(s.frames[f].at)
      ensures s.frames[f].n !in s.sh.reg.freeList
      ensures s.frames[f].n in s.sh.reg.threadList <==> !InFlight(s.frames[f].at)
    {
      assert LocalOk(s.sh, f, s.frames[f]);
    }
  }

  /** The node that monitor_make_thread_node picks is in nobody's hands: not on the thread list, not in
      charge of any frame, not application-started when it is taken, and for any number of arrays either off
      the free list or the next unused element of the last array. */
  lemma MakeTakesUnused(run: seq<State>, i: int)
    requires IsRun(run) && 0 <= i < |run|
    ensures var n := Taken(run[i].sh.reg);
      && n !in run[i].sh.reg.threadList && n != MAIN_NODE
      && (forall f :: f in run[i].frames && Holding(run[i].frames[f].at) ==> run[i].frames[f].n != n)
      && (run[i].sh.reg.freeList == [] ==>
            (n - 1) % ARRAY_SIZE == (if run[i].sh.reg.arrayPos < ARRAY_SIZE then run[i].sh.reg.arrayPos else 0))
      && (forall f :: f in run[i].frames && run[i].frames[f].at.MakeTake? ==> !NodeAt(run[i].sh.reg, n).applStarted)
  {
    InvRun(run, i);
    var s := run[i];
    var n := Taken(s.sh.reg);
    assert s.sh.reg.freeList != [] ==> n in s.sh.reg.freeList;
    forall f | f in s.frames && Holding(s.frames[f].at) ensures s.frames[f].n != n {
      assert LocalOk(s.sh, f, s.frames[f]);
    }
    forall f | f in s.frames && s.frames[f].at.MakeTake? ensures !NodeAt(s.sh.reg, n).applStarted {
      assert LocalOk(s.sh, f, s.frames[f]);
    }
  }

  // ----- the thread callback ------------------------------------------------------------------

  /** In every run without the race on tn_fini_started, whatever the mix of cleanup, handler, sigwait and
      the winner itself, monitor_fini_thread starts at most once per life of a node, and the flags of a node
      tell exactly whether its callback has begun and has returned. */
  lemma FiniThreadAtMostOnce(run: seq<State>, i: int)
    requires IsRun(run) && 0 <= i < |run|
    requires forall j :: 0 <= j < i ==> RaceFree(run[j])
    ensures AtMostOnce(run[i].sh.log.trace)
    ensures forall n :: 0 <= n < |run[i].sh.reg.nodes| ==> NodeCalls(run[i].sh.reg.nodes[n], run[i].sh.log)
  {
    CallRun(run, i);
  }

  lemma StoreStep(s: State, f: int) returns (s': State)
    requires Top(s, f) && Storing(s.frames[f].at)
    ensures Next(s, s') && s'.tops == s.tops
    ensures exists at :: s'.frames == s.frames[f := s.frames[f].(at := at)] && (s.frames[f].at.SigSet? ==> at.SigIn?)
    ensures s'.sh.log.trace == s.sh.log.trace + [FiniThreadBegin(NodeAt(s.sh.reg, s.frames[f].n).life)]
    ensures NodeAt(s'.sh.reg, s.frames[f].n).life == NodeAt(s.sh.reg, s.frames[f].n).life
  {
    s' := Do(s, Step(f, false));
    var at := if s.frames[f].at.CleanSet? then CleanIn else if s.frames[f].at.SigSet? then SigIn else OwnIn;
    assert s'.frames == s.frames[f := s.frames[f].(at := at)];
  }

  lemma ReturnStep(s: State, g: int) returns (s': State)
    requires Top(s, g) && s.frames[g].at.SigIn?
    ensures Next(s, s') && s'.tops == s.tops[s.frames[g].thread := s.frames[g].parent] && s'.frames == s.frames - {g}
    ensures s'.sh.log.trace == s.sh.log.trace + [FiniThreadEnd(NodeAt(s.sh.reg, s.frames[g].n).life)]
    ensures NodeAt(s'.sh.reg, s.frames[g].n).life == NodeAt(s.sh.reg, s.frames[g].n).life
  {
    s' := Do(s, Step(g, false));
  }

  /** The converse.  Two frames are about to store tn_fini_started of one node: then the run can go on to a
      second call of monitor_fini_thread, if both are on top of their threads or the one is a signal on top of
      the other. */
  lemma RaceCallsTwice(s: State, f: int, g: int)
    requires Top(s, g) && f in s.frames && f != g && s.frames[f].n == s.frames[g].n
    requires Storing(s.frames[f].at) && Storing(s.frames[g].at)
    requires Top(s, f) ||
      (s.frames[g].at.SigSet? && s.frames[g].parent == Some(f) && s.frames[f].thread == s.frames[g].thread)
    ensures exists s' :: Leads(s, s') && !AtMostOnce(s'.sh.log.trace)
  {
    var s1 := StoreStep(s, g);
    LeadsOne(s, s1);
    if Top(s, f) {
      var s2 := StoreStep(s1, f);
      LeadsNext(s, s1, s2);
      Twice(s.sh.log.trace, [], NodeAt(s.sh.reg, s.frames[g].n).life);
    } else {
      var s2 := ReturnStep(s1, g);
      var s3 := StoreStep(s2, f);
      LeadsNext(s, s1, s2);
      LeadsNext(s, s2, s3);
      Twice(s.sh.log.trace, [FiniThreadEnd(NodeAt(s.sh.reg, s.frames[g].n).life)],
        NodeAt(s.sh.reg, s.frames[g].n).life);
    }
  }

  lemma Twice(trace: seq<Event>, mid: seq<Event>, life: int)
    requires |mid| <= 1
    ensures var once := trace + [FiniThreadBegin(life)];
      && (mid == [] ==> !AtMostOnce(once + [FiniThreadBegin(life)]))
      && !AtMostOnce(once + mid + [FiniThreadBegin(life)])
  {
    var once := trace + [FiniThreadBegin(life)];
    var twice := once + mid + [FiniThreadBegin(life)];
    assert twice[|trace|] == FiniThreadBegin(life) == twice[|once + mid|];
    assert mid == [] ==> once + mid == once;
  }

  // ----- the process callback -----------------------------------------------------------------

  /** In every run monitor_fini_process starts at most once. */
  lemma FiniProcessOnce(run: seq<State>, i: int, j: int, k: int)
    requires IsRun(run) && 0 <= i < |run| && 0 <= j < |run[i].sh.log.trace| && 0 <= k < |run[i].sh.log.trace|
    requires run[i].sh.log.trace[j].FiniProcessBegin? && run[i].sh.log.trace[k].FiniProcessBegin?
    ensures j == k
  {
    InvRun(run, i);
  }

  /** No loser of the exit race goes on before monitor_fini_process has returned, unless some call of exit()
      was taken for the winner's thread calling it again. */
  lemma LosersWait(run: seq<State>, i: int, k: int)
    requires IsRun(run) && 0 <= i < |run| && 0 <= k < |run[i].sh.log.trace| && run[i].sh.log.trace[k].LoserResumed?
    ensures Released(run[i].sh.log.trace[..k])
  {
    InvRun(run, i);
  }

  /** The last walk of the list ended without the timeout, and no thread that it passed over as not yet
      application-started has started since. */
  predicate CleanWalk(reg: Registry, fr: Frame) {
    fr.pass.walked && !fr.pass.timedOut && forall x :: x in fr.pass.skipped ==> !NodeAt(reg, x).applStarted
  }

  /** When the shootdown loop has ended without the timeout, every thread on the frozen list other than the
      winner's own that the last walk found application-started has tn_fini_done set, and its
      monitor_fini_thread has begun and returned: in all runs, races and all. */
  lemma ScanSettles(run: seq<State>, i: int, w: int, x: int)
    requires IsRun(run) && 0 <= i < |run|
    requires w in run[i].frames && (InOwn(run[i].frames[w].at) || InFini(run[i].frames[w].at))
    requires run[i].frames[w].pass.walked && !run[i].frames[w].pass.timedOut
    requires x in run[i].sh.reg.threadList && x !in run[i].frames[w].pass.skipped
    requires NodeAt(run[i].sh.reg, x).self != Some(run[i].frames[w].thread)
    ensures var v := NodeAt(run[i].sh.reg, x);
      v.finiDone && FiniThreadBegin(v.life) in run[i].sh.log.trace && FiniThreadEnd(v.life) in run[i].sh.log.trace
  {
    OnceRun(run, i);
    var s := run[i];
    assert LocalOk(s.sh, w, s.frames[w]);
    assert Settled(s.sh.reg, s.frames[w], x);
    assert FlagTells(s.sh.reg.nodes[x], s.sh.log);
  }

  /** After a clean walk no frame tests, calls or is inside the callback of another thread's node. */
  lemma OnlyOwnNode(s: State, w: int, g: int)
    requires Inv(s) && CallInv(s) && w in s.frames && g in s.frames && g != w
    requires InOwn(s.frames[w].at) || InFini(s.frames[w].at)
    requires CleanWalk(s.sh.reg, s.frames[w])
    requires Tested(s.frames[g].at) || InCallback(s.frames[g].at)
    ensures NodeAt(s.sh.reg, s.frames[g].n).self == Some(s.frames[w].thread)
  {
    assert LocalOk(s.sh, w, s.frames[w]) && LocalOk(s.sh, g, s.frames[g]);
    assert Settled(s.sh.reg, s.frames[w], s.frames[g].n);
    assert CallLocal(s.sh.reg, s.sh.log, g, s.frames[g].at, s.frames[g].n);
    assert !Won(s.frames[g].at);
  }

  /** From the end of the shootdown loop to the end of the process callback, the only callbacks that can
      still start are for the winner's own node. */
  lemma OnlyWinnerStarts(run: seq<State>, i: int, w: int, g: int)
    requires IsRun(run) && 0 <= i < |run| && (forall j :: 0 <= j < i ==> RaceFree(run[j]))
    requires w in run[i].frames && (InOwn(run[i].frames[w].at) || InFini(run[i].frames[w].at))
    requires CleanWalk(run[i].sh.reg, run[i].frames[w])
    requires g in run[i].frames && Storing(run[i].frames[g].at)
    ensures NodeAt(run[i].sh.reg, run[i].frames[g].n).self == Some(run[i].frames[w].thread)
  {
    CallRun(run, i);
    if g == w {
      assert LocalOk(run[i].sh, w, run[i].frames[w]);
    } else {
      OnlyOwnNode(run[i], w, g);
    }
  }

  /** Every linked, application-started thread other than t has had its callback begin and return. */
  ghost predicate OthersReturned(s: State, t: int) {
    forall x :: x in s.sh.reg.threadList && NodeAt(s.sh.reg, x).applStarted && NodeAt(s.sh.reg, x).self != Some(t) ==>
      && FiniThreadBegin(NodeAt(s.sh.reg, x).life) in s.sh.log.trace
      && FiniThreadEnd(NodeAt(s.sh.reg, x).life) in s.sh.log.trace
  }

  /** The walk of frame w has found its thread's node, if it is linked, and its callback has begun. */
  ghost predicate OwnBegun(s: State, w: int)
    requires w in s.frames
  {
    var mine := s.frames[w].pass.mine;
    && (forall x :: x in s.sh.reg.threadList && NodeAt(s.sh.reg, x).self == Some(s.frames[w].thread) ==> mine.Some?)
    && (mine.Some? ==> FiniThreadBegin(NodeAt(s.sh.reg, mine.value).life) in s.sh.log.trace)
  }

  /** Every callback that is still running is for thread t's node, on the stack of its caller. */
  ghost predicate OpenAreOf(s: State, t: int) {
    forall life :: FiniThreadBegin(life) in s.sh.log.trace && FiniThreadEnd(life) !in s.sh.log.trace ==>
      && life in s.sh.log.caller && Open(s, s.sh.log.caller[life], life)
      && NodeAt(s.sh.reg, s.frames[s.sh.log.caller[life]].n).self == Some(t)
  }

  /** The winner is about to call monitor_fini_process after a clean walk. */
  ghost predicate AtProcess(s: State, w: int) {
    w in s.frames && s.frames[w].at.ExitFini? && CleanWalk(s.sh.reg, s.frames[w])
  }

  lemma OthersAtProcess(s: State, w: int)
    requires Inv(s) && OnceInv(s) && AtProcess(s, w)
    ensures OthersReturned(s, s.frames[w].thread)
  {
    var t := s.frames[w].thread;
    forall x | x in s.sh.reg.threadList && NodeAt(s.sh.reg, x).applStarted && NodeAt(s.sh.reg, x).self != Some(t)
      ensures FiniThreadBegin(NodeAt(s.sh.reg, x).life) in s.sh.log.trace
      ensures FiniThreadEnd(NodeAt(s.sh.reg, x).life) in s.sh.log.trace
    {
      OtherAtProcess(s, w, x);
    }
  }

  lemma OtherAtProcess(s: State, w: int, x: int)
    requires Inv(s) && OnceInv(s) && AtProcess(s, w) && x in s.sh.reg.threadList && NodeAt(s.sh.reg, x).applStarted
    requires NodeAt(s.sh.reg, x).self != Some(s.frames[w].thread)
    ensures FiniThreadBegin(NodeAt(s.sh.reg, x).life) in s.sh.log.trace
    ensures FiniThreadEnd(NodeAt(s.sh.reg, x).life) in s.sh.log.trace
  {
    assert LocalOk(s.sh, w, s.frames[w]);
    assert Settled(s.sh.reg, s.frames[w], x);
    assert FlagTells(s.sh.reg.nodes[x], s.sh.log);
  }

  lemma OwnAtProcess(s: State, w: int)
    requires Inv(s) && OnceInv(s) && AtProcess(s, w)
    ensures OwnBegun(s, w)
  {
    assert LocalOk(s.sh, w, s.frames[w]);
    var mine := s.frames[w].pass.mine;
    assert forall x :: x in s.sh.reg.threadList ==> OwnSeen(s.sh.reg, s.frames[w], x);
    if mine.Some? { assert FlagTells(s.sh.reg.nodes[mine.value], s.sh.log); }
  }

  lemma OpenAtProcess(s: State, w: int)
    requires Inv(s) && CallInv(s) && AtProcess(s, w)
    ensures OpenAreOf(s, s.frames[w].thread)
  {
    forall life | FiniThreadBegin(life) in s.sh.log.trace && FiniThreadEnd(life) !in s.sh.log.trace
      ensures life in s.sh.log.caller && Open(s, s.sh.log.caller[life], life)
      ensures NodeAt(s.sh.reg, s.frames[s.sh.log.caller[life]].n).self == Some(s.frames[w].thread)
    {
      assert Open(s, s.sh.log.caller[life], life);
      OnlyOwnNode(s, w, s.sh.log.caller[life]);
    }
  }

  /** The outcome that the exit test asks for, in all runs, races and all.  When the winner is about to call
      monitor_fini_process after a clean walk: every linked, application-started thread other than the winner has
      had its monitor_fini_thread begin and return, and the winner's own has begun. */
  lemma ThreadsBeforeProcess(run: seq<State>, i: int, w: int)
    requires IsRun(run) && 0 <= i < |run| && AtProcess(run[i], w)
    ensures OthersReturned(run[i], run[i].frames[w].thread)
    ensures OwnBegun(run[i], w)
  {
    OnceRun(run, i);
    OthersAtProcess(run[i], w);
    OwnAtProcess(run[i], w);
  }

  /** In every run without the race, a callback that is still running then is for the winner's own node. */
  lemma OpenIsWinners(run: seq<State>, i: int, w: int)
    requires IsRun(run) && 0 <= i < |run| && AtProcess(run[i], w) && (forall j :: 0 <= j < i ==> RaceFree(run[j]))
    ensures OpenAreOf(run[i], run[i].frames[w].thread) && InsideAreOf(run[i], run[i].frames[w].thread)
  {
    CallRun(run, i);
    OpenAtProcess(run[i], w);
    InsideAtProcess(run[i], w);
  }

  lemma InsideAtProcess(s: State, w: int)
    requires Inv(s) && CallInv(s) && AtProcess(s, w)
    ensures InsideAreOf(s, s.frames[w].thread)
  {
    forall g | g in s.frames && InCallback(s.frames[g].at)
      ensures NodeAt(s.sh.reg, s.frames[g].n).self == Some(s.frames[w].thread)
    {
      OnlyOwnNode(s, w, g);
    }
  }

  /** The winner's own callback is still running: the one flag that pthread.c:610 does not test. */
  ghost predicate OwnStillOpen(reg: Registry, t: int) {
    exists x :: x in reg.threadList && NodeAt(reg, x).self == Some(t) && NodeAt(reg, x).finiStarted &&
      !NodeAt(reg, x).finiDone
  }

  /** Some call of monitor_fini_thread has begun and not returned. */
  ghost predicate SomeOpen(trace: seq<Event>) {
    exists life :: FiniThreadBegin(life) in trace && FiniThreadEnd(life) !in trace
  }

  /** Some frame is inside monitor_fini_thread. */
  ghost predicate SomeInside(s: State) { exists f :: f in s.frames && InCallback(s.frames[f].at) }

  /** Every frame that is inside monitor_fini_thread is there for thread t's node. */
  ghost predicate InsideAreOf(s: State, t: int) {
    forall f :: f in s.frames && InCallback(s.frames[f].at) ==> NodeAt(s.sh.reg, s.frames[f].n).self == Some(t)
  }

  /** Exactly when every monitor_fini_thread has returned before monitor_fini_process begins: after a clean walk
      one is still open if and only if the winner's own node has tn_fini_started set and tn_fini_done not. */
  lemma ReturnedBeforeProcess(run: seq<State>, i: int, w: int)
    requires IsRun(run) && 0 <= i < |run| && (forall j :: 0 <= j < i ==> RaceFree(run[j])) && AtProcess(run[i], w)
    ensures SomeInside(run[i]) <==> OwnStillOpen(run[i].sh.reg, run[i].frames[w].thread)
    ensures SomeOpen(run[i].sh.log.trace) <==> SomeInside(run[i])
  {
    var s := run[i];
    CallRun(run, i);
    if SomeOpen(s.sh.log.trace) {
      var life :| FiniThreadBegin(life) in s.sh.log.trace && FiniThreadEnd(life) !in s.sh.log.trace;
      OpenIsOwn(s, w, life);
    }
    if OwnStillOpen(s.sh.reg, s.frames[w].thread) { OwnIsOpen(s, s.frames[w].thread); }
    OpenIsInside(s);
  }

  lemma OpenIsInside(s: State)
    requires Inv(s) && CallInv(s)
    ensures SomeOpen(s.sh.log.trace) <==> SomeInside(s)
  {
    if SomeOpen(s.sh.log.trace) {
      var life :| FiniThreadBegin(life) in s.sh.log.trace && FiniThreadEnd(life) !in s.sh.log.trace;
      assert Open(s, s.sh.log.caller[life], life);
    }
    if SomeInside(s) {
      var f :| f in s.frames && InCallback(s.frames[f].at);
      assert CallLocal(s.sh.reg, s.sh.log, f, s.frames[f].at, s.frames[f].n);
    }
  }

  lemma OpenIsOwn(s: State, w: int, life: int)
    requires Inv(s) && CallInv(s) && AtProcess(s, w)
    requires FiniThreadBegin(life) in s.sh.log.trace && FiniThreadEnd(life) !in s.sh.log.trace
    ensures OwnStillOpen(s.sh.reg, s.frames[w].thread)
  {
    var g := s.sh.log.caller[life];
    assert Open(s, g, life);
    OnlyOwnNode(s, w, g);
    assert LocalOk(s.sh, g, s.frames[g]);
    assert CallLocal(s.sh.reg, s.sh.log, g, s.frames[g].at, s.frames[g].n);
  }

  lemma OwnIsOpen(s: State, t: int)
    requires Inv(s) && CallInv(s) && OwnStillOpen(s.sh.reg, t)
    ensures SomeOpen(s.sh.log.trace)
  {
    var x :| x in s.sh.reg.threadList && NodeAt(s.sh.reg, x).self == Some(t)
      && NodeAt(s.sh.reg, x).finiStarted && !NodeAt(s.sh.reg, x).finiDone;
    assert NodeCalls(s.sh.reg.nodes[x], s.sh.log);
  }
}
