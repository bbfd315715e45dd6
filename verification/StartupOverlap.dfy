/** Two calls of monitor_call_thread_support that have both seen the flag unset can always go on to a second
    call of monitor_init_thread_support: the calls above them return, and each begins the callback. */
module StartupOverlap {
  import opened Startup

  /** Calls made on top of others: those of monitor_call_thread_support and of pthread_create. */
  predicate Nested(pc: Pc) {
    match pc
    case SupTest | SupCall | InSupport | SupSet => true
    case CreateUsed | CreateIgnore | CreateDone | CreateMain | CreateLaunch => true
    case _ => false
  }

  /** Only the bottom call of a thread is application code or waits. */
  ghost predicate NestInv(s: State) {
    forall t, k :: 0 <= t < |s.threads| && 0 < k < |s.threads[t].stack| ==> Nested(s.threads[t].stack[k])
  }

  /** A call puts nested calls on top of what takes its place; a nested call gives way to nested ones. */
  lemma MoveNests(g: Flags, pc: Pc, ignores: bool, t: int)
    ensures var e := Move(g, pc, ignores, t);
      && (forall k :: 0 < k < |e.to| ==> Nested(e.to[k]))
      && (Nested(pc) && e.to != [] ==> Nested(e.to[0]))
      && (forall c :: 0 <= c < |e.child| ==> |e.child[c].stack| == 1)
  {
  }

  lemma NestStack(rest: seq<Pc>, pc: Pc, to: seq<Pc>)
    requires forall k :: 0 < k < |rest + [pc]| ==> Nested((rest + [pc])[k])
    requires forall k :: 0 < k < |to| ==> Nested(to[k])
    requires Nested(pc) && to != [] ==> Nested(to[0])
    ensures forall k :: 0 < k < |rest + to| ==> Nested((rest + to)[k])
  {
    assert forall k :: 0 <= k < |rest| ==> (rest + [pc])[k] == rest[k];
    assert (rest + [pc])[|rest|] == pc;
  }

  lemma NestStep(s: State, a: Action)
    requires NestInv(s) && Enabled(s, a)
    ensures NestInv(Do(s, a))
  {
    if a.Step? {
      var stack, pc := s.threads[a.t].stack, Top(s, a.t);
      MoveNests(s.flags, pc, s.threads[a.t].ignores && s.threads[a.t].hasNode, a.t);
      assert stack == stack[..|stack| - 1] + [pc];
      NestStack(stack[..|stack| - 1], pc, EffectOf(s, a.t).to);
    }
  }

  function Last(run: seq<State>): State
    requires run != []
  {
    run[|run| - 1]
  }

  lemma {:induction false} NestRun(run: seq<State>, acts: seq<Action>, i: int)
    requires IsRun(run, acts) && 0 <= i < |run|
    ensures NestInv(run[i])
  {
    if i > 0 {
      NestRun(run, acts, i - 1);
      NestStep(run[i - 1], acts[i - 1]);
      assert run[(i - 1) + 1] == Do(run[i - 1], acts[i - 1]);
    }
  }

  lemma Go(run: seq<State>, acts: seq<Action>, a: Action) returns (run': seq<State>, acts': seq<Action>)
    requires IsRun(run, acts) && Enabled(Last(run), a)
    ensures IsRun(run', acts') && run <= run' && Last(run') == Do(Last(run), a)
  {
    run', acts' := run + [Do(Last(run), a)], acts + [a];
  }

  // ----- calls return -------------------------------------------------------------------------

  /** How many steps a nested call takes at most, with those it calls. */
  function Rank(pc: Pc): nat {
    match pc
    case SupSet | CreateLaunch => 1
    case InSupport => 2
    case SupCall => 3
    case SupTest => 4
    case CreateMain => 6
    case CreateDone => 7
    case CreateIgnore => 8
    case _ => 9
  }

  function Weight(q: seq<Pc>): nat {
    if q == [] then 0 else Weight(q[..|q| - 1]) + Rank(q[|q| - 1])
  }

  lemma WeightMore(q: seq<Pc>, pc: Pc)
    ensures Weight(q + [pc]) == Weight(q) + Rank(pc)
  {
    assert (q + [pc])[..|q|] == q;
  }

  /** The weight of what a step puts in place of a call: at most two calls. */
  function Ranks(to: seq<Pc>): nat {
    if |to| == 0 then 0 else if |to| == 1 then Rank(to[0]) else Rank(to[0]) + Rank(to[1])
  }

  lemma WeightAppend(q: seq<Pc>, to: seq<Pc>)
    requires |to| <= 2
    ensures Weight(q + to) == Weight(q) + Ranks(to)
  {
    if |to| == 0 {
      assert q + to == q;
    } else if |to| == 1 {
      assert q + to == q + [to[0]];
      WeightMore(q, to[0]);
    } else {
      assert q + to == q + [to[0]] + [to[1]];
      WeightMore(q, to[0]);
      WeightMore(q + [to[0]], to[1]);
    }
  }

  lemma RankDrops(g: Flags, pc: Pc, ignores: bool, t: int)
    requires Nested(pc)
    ensures var to := Move(g, pc, ignores, t).to; |to| <= 2 && Ranks(to) < Rank(pc)
  {
  }

  lemma WeightDrops(q: seq<Pc>, g: Flags, pc: Pc, ignores: bool, t: int)
    requires Nested(pc)
    ensures Weight(q + Move(g, pc, ignores, t).to) < Weight(q + [pc])
  {
    WeightMore(q, pc);
    RankDrops(g, pc, ignores, t);
    WeightAppend(q, Move(g, pc, ignores, t).to);
  }

  /** Thread t is back in its call k, and nothing else has lost a call. */
  predicate Back(s: State, s': State, t: int, k: int) {
    && 0 <= t < |s.threads| <= |s'.threads| && 0 <= k < |s.threads[t].stack|
    && s'.threads[t].stack == s.threads[t].stack[..k + 1]
    && (forall u :: 0 <= u < |s.threads| && u != t ==> s'.threads[u] == s.threads[u])
    && s.trace <= s'.trace
  }

  /** What a step above call k does to the stack. */
  lemma StackAbove(stack: seq<Pc>, k: int, g: Flags, ignores: bool, t: int)
    requires 0 <= k < |stack| - 1 && Nested(stack[|stack| - 1])
    ensures var stack' := stack[..|stack| - 1] + Move(g, stack[|stack| - 1], ignores, t).to;
      && k < |stack'| && stack'[..k + 1] == stack[..k + 1]
      && Weight(stack'[k + 1..]) < Weight(stack[k + 1..])
  {
    var n := |stack| - 1;
    var q := stack[k + 1..n];
    var to := Move(g, stack[n], ignores, t).to;
    assert stack[k + 1..] == q + [stack[n]];
    assert (stack[..n] + to)[k + 1..] == q + to;
    WeightDrops(q, g, stack[n], ignores, t);
  }

  /** What a step of thread t does to the threads and the trace. */
  lemma StepThreads(s: State, t: int)
    requires Enabled(s, Step(t))
    ensures var s' := Do(s, Step(t)); var n := |s.threads[t].stack| - 1;
      && |s.threads| <= |s'.threads| && s.trace <= s'.trace
      && s'.threads[t].stack
           == s.threads[t].stack[..n] +
              Move(s.flags, s.threads[t].stack[n], s.threads[t].ignores && s.threads[t].hasNode, t).to
      && (forall u :: 0 <= u < |s.threads| && u != t ==> s'.threads[u] == s.threads[u])
  {
  }

  /** A step of thread t above its call k. */
  lemma StepAbove(s: State, t: int, k: int)
    requires NestInv(s) && 0 <= t < |s.threads| && 0 <= k < |s.threads[t].stack| - 1
    ensures Enabled(s, Step(t)) && NestInv(Do(s, Step(t)))
    ensures var s' := Do(s, Step(t));
      && |s.threads| <= |s'.threads| && k < |s'.threads[t].stack|
      && s'.threads[t].stack[..k + 1] == s.threads[t].stack[..k + 1]
      && Weight(s'.threads[t].stack[k + 1..]) < Weight(s.threads[t].stack[k + 1..])
      && (forall u :: 0 <= u < |s.threads| && u != t ==> s'.threads[u] == s.threads[u])
      && s.trace <= s'.trace
  {
    assert Nested(Top(s, t));
    NestStep(s, Step(t));
    StepThreads(s, t);
    StackAbove(s.threads[t].stack, k, s.flags, s.threads[t].ignores && s.threads[t].hasNode, t);
  }

  /** The calls of thread t above its call k can return. */
  lemma Drain(run: seq<State>, acts: seq<Action>, t: int, k: int) returns (run': seq<State>, acts': seq<Action>)
    requires IsRun(run, acts) && NestInv(Last(run))
    requires 0 <= t < |Last(run).threads| && 0 <= k < |Last(run).threads[t].stack|
    ensures IsRun(run', acts') && run <= run' && NestInv(Last(run')) && Back(Last(run), Last(run'), t, k)
    decreases Weight(Last(run).threads[t].stack[k + 1..])
  {
    var s := Last(run);
    if k == |s.threads[t].stack| - 1 {
      run', acts' := run, acts;
    } else {
      StepAbove(s, t, k);
      run', acts' := Go(run, acts, Step(t));
      run', acts' := Drain(run', acts', t, k);
    }
  }

  // ----- two calls ----------------------------------------------------------------------------

  /** Call k of thread t, on top, begins the callback. */
  lemma BeginStep(s: State, t: int, k: int)
    requires NestInv(s) && PointAt(s, t, k) == SupCall && k == |s.threads[t].stack| - 1
    ensures Enabled(s, Step(t)) && NestInv(Do(s, Step(t)))
    ensures var s' := Do(s, Step(t));
      && s'.trace == s.trace + [SupportBegin]
      && forall u, j :: (u != t || j < k) && PointAt(s, u, j) == SupCall ==> PointAt(s', u, j) == SupCall
  {
    assert Top(s, t) == SupCall;
    NestStep(s, Step(t));
    StepPoints(s, t);
  }

  lemma BackPoints(s: State, s': State, t: int, k: int)
    requires Back(s, s', t, k)
    ensures |s'.threads[t].stack| == k + 1
    ensures forall u, j :: (u != t || j <= k) && PointAt(s, u, j) == SupCall ==> PointAt(s', u, j) == SupCall
  {
  }

  /** Call k of thread t returns to its SupCall and begins the callback. */
  lemma Fire(run: seq<State>, acts: seq<Action>, t: int, k: int) returns (run': seq<State>, acts': seq<Action>)
    requires IsRun(run, acts) && NestInv(Last(run)) && PointAt(Last(run), t, k) == SupCall
    ensures IsRun(run', acts') && run <= run' && NestInv(Last(run'))
    ensures Last(run).trace < Last(run').trace && Last(run').trace[|Last(run').trace| - 1] == SupportBegin
    ensures forall u, j :: (u != t || j < k) && PointAt(Last(run), u, j) == SupCall ==>
      PointAt(Last(run'), u, j) == SupCall
  {
    run', acts' := Drain(run, acts, t, k);
    BackPoints(Last(run), Last(run'), t, k);
    BeginStep(Last(run'), t, k);
    run', acts' := Go(run', acts', Step(t));
  }

  predicate HasBegun(pc: Pc) { pc == InSupport || pc == SupSet }

  /** A call past the start of its callback has left a mark, and two such calls two. */
  ghost predicate MarkInv(s: State) {
    && (forall t, k :: HasBegun(PointAt(s, t, k)) ==> SupportBegin in s.trace)
    && (forall t, k, u, j :: (t != u || k != j) && HasBegun(PointAt(s, t, k)) && HasBegun(PointAt(s, u, j)) ==>
      !Once(s.trace))
  }

  lemma TwoMarks(trace: seq<Event>, i: int, more: seq<Event>)
    requires 0 <= i < |trace| && trace[i] == SupportBegin && more != [] && more[|more| - 1] == SupportBegin
    ensures !Once(trace + more)
  {
    assert (trace + more)[i].SupportBegin? && (trace + more)[|trace + more| - 1].SupportBegin?;
  }

  lemma OnceShrinks(trace: seq<Event>, trace': seq<Event>)
    requires trace <= trace' && !Once(trace)
    ensures !Once(trace')
  {
    assert forall i :: 0 <= i < |trace| ==> trace'[i] == trace[i];
  }

  /** Where a step puts a call past the start of its callback. */
  lemma MarkPoints(s: State, t: int)
    requires Enabled(s, Step(t))
    ensures var s' := Do(s, Step(t)); var top := |s.threads[t].stack| - 1;
      forall u, j :: HasBegun(PointAt(s', u, j)) ==>
        HasBegun(PointAt(s, u, j)) || (u == t && j == top && EffectOf(s, t).events == [SupportBegin])
  {
    StepPoints(s, t);
    assert PointAt(s, t, |s.threads[t].stack| - 1) == Top(s, t);
  }

  lemma MarkStep(s: State, t: int)
    requires MarkInv(s) && Enabled(s, Step(t))
    ensures MarkInv(Do(s, Step(t)))
  {
    var s' := Do(s, Step(t));
    MarkPoints(s, t);
    assert s.trace <= s'.trace;
    if !Once(s.trace) { OnceShrinks(s.trace, s'.trace); }
    if SupportBegin in s.trace && EffectOf(s, t).events == [SupportBegin] {
      var i :| 0 <= i < |s.trace| && s.trace[i] == SupportBegin;
      TwoMarks(s.trace, i, [SupportBegin]);
    }
  }

  lemma MarkOther(s: State, a: Action)
    requires MarkInv(s) && Enabled(s, a) && !a.Step?
    ensures MarkInv(Do(s, a))
  {
    assert forall t, k :: HasBegun(PointAt(Do(s, a), t, k)) ==> HasBegun(PointAt(s, t, k));
  }

  lemma {:induction false} MarkRun(run: seq<State>, acts: seq<Action>, i: int)
    requires IsRun(run, acts) && 0 <= i < |run|
    ensures MarkInv(run[i])
  {
    if i > 0 {
      MarkRun(run, acts, i - 1);
      if acts[i - 1].Step? { MarkStep(run[i - 1], acts[i - 1].t); } else { MarkOther(run[i - 1], acts[i - 1]); }
      assert run[(i - 1) + 1] == Do(run[i - 1], acts[i - 1]);
    }
  }

  /** One of two overlapping calls has begun the callback: the other begins it again. */
  lemma SecondFires(run: seq<State>, acts: seq<Action>, t: int, k: int) returns (run': seq<State>, acts': seq<Action>)
    requires IsRun(run, acts) && NestInv(Last(run)) && PointAt(Last(run), t, k) == SupCall
    requires SupportBegin in Last(run).trace
    ensures IsRun(run', acts') && run <= run' && !Once(Last(run').trace)
  {
    var trace := Last(run).trace;
    run', acts' := Fire(run, acts, t, k);
    var trace' := Last(run').trace;
    var i :| 0 <= i < |trace| && trace[i] == SupportBegin;
    assert trace' == trace + trace'[|trace|..];
    TwoMarks(trace, i, trace'[|trace|..]);
  }

  /** From every overlap the run can go on to a second call of monitor_init_thread_support. */
  lemma OverlapRepeats(run: seq<State>, acts: seq<Action>) returns (run': seq<State>, acts': seq<Action>)
    requires IsRun(run, acts) && Overlap(Last(run))
    ensures IsRun(run', acts') && run <= run' && !Once(Last(run').trace)
  {
    var s := Last(run);
    NestRun(run, acts, |run| - 1);
    MarkRun(run, acts, |run| - 1);
    var t, k, u, j :| (t != u || k != j) && InWindow(PointAt(s, t, k)) && InWindow(PointAt(s, u, j));
    if HasBegun(PointAt(s, t, k)) && HasBegun(PointAt(s, u, j)) {
      run', acts' := run, acts;
    } else if HasBegun(PointAt(s, t, k)) {
      run', acts' := SecondFires(run, acts, u, j);
    } else if HasBegun(PointAt(s, u, j)) {
      run', acts' := SecondFires(run, acts, t, k);
    } else if t != u || j < k {
      run', acts' := BothFire(run, acts, t, k, u, j);
    } else {
      run', acts' := BothFire(run, acts, u, j, t, k);
    }
  }

  lemma BothFire(run: seq<State>, acts: seq<Action>, t: int, k: int, u: int, j: int)
      returns (run': seq<State>, acts': seq<Action>)
    requires IsRun(run, acts) && NestInv(Last(run)) && (u != t || j < k)
    requires PointAt(Last(run), t, k) == SupCall && PointAt(Last(run), u, j) == SupCall
    ensures IsRun(run', acts') && run <= run' && !Once(Last(run').trace)
  {
    run', acts' := Fire(run, acts, t, k);
    run', acts' := SecondFires(run', acts', u, j);
  }

  /** The run can go on to a second call of monitor_init_thread_support. */
  ghost predicate CanRepeat(run: seq<State>) {
    exists run', acts' :: IsRun(run', acts') && run <= run' && !Once(Last(run').trace)
  }

  /** The run can go on to an overlap. */
  ghost predicate CanOverlap(run: seq<State>) {
    exists run', acts' :: IsRun(run', acts') && run <= run' && Overlap(Last(run'))
  }

  lemma Prefix(run: seq<State>, acts: seq<Action>, j: int)
    requires IsRun(run, acts) && 0 <= j < |run|
    ensures IsRun(run[..j + 1], acts[..j]) && Last(run[..j + 1]) == run[j]
  {
  }

  lemma RepeatNeedsOverlap(run: seq<State>, run': seq<State>, acts': seq<Action>)
    requires forall j :: 0 <= j < |run| ==> !Overlap(run[j])
    requires run != [] && IsRun(run', acts') && run <= run' && !Once(Last(run').trace)
    ensures CanOverlap(run)
  {
    SupportOnce(run', acts', |run'| - 1);
    var j :| 0 <= j < |run'| && Overlap(run'[j]);
    assert forall i :: 0 <= i < |run| ==> run'[i] == run[i];
    Prefix(run', acts', j);
    assert run <= run'[..j + 1];
  }

  /** A run in which no two calls have overlapped can go on to a second call of monitor_init_thread_support
      if and only if it can go on to an overlap. */
  lemma SupportOnceExactly(run: seq<State>, acts: seq<Action>)
    requires IsRun(run, acts) && forall j :: 0 <= j < |run| ==> !Overlap(run[j])
    ensures CanRepeat(run) <==> CanOverlap(run)
  {
    if CanRepeat(run) {
      var run', acts' :| IsRun(run', acts') && run <= run' && !Once(Last(run').trace);
      RepeatNeedsOverlap(run, run', acts');
    }
    if CanOverlap(run) {
      var run', acts' :| IsRun(run', acts') && run <= run' && Overlap(Last(run'));
      var run'', acts'' := OverlapRepeats(run', acts');
      assert IsRun(run'', acts'') && run <= run'' && !Once(Last(run'').trace);
    }
  }
}
