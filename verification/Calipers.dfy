/** The calipers of papiex/src/papiex.c: start, accum and stop at points of a thread, and what the
    accumulated counts add up to. */
module Calipers {

  const MAX_CALIPERS: int := 32  // PAPIEX_MAX_CALIPERS

  datatype Call = Start(p: int) | Accum(p: int) | Stop(p: int)

  /** The data of one point for one event: tmp_counters and counters. */
  datatype Point = Point(depth: int, used: int, tmp: int, total: int)

  const UNUSED := Point(0, 0, 0, 0)

  /** A call that ends the process with an error: a negative point, the start of a point that is open, the stop or
      accum of one that is not, and any accum of point 0.  Points past the last are ignored. */
  predicate Fatal(c: Call, open: bool) {
    c.p < MAX_CALIPERS &&
    match c
    case Start(p) => p < 0 || open
    case Accum(p) => p <= 0 || !open
    case Stop(p) => p < 0 || !open
  }

  /** One call with its reading, seen from point p; a fatal call leaves it as it is. */
  function Step(s: Point, c: Call, r: int, p: int): Point {
    if c.p != p || !(0 <= p < MAX_CALIPERS) then s
    else
      match c
      case Start(_) => if s.depth != 0 then s else s.(depth := s.depth + 1, tmp := r)
      case Accum(_) => if p == 0 || s.depth == 0 then s
        else s.(used := s.used + 1, total := s.total + (r - s.tmp), tmp := r)
      case Stop(_) => if s.depth == 0 then s
        else s.(depth := s.depth - 1, used := s.used + 1, total := s.total + (r - s.tmp))
  }

  /** The point after a history of calls, the k-th with reading r[k]. */
  function Run(cs: seq<Call>, r: seq<int>, p: int): Point
    requires |cs| == |r|
  {
    if cs == [] then UNUSED
    else Step(Run(cs[..|cs| - 1], r[..|r| - 1], p), cs[|cs| - 1], r[|r| - 1], p)
  }

  // ----- what a total is ----------------------------------------------------------------------

  predicate IsOpen(cs: seq<Call>, p: int) {
    if cs == [] || !(0 <= p < MAX_CALIPERS) then false
    else if cs[|cs| - 1] == Start(p) then true
    else if cs[|cs| - 1] == Stop(p) then false
    else IsOpen(cs[..|cs| - 1], p)
  }

  lemma {:induction false} DepthIsOpen(cs: seq<Call>, r: seq<int>, p: int)
    requires |cs| == |r|
    ensures Run(cs, r, p).depth == (if IsOpen(cs, p) then 1 else 0)
  {
    if cs != [] { DepthIsOpen(cs[..|cs| - 1], r[..|r| - 1], p); }
  }

  /** The reading at the start of the window that is open. */
  function Opened(cs: seq<Call>, r: seq<int>, p: int): int
    requires |cs| == |r|
  {
    if cs == [] then 0
    else if cs[|cs| - 1] == Start(p) && !IsOpen(cs[..|cs| - 1], p) then r[|r| - 1]
    else Opened(cs[..|cs| - 1], r[..|r| - 1], p)
  }

  /** The sum over the windows that have been closed of the reading at the end less the reading at the
      start; accum plays no part. */
  function WindowSum(cs: seq<Call>, r: seq<int>, p: int): int
    requires |cs| == |r|
  {
    if cs == [] then 0
    else
      var cs', r' := cs[..|cs| - 1], r[..|r| - 1];
      WindowSum(cs', r', p) + (if cs[|cs| - 1] == Stop(p) && IsOpen(cs', p) then r[|r| - 1] - Opened(cs', r', p) else 0)
  }

  /** However many accums split its windows, a point's total is their sum, and within a window what has
      been read of it so far. */
  lemma {:induction false} TotalIsWindowSum(cs: seq<Call>, r: seq<int>, p: int)
    requires |cs| == |r|
    ensures Run(cs, r, p).total ==
            WindowSum(cs, r, p) + (if IsOpen(cs, p) then Run(cs, r, p).tmp - Opened(cs, r, p) else 0)
  {
    if cs != [] {
      TotalIsWindowSum(cs[..|cs| - 1], r[..|r| - 1], p);
      DepthIsOpen(cs[..|cs| - 1], r[..|r| - 1], p);
    }
  }

  /** The same sum over the gaps between calls, of those in which the point is open. */
  function GapSum(cs: seq<Call>, r: seq<int>, p: int): int
    requires |cs| == |r|
  {
    if |cs| <= 1 then 0
    else
      GapSum(cs[..|cs| - 1], r[..|r| - 1], p) +
      (if IsOpen(cs[..|cs| - 1], p) then r[|r| - 1] - r[|r| - 2] else 0)
  }

  lemma {:induction false} TotalIsGapSum(cs: seq<Call>, r: seq<int>, p: int)
    requires |cs| == |r|
    ensures Run(cs, r, p).total + (if IsOpen(cs, p) then r[|r| - 1] - Run(cs, r, p).tmp else 0) == GapSum(cs, r, p)
  {
    if cs != [] {
      TotalIsGapSum(cs[..|cs| - 1], r[..|r| - 1], p);
      DepthIsOpen(cs[..|cs| - 1], r[..|r| - 1], p);
    }
  }

  // ----- the calls that are survived ----------------------------------------------------------

  /** No call of the history has ended the process. */
  predicate Survives(cs: seq<Call>) {
    cs == [] || (Survives(cs[..|cs| - 1]) && !Fatal(cs[|cs| - 1], IsOpen(cs[..|cs| - 1], cs[|cs| - 1].p)))
  }

  /** How often a point was started, or stopped. */
  function Calls(cs: seq<Call>, c: Call): nat {
    if cs == [] then 0 else Calls(cs[..|cs| - 1], c) + if cs[|cs| - 1] == c then 1 else 0
  }

  /** As long as the process lives, starts and stops of a point take turns: it is open exactly when it has been
      started once more than stopped, and each accum and stop of it has been counted. */
  lemma {:induction false} TurnsAlternate(cs: seq<Call>, r: seq<int>, p: int)
    requires |cs| == |r| && Survives(cs) && 0 <= p < MAX_CALIPERS
    ensures Calls(cs, Start(p)) == Calls(cs, Stop(p)) + (if IsOpen(cs, p) then 1 else 0)
    ensures Run(cs, r, p).used == Calls(cs, Accum(p)) + Calls(cs, Stop(p))
  {
    if cs != [] {
      TurnsAlternate(cs[..|cs| - 1], r[..|r| - 1], p);
      DepthIsOpen(cs[..|cs| - 1], r[..|r| - 1], p);
    }
  }

  // ----- shares of the whole ------------------------------------------------------------------

  predicate Nondecreasing(r: seq<int>) { forall i :: 0 < i < |r| ==> r[i - 1] <= r[i] }

  /** In every gap between two calls in which p is open, point 0 is open. */
  predicate Covered(cs: seq<Call>, p: int) {
    forall k :: 0 < k < |cs| && IsOpen(cs[..k], p) ==> IsOpen(cs[..k], 0)
  }

  lemma {:induction false} GapSumLe(cs: seq<Call>, r: seq<int>, p: int)
    requires |cs| == |r| && Nondecreasing(r) && Covered(cs, p)
    ensures GapSum(cs, r, p) <= GapSum(cs, r, 0)
  {
    if |cs| > 1 {
      var cs', n := cs[..|cs| - 1], |cs| - 1;
      assert forall k :: 0 < k < n ==> cs'[..k] == cs[..k];
      GapSumLe(cs', r[..n], p);
      assert r[n - 1] <= r[n];
    }
  }

  /** A counter that ticks once, after call k. */
  function Tick(n: int, k: int): (r: seq<int>)
    requires 0 <= n
    ensures |r| == n && Nondecreasing(r)
  {
    seq(n, i => if i < k then 0 else 1)
  }

  lemma {:induction false} GapSumTick(cs: seq<Call>, n: int, k: int, p: int)
    requires 0 < k < |cs| && 0 <= n <= |cs|
    ensures GapSum(cs[..n], Tick(n, k), p) == (if n > k && IsOpen(cs[..k], p) then 1 else 0)
  {
    if n > 1 {
      GapSumTick(cs, n - 1, k, p);
      assert cs[..n][..n - 1] == cs[..n - 1] && Tick(n, k)[..n - 1] == Tick(n - 1, k);
    }
  }

  /** A closed point's total is at most that of point 0 for all nondecreasing readings, so that its share
      is at most 100 percent, if and only if the point is never open while point 0 is closed. */
  lemma ShareAtMostWhole(cs: seq<Call>, p: int)
    requires !IsOpen(cs, p) && !IsOpen(cs, 0)
    ensures (forall r: seq<int> :: |r| == |cs| && Nondecreasing(r) ==> Run(cs, r, p).total <= Run(cs, r, 0).total)
            <==> Covered(cs, p)
  {
    if Covered(cs, p) {
      forall r: seq<int> | |r| == |cs| && Nondecreasing(r) ensures Run(cs, r, p).total <= Run(cs, r, 0).total {
        TotalIsGapSum(cs, r, p);
        TotalIsGapSum(cs, r, 0);
        GapSumLe(cs, r, p);
      }
    } else {
      var k :| 0 < k < |cs| && IsOpen(cs[..k], p) && !IsOpen(cs[..k], 0);
      var r := Tick(|cs|, k);
      assert cs[..|cs|] == cs;
      GapSumTick(cs, |cs|, k, p);
      GapSumTick(cs, |cs|, k, 0);
      TotalIsGapSum(cs, r, p);
      TotalIsGapSum(cs, r, 0);
    }
  }

  lemma OneMore(cs: seq<Call>, r: seq<int>, c: Call, v: int, p: int)
    requires |cs| == |r|
    ensures Run(cs + [c], r + [v], p) == Step(Run(cs, r, p), c, v, p)
    ensures Survives(cs + [c]) <==> Survives(cs) && !Fatal(c, IsOpen(cs, c.p))
  {
    assert (cs + [c])[..|cs|] == cs && (r + [v])[..|r|] == r;
  }

  /** One more call of a process that lives, for points 0 and 1. */
  lemma Extend(cs: seq<Call>, r: seq<int>, c: Call, v: int) returns (cs': seq<Call>, r': seq<int>)
    requires |cs| == |r| && Survives(cs) && (c.p == 0 || c.p == 1) && !Fatal(c, Run(cs, r, c.p).depth != 0)
    requires Nondecreasing(r) && r != [] && r[|r| - 1] <= v
    ensures |cs'| == |r'| && Survives(cs') && Nondecreasing(r') && r' != [] && r'[|r'| - 1] == v
    ensures Run(cs', r', 0) == Step(Run(cs, r, 0), c, v, 0) && Run(cs', r', 1) == Step(Run(cs, r, 1), c, v, 1)
  {
    cs', r' := cs + [c], r + [v];
    DepthIsOpen(cs, r, c.p);
    OneMore(cs, r, c, v, 0);
    OneMore(cs, r, c, v, 1);
  }

  lemma ZeroStarted() returns (cs: seq<Call>, r: seq<int>)
    ensures |r| == |cs| && Survives(cs) && Nondecreasing(r) && r != [] && r[|r| - 1] == 0
    ensures Run(cs, r, 0) == Point(1, 0, 0, 0) && Run(cs, r, 1) == UNUSED
  {
    cs, r := [Start(0)], [0];
    assert cs[..0] == [] && r[..0] == [];
  }

  /** The application stops point 0 while point 1 is open. */
  lemma ZeroStopped() returns (cs: seq<Call>, r: seq<int>)
    ensures |r| == |cs| && Survives(cs) && Nondecreasing(r) && r != [] && r[|r| - 1] == 0
    ensures Run(cs, r, 0) == Point(0, 1, 0, 0) && Run(cs, r, 1) == Point(1, 0, 0, 0)
  {
    cs, r := ZeroStarted();
    cs, r := Extend(cs, r, Start(1), 0);
    cs, r := Extend(cs, r, Stop(0), 0);
  }

  /** The condition can fail in a process that lives: the application stops point 0 and starts it again, while
      point 1 is open. */
  lemma StopZeroBreaks() returns (cs: seq<Call>, r: seq<int>)
    ensures |r| == |cs| && Survives(cs) && !IsOpen(cs, 0) && !IsOpen(cs, 1) && Nondecreasing(r)
    ensures Run(cs, r, 1).total > Run(cs, r, 0).total
  {
    cs, r := ZeroStopped();
    cs, r := Extend(cs, r, Start(0), 1);
    cs, r := Extend(cs, r, Stop(1), 1);
    cs, r := Extend(cs, r, Stop(0), 1);
    DepthIsOpen(cs, r, 0);
    DepthIsOpen(cs, r, 1);
  }

  /** The thread's own use: point 0 is started first and stopped last, and the application leaves it
      alone. */
  lemma ThreadCovers(app: seq<Call>, p: int)
    requires forall i :: 0 <= i < |app| ==> app[i].p != 0
    ensures Covered([Start(0)] + app + [Stop(0)], p)
    ensures !IsOpen([Start(0)] + app + [Stop(0)], 0)
  {
    var cs := [Start(0)] + app + [Stop(0)];
    forall k | 0 < k < |cs| ensures IsOpen(cs[..k], 0) { ZeroOpen(app, k); }
  }

  lemma {:induction false} ZeroOpen(app: seq<Call>, k: int)
    requires forall i :: 0 <= i < |app| ==> app[i].p != 0
    requires 0 < k <= |app| + 1
    ensures IsOpen(([Start(0)] + app + [Stop(0)])[..k], 0)
  {
    var cs := [Start(0)] + app + [Stop(0)];
    if k > 1 {
      ZeroOpen(app, k - 1);
      assert cs[..k][..k - 1] == cs[..k - 1] && cs[..k][k - 1] == app[k - 2];
    }
  }

  // ----- the data of a thread -----------------------------------------------------------------

  /** papiex_perthread_data_t: the points, with one count for each event. */
  class ThreadData {
    const events: nat
    var maxUsed: int
    const depth: array<int>
    const used: array<int>
    const tmp: array2<int>
    const counters: array2<int>

    ghost predicate Valid()
      reads this
    {
      && depth.Length == MAX_CALIPERS && used.Length == MAX_CALIPERS && depth != used
      && tmp.Length0 == MAX_CALIPERS && tmp.Length1 == events
      && counters.Length0 == MAX_CALIPERS && counters.Length1 == events && tmp != counters
    }

    ghost function View(p: int, i: int): Point
      requires Valid() && 0 <= i < events
      reads this, depth, used, tmp, counters
    {
      if 0 <= p < MAX_CALIPERS then Point(depth[p], used[p], tmp[p, i], counters[p, i]) else UNUSED
    }

    constructor (events: nat)
      ensures Valid() && this.events == events && fresh(depth) && fresh(used) && fresh(tmp) && fresh(counters)
      ensures forall p, i :: 0 <= i < events ==> View(p, i) == UNUSED
    {
      this.events, maxUsed := events, 0;
      depth, used := new int[MAX_CALIPERS](_ => 0), new int[MAX_CALIPERS](_ => 0);
      tmp, counters := new int[MAX_CALIPERS, events]((_, _) => 0), new int[MAX_CALIPERS, events]((_, _) => 0);
    }

    /** papiex_start; `now` is what PAPI_read_ts gives.  If `alive` is false the process has been ended. */
    method StartPoint(point: int, now: seq<int>) returns (alive: bool)
      requires Valid() && |now| == events
      modifies this`maxUsed, depth, tmp
      ensures alive <==> events == 0 || point >= 32 || (point >= 0 && old(depth[point]) == 0)
      ensures events > 0 ==> alive == !Fatal(Start(point), 0 <= point < 32 && old(depth[point]) != 0)
      ensures forall p, i :: 0 <= i < events ==> View(p, i) == Step(old(View(p, i)), Start(point), now[i], p)
      ensures maxUsed ==
        if events > 0 && 0 <= point < MAX_CALIPERS && old(depth[point]) == 0 && old(maxUsed) <= point then point
        else old(maxUsed)
    {
      if events == 0 {
        return true;
      }
      if point < 0 {
        return false;
      }
      if point >= MAX_CALIPERS {
        return true;
      }
      if depth[point] != 0 {
        return false;
      }
      alive := true;
      depth[point] := depth[point] + 1;
      if maxUsed <= point {
        maxUsed := point;
      }
      for i := 0 to events
        invariant depth[point] == old(depth[point]) + 1 && maxUsed == if old(maxUsed) <= point then point
          else old(maxUsed)
        invariant forall p :: 0 <= p < MAX_CALIPERS && p != point ==> depth[p] == old(depth[p])
        invariant forall p, j :: 0 <= p < MAX_CALIPERS && 0 <= j < events ==>
          tmp[p, j] == if p == point && j < i then now[j] else old(tmp[p, j])
      {
        tmp[point, i] := now[i];
      }
    }

    /** papiex_accum. */
    method AccumPoint(point: int, now: seq<int>) returns (alive: bool)
      requires Valid() && |now| == events
      modifies used, tmp, counters
      ensures alive <==> events == 0 || point >= 32 || (point > 0 && old(depth[point]) != 0)
      ensures events > 0 ==> alive == !Fatal(Accum(point), 0 <= point < 32 && old(depth[point]) != 0)
      ensures forall p, i :: 0 <= i < events ==> View(p, i) == Step(old(View(p, i)), Accum(point), now[i], p)
    {
      if events == 0 {
        return true;
      }
      if point <= 0 {
        return false;
      }
      if point >= MAX_CALIPERS {
        return true;
      }
      if depth[point] == 0 {
        return false;
      }
      alive := true;
      used[point] := used[point] + 1;
      for i := 0 to events
        invariant used[point] == old(used[point]) + 1
        invariant forall p :: 0 <= p < MAX_CALIPERS && p != point ==> used[p] == old(used[p])
        invariant forall p, j :: 0 <= p < MAX_CALIPERS && 0 <= j < events ==>
          tmp[p, j] == if p == point && j < i then now[j] else old(tmp[p, j])
        invariant forall p, j :: 0 <= p < MAX_CALIPERS && 0 <= j < events ==>
          counters[p, j] == old(counters[p, j]) + if p == point && j < i then now[j] - old(tmp[p, j]) else 0
      {
        counters[point, i] := counters[point, i] + (now[i] - tmp[point, i]);
        tmp[point, i] := now[i];
      }
    }

    /** papiex_stop. */
    method StopPoint(point: int, now: seq<int>) returns (alive: bool)
      requires Valid() && |now| == events
      modifies depth, used, counters
      ensures alive <==> events == 0 || point >= 32 || (point >= 0 && old(depth[point]) != 0)
      ensures events > 0 ==> alive == !Fatal(Stop(point), 0 <= point < 32 && old(depth[point]) != 0)
      ensures forall p, i :: 0 <= i < events ==> View(p, i) == Step(old(View(p, i)), Stop(point), now[i], p)
    {
      if events == 0 {
        return true;
      }
      if point < 0 {
        return false;
      }
      if point >= MAX_CALIPERS {
        return true;
      }
      if depth[point] == 0 {
        return false;
      }
      alive := true;
      depth[point] := depth[point] - 1;
      used[point] := used[point] + 1;
      for i := 0 to events
        invariant depth[point] == old(depth[point]) - 1 && used[point] == old(used[point]) + 1
        invariant forall p :: 0 <= p < MAX_CALIPERS && p != point ==>
          depth[p] == old(depth[p]) && used[p] == old(used[p])
        invariant forall p, j :: 0 <= p < MAX_CALIPERS && 0 <= j < events ==>
          counters[p, j] == old(counters[p, j]) + if p == point && j < i then now[j] - tmp[p, j] else 0
      {
        counters[point, i] := counters[point, i] + (now[i] - tmp[point, i]);
      }
    }
  }
}
