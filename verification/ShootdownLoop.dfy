/** The loop of monitor_thread_shootdown (monitor/src/pthread.c): it ends for any number of threads and
    any delivery of the signals, provided that started callbacks return and the clock advances. */
module ShootdownLoop {

  const TIMEOUT: int := 10  // MONITOR_SHOOTDOWN_TIMEOUT, in seconds

  /** What a walk reads of one node of the frozen list: whether it is the winner's own, and its flags. */
  datatype View = View(own: bool, applStarted: bool, finiStarted: bool, finiDone: bool)

  predicate IsStarted(v: View) { !v.own && v.applStarted && v.finiStarted }
  predicate IsUnstarted(v: View) { !v.own && v.applStarted && !v.finiStarted }
  predicate IsUnfinished(v: View) { !v.own && v.applStarted && !v.finiDone }

  function Count(vs: seq<View>, p: View -> bool): (c: int)
    ensures 0 <= c <= |vs|
  {
    if vs == [] then 0
    else Count(vs[..|vs| - 1], p) + (if p(vs[|vs| - 1]) then 1 else 0)
  }

  /** The positions of the nodes that satisfy p, in list order. */
  function Positions(vs: seq<View>, p: View -> bool): seq<int> {
    if vs == [] then []
    else
      var r := Positions(vs[..|vs| - 1], p);
      if p(vs[|vs| - 1]) then r + [|vs| - 1] else r
  }

  lemma {:induction false} CountZero(vs: seq<View>, p: View -> bool)
    ensures Count(vs, p) == 0 <==> forall i :: 0 <= i < |vs| ==> !p(vs[i])
  {
    if vs != [] {
      CountZero(vs[..|vs| - 1], p);
      assert forall i :: 0 <= i < |vs| - 1 ==> vs[..|vs| - 1][i] == vs[i];
    }
  }

  lemma {:induction false} PositionsAre(vs: seq<View>, p: View -> bool)
    ensures |Positions(vs, p)| == Count(vs, p)
    ensures forall i :: i in Positions(vs, p) <==> 0 <= i < |vs| && p(vs[i])
    ensures Increasing(Positions(vs, p))
  {
    if vs != [] {
      var front := vs[..|vs| - 1];
      PositionsAre(front, p);
      assert forall i :: 0 <= i < |Positions(front, p)| ==> Positions(front, p)[i] in Positions(front, p);
    }
  }

  lemma {:induction false} CountIs(vs: seq<View>, p: View -> bool, s: set<int>)
    requires forall i :: i in s <==> 0 <= i < |vs| && p(vs[i])
    ensures Count(vs, p) == |s|
  {
    if vs == [] {
      assert forall i :: i !in s;
    } else {
      var n := |vs| - 1;
      CountIs(vs[..n], p, s - {n});
      assert s == s - {n} + (if p(vs[n]) then {n} else {});
    }
  }

  lemma CountNext(vs: seq<View>, k: int, p: View -> bool)
    requires 0 <= k < |vs|
    ensures Count(vs[..k + 1], p) == Count(vs[..k], p) + (if p(vs[k]) then 1 else 0)
    ensures Positions(vs[..k + 1], p) == Positions(vs[..k], p) + (if p(vs[k]) then [k] else [])
  {
    assert vs[..k + 1][..k] == vs[..k];
  }

  /** The other threads and the clock, as the winner sees them: what walk number p reads, and the time
      after it. */
  datatype World = World(size: int, walk: int -> seq<View>, clock: int -> int, start: int)

  ghost predicate ListFrozen(w: World) { w.size >= 0 && forall p :: |w.walk(p)| == w.size }

  /** From walk q on, the clock is past t. */
  ghost predicate PastFrom(w: World, t: int, q: int) { forall p :: p >= q ==> w.clock(p) > t }

  ghost predicate Passes(w: World, t: int) { exists q :: PastFrom(w, t, q) }

  ghost predicate ClockAdvances(w: World) { forall t :: Passes(w, t) }

  /** Every callback that a walk saw started is seen done by some later walk, and by all after that. */
  ghost predicate CallbacksReturn(w: World)
    requires ListFrozen(w)
  {
    forall i, p :: 0 <= i < w.size && w.walk(p)[i].finiStarted ==> exists q :: DoneFrom(w, i, q)
  }

  ghost predicate DoneFrom(w: World, i: int, q: int)
    requires ListFrozen(w) && 0 <= i < w.size
  {
    forall p :: p >= q ==> w.walk(p)[i].finiDone
  }

  ghost predicate SettledFrom(w: World, k: int, q: int)
    requires ListFrozen(w) && 0 <= k <= w.size
  {
    forall p, i :: p >= q && 0 <= i < k && w.walk(p)[i].finiStarted ==> w.walk(p)[i].finiDone
  }

  /** From some walk on, all that has started is done. */
  lemma {:induction false} Settles(w: World, k: int) returns (q: int)
    requires ListFrozen(w) && CallbacksReturn(w) && 0 <= k <= w.size
    ensures q >= 0 && SettledFrom(w, k, q)
  {
    if k == 0 {
      q := 0;
    } else {
      q := Settles(w, k - 1);
      if p :| w.walk(p)[k - 1].finiStarted {
        var d :| DoneFrom(w, k - 1, d);
        q := if q >= d then q else d;
      }
    }
  }

  lemma Finished(w: World, p: int, settled: int)
    requires ListFrozen(w) && SettledFrom(w, w.size, settled) && p >= settled
    requires forall i :: 0 <= i < w.size && !w.walk(p)[i].own && w.walk(p)[i].applStarted ==> w.walk(p)[i].finiStarted
    ensures forall i :: 0 <= i < w.size && !w.walk(p)[i].own && w.walk(p)[i].applStarted ==> w.walk(p)[i].finiDone
  {
  }

  lemma Deadline(w: World, t: int) returns (q: int)
    requires ClockAdvances(w)
    ensures q >= 0 && PastFrom(w, t, q)
  {
    assert Passes(w, t);
    q :| PastFrom(w, t, q);
    q := if q >= 0 then q else 0;
  }

  predicate Increasing(q: seq<int>) { forall i, j :: 0 <= i < j < |q| ==> q[i] < q[j] }

  /** The three counts are the numbers of nodes that are not the winner's own and application-started, and among them
      started, not started, and not done. */
  lemma CountsAre(vs: seq<View>)
    ensures Count(vs, IsStarted) == |set i | 0 <= i < |vs| && !vs[i].own && vs[i].applStarted && vs[i].finiStarted|
    ensures Count(vs, IsUnstarted) == |set i | 0 <= i < |vs| && !vs[i].own && vs[i].applStarted && !vs[i].finiStarted|
    ensures Count(vs, IsUnfinished) == |set i | 0 <= i < |vs| && !vs[i].own && vs[i].applStarted && !vs[i].finiDone|
  {
    CountIs(vs, IsStarted, set i | 0 <= i < |vs| && !vs[i].own && vs[i].applStarted && vs[i].finiStarted);
    CountIs(vs, IsUnstarted, set i | 0 <= i < |vs| && !vs[i].own && vs[i].applStarted && !vs[i].finiStarted);
    CountIs(vs, IsUnfinished, set i | 0 <= i < |vs| && !vs[i].own && vs[i].applStarted && !vs[i].finiDone);
  }

  lemma ZerosAre(vs: seq<View>)
    ensures Count(vs, IsUnstarted) == 0 <==>
      forall i :: 0 <= i < |vs| && !vs[i].own && vs[i].applStarted ==> vs[i].finiStarted
    ensures Count(vs, IsUnfinished) == 0 <==>
      forall i :: 0 <= i < |vs| && !vs[i].own && vs[i].applStarted ==> vs[i].finiDone
  {
    CountZero(vs, IsUnstarted);
    CountZero(vs, IsUnfinished);
  }

  /** One walk: the counts, the winner's own node, and the nodes that are sent the signal. */
  method Walk(vs: seq<View>, before: int) returns (started: int, unstarted: int, unfinished: int, mine: int,
    signalled: seq<int>)
    ensures started == |set i | 0 <= i < |vs| && !vs[i].own && vs[i].applStarted && vs[i].finiStarted|
    ensures unstarted == |set i | 0 <= i < |vs| && !vs[i].own && vs[i].applStarted && !vs[i].finiStarted|
    ensures unfinished == |set i | 0 <= i < |vs| && !vs[i].own && vs[i].applStarted && !vs[i].finiDone|
    ensures started <= |vs|
    ensures unstarted == 0 <==> forall i :: 0 <= i < |vs| && !vs[i].own && vs[i].applStarted ==> vs[i].finiStarted
    ensures unfinished == 0 <==> forall i :: 0 <= i < |vs| && !vs[i].own && vs[i].applStarted ==> vs[i].finiDone
    ensures |signalled| == unstarted && Increasing(signalled)
    ensures forall i :: i in signalled <==>
      0 <= i < |vs| && !vs[i].own && vs[i].applStarted && !vs[i].finiStarted
    ensures mine == before || (0 <= mine < |vs| && vs[mine].own)
    ensures mine == -1 ==> forall i :: 0 <= i < |vs| ==> !vs[i].own
  {
    started, unstarted, unfinished, mine, signalled := 0, 0, 0, before, [];
    for k := 0 to |vs|
      invariant started == Count(vs[..k], IsStarted) && unstarted == Count(vs[..k], IsUnstarted)
      invariant unfinished == Count(vs[..k], IsUnfinished) && signalled == Positions(vs[..k], IsUnstarted)
      invariant mine == before || (0 <= mine < k && vs[mine].own)
      invariant mine == -1 ==> forall i :: 0 <= i < k ==> !vs[i].own
    {
      CountNext(vs, k, IsStarted);
      CountNext(vs, k, IsUnstarted);
      CountNext(vs, k, IsUnfinished);
      var v := vs[k];
      if v.own {
        mine := k;
      } else if v.applStarted {
        if v.finiStarted {
          started := started + 1;
        } else {
          signalled := signalled + [k];
          unstarted := unstarted + 1;
        }
        if !v.finiDone {
          unfinished := unfinished + 1;
        }
      }
    }
    assert vs[..|vs|] == vs;
    CountsAre(vs);
    ZerosAre(vs);
    PositionsAre(vs, IsUnstarted);
  }

  /** The number of threads that walk q saw inside or after their callback. */
  function StartedIn(w: World, q: int): int {
    |set i | 0 <= i < |w.walk(q)| && !w.walk(q)[i].own && w.walk(q)[i].applStarted && w.walk(q)[i].finiStarted|
  }

  /** No walk from s + 1 to p saw more threads started than all walks up to s did, and `since` is the time
      of walk s, or the start of the loop. */
  ghost predicate Stalled(w: World, s: int, p: int, since: int) {
    && -1 <= s <= p && since == (if s < 0 then w.start else w.clock(s))
    && forall q :: s < q <= p ==> StartedIn(w, q) <= (if s < 0 then 0 else StartedIn(w, s))
  }

  /** The loop.  It ends, at walk p, either when all application-started threads that this walk saw have
      finished their callbacks, or after more than ten seconds in which no walk saw another thread start
      its callback, with some thread still to start it. */
  method Loop(w: World) returns (p: int, timedOut: bool, mine: int)
    requires ListFrozen(w) && ClockAdvances(w) && CallbacksReturn(w)
    ensures !timedOut ==>
      forall i :: 0 <= i < w.size && !w.walk(p)[i].own && w.walk(p)[i].applStarted ==> w.walk(p)[i].finiDone
    ensures timedOut ==> exists s, since :: Stalled(w, s, p, since) && w.clock(p) > since + 10
    ensures timedOut ==>
      exists i :: 0 <= i < w.size && !w.walk(p)[i].own && w.walk(p)[i].applStarted && !w.walk(p)[i].finiStarted
    ensures forall i :: 0 <= i < w.size && w.walk(p)[i].own ==> mine >= 0
  {
    var last, lastStarted := w.start, 0;
    p, timedOut, mine := 0, false, -1;
    ghost var settled := Settles(w, w.size);
    ghost var deadline := Deadline(w, last + TIMEOUT);
    ghost var s := -1;
    while true
      invariant 0 <= lastStarted <= w.size && mine >= -1
      invariant -1 <= s < p && last == (if s < 0 then w.start else w.clock(s))
      invariant lastStarted == (if s < 0 then 0 else StartedIn(w, s))
      invariant forall q :: s < q < p ==> StartedIn(w, q) <= lastStarted
      invariant PastFrom(w, last + TIMEOUT, deadline) && deadline >= 0
      invariant !timedOut
      decreases w.size - lastStarted, settled + deadline - p
    {
      var started, unstarted, unfinished, own, _ := Walk(w.walk(p), mine);
      mine := own;
      if unfinished == 0 {
        break;
      }
      var now := w.clock(p);
      if started > lastStarted {
        last, lastStarted, s := now, started, p;
        deadline := Deadline(w, last + TIMEOUT);
      } else if now > last + TIMEOUT && unstarted > 0 {
        timedOut := true;
        assert Stalled(w, s, p, last);
        break;
      } else if p >= settled && p >= deadline {
        Finished(w, p, settled);
      }
      p := p + 1;
    }
  }
}
