/** The test-and-test-and-set lock of monitor/src/spinlock.h, on top of the compare-and-swap loop:
    lock, trylock and unlock by any number of threads. */
module Spinlock {
  import opened Atomic

  /** Where a thread is: outside, in the inner loop of spinlock_lock, in the compare-and-swap of lock
      or trylock, or holding the lock. */
  datatype Pc = Outside | Testing | Swapping(trying: bool) | Holding

  datatype Event = Acquired(t: int) | Released(t: int)

  /** `log` is the history of the lock. */
  datatype State = State(word: Word, pcs: map<int, Pc>, log: seq<Event>)

  const UNLOCKED := State(Word(0, {}, map[]), map[], [])

  function PcOf(s: State, t: int): Pc { if t in s.pcs then s.pcs[t] else Outside }

  datatype Move =
    | Lock(t: int) | TryLock(t: int) | Test(t: int) | Swap(a: Atomic.Action) | Finish(t: int) | Unlock(t: int)

  /** The lock word is touched by these three routines only, and a thread unlocks what it holds. */
  predicate Allowed(s: State, m: Move) {
    match m
    case Lock(t) => PcOf(s, t).Outside?
    case TryLock(t) => PcOf(s, t).Outside? && Enabled(s.word, Invoke(t, 0, 1))
    case Test(t) => PcOf(s, t).Testing? && Enabled(s.word, Invoke(t, 0, 1))
    case Swap(a) => !a.Plain? && !a.Invoke? && !a.Return? && Enabled(s.word, a)
    case Finish(t) => PcOf(s, t).Swapping? && Enabled(s.word, Return(t))
    case Unlock(t) => PcOf(s, t).Holding?
  }

  function After(s: State, m: Move): State
    requires Allowed(s, m)
  {
    match m
    case Lock(t) => s.(pcs := s.pcs[t := Testing])
    case TryLock(t) => s.(word := Do(s.word, Invoke(t, 0, 1)), pcs := s.pcs[t := Swapping(true)])
    case Test(t) =>
      if s.word.val != 0 then s
      else s.(word := Do(s.word, Invoke(t, 0, 1)), pcs := s.pcs[t := Swapping(false)])
    case Swap(a) => s.(word := Do(s.word, a))
    case Finish(t) =>
      var won := PhaseOf(s.word, t).prev == 0;
      State(Do(s.word, Return(t)),
            s.pcs[t := if won then Holding else if PcOf(s, t).trying then Outside else Testing],
            if won then s.log + [Acquired(t)] else s.log)
    case Unlock(t) => State(Do(s.word, Plain(0)), s.pcs[t := Outside], s.log + [Released(t)])
  }

  /** The thread that owns the lock: it holds it, or its compare-and-swap has taken it. */
  predicate Owns(s: State, t: int) {
    PcOf(s, t).Holding? || (PcOf(s, t).Swapping? && PhaseOf(s.word, t) == Returned(0))
  }

  /** The thread is in the compare-and-swap of 0 by 1 exactly while it is Swapping. */
  predicate InSwap(s: State, t: int) {
    match PhaseOf(s.word, t)
    case Idle => !PcOf(s, t).Swapping?
    case Linking(want, next) => PcOf(s, t).Swapping? && want == 0 && next == 1
    case Storing(want, next, _) => PcOf(s, t).Swapping? && want == 0 && next == 1
    case Returned(prev) => PcOf(s, t).Swapping?
  }

  /** The word is 1 exactly while some thread owns the lock, and then one thread does. */
  ghost predicate WordOk(s: State) {
    && Valid(s.word)
    && (forall t :: InSwap(s, t))
    && (s.word.val == 0 || s.word.val == 1)
    && (s.word.val == 1 <==> exists t :: Owns(s, t))
    && (forall t, u :: Owns(s, t) && Owns(s, u) ==> t == u)
  }

  predicate Paired(log: seq<Event>, i: int)
    requires 0 <= i < |log|
  {
    && log[i].Acquired? == (i % 2 == 0)
    && (log[i].Released? ==> i > 0 && log[i - 1] == Acquired(log[i].t))
  }

  /** Acquisitions and releases take turns, each release by the thread of the last acquisition, which
      is the one that holds the lock now, if any does. */
  ghost predicate LogOk(s: State) {
    && (forall i :: 0 <= i < |s.log| ==> Paired(s.log, i))
    && (forall t :: PcOf(s, t).Holding? <==> |s.log| % 2 == 1 && s.log[|s.log| - 1] == Acquired(t))
  }

  ghost predicate Inv(s: State) { WordOk(s) && LogOk(s) }

  /** The store that takes the lock. */
  predicate Takes(s: State, m: Move) {
    m.Swap? && m.a.StoreConditional? && m.a.t in s.word.reserved && !m.a.spurious
  }

  lemma OwnsAfter(s: State, m: Move, t: int)
    requires WordOk(s) && Allowed(s, m)
    ensures Owns(After(s, m), t) <==>
      if Takes(s, m) && t == m.a.t then true else if m.Unlock? && t == m.t then false else Owns(s, t)
    ensures InSwap(After(s, m), t)
  {
    assert InSwap(s, t);
    assert m.Swap? && !m.a.Lose? ==> InSwap(s, m.a.t);
  }

  lemma WordStep(s: State, m: Move)
    requires WordOk(s) && Allowed(s, m)
    ensures WordOk(After(s, m))
  {
    var s' := After(s, m);
    forall t
      ensures InSwap(s', t)
      ensures Owns(s', t) <==>
        if Takes(s, m) && t == m.a.t then true else if m.Unlock? && t == m.t then false else Owns(s, t)
    {
      OwnsAfter(s, m, t);
    }
    assert m.Swap? && !m.a.Lose? ==> InSwap(s, m.a.t);
    if Takes(s, m) {
      assert Owns(s', m.a.t);
    } else if m.Unlock? {
      assert Owns(s, m.t);
    } else if s.word.val == 1 {
      var t :| Owns(s, t);
      assert Owns(s', t);
    }
  }

  lemma LogStep(s: State, m: Move)
    requires WordOk(s) && LogOk(s) && Allowed(s, m)
    ensures LogOk(After(s, m))
  {
    var s' := After(s, m);
    var last := |s.log| - 1;
    assert last >= 0 ==> Paired(s.log, last);
    if m.Finish? && PhaseOf(s.word, m.t).prev == 0 {
      assert InSwap(s, m.t) && Owns(s, m.t);
      assert |s.log| % 2 == 0 by {
        if |s.log| % 2 == 1 {
          assert s.log[last] == Acquired(s.log[last].t) && PcOf(s, s.log[last].t).Holding?;
          assert Owns(s, s.log[last].t);
        }
      }
      assert forall t :: t != m.t ==> PcOf(s', t) == PcOf(s, t);
    } else if m.Unlock? {
      assert PcOf(s, m.t).Holding?;
      assert forall t :: t != m.t ==> PcOf(s', t) == PcOf(s, t);
    } else {
      assert forall t :: PcOf(s', t).Holding? <==> PcOf(s, t).Holding?;
    }
    forall i | 0 <= i < |s'.log| ensures Paired(s'.log, i) {
      if i <= last { assert Paired(s.log, i) && s'.log[i] == s.log[i]; }
    }
  }

  ghost predicate IsRun(run: seq<State>) {
    && run != [] && run[0] == UNLOCKED
    && forall i :: 0 <= i < |run| - 1 ==> exists m :: Allowed(run[i], m) && run[i + 1] == After(run[i], m)
  }

  lemma {:induction false} InvRun(run: seq<State>, i: int)
    requires IsRun(run) && 0 <= i < |run|
    ensures Inv(run[i])
  {
    if i > 0 {
      InvRun(run, i - 1);
      assert i - 1 < |run| - 1;
      var m :| Allowed(run[i - 1], m) && run[(i - 1) + 1] == After(run[i - 1], m);
      WordStep(run[i - 1], m);
      LogStep(run[i - 1], m);
    }
  }

  /** At most one thread holds the lock, in every interleaving, although the two steps of each
      compare-and-swap and all spurious failures show. */
  lemma MutualExclusion(run: seq<State>, i: int, t: int, u: int)
    requires IsRun(run) && 0 <= i < |run| && PcOf(run[i], t).Holding? && PcOf(run[i], u).Holding?
    ensures t == u
  {
    InvRun(run, i);
    assert Owns(run[i], t) && Owns(run[i], u);
  }

  lemma Turns(log: seq<Event>, j: int, k: int)
    requires forall i :: 0 <= i < |log| ==> Paired(log, i)
    requires 0 <= j < k < |log| && log[j].Acquired? && log[k].Acquired?
    ensures j + 1 < k && log[j + 1] == Released(log[j].t)
  {
    assert Paired(log, j) && Paired(log, j + 1) && Paired(log, k);
  }

  /** Between two acquisitions the first thread has released the lock. */
  lemma TurnsAlternate(run: seq<State>, i: int, j: int, k: int)
    requires IsRun(run) && 0 <= i < |run| && 0 <= j < k < |run[i].log|
    requires run[i].log[j].Acquired? && run[i].log[k].Acquired?
    ensures j + 1 < k && run[i].log[j + 1] == Released(run[i].log[j].t)
  {
    InvRun(run, i);
    Turns(run[i].log, j, k);
  }

  /** A trylock fails only if the lock was owned at its linearization point, and then by another thread. */
  lemma TryLockFails(run: seq<State>, i: int, t: int)
    requires IsRun(run) && 0 <= i < |run| && Enabled(run[i].word, LoadLinked(t))
    requires Linearizes(run[i].word, LoadLinked(t))
    ensures exists u :: u != t && Owns(run[i], u)
  {
    InvRun(run, i);
    assert InSwap(run[i], t);
    var u :| Owns(run[i], u);
  }

  // ----- what the routines return with --------------------------------------------------------

  /** Thread t unlocks in step k. */
  predicate Unlocks(run: seq<State>, k: int, t: int)
    requires 0 <= k < |run| - 1
  {
    Allowed(run[k], Unlock(t)) && run[k + 1] == After(run[k], Unlock(t))
  }

  /** The move of a step of a run. */
  lemma MoveAt(run: seq<State>, k: int) returns (m: Move)
    requires IsRun(run) && 0 < k < |run|
    ensures Allowed(run[k - 1], m) && run[k] == After(run[k - 1], m)
  {
    assert k - 1 < |run| - 1;
    m :| Allowed(run[k - 1], m) && run[(k - 1) + 1] == After(run[k - 1], m);
  }

  /** Inside spinlock_lock, or back from it with the lock, acquired since the log was `log`. */
  predicate LockedSince(s: State, t: int, log: seq<Event>) {
    && (PcOf(s, t) == Testing || PcOf(s, t) == Swapping(false) || PcOf(s, t) == Holding)
    && log <= s.log && (PcOf(s, t).Holding? ==> Acquired(t) in s.log[|log|..])
  }

  lemma LockStays(s: State, m: Move, t: int, log: seq<Event>)
    requires Allowed(s, m) && m != Unlock(t) && LockedSince(s, t, log)
    ensures LockedSince(After(s, m), t, log)
  {
    var s' := After(s, m);
    var more := s'.log[|s.log|..];
    assert s'.log[|log|..] == s.log[|log|..] + more;
    if m.Finish? && m.t == t && PcOf(s', t).Holding? { assert more[0] == Acquired(t); }
  }

  /** What a step keeps of a call of spinlock_lock. */
  predicate LockPair(s: State, s': State, t: int, log: seq<Event>) {
    LockedSince(s, t, log) ==> LockedSince(s', t, log)
  }

  lemma LockAt(run: seq<State>, k: int, t: int, log: seq<Event>)
    requires IsRun(run) && 0 <= k < |run| - 1 && !Unlocks(run, k, t)
    ensures LockPair(run[k], run[k + 1], t, log)
  {
    var m := MoveAt(run, k + 1);
    if LockedSince(run[k], t, log) { LockStays(run[k], m, t, log); }
  }

  lemma {:induction false} LockChain(run: seq<State>, i: int, j: int, t: int, log: seq<Event>)
    requires 0 <= i < j < |run| && LockedSince(run[i + 1], t, log)
    requires forall k :: i < k < j ==> LockPair(run[k], run[k + 1], t, log)
    ensures LockedSince(run[j], t, log)
    decreases j
  {
    if j > i + 1 {
      LockChain(run, i, j - 1, t, log);
      assert LockPair(run[j - 1], run[(j - 1) + 1], t, log);
    }
  }

  /** spinlock_lock returns only with the lock: until it unlocks, a thread that has called it is in its inner loop,
      in its compare-and-swap, or holds the lock, which it has then acquired since the call. */
  lemma LockReturnsHolding(run: seq<State>, i: int, j: int, t: int)
    requires IsRun(run) && 0 <= i < j < |run| && Allowed(run[i], Lock(t)) && run[i + 1] == After(run[i], Lock(t))
    requires forall k :: i < k < j ==> !Unlocks(run, k, t)
    ensures PcOf(run[j], t) == Testing || PcOf(run[j], t) == Swapping(false) || PcOf(run[j], t) == Holding
    ensures run[i].log <= run[j].log
    ensures PcOf(run[j], t) == Holding ==> Acquired(t) in run[j].log[|run[i].log|..]
  {
    forall k | i < k < j ensures LockPair(run[k], run[k + 1], t, run[i].log) { LockAt(run, k, t, run[i].log); }
    LockChain(run, i, j, t, run[i].log);
  }

  /** A step of a thread in spinlock_trylock. */
  lemma TryStep(s: State, m: Move, t: int)
    requires Allowed(s, m) && PcOf(s, t) == Swapping(true)
    ensures var s' := After(s, m);
      || PcOf(s', t) == Swapping(true)
      || (PhaseOf(s.word, t) == Returned(0) && PcOf(s', t) == Holding && s'.log == s.log + [Acquired(t)])
      || (PhaseOf(s.word, t).Returned? && PhaseOf(s.word, t).prev != 0 && PcOf(s', t) == Outside && s'.log == s.log)
  {
  }

  /** spinlock_trylock never waits for the lock: it is in its compare-and-swap until it returns, with the lock if the
      answer was 0, and otherwise without it. */
  lemma TryLockReturns(run: seq<State>, i: int, j: int, t: int)
    requires IsRun(run) && 0 <= i && i + 1 < j < |run| && Allowed(run[i], TryLock(t))
    requires run[i + 1] == After(run[i], TryLock(t))
    requires forall k :: i + 1 < k < j ==> PcOf(run[k], t) == Swapping(true)
    ensures PcOf(run[i + 1], t) == Swapping(true)
    ensures
      || PcOf(run[j], t) == Swapping(true)
      || (PhaseOf(run[j - 1].word, t) == Returned(0) && PcOf(run[j], t) == Holding &&
          run[j].log == run[j - 1].log + [Acquired(t)])
      || (PhaseOf(run[j - 1].word, t).Returned? && PhaseOf(run[j - 1].word, t).prev != 0 &&
          PcOf(run[j], t) == Outside && run[j].log == run[j - 1].log)
  {
    var m := MoveAt(run, j);
    assert PcOf(run[j - 1], t) == Swapping(true);
    TryStep(run[j - 1], m, t);
  }

  /** The inner loop of spinlock_lock goes on to the compare-and-swap exactly when it finds that nobody owns the
      lock. */
  lemma SwapsWhenFree(run: seq<State>, i: int, t: int)
    requires IsRun(run) && 0 <= i < |run| && Allowed(run[i], Test(t))
    ensures PcOf(After(run[i], Test(t)), t) == Swapping(false) <==> (forall u :: !Owns(run[i], u))
    ensures PcOf(After(run[i], Test(t)), t) != Swapping(false) ==> After(run[i], Test(t)) == run[i]
  {
    InvRun(run, i);
    if run[i].word.val == 1 { var u :| Owns(run[i], u); }
  }
}
