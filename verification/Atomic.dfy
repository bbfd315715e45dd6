/** The compare_and_swap of monitor/src/atomic.h for processors with load-linked and
    store-conditional: a retry loop that refines an atomic compare-and-swap, with one
    linearization point for each call. */
module Atomic {

  /** Where a call of compare_and_swap is in its loop. */
  datatype Phase = Idle | Linking(want: int, next: int) | Storing(want: int, next: int, prev: int) | Returned(prev: int)

  /** The shared word, the reservations that processors hold on it, and the calls by thread. */
  datatype Word = Word(val: int, reserved: set<int>, calls: map<int, Phase>)

  function PhaseOf(w: Word, t: int): Phase { if t in w.calls then w.calls[t] else Idle }

  datatype Action =
    | Invoke(t: int, want: int, next: int)
    | LoadLinked(t: int)
    | StoreConditional(t: int, spurious: bool)  // may fail for no reason
    | Return(t: int)
    | Plain(val: int)                           // an ordinary store by anyone
    | Lose(t: int)                              // a reservation lost, say to a context switch

  predicate Enabled(w: Word, a: Action) {
    match a
    case Invoke(t, _, _) => PhaseOf(w, t).Idle?
    case LoadLinked(t) => PhaseOf(w, t).Linking?
    case StoreConditional(t, _) => PhaseOf(w, t).Storing?
    case Return(t) => PhaseOf(w, t).Returned?
    case Plain(_) => true
    case Lose(_) => true
  }

  function Do(w: Word, a: Action): Word
    requires Enabled(w, a)
  {
    match a
    case Invoke(t, want, next) => w.(calls := w.calls[t := Linking(want, next)])
    case LoadLinked(t) =>
      var c := PhaseOf(w, t);
      Word(w.val, w.reserved + {t},
           w.calls[t := if w.val != c.want then Returned(w.val) else Storing(c.want, c.next, w.val)])
    case StoreConditional(t, spurious) =>
      var c := PhaseOf(w, t);
      if t in w.reserved && !spurious then Word(c.next, {}, w.calls[t := Returned(c.prev)])
      else Word(w.val, w.reserved - {t}, w.calls[t := Linking(c.want, c.next)])
    case Return(t) => w.(calls := w.calls[t := Idle])
    case Plain(v) => w.(val := v, reserved := {})
    case Lose(t) => w.(reserved := w.reserved - {t})
  }

  /** A call that is about to store found the expected value, and its reservation vouches for it. */
  ghost predicate Valid(w: Word) {
    forall t :: t in w.calls && w.calls[t].Storing? ==>
      w.calls[t].prev == w.calls[t].want && (t in w.reserved ==> w.val == w.calls[t].prev)
  }

  lemma ValidStep(w: Word, a: Action)
    requires Valid(w) && Enabled(w, a)
    ensures Valid(Do(w, a))
  {
  }

  // ----- the atomic operation -----------------------------------------------------------------

  datatype Call = Out | Pending(want: int, next: int) | Answered(prev: int)

  /** The specification: calls that swap in one step. */
  datatype Cell = Cell(val: int, calls: map<int, Call>)

  function CallOf(c: Cell, t: int): Call { if t in c.calls then c.calls[t] else Out }

  predicate CallStep(c: Cell, c': Cell, t: int, want: int, next: int) {
    CallOf(c, t).Out? && c' == c.(calls := c.calls[t := Pending(want, next)])
  }

  /** The linearization point: thread t reads the word and, if it is as expected, replaces it. */
  predicate SwapStep(c: Cell, c': Cell, t: int) {
    && CallOf(c, t).Pending?
    && var p := CallOf(c, t);
       c' == Cell(if c.val == p.want then p.next else c.val, c.calls[t := Answered(c.val)])
  }

  predicate ReturnStep(c: Cell, c': Cell, t: int) {
    CallOf(c, t).Answered? && c' == c.(calls := c.calls[t := Out])
  }

  predicate PlainStep(c: Cell, c': Cell, v: int) { c' == c.(val := v) }

  function Abstract(p: Phase): Call {
    match p
    case Idle => Out
    case Linking(want, next) => Pending(want, next)
    case Storing(want, next, _) => Pending(want, next)
    case Returned(prev) => Answered(prev)
  }

  function CellOf(w: Word): Cell { Cell(w.val, map t | t in w.calls :: Abstract(w.calls[t])) }

  /** Whether action a is the linearization point of its call: the load that finds another value,
      or the store that succeeds. */
  predicate Linearizes(w: Word, a: Action)
    requires Enabled(w, a)
  {
    match a
    case LoadLinked(t) => w.val != PhaseOf(w, t).want
    case StoreConditional(t, spurious) => t in w.reserved && !spurious
    case _ => false
  }

  /** Each step of the loop is the atomic swap of its own call, or is invisible. */
  lemma StepRefines(w: Word, a: Action)
    requires Valid(w) && Enabled(w, a)
    ensures var c, c' := CellOf(w), CellOf(Do(w, a));
      match a
      case Invoke(t, want, next) => CallStep(c, c', t, want, next)
      case LoadLinked(t) => if Linearizes(w, a) then SwapStep(c, c', t) else c' == c
      case StoreConditional(t, _) => if Linearizes(w, a) then SwapStep(c, c', t) else c' == c
      case Return(t) => ReturnStep(c, c', t)
      case Plain(v) => PlainStep(c, c', v)
      case Lose(_) => c' == c
  {
    if a.LoadLinked? || a.StoreConditional? || a.Return? || a.Invoke? {
      assert CellOf(Do(w, a)).calls == CellOf(w).calls[a.t := Abstract(PhaseOf(Do(w, a), a.t))];
    }
  }

  // ----- runs ---------------------------------------------------------------------------------

  /** The states that a sequence of actions goes through. */
  ghost predicate IsRun(run: seq<Word>, acts: seq<Action>) {
    && |run| == |acts| + 1 && run[0].calls == map[]
    && forall i :: 0 <= i < |acts| ==> Enabled(run[i], acts[i]) && run[i + 1] == Do(run[i], acts[i])
  }

  lemma {:induction false} ValidRun(run: seq<Word>, acts: seq<Action>, i: int)
    requires IsRun(run, acts) && 0 <= i < |run|
    ensures Valid(run[i])
  {
    if i > 0 {
      ValidRun(run, acts, i - 1);
      ValidStep(run[i - 1], acts[i - 1]);
      assert run[(i - 1) + 1] == Do(run[i - 1], acts[i - 1]);
    }
  }

  /** The linearization points of thread t among the first n actions, and its completed calls. */
  ghost function Points(run: seq<Word>, acts: seq<Action>, t: int, n: int): int
    requires IsRun(run, acts) && 0 <= n <= |acts|
  {
    if n == 0 then 0 else
      var a := acts[n - 1];
      var point := (a.LoadLinked? || a.StoreConditional?) && a.t == t && Linearizes(run[n - 1], a);
      Points(run, acts, t, n - 1) + (if point then 1 else 0)
  }

  ghost function Calls(acts: seq<Action>, t: int, n: int): int
    requires 0 <= n <= |acts|
  {
    if n == 0 then 0 else Calls(acts, t, n - 1) + (if acts[n - 1].Invoke? && acts[n - 1].t == t then 1 else 0)
  }

  /** Every call has exactly one linearization point once it has its answer, and none before. */
  lemma {:induction false} OnePointPerCall(run: seq<Word>, acts: seq<Action>, t: int, n: int)
    requires IsRun(run, acts) && 0 <= n <= |acts|
    ensures Points(run, acts, t, n) ==
      Calls(acts, t, n) - (if PhaseOf(run[n], t).Linking? || PhaseOf(run[n], t).Storing? then 1 else 0)
  {
    if n > 0 {
      OnePointPerCall(run, acts, t, n - 1);
      assert run[(n - 1) + 1] == Do(run[n - 1], acts[n - 1]);
    }
  }

  /** The answer is the value of the word at the linearization point, whoever else moved in between. */
  lemma AnswerIsValueAtPoint(run: seq<Word>, acts: seq<Action>, i: int)
    requires IsRun(run, acts) && 0 <= i < |acts| && Linearizes(run[i], acts[i])
    ensures PhaseOf(run[i + 1], acts[i].t) == Returned(run[i].val)
    ensures run[i + 1].val ==
      (if run[i].val == PhaseOf(run[i], acts[i].t).want then PhaseOf(run[i], acts[i].t).next else run[i].val)
  {
    ValidRun(run, acts, i);
  }

  // ----- when the store succeeds --------------------------------------------------------------

  /** The action takes the reservation of thread t away: an ordinary store, a store-conditional of its own or a
      successful one of another thread, or the loss of it. */
  predicate Breaks(w: Word, a: Action, t: int) {
    a.Plain? || a == Lose(t) || (a.StoreConditional? && (a.t == t || (a.t in w.reserved && !a.spurious)))
  }

  /** Nothing has taken the reservation of thread t away from state j to state i. */
  ghost predicate Unbroken(run: seq<Word>, acts: seq<Action>, t: int, j: int, i: int)
    requires IsRun(run, acts) && 0 <= j && i <= |acts|
  {
    forall k :: j <= k < i ==> !Breaks(run[k], acts[k], t)
  }

  /** The thread has done a load-linked and has kept its reservation since. */
  ghost predicate LinkedSince(run: seq<Word>, acts: seq<Action>, t: int, i: int)
    requires IsRun(run, acts) && i <= |acts|
  {
    exists j :: 0 < j <= i && acts[j - 1] == LoadLinked(t) && Unbroken(run, acts, t, j, i)
  }

  lemma LinkedNext(run: seq<Word>, acts: seq<Action>, t: int, i: int)
    requires IsRun(run, acts) && 0 < i <= |acts|
    ensures LinkedSince(run, acts, t, i) <==>
      acts[i - 1] == LoadLinked(t) || (LinkedSince(run, acts, t, i - 1) && !Breaks(run[i - 1], acts[i - 1], t))
  {
    if acts[i - 1] == LoadLinked(t) {
      assert Unbroken(run, acts, t, i, i);
    } else if LinkedSince(run, acts, t, i - 1) && !Breaks(run[i - 1], acts[i - 1], t) {
      var j :| 0 < j <= i - 1 && acts[j - 1] == LoadLinked(t) && Unbroken(run, acts, t, j, i - 1);
      assert Unbroken(run, acts, t, j, i);
    }
    if LinkedSince(run, acts, t, i) {
      var j :| 0 < j <= i && acts[j - 1] == LoadLinked(t) && Unbroken(run, acts, t, j, i);
      if j < i { assert Unbroken(run, acts, t, j, i - 1); }
    }
  }

  lemma ReservedNext(w: Word, a: Action, t: int)
    requires Enabled(w, a)
    ensures t in Do(w, a).reserved <==> a == LoadLinked(t) || (t in w.reserved && !Breaks(w, a, t))
  {
  }

  lemma {:induction false} ReservedIs(run: seq<Word>, acts: seq<Action>, t: int, i: int)
    requires IsRun(run, acts) && 0 <= i <= |acts| && run[0].reserved == {}
    ensures t in run[i].reserved <==> LinkedSince(run, acts, t, i)
  {
    if i > 0 {
      ReservedIs(run, acts, t, i - 1);
      LinkedNext(run, acts, t, i);
      ReservedNext(run[i - 1], acts[i - 1], t);
      assert run[(i - 1) + 1] == Do(run[i - 1], acts[i - 1]);
    }
  }

  /** Exactly when a store-conditional succeeds and the call has its answer: unless it fails for no reason, if since
      the load-linked of its thread there has been no ordinary store, no successful store-conditional and no loss of
      the reservation. */
  lemma StoresExactly(run: seq<Word>, acts: seq<Action>, i: int, t: int, spurious: bool)
    requires IsRun(run, acts) && run[0].reserved == {} && 0 <= i < |acts| && acts[i] == StoreConditional(t, spurious)
    ensures PhaseOf(run[i + 1], t).Returned? <==> (!spurious && LinkedSince(run, acts, t, i))
    ensures PhaseOf(run[i + 1], t).Returned? ==> run[i + 1].val == PhaseOf(run[i], t).next
    ensures !PhaseOf(run[i + 1], t).Returned? ==> run[i + 1].val == run[i].val
  {
    ReservedIs(run, acts, t, i);
  }
}
