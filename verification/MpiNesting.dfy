/** The MPI wrappers of libmonitor (monitor/src/mpi.c, mpi_init_*.c, mpi_final_*.c, mpi_comm_*.c and
    pmpi.c): the C, Fortran and PMPI wrappers have one shape and may be nested in one another, and the
    nesting counters call the client once for each call of the application. */
module MpiNesting {

  import opened Options

  datatype Kind = Init | Final

  /** A call of a wrapper.  `Wrap` is an init or finalize wrapper with the wrappers that run inside it:
      those called by the client's first callback, by the real routine and by the client's second
      callback.  `CommRank` has those called by the real routine, and its answers. */
  datatype Call =
    | Wrap(kind: Kind, pre: seq<Call>, body: seq<Call>, post: seq<Call>)
    | CommRank(body: seq<Call>, size: int, rank: int)
    | SetSizeRank(size: int, rank: int)  // by the client

  datatype Event =
    | First(kind: Kind) | Begin(kind: Kind) | End(kind: Kind) | Second(kind: Kind)
    | Client(size: int, rank: int)
    | Comm(size: int, rank: int, inInit: bool)

  /** The static variables of mpi.c, and a log of callbacks, real calls and offers of size and rank. */
  datatype State = State(initCount: int, finiCount: int, maxInit: int, size: int, rank: int,
                         firstSet: bool, firstMpi: bool, log: seq<Event>)

  const START := State(0, 0, 0, -1, -1, true, true, [])

  function Note(s: State, e: Event): State { s.(log := s.log + [e]) }

  function Count(s: State, k: Kind): int { if k.Init? then s.initCount else s.finiCount }

  /** monitor_mpi_init_count and monitor_mpi_fini_count. */
  function Bump(s: State, k: Kind, inc: int): State {
    if k.Final? then s.(finiCount := s.finiCount + inc)
    else
      var n := s.initCount + inc;
      s.(initCount := n, maxInit := if n > s.maxInit then n else s.maxInit)
  }

  /** monitor_set_size_rank and monitor_set_mpi_size_rank. */
  function SetFirst(s: State, size: int, rank: int): State {
    if s.firstSet then s.(size := size, rank := rank, firstSet := false) else s
  }

  function SetMpi(s: State, size: int, rank: int): State {
    if s.firstMpi && s.initCount == 0 && s.maxInit > 0 then SetFirst(s, size, rank).(firstMpi := false) else s
  }

  function Run(s: State, c: Call): State
    decreases c
  {
    match c
    case Wrap(k, pre, body, post) =>
      var s1 := Bump(s, k, 1);
      var outer := Count(s1, k) == 1;
      var s2 := if outer then RunAll(Note(s1, First(k)), pre) else s1;
      var s3 := Note(RunAll(Note(s2, Begin(k)), body), End(k));
      var s4 := if outer then RunAll(Note(s3, Second(k)), post) else s3;
      Bump(s4, k, -1)
    case CommRank(body, size, rank) =>
      var s1 := RunAll(s, body);
      Note(SetMpi(s1, size, rank), Comm(size, rank, s1.initCount != 0))
    case SetSizeRank(size, rank) => Note(SetFirst(s, size, rank), Client(size, rank))
  }

  function RunAll(s: State, cs: seq<Call>): State
    decreases cs
  {
    if cs == [] then s else RunAll(Run(s, cs[0]), cs[1..])
  }

  // ----- the callbacks ------------------------------------------------------------------------

  /** What should happen, without counters: a call of a kind that is inside no other call of the kind is
      bracketed by the two callbacks.  `inside` is the kinds that the call is inside of. */
  function Trace(c: Call, inside: set<Kind>): seq<Event>
    decreases c
  {
    match c
    case Wrap(k, pre, body, post) =>
      var inner := [Begin(k)] + Traces(body, inside + {k}) + [End(k)];
      if k in inside then inner
      else ([First(k)] + Traces(pre, inside + {k})) + inner + ([Second(k)] + Traces(post, inside + {k}))
    case CommRank(body, size, rank) => Traces(body, inside) + [Comm(size, rank, Init in inside)]
    case SetSizeRank(size, rank) => [Client(size, rank)]
  }

  function Traces(cs: seq<Call>, inside: set<Kind>): seq<Event>
    decreases cs
  {
    if cs == [] then [] else Trace(cs[0], inside) + Traces(cs[1..], inside)
  }

  predicate Inside(s: State, inside: set<Kind>) {
    && s.initCount >= 0 && s.finiCount >= 0
    && (Init in inside <==> s.initCount > 0) && (Final in inside <==> s.finiCount > 0)
  }

  /** A run adds t to the log and returns both counters to their values. */
  predicate Adds(s: State, s': State, t: seq<Event>) {
    s'.log == s.log + t && s'.initCount == s.initCount && s'.finiCount == s.finiCount
  }

  lemma AddsTwo(s: State, s1: State, s2: State, t1: seq<Event>, t2: seq<Event>)
    requires Adds(s, s1, t1) && Adds(s1, s2, t2)
    ensures Adds(s, s2, t1 + t2)
  {
  }

  /** For every tree of nested calls the callbacks come exactly once for each outermost call and bracket
      it, and the counters return to their values. */
  lemma {:induction false} CallbacksBracket(s: State, c: Call, inside: set<Kind>)
    requires Inside(s, inside)
    ensures Adds(s, Run(s, c), Trace(c, inside))
    decreases c
  {
    match c
    case Wrap(k, pre, body, post) =>
      var s1 := Bump(s, k, 1);
      var outer := Count(s1, k) == 1;
      var s2 := if outer then RunAll(Note(s1, First(k)), pre) else s1;
      var s3 := Note(RunAll(Note(s2, Begin(k)), body), End(k));
      var s4 := if outer then RunAll(Note(s3, Second(k)), post) else s3;
      var before := [First(k)] + Traces(pre, inside + {k});
      var inner := [Begin(k)] + Traces(body, inside + {k}) + [End(k)];
      if outer { NoteAll(s1, First(k), pre, inside + {k}); }
      NoteAll(s2, Begin(k), body, inside + {k});
      if outer {
        NoteAll(s3, Second(k), post, inside + {k});
        AddsTwo(s1, s2, s3, before, inner);
        AddsTwo(s1, s3, s4, before + inner, [Second(k)] + Traces(post, inside + {k}));
      }
    case CommRank(body, size, rank) => CallbacksBracketAll(s, body, inside);
    case SetSizeRank(size, rank) =>
  }

  lemma {:induction false} NoteAll(s: State, e: Event, cs: seq<Call>, inside: set<Kind>)
    requires Inside(s, inside)
    ensures Adds(s, RunAll(Note(s, e), cs), [e] + Traces(cs, inside))
    decreases cs, 1
  {
    CallbacksBracketAll(Note(s, e), cs, inside);
    AddsTwo(s, Note(s, e), RunAll(Note(s, e), cs), [e], Traces(cs, inside));
  }

  lemma {:induction false} CallbacksBracketAll(s: State, cs: seq<Call>, inside: set<Kind>)
    requires Inside(s, inside)
    ensures Adds(s, RunAll(s, cs), Traces(cs, inside))
    decreases cs, 0
  {
    if cs != [] {
      CallbacksBracket(s, cs[0], inside);
      CallbacksBracketAll(Run(s, cs[0]), cs[1..], inside);
      AddsTwo(s, Run(s, cs[0]), RunAll(Run(s, cs[0]), cs[1..]), Trace(cs[0], inside), Traces(cs[1..], inside));
    }
  }

  /** The calls of a kind that are inside no other call of the kind. */
  function Outermost(c: Call, inside: set<Kind>, k: Kind): int
    decreases c
  {
    match c
    case Wrap(k', pre, body, post) =>
      var inner := OutermostAll(body, inside + {k'}, k);
      if k' in inside then inner
      else
        (if k' == k then 1 else 0) + OutermostAll(pre, inside + {k'}, k) + inner
        + OutermostAll(post, inside + {k'}, k)
    case CommRank(body, _, _) => OutermostAll(body, inside, k)
    case SetSizeRank(_, _) => 0
  }

  function OutermostAll(cs: seq<Call>, inside: set<Kind>, k: Kind): int
    decreases cs
  {
    if cs == [] then 0 else Outermost(cs[0], inside, k) + OutermostAll(cs[1..], inside, k)
  }

  lemma WrapCount(k': Kind, k: Kind, a: seq<Event>, b: seq<Event>, c: seq<Event>)
    ensures var inner := [Begin(k')] + b + [End(k')]; var all := ([First(k')] + a) + inner + ([Second(k')] + c);
      && multiset(inner)[First(k)] == multiset(b)[First(k)] && multiset(inner)[Second(k)] == multiset(b)[Second(k)]
      && multiset(all)[First(k)] ==
         (if k' == k then 1 else 0) + multiset(a)[First(k)] + multiset(b)[First(k)] + multiset(c)[First(k)]
      && multiset(all)[Second(k)] ==
         (if k' == k then 1 else 0) + multiset(a)[Second(k)] + multiset(b)[Second(k)] + multiset(c)[Second(k)]
  {
  }

  /** There are as many first and as many second callbacks as outermost calls. */
  lemma {:induction false} OncePerOutermost(c: Call, inside: set<Kind>, k: Kind)
    ensures multiset(Trace(c, inside))[First(k)] == Outermost(c, inside, k) == multiset(Trace(c, inside))[Second(k)]
    decreases c
  {
    match c
    case Wrap(k', pre, body, post) =>
      OncePerOutermostAll(pre, inside + {k'}, k);
      OncePerOutermostAll(body, inside + {k'}, k);
      OncePerOutermostAll(post, inside + {k'}, k);
      var before, after := Traces(pre, inside + {k'}), Traces(post, inside + {k'});
      WrapCount(k', k, before, Traces(body, inside + {k'}), after);
    case CommRank(body, _, _) => OncePerOutermostAll(body, inside, k);
    case SetSizeRank(_, _) =>
  }

  lemma {:induction false} OncePerOutermostAll(cs: seq<Call>, inside: set<Kind>, k: Kind)
    ensures multiset(Traces(cs, inside))[First(k)] == OutermostAll(cs, inside, k) ==
      multiset(Traces(cs, inside))[Second(k)]
    decreases cs
  {
    if cs != [] {
      OncePerOutermost(cs[0], inside, k);
      OncePerOutermostAll(cs[1..], inside, k);
    }
  }

  // ----- size and rank ------------------------------------------------------------------------

  /** The first offer that counts: one by the client, or one by a comm_rank that is inside no init and
      comes after one. */
  function Winner(log: seq<Event>): Option<(int, int)> {
    if log == [] then None
    else
      var before := log[..|log| - 1];
      if Winner(before).Some? then Winner(before)
      else
        match log[|log| - 1]
        case Client(size, rank) => Some((size, rank))
        case Comm(size, rank, inInit) => if !inInit && Begin(Init) in before then Some((size, rank)) else None
        case _ => None
  }

  /** Size and rank are those of the winner. */
  predicate SizeRankOk(s: State) {
    && s.initCount >= 0 && s.finiCount >= 0
    && (if s.firstSet then Winner(s.log) == None && s.size == -1 && s.rank == -1
      else Winner(s.log) == Some((s.size, s.rank)))
    && (s.maxInit > 0 <==> Begin(Init) in s.log || s.initCount > 0)
    && (!s.firstMpi ==> !s.firstSet)
  }

  lemma NoteOk(s: State, e: Event)
    requires SizeRankOk(s) && !e.Client? && !e.Comm? && (e == Begin(Init) ==> s.initCount > 0)
    ensures SizeRankOk(Note(s, e))
  {
    assert Note(s, e).log[..|s.log|] == s.log;
  }

  lemma OfferOk(s: State, size: int, rank: int)
    requires SizeRankOk(s)
    ensures SizeRankOk(Note(SetMpi(s, size, rank), Comm(size, rank, s.initCount != 0)))
    ensures SizeRankOk(Note(SetFirst(s, size, rank), Client(size, rank)))
  {
    assert forall e :: (s.log + [e])[..|s.log|] == s.log;
  }

  /** A run keeps the invariant and the counters and extends the log. */
  predicate Keeps(s: State, s': State) {
    SizeRankOk(s') && s'.initCount == s.initCount && s'.finiCount == s.finiCount && s.log <= s'.log
  }

  lemma {:induction false} SizeRankStep(s: State, c: Call)
    requires SizeRankOk(s)
    ensures Keeps(s, Run(s, c))
    decreases c, 2
  {
    match c
    case Wrap(k, pre, body, post) => if Count(s, k) == 0 { OuterKeeps(s, c); } else { NestedKeeps(s, c); }
    case CommRank(body, size, rank) =>
      SizeRankAll(s, body);
      OfferOk(RunAll(s, body), size, rank);
    case SetSizeRank(size, rank) => OfferOk(s, size, rank);
  }

  lemma {:induction false} OuterKeeps(s: State, c: Call)
    requires SizeRankOk(s) && c.Wrap? && Count(s, c.kind) == 0
    ensures Keeps(s, Run(s, c))
    decreases c, 1
  {
    var s1 := Bump(s, c.kind, 1);
    NoteKeeps(s1, First(c.kind), c.pre);
    var s2 := RunAll(Note(s1, First(c.kind)), c.pre);
    RestKeeps(s2, c);
    var s3 := Note(RunAll(Note(s2, Begin(c.kind)), c.body), End(c.kind));
    BumpBack(s, c.kind, RunAll(Note(s3, Second(c.kind)), c.post));
  }

  lemma {:induction false} RestKeeps(s: State, c: Call)
    requires SizeRankOk(s) && c.Wrap? && (c.kind.Init? ==> s.initCount > 0)
    ensures var s3 := Note(RunAll(Note(s, Begin(c.kind)), c.body), End(c.kind));
      var s4 := RunAll(Note(s3, Second(c.kind)), c.post);
      Keeps(s, s4) && Begin(c.kind) in s4.log
    decreases c, 0
  {
    InnerKeeps(s, c.kind, c.body);
    NoteKeeps(Note(RunAll(Note(s, Begin(c.kind)), c.body), End(c.kind)), Second(c.kind), c.post);
  }

  lemma {:induction false} NestedKeeps(s: State, c: Call)
    requires SizeRankOk(s) && c.Wrap? && Count(s, c.kind) != 0
    ensures Keeps(s, Run(s, c))
    decreases c, 1
  {
    var s1 := Bump(s, c.kind, 1);
    InnerKeeps(s1, c.kind, c.body);
    BumpBack(s, c.kind, Note(RunAll(Note(s1, Begin(c.kind)), c.body), End(c.kind)));
  }

  lemma {:induction false} InnerKeeps(s: State, k: Kind, body: seq<Call>)
    requires SizeRankOk(s) && (k.Init? ==> s.initCount > 0)
    ensures var s' := Note(RunAll(Note(s, Begin(k)), body), End(k)); Keeps(s, s') && Begin(k) in s'.log
    decreases body, 2
  {
    NoteKeeps(s, Begin(k), body);
    NoteOk(RunAll(Note(s, Begin(k)), body), End(k));
  }

  lemma BumpBack(s: State, k: Kind, s4: State)
    requires SizeRankOk(s) && Keeps(Bump(s, k, 1), s4) && Begin(k) in s4.log
    ensures Keeps(s, Bump(s4, k, -1))
  {
  }

  lemma {:induction false} NoteKeeps(s: State, e: Event, cs: seq<Call>)
    requires SizeRankOk(s) && !e.Client? && !e.Comm? && (e == Begin(Init) ==> s.initCount > 0)
    ensures Keeps(s, RunAll(Note(s, e), cs)) && e in RunAll(Note(s, e), cs).log
    decreases cs, 1
  {
    NoteOk(s, e);
    assert e in Note(s, e).log;
    SizeRankAll(Note(s, e), cs);
  }

  lemma {:induction false} SizeRankAll(s: State, cs: seq<Call>)
    requires SizeRankOk(s)
    ensures Keeps(s, RunAll(s, cs))
    decreases cs, 0
  {
    if cs != [] {
      SizeRankStep(s, cs[0]);
      SizeRankAll(Run(s, cs[0]), cs[1..]);
    }
  }

  /** Whatever the application and the client call: size and rank are fixed by the first offer that counts,
      in the order of the trace; an offer made inside an init never counts, nor one before any init. */
  lemma FirstOfferWins(cs: seq<Call>)
    ensures var s := RunAll(START, cs);
      && s.log == Traces(cs, {})
      && (match Winner(Traces(cs, {}))
          case None => s.size == -1 && s.rank == -1
          case Some(w) => s.size == w.0 && s.rank == w.1)
  {
    CallbacksBracketAll(START, cs, {});
    SizeRankAll(START, cs);
  }

  /** An offer that counts. */
  predicate Counts(log: seq<Event>, k: int)
    requires 0 <= k < |log|
  {
    log[k].Client? || (log[k].Comm? && !log[k].inInit && Begin(Init) in log[..k])
  }

  lemma CountsBefore(log: seq<Event>, k: int)
    requires 0 <= k < |log| - 1
    ensures Counts(log[..|log| - 1], k) == Counts(log, k)
  {
    assert log[..|log| - 1][..k] == log[..k];
  }

  lemma {:induction false} NoWinner(log: seq<Event>)
    requires forall k :: 0 <= k < |log| ==> !Counts(log, k)
    ensures Winner(log) == None
  {
    if log != [] {
      var before := log[..|log| - 1];
      forall k | 0 <= k < |before| ensures !Counts(before, k) { CountsBefore(log, k); }
      NoWinner(before);
      assert !Counts(log, |log| - 1);
    }
  }

  /** The winner is the first of them. */
  lemma {:induction false} WinnerIsFirst(log: seq<Event>, k: int)
    requires 0 <= k < |log| && Counts(log, k) && forall j :: 0 <= j < k ==> !Counts(log, j)
    ensures Winner(log) == Some((log[k].size, log[k].rank))
  {
    var before := log[..|log| - 1];
    forall j | 0 <= j < |before| ensures Counts(before, j) == Counts(log, j) { CountsBefore(log, j); }
    if k < |log| - 1 { WinnerIsFirst(before, k); } else { NoWinner(before); }
  }

  /** The same in terms of the offers. */
  lemma OfferWins(cs: seq<Call>, k: int)
    requires 0 <= k < |Traces(cs, {})| && Counts(Traces(cs, {}), k)
    requires forall j :: 0 <= j < k ==> !Counts(Traces(cs, {}), j)
    ensures RunAll(START, cs).size == Traces(cs, {})[k].size && RunAll(START, cs).rank == Traces(cs, {})[k].rank
  {
    WinnerIsFirst(Traces(cs, {}), k);
    FirstOfferWins(cs);
  }

  lemma NoOfferCounts(cs: seq<Call>)
    requires forall k :: 0 <= k < |Traces(cs, {})| ==> !Counts(Traces(cs, {}), k)
    ensures RunAll(START, cs).size == -1 && RunAll(START, cs).rank == -1
  {
    NoWinner(Traces(cs, {}));
    FirstOfferWins(cs);
  }

  // ----- the static variables -----------------------------------------------------------------

  /** The variables of mpi.c and the wrappers that change them. */
  class Statics {
    var initCount: int
    var finiCount: int
    var maxInit: int
    var size: int
    var rank: int
    var firstSet: bool
    var firstMpi: bool
    ghost var log: seq<Event>

    ghost function View(): State
      reads this
    {
      State(initCount, finiCount, maxInit, size, rank, firstSet, firstMpi, log)
    }

    constructor ()
      ensures View() == START
    {
      initCount, finiCount, maxInit, size, rank := 0, 0, 0, -1, -1;
      firstSet, firstMpi, log := true, true, [];
    }

    method CountBy(k: Kind, inc: int) returns (count: int)
      modifies this
      ensures View() == Bump(old(View()), k, inc) && count == Count(View(), k)
    {
      if k.Init? {
        initCount := initCount + inc;
        if initCount > maxInit {
          maxInit := initCount;
        }
        return initCount;
      } else {
        finiCount := finiCount + inc;
        return finiCount;
      }
    }

    method SetSizeAndRank(size: int, rank: int)
      modifies this
      ensures View() == SetFirst(old(View()), size, rank)
    {
      if firstSet {
        this.size, this.rank := size, rank;
        firstSet := false;
      }
    }

    method SetMpiSizeAndRank(size: int, rank: int)
      modifies this
      ensures View() == SetMpi(old(View()), size, rank)
    {
      if firstMpi && initCount == 0 && maxInit > 0 {
        SetSizeAndRank(size, rank);
        firstMpi := false;
      }
    }

    /** A wrapper, with all that runs inside it. */
    method Invoke(c: Call)
      modifies this
      ensures View() == Run(old(View()), c)
      decreases c
    {
      match c {
        case Wrap(k, pre, body, post) =>
          var count := CountBy(k, 1);
          if count == 1 {
            log := log + [First(k)];
            InvokeAll(pre);
          }
          log := log + [Begin(k)];
          InvokeAll(body);
          log := log + [End(k)];
          if count == 1 {
            log := log + [Second(k)];
            InvokeAll(post);
          }
          var _ := CountBy(k, -1);
        case CommRank(body, size, rank) =>
          InvokeAll(body);
          ghost var inInit := initCount != 0;
          SetMpiSizeAndRank(size, rank);
          log := log + [Comm(size, rank, inInit)];
        case SetSizeRank(size, rank) =>
          SetSizeAndRank(size, rank);
          log := log + [Client(size, rank)];
      }
    }

    method InvokeAll(cs: seq<Call>)
      modifies this
      ensures View() == RunAll(old(View()), cs)
      decreases cs
    {
      if cs != [] {
        Invoke(cs[0]);
        InvokeAll(cs[1..]);
      }
    }
  }
}
