/** How the ranks of an MPI job share files in papiex/src/papiex.c: rank 0 publishes its base output path
    in a container file, every rank writes the files of its threads below it and then a completion mark,
    and rank 0 reports when it has found all marks. */
module RankHandshake {

  import opened Options

  /** The container file: fopen creates it empty, fclose fills it. */
  datatype File = Absent | Empty | Full(path: int)

  datatype At =
    | Init | Unlink | Create | Close   // rank 0 publishes
    | Poll | Open | Read               // the others fetch
    | Write | Closing | Mark           // everyone's files and mark
    | Wait | Delete | Report | Done
    | Failed

  /** A rank: its base_output_path, and the index of the loop it is in. */
  datatype Rank = Rank(at: At, path: Option<int>, k: int)

  /** The job: the number of threads of each rank, and the path that rank 0 makes up. */
  datatype Job = Job(threads: seq<int>, path: int)

  /** `files` holds the finished files by path, rank and thread; `marks` the completion marks. */
  datatype State = State(container: File, ranks: seq<Rank>, files: set<(int, int, int)>, marks: set<(int, int)>)

  predicate IsJob(j: Job) { |j.threads| > 0 && forall i :: 0 <= i < |j.threads| ==> j.threads[i] >= 0 }

  /** Before the job, with whatever container an earlier job has left. */
  predicate IsStart(j: Job, s: State) {
    && |s.ranks| == |j.threads| && s.files == {} && s.marks == {}
    && forall i :: 0 <= i < |s.ranks| ==> s.ranks[i] == Rank(Init, None, 0)
  }

  /** Polling loops are waits.  Rank 0 publishes in its MPI finalize callback; that every rank has
      removed stale containers by then is assumed. */
  predicate Enabled(s: State, i: int) {
    && 0 <= i < |s.ranks|
    && match s.ranks[i].at
       case Poll => s.container != Absent
       case Create => forall r :: 0 <= r < |s.ranks| ==> s.ranks[r].at != Init
       case Wait => s.ranks[i].path.Some? && (s.ranks[i].k < |s.ranks| ==>
         (s.ranks[i].path.value, s.ranks[i].k) in s.marks)
       case Done => false
       case Failed => false
       case _ => true
  }

  function PathOf(r: Rank): int { if r.path.Some? then r.path.value else 0 }

  function After(j: Job, s: State, i: int): State
    requires IsJob(j) && |s.ranks| == |j.threads| && Enabled(s, i)
  {
    var r := s.ranks[i];
    var files := if r.at == Closing then s.files + {(PathOf(r), i, r.k)} else s.files;
    var marks := if r.at == Mark then s.marks + {(PathOf(r), i)}
                 else if r.at == Wait && r.k < |s.ranks| then s.marks - {(PathOf(r), r.k)}
                 else s.marks;
    State(NextContainer(s.container, r), s.ranks[i := NextRank(j, s.container, r, i)], files, marks)
  }

  function NextContainer(c: File, r: Rank): File {
    match r.at
    case Init => Absent
    case Unlink => Absent
    case Create => Empty
    case Close => Full(PathOf(r))
    case Delete => Absent
    case _ => c
  }

  function NextRank(j: Job, c: File, r: Rank, i: int): Rank
    requires IsJob(j) && 0 <= i < |j.threads|
  {
    match r.at
    case Init => r.(at := if i == 0 then Unlink else Poll)
    case Unlink => r.(at := Create, path := Some(j.path))
    case Create => r.(at := Close)
    case Close => r.(at := Write)
    case Poll => r.(at := Open)
    case Open => r.(at := if c == Absent then Failed else Read)
    case Read => if c.Full? then r.(at := Write, path := Some(c.path)) else r.(at := Failed)
    case Write =>
      if r.k < j.threads[i] then r.(at := Closing)
      else if |j.threads| > 1 then r.(at := Mark)
      else r.(at := if i == 0 then Report else Done)
    case Closing => r.(at := Write, k := r.k + 1)
    case Mark => if i == 0 then r.(at := Wait, k := 0) else r.(at := Done)
    case Wait => if r.k < |j.threads| then r.(k := r.k + 1) else r.(at := Delete)
    case Delete => r.(at := Report)
    case Report => r.(at := Done)
    case _ => r
  }

  ghost predicate IsRun(j: Job, run: seq<State>) {
    && IsJob(j) && run != [] && IsStart(j, run[0])
    && forall n :: 0 <= n < |run| - 1 ==>
         |run[n].ranks| == |j.threads| && exists i :: Enabled(run[n], i) && run[n + 1] == After(j, run[n], i)
  }

  // ----- the invariant ------------------------------------------------------------------------

  predicate Publishing(at: At) {
    match at case Init | Unlink | Create | Close => true case _ => false
  }

  predicate Fetching(at: At) {
    match at case Poll | Open | Read => true case _ => false
  }

  predicate Writing(at: At) {
    match at case Write | Closing => true case _ => false
  }

  /** The rank has written all its files. */
  predicate Written(at: At) {
    match at case Mark | Wait | Delete | Report | Done => true case _ => false
  }

  /** The rank has left its mark. */
  predicate Marked(at: At) {
    match at case Wait | Delete | Report | Done => true case _ => false
  }

  ghost predicate AllFiles(j: Job, s: State, i: int)
    requires 0 <= i < |j.threads|
  {
    forall k :: 0 <= k < j.threads[i] ==> (j.path, i, k) in s.files
  }

  ghost predicate RankOk(j: Job, s: State, i: int)
    requires 0 <= i < |s.ranks| && |s.ranks| == |j.threads|
  {
    var r := s.ranks[i];
    && (Writing(r.at) || Written(r.at) || r.at == Create || r.at == Close ==> r.path == Some(j.path))
    && (r.path.Some? ==> r.path == Some(j.path))
    && (Publishing(r.at) || Fetching(r.at) ==> r.k == 0)
    && (Writing(r.at) ==> 0 <= r.k <= j.threads[i] && forall k :: 0 <= k < r.k ==> (j.path, i, k) in s.files)
    && (r.at == Closing ==> r.k < j.threads[i])
    && (Written(r.at) ==> AllFiles(j, s, i))
    && (r.at == Wait ==> 0 <= r.k <= |j.threads|)
    && (r.at == Mark || r.at == Wait || r.at == Delete || i != 0 ==> |j.threads| > 1)
    && (i != 0 ==>
          && r.at != Unlink && r.at != Create && r.at != Close
          && r.at != Wait && r.at != Delete && r.at != Report)
    && (i == 0 ==> !Fetching(r.at) && r.at != Failed)
  }

  /** The container, by where rank 0 is. */
  ghost predicate ContainerOk(j: Job, s: State)
    requires |s.ranks| == |j.threads| > 0
  {
    var at := s.ranks[0].at;
    && ((at == Unlink || at == Create) ==> s.container == Absent)
    && (at == Init ==> s.container == Absent || forall i :: 0 <= i < |s.ranks| ==> s.ranks[i].at == Init)
    && (at == Init || at == Unlink || at == Create ==>
          forall i :: 0 < i < |s.ranks| ==> s.ranks[i].at == Init || s.ranks[i].at == Poll)
    && (at == Close ==> s.container == Empty)
    && (!Publishing(at) ==> forall i :: 0 <= i < |s.ranks| ==> s.ranks[i].at != Init)
    && (at == Close ==> forall i :: 0 <= i < |s.ranks| ==> s.ranks[i].at != Init)
    && (at == Write || at == Closing || at == Mark || at == Wait || at == Delete ==> s.container == Full(j.path))
    && (|j.threads| > 1 && (at == Report || at == Done) ==> s.container == Absent)
  }

  predicate Unfinished(at: At) { Publishing(at) || Writing(at) || at == Mark }

  /** What rank 0 has seen of rank n. */
  ghost predicate MarkOk(j: Job, s: State, n: int)
    requires |s.ranks| == |j.threads| && 0 <= n < |j.threads|
  {
    var zero := s.ranks[0];
    && ((j.path, n) in s.marks ==> Marked(s.ranks[n].at))
    && (Marked(s.ranks[n].at) && (Unfinished(zero.at) || (zero.at == Wait && n >= zero.k)) ==> (j.path, n) in s.marks)
    && (zero.at == Wait && n < zero.k ==> Marked(s.ranks[n].at))
    && (|j.threads| > 1 && (zero.at == Delete || zero.at == Report || zero.at == Done) ==> Marked(s.ranks[n].at))
  }

  ghost predicate Inv(j: Job, s: State) {
    && IsJob(j) && |s.ranks| == |j.threads|
    && (forall i :: 0 <= i < |s.ranks| ==> RankOk(j, s, i))
    && ContainerOk(j, s)
    && (forall i :: 0 <= i < |s.ranks| ==> MarkOk(j, s, i))
  }

  lemma ContainerStep(j: Job, s: State, i: int)
    requires Inv(j, s) && Enabled(s, i) && RankOk(j, s, i) && RankOk(j, s, 0)
    ensures ContainerOk(j, After(j, s, i))
  {
  }

  lemma MarkStep(j: Job, s: State, i: int, n: int)
    requires Inv(j, s) && Enabled(s, i) && RankOk(j, s, i) && RankOk(j, s, 0) && 0 <= n < |s.ranks| && MarkOk(j, s, n)
    ensures MarkOk(j, After(j, s, i), n)
  {
  }

  lemma RankMoves(j: Job, s: State, i: int)
    requires Inv(j, s) && Enabled(s, i) && RankOk(j, s, i) && RankOk(j, s, 0)
    ensures RankOk(j, After(j, s, i), i)
  {
  }

  lemma RankStays(j: Job, s: State, i: int, n: int)
    requires Inv(j, s) && Enabled(s, i) && 0 <= n < |s.ranks| && n != i && RankOk(j, s, n)
    ensures RankOk(j, After(j, s, i), n)
  {
  }

  lemma RankStep(j: Job, s: State, i: int, n: int)
    requires Inv(j, s) && Enabled(s, i) && RankOk(j, s, i) && RankOk(j, s, 0) && 0 <= n < |s.ranks|
    ensures RankOk(j, After(j, s, i), n)
  {
    if n == i { RankMoves(j, s, i); } else { RankStays(j, s, i, n); }
  }

  lemma InvStep(j: Job, s: State, i: int)
    requires Inv(j, s) && Enabled(s, i)
    ensures Inv(j, After(j, s, i))
  {
    var s' := After(j, s, i);
    assert RankOk(j, s, i) && RankOk(j, s, 0);
    ContainerStep(j, s, i);
    forall n | 0 <= n < |s.ranks| ensures RankOk(j, s', n) && MarkOk(j, s', n) {
      RankStep(j, s, i, n);
      MarkStep(j, s, i, n);
    }
  }

  lemma {:induction false} InvRun(j: Job, run: seq<State>, n: int)
    requires IsRun(j, run) && 0 <= n < |run|
    ensures Inv(j, run[n])
  {
    if n > 0 {
      InvRun(j, run, n - 1);
      assert n - 1 < |run| - 1;
      var i :| Enabled(run[n - 1], i) && run[(n - 1) + 1] == After(j, run[n - 1], i);
      InvStep(j, run[n - 1], i);
    }
  }

  // ----- the promises -------------------------------------------------------------------------

  /** Every rank that has a base output path has rank 0's. */
  lemma SamePath(j: Job, run: seq<State>, n: int, i: int)
    requires IsRun(j, run) && 0 <= n < |run| && 0 <= i < |j.threads|
    ensures |run[n].ranks| == |j.threads| && (run[n].ranks[i].path.Some? ==> run[n].ranks[i].path == Some(j.path))
  {
    InvRun(j, run, n);
    assert RankOk(j, run[n], i);
  }

  /** When rank 0 starts the report, every rank has finished the files of all its threads, below rank 0's
      path. */
  lemma ReportAfterWrites(j: Job, run: seq<State>, n: int, i: int, k: int)
    requires IsRun(j, run) && 0 <= n < |run| && 0 <= i < |j.threads| && 0 <= k < j.threads[i]
    requires |run[n].ranks| > 0 && run[n].ranks[0].at == Report
    ensures (j.path, i, k) in run[n].files
  {
    InvRun(j, run, n);
    assert RankOk(j, run[n], i) && MarkOk(j, run[n], i);
    assert Marked(run[n].ranks[i].at);
  }

  /** The marks and files that are there: of ranks and threads of the job, and the marks not yet found by rank 0. */
  ghost predicate LeftOk(j: Job, s: State)
    requires |s.ranks| == |j.threads| > 0
  {
    var zero := s.ranks[0];
    && (forall m :: m in s.marks ==>
          m.0 == j.path && 0 <= m.1 < |j.threads| && (zero.at == Wait ==> zero.k <= m.1) &&
          zero.at != Delete && zero.at != Report && zero.at != Done)
    && (forall f :: f in s.files ==> f.0 == j.path && 0 <= f.1 < |j.threads| && 0 <= f.2 < j.threads[f.1])
  }

  lemma LeftStep(j: Job, s: State, i: int)
    requires Inv(j, s) && Enabled(s, i) && LeftOk(j, s)
    ensures |After(j, s, i).ranks| == |j.threads| && LeftOk(j, After(j, s, i))
  {
    assert RankOk(j, s, i) && RankOk(j, s, 0) && MarkOk(j, s, i);
  }

  lemma {:induction false} LeftRun(j: Job, run: seq<State>, n: int)
    requires IsRun(j, run) && 0 <= n < |run|
    ensures |run[n].ranks| == |j.threads| && LeftOk(j, run[n])
  {
    if n > 0 {
      LeftRun(j, run, n - 1);
      InvRun(j, run, n - 1);
      var i := MoverAt(j, run, n);
      LeftStep(j, run[n - 1], i);
    }
  }

  /** When rank 0 starts the report it has removed every mark, and the files are exactly those of all threads of all
      ranks. */
  lemma ReportFinds(j: Job, run: seq<State>, n: int)
    requires IsRun(j, run) && 0 <= n < |run| && |run[n].ranks| > 0 && run[n].ranks[0].at == Report
    ensures run[n].marks == {}
    ensures forall i, k :: (j.path, i, k) in run[n].files <==> 0 <= i < |j.threads| && 0 <= k < j.threads[i]
    ensures forall f :: f in run[n].files ==> f.0 == j.path
  {
    LeftRun(j, run, n);
    forall i, k | 0 <= i < |j.threads| && 0 <= k < j.threads[i] ensures (j.path, i, k) in run[n].files {
      ReportAfterWrites(j, run, n, i, k);
    }
    forall i, k | (j.path, i, k) in run[n].files ensures 0 <= i < |j.threads| && 0 <= k < j.threads[i] {
      var f := (j.path, i, k);
      assert 0 <= f.1 < |j.threads| && 0 <= f.2 < j.threads[f.1];
    }
  }

  /** The container is deleted only after every rank has read it: while some rank has no path yet and rank 0
      has published, the container is there; so no rank that saw the container fails to open it. */
  lemma DeleteAfterRead(j: Job, run: seq<State>, n: int, i: int)
    requires IsRun(j, run) && 0 <= n < |run| && 0 <= i < |j.threads|
    ensures |run[n].ranks| == |j.threads|
    ensures run[n].ranks[0].at == Delete ==> run[n].ranks[i].path == Some(j.path)
    ensures run[n].ranks[i].at == Open || run[n].ranks[i].at == Read ==> run[n].container != Absent
  {
    InvRun(j, run, n);
    assert RankOk(j, run[n], i) && MarkOk(j, run[n], i) && RankOk(j, run[n], 0);
  }

  /** A rank fails exactly when it reads the container between rank 0's fopen and fclose, and then rank 0
      never reports. */
  lemma FailsExactly(j: Job, run: seq<State>, n: int, i: int)
    requires IsRun(j, run) && 0 <= n < |run| && 0 <= i < |j.threads| && |run[n].ranks| == |j.threads|
    requires Enabled(run[n], i) && run[n].ranks[i].at != Failed
    ensures After(j, run[n], i).ranks[i].at == Failed <==> run[n].ranks[i].at == Read && run[n].ranks[0].at == Close
  {
    InvRun(j, run, n);
    FailsAt(j, run[n], i);
  }

  lemma FailsAt(j: Job, s: State, i: int)
    requires Inv(j, s) && Enabled(s, i) && s.ranks[i].at != Failed
    ensures After(j, s, i).ranks[i].at == Failed <==> s.ranks[i].at == Read && s.ranks[0].at == Close
  {
    assert RankOk(j, s, i) && RankOk(j, s, 0) && MarkOk(j, s, i);
  }

  lemma FailureIsFinal(j: Job, run: seq<State>, n: int, i: int)
    requires IsRun(j, run) && 0 <= n < |run| && 0 <= i < |j.threads|
    ensures |run[n].ranks| == |j.threads| && (run[n].ranks[i].at == Failed ==> run[n].ranks[0].at != Report)
  {
    InvRun(j, run, n);
    assert RankOk(j, run[n], i) && RankOk(j, run[n], 0) && MarkOk(j, run[n], i);
  }

  /** Unless a rank fails nobody waits for ever: as long as rank 0 is not done, some rank can move. */
  lemma Progress(j: Job, run: seq<State>, n: int) returns (i: int)
    requires IsRun(j, run) && 0 <= n < |run| && |run[n].ranks| == |j.threads|
    requires run[n].ranks[0].at != Done && forall r :: 0 <= r < |j.threads| ==> run[n].ranks[r].at != Failed
    ensures Enabled(run[n], i)
  {
    InvRun(j, run, n);
    i := Mover(j, run[n]);
  }

  lemma Mover(j: Job, s: State) returns (i: int)
    requires Inv(j, s) && s.ranks[0].at != Done && forall r :: 0 <= r < |s.ranks| ==> s.ranks[r].at != Failed
    ensures Enabled(s, i)
  {
    assert RankOk(j, s, 0) && MarkOk(j, s, 0);
    var zero := s.ranks[0];
    if zero.at == Create && exists r :: 0 <= r < |s.ranks| && s.ranks[r].at == Init {
      i :| 0 <= i < |s.ranks| && s.ranks[i].at == Init;
    } else if zero.at == Wait && zero.k < |s.ranks| && (j.path, zero.k) !in s.marks {
      i := zero.k;
      assert RankOk(j, s, i) && MarkOk(j, s, i);
    } else {
      i := 0;
    }
  }

  // ----- runs end -----------------------------------------------------------------------------

  /** How many steps a rank with t threads can still take in a job of n ranks. */
  function StepsLeft(r: Rank, t: int, n: int): int {
    match r.at
    case Init => 9 + n + 2 * t
    case Unlink => 8 + n + 2 * t
    case Create => 7 + n + 2 * t
    case Close => 6 + n + 2 * t
    case Poll => 8 + n + 2 * t
    case Open => 7 + n + 2 * t
    case Read => 6 + n + 2 * t
    case Write => 5 + n + 2 * (t - r.k)
    case Closing => 4 + n + 2 * (t - r.k)
    case Mark => 4 + n
    case Wait => 3 + n - r.k
    case Delete => 2
    case Report => 1
    case _ => 0
  }

  /** The sum over the first m ranks. */
  function TotalLeft(j: Job, ranks: seq<Rank>, m: int): int
    requires 0 <= m <= |ranks| == |j.threads|
  {
    if m == 0 then 0 else TotalLeft(j, ranks, m - 1) + StepsLeft(ranks[m - 1], j.threads[m - 1], |j.threads|)
  }

  lemma LeftDrops(j: Job, s: State, i: int)
    requires Inv(j, s) && Enabled(s, i)
    ensures StepsLeft(NextRank(j, s.container, s.ranks[i], i), j.threads[i], |j.threads|)
            < StepsLeft(s.ranks[i], j.threads[i], |j.threads|)
  {
    assert RankOk(j, s, i);
  }

  lemma LeftPositive(j: Job, s: State, i: int)
    requires Inv(j, s) && 0 <= i < |s.ranks|
    ensures StepsLeft(s.ranks[i], j.threads[i], |j.threads|) >= 0
  {
    assert RankOk(j, s, i);
  }

  lemma {:induction false} TotalDrops(j: Job, ranks: seq<Rank>, i: int, r: Rank, m: int)
    requires 0 <= m <= |ranks| == |j.threads| && 0 <= i < |ranks|
    requires StepsLeft(r, j.threads[i], |j.threads|) < StepsLeft(ranks[i], j.threads[i], |j.threads|)
    ensures TotalLeft(j, ranks[i := r], m) + (if i < m then 1 else 0) <= TotalLeft(j, ranks, m)
  {
    if m > 0 { TotalDrops(j, ranks, i, r, m - 1); }
  }

  lemma {:induction false} TotalPositive(j: Job, ranks: seq<Rank>, m: int)
    requires 0 <= m <= |ranks| == |j.threads|
    requires forall i :: 0 <= i < |ranks| ==> StepsLeft(ranks[i], j.threads[i], |j.threads|) >= 0
    ensures TotalLeft(j, ranks, m) >= 0
  {
    if m > 0 { TotalPositive(j, ranks, m - 1); }
  }

  /** The number of threads of the first ranks. */
  function Threads(j: Job, m: int): int
    requires 0 <= m <= |j.threads|
  {
    if m == 0 then 0 else Threads(j, m - 1) + j.threads[m - 1]
  }

  lemma {:induction false} TotalAtStart(j: Job, ranks: seq<Rank>, m: int)
    requires 0 <= m <= |ranks| == |j.threads| && forall i :: 0 <= i < |ranks| ==> ranks[i] == Rank(Init, None, 0)
    ensures TotalLeft(j, ranks, m) == m * (9 + |j.threads|) + 2 * Threads(j, m)
  {
    if m > 0 {
      TotalAtStart(j, ranks, m - 1);
      Distribute(m, 9 + |j.threads|);
    }
  }

  lemma Distribute(m: int, x: int)
    ensures m * x == (m - 1) * x + x
  {
  }

  lemma StepUsed(j: Job, s: State, i: int)
    requires Inv(j, s) && Enabled(s, i)
    ensures |After(j, s, i).ranks| == |j.threads|
    ensures TotalLeft(j, After(j, s, i).ranks, |j.threads|) < TotalLeft(j, s.ranks, |j.threads|)
  {
    LeftDrops(j, s, i);
    TotalDrops(j, s.ranks, i, NextRank(j, s.container, s.ranks[i], i), |j.threads|);
  }

  /** The rank that moves in a step of a run. */
  lemma MoverAt(j: Job, run: seq<State>, n: int) returns (i: int)
    requires IsRun(j, run) && 0 < n < |run|
    ensures |run[n - 1].ranks| == |j.threads| && Enabled(run[n - 1], i) && run[n] == After(j, run[n - 1], i)
  {
    assert n - 1 < |run| - 1;
    i :| Enabled(run[n - 1], i) && run[(n - 1) + 1] == After(j, run[n - 1], i);
  }

  lemma {:induction false} StepsUsed(j: Job, run: seq<State>, n: int)
    requires IsRun(j, run) && 0 <= n < |run|
    ensures |run[n].ranks| == |j.threads| == |run[0].ranks|
    ensures n + TotalLeft(j, run[n].ranks, |j.threads|) <= TotalLeft(j, run[0].ranks, |j.threads|)
  {
    if n > 0 {
      StepsUsed(j, run, n - 1);
      InvRun(j, run, n - 1);
      var i := MoverAt(j, run, n);
      StepUsed(j, run[n - 1], i);
    }
  }

  /** Every run ends: a job of n ranks with t threads in all takes at most n * (9 + n) + 2 * t steps, not counting
      the turns of the polling loops. */
  lemma RunsEnd(j: Job, run: seq<State>)
    requires IsRun(j, run)
    ensures |run| - 1 <= |j.threads| * (9 + |j.threads|) + 2 * Threads(j, |j.threads|)
  {
    var last := run[|run| - 1];
    StepsUsed(j, run, |run| - 1);
    InvRun(j, run, |run| - 1);
    forall i | 0 <= i < |last.ranks| ensures StepsLeft(last.ranks[i], j.threads[i], |j.threads|) >= 0 {
      LeftPositive(j, last, i);
    }
    TotalPositive(j, last.ranks, |j.threads|);
    TotalAtStart(j, run[0].ranks, |j.threads|);
  }

  /** Rank 0 gets to the end only from the report. */
  lemma DoneFrom(j: Job, s: State, i: int)
    requires Inv(j, s) && Enabled(s, i) && After(j, s, i).ranks[0].at == Done
    ensures s.ranks[0].at == Done || s.ranks[0].at == Report
  {
    assert RankOk(j, s, 0);
  }

  lemma {:induction false} DoneAfterReport(j: Job, run: seq<State>, n: int) returns (m: int)
    requires IsRun(j, run) && 0 <= n < |run| && |run[n].ranks| == |j.threads| && run[n].ranks[0].at == Done
    ensures 0 <= m < n && |run[m].ranks| == |j.threads| && run[m].ranks[0].at == Report
  {
    m := n - 1;
    if n > 0 {
      InvRun(j, run, n - 1);
      var i := MoverAt(j, run, n);
      DoneFrom(j, run[n - 1], i);
      if run[n - 1].ranks[0].at == Done { m := DoneAfterReport(j, run, n - 1); }
    }
  }

  ghost predicate EveryDone(s: State) { forall i :: 0 <= i < |s.ranks| ==> s.ranks[i].at == Done }

  /** No rank can move, and none has failed. */
  ghost predicate Quiet(s: State) { forall i :: 0 <= i < |s.ranks| ==> !Enabled(s, i) && s.ranks[i].at != Failed }

  lemma AllDone(j: Job, s: State)
    requires Inv(j, s) && s.ranks[0].at == Done
    ensures EveryDone(s)
  {
    forall i | 0 <= i < |s.ranks| ensures s.ranks[i].at == Done {
      assert RankOk(j, s, i) && MarkOk(j, s, i);
    }
  }

  lemma QuietDone(j: Job, s: State)
    requires Inv(j, s) && Quiet(s)
    ensures s.ranks[0].at == Done
  {
    if s.ranks[0].at != Done { var _ := Mover(j, s); }
  }

  /** A run that cannot go on and in which no rank has failed has completed: rank 0 has reported, and every rank is
      done. */
  lemma Completes(j: Job, run: seq<State>) returns (m: int)
    requires IsRun(j, run) && Quiet(run[|run| - 1])
    ensures EveryDone(run[|run| - 1])
    ensures 0 <= m < |run| && |run[m].ranks| == |j.threads| && run[m].ranks[0].at == Report
  {
    var n := |run| - 1;
    InvRun(j, run, n);
    QuietDone(j, run[n]);
    AllDone(j, run[n]);
    m := DoneAfterReport(j, run, n);
  }

  // ----- the failing run ----------------------------------------------------------------------

  lemma RunOn(j: Job, run: seq<State>, i: int) returns (run': seq<State>)
    requires IsRun(j, run) && |run[|run| - 1].ranks| == |j.threads| && Enabled(run[|run| - 1], i)
    ensures IsRun(j, run') && run'[|run'| - 1] == After(j, run[|run| - 1], i)
  {
    var last := run[|run| - 1];
    run' := run + [After(j, last, i)];
    forall n | 0 <= n < |run'| - 1
      ensures |run'[n].ranks| == |j.threads| && exists i :: Enabled(run'[n], i) && run'[n + 1] == After(j, run'[n], i)
    {
      if n < |run| - 1 { assert run'[n] == run[n] && run'[n + 1] == run[n + 1]; } else { assert run'[n] == last; }
    }
  }

  /** Two ranks, and the second reads the container before it is written. */
  lemma TornRead() returns (run: seq<State>)
    ensures IsRun(Job([0, 0], 7), run) && run[|run| - 1].ranks == [Rank(Close, Some(7), 0), Rank(Failed, None, 0)]
  {
    var j := Job([0, 0], 7);
    run := ContainerMade();
    run := RunOn(j, run, 1);
    run := RunOn(j, run, 1);
    run := RunOn(j, run, 1);
  }

  lemma ContainerMade() returns (run: seq<State>)
    ensures IsRun(Job([0, 0], 7), run)
    ensures run[|run| - 1] == State(Empty, [Rank(Close, Some(7), 0), Rank(Poll, None, 0)], {}, {})
  {
    var j := Job([0, 0], 7);
    run := [State(Absent, [Rank(Init, None, 0), Rank(Init, None, 0)], {}, {})];
    run := RunOn(j, run, 0);
    run := RunOn(j, run, 1);
    run := RunOn(j, run, 0);
    run := RunOn(j, run, 0);
  }
}
