/** mpi_waitsome__ of papiex/src/mpiwrap_special.c: the Fortran wrapper converts request handles to C and back.
    It writes back only some of the handles; that is as good as writing back all. */
module WaitSome {

  /** MPI_Request_f2c, MPI_Request_c2f and MPI_Status_c2f; handles in Fortran are integers. */
  datatype Convert<!C, !S, !T> = Convert(f2c: int -> C, c2f: C -> int, status: S -> T)

  /** What MPI_Waitsome leaves: the requests, the number completed (negative if no request was active), the
      indices of those completed, their statuses, and its return code. */
  datatype Outcome<C, S> = Outcome(requests: seq<C>, outcount: int, indices: seq<int>, statuses: seq<S>, rc: int)

  /** The arrays have an element for each of the `count` requests, and completed indices are indices. */
  predicate WellFormed<C, S>(o: Outcome<C, S>, count: int) {
    && |o.requests| == |o.indices| == |o.statuses| == count && o.outcount <= count
    && forall i :: 0 <= i < o.outcount ==> o.indices[i] < count
  }

  predicate Completed<C, S>(o: Outcome<C, S>, k: int) {
    exists i :: 0 <= i < o.outcount && i < |o.indices| && o.indices[i] == k
  }

  /** The handles that the loop does not write back. */
  predicate Skipped<C, S>(o: Outcome<C, S>, k: int) { 0 <= k < o.outcount && !Completed(o, k) }

  function Full<C, S, T>(v: Convert<C, S, T>, o: Outcome<C, S>): seq<int> {
    seq(|o.requests|, k requires 0 <= k < |o.requests| => v.c2f(o.requests[k]))
  }

  ghost function Selective<C, S, T>(v: Convert<C, S, T>, before: seq<int>, o: Outcome<C, S>): seq<int>
    requires |before| == |o.requests|
  {
    seq(|before|, k requires 0 <= k < |before| => if Skipped(o, k) then before[k] else v.c2f(o.requests[k]))
  }

  /** Writing back some handles equals writing back all exactly when those skipped would come out as they
      were. */
  lemma SelectiveIsFull<C, S, T>(v: Convert<C, S, T>, before: seq<int>, o: Outcome<C, S>)
    requires |before| == |o.requests|
    ensures Selective(v, before, o) == Full(v, o)
            <==> forall k :: 0 <= k < |before| && Skipped(o, k) ==> v.c2f(o.requests[k]) == before[k]
  {
    var a, b := Selective(v, before, o), Full(v, o);
    if a == b {
      forall k | 0 <= k < |before| && Skipped(o, k) ensures v.c2f(o.requests[k]) == before[k] {
        assert a[k] == b[k];
      }
    }
  }

  /** So it does whenever c2f undoes f2c and MPI_Waitsome leaves uncompleted requests alone. */
  lemma SelectiveSuffices<C, S, T>(v: Convert<C, S, T>, before: seq<int>, o: Outcome<C, S>)
    requires |before| == |o.requests| && forall h :: v.c2f(v.f2c(h)) == h
    requires forall k :: 0 <= k < |before| && !Completed(o, k) ==> o.requests[k] == v.f2c(before[k])
    ensures Selective(v, before, o) == Full(v, o)
  {
    SelectiveIsFull(v, before, o);
  }

  /** The write-back loop. */
  method WriteBack<C, S, T>(v: Convert<C, S, T>, requests: array<int>, o: Outcome<C, S>)
    requires WellFormed(o, requests.Length)
    modifies requests
    ensures requests[..] == Selective(v, old(requests[..]), o)
  {
    ghost var was := requests[..];
    for i := 0 to requests.Length
      invariant forall k :: 0 <= k < requests.Length ==>
        requests[k] == if Done(o, i, k) then v.c2f(o.requests[k]) else was[k]
    {
      if i < o.outcount {
        if o.indices[i] >= 0 {
          requests[o.indices[i]] := v.c2f(o.requests[o.indices[i]]);
        }
      } else {
        var found, j := false, 0;
        while !found && j < o.outcount
          invariant 0 <= j && (j <= o.outcount || j == 0)
          invariant found <==> exists m :: 0 <= m < j && o.indices[m] == i
          decreases o.outcount - j, !found
        {
          if o.indices[j] == i {
            found := true;
          }
          j := j + 1;
        }
        if !found {
          requests[i] := v.c2f(o.requests[i]);
        }
      }
    }
    forall k | 0 <= k < requests.Length ensures Done(o, requests.Length, k) <==> !Skipped(o, k) {
    }
  }

  /** The first n passes have written handle k back. */
  ghost predicate Done<C, S>(o: Outcome<C, S>, n: int, k: int) {
    || (exists i :: 0 <= i < n && i < o.outcount && i < |o.indices| && o.indices[i] == k)
    || (o.outcount <= k < n && !Completed(o, k))
  }

  /** The second loop: statuses and indices.  The Fortran index of a completed request is one more, and a negative
      number is left as it is. */
  method Report<C, S, T>(v: Convert<C, S, T>, indices: array<int>, statuses: array<T>, o: Outcome<C, S>)
    requires WellFormed(o, indices.Length) && statuses.Length == indices.Length && indices[..] == o.indices
    requires statuses != indices as object
    modifies indices, statuses
    ensures forall i :: 0 <= i < indices.Length ==>
      && indices[i] == (if i < o.outcount && o.indices[i] >= 0 then o.indices[i] + 1 else o.indices[i])
      && statuses[i] == (if i < o.outcount then v.status(o.statuses[i]) else old(statuses[i]))
  {
    assert forall i :: 0 <= i < indices.Length ==> indices[i] == indices[..][i] == o.indices[i];
    var i := 0;
    while i < o.outcount
      invariant 0 <= i && (i <= o.outcount || i == 0)
      invariant forall k :: 0 <= k < indices.Length ==>
        && indices[k] == (if k < i && o.indices[k] >= 0 then o.indices[k] + 1 else o.indices[k])
        && statuses[k] == (if k < i then v.status(o.statuses[k]) else old(statuses[k]))
    {
      statuses[i] := v.status(o.statuses[i]);
      if indices[i] >= 0 {
        indices[i] := indices[i] + 1;
      }
      i := i + 1;
    }
  }

  function Converted<C, S, T>(v: Convert<C, S, T>, handles: seq<int>): (r: seq<C>)
    ensures |r| == |handles|
  {
    seq(|handles|, k requires 0 <= k < |handles| => v.f2c(handles[k]))
  }

  /** MPI_Waitsome does not change a request that has not completed. */
  ghost predicate Fair<C, S>(cs: seq<C>, o: Outcome<C, S>) {
    WellFormed(o, |cs|) && forall k :: 0 <= k < |cs| && !Completed(o, k) ==> o.requests[k] == cs[k]
  }

  /** The wrapper; `wait` is MPI_Waitsome. */
  method MpiWaitSome<C, S, T>(v: Convert<C, S, T>, wait: seq<C> -> Outcome<C, S>,
                              requests: array<int>, indices: array<int>, statuses: array<T>)
    returns (outcount: int, rc: int)
    requires indices.Length == statuses.Length == requests.Length && indices != requests
    requires statuses != indices as object && statuses != requests as object
    requires forall h :: v.c2f(v.f2c(h)) == h
    requires forall cs: seq<C> :: |cs| == requests.Length ==> Fair(cs, wait(cs))
    modifies requests, indices, statuses
    ensures var o := wait(seq(requests.Length, k requires 0 <= k < requests.Length => v.f2c(old(requests[k]))));
      && |o.requests| == |o.indices| == |o.statuses| == requests.Length
      && outcount == o.outcount && rc == o.rc
      && (forall k :: 0 <= k < requests.Length ==> requests[k] == v.c2f(o.requests[k]))
      && (forall i :: 0 <= i < indices.Length ==>
            && indices[i] == (if i < o.outcount && o.indices[i] >= 0 then o.indices[i] + 1 else o.indices[i])
            && statuses[i] == (if i < o.outcount then v.status(o.statuses[i]) else old(statuses[i])))
  {
    ghost var was := requests[..];
    var cs := Converted(v, requests[..]);
    var o := wait(cs);
    assert cs == seq(requests.Length, k requires 0 <= k < requests.Length => v.f2c(old(requests[k])));
    assert Fair(cs, o);
    forall i | 0 <= i < indices.Length {
      indices[i] := o.indices[i];
    }
    WriteBack(v, requests, o);
    SelectiveSuffices(v, was, o);
    Report(v, indices, statuses, o);
    return o.outcount, o.rc;
  }
}
