/** What the step machine and the heap model of the thread registry share. */
module NodeLists {
  const ARRAY_SIZE: int := 150  // MONITOR_TN_ARRAY_SIZE

  predicate NoDup<T(==)>(q: seq<T>) { forall i, j :: 0 <= i < j < |q| ==> q[i] != q[j] }

  /** LIST_REMOVE on sequences. */
  function Delete<T(==)>(q: seq<T>, n: T): seq<T> {
    if q == [] then [] else if q[0] == n then q[1..] else [q[0]] + Delete(q[1..], n)
  }
}
