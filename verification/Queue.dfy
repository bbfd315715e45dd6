/** The intrusive lists of monitor/src/queue.h and the thread registry that is built on them
    (monitor/src/pthread.c).  An element points at its successor and at the slot that points at it,
    so LIST_REMOVE works without knowing the list. */
module Queue {
  import opened NodeLists

  /** The value of le_prev: NULL, the lh_first of a head, or the le_next of an element. */
  datatype Slot = NoSlot | HeadSlot(head: ListHead) | NextSlot(node: Node)

  class ListHead {
    var first: Node?

    /** LIST_INIT. */
    constructor ()
      ensures Chain(this, [])
    {
      first := null;
    }
  }

  /** struct monitor_thread_node with its tn_links. */
  class Node {
    var next: Node?
    var prev: Slot
    var tid: int
    var finiStarted: bool
    var finiDone: bool

    ghost predicate Zero() reads this {
      next == null && prev == NoSlot && tid == 0 && !finiStarted && !finiDone
    }

    constructor ()
      ensures Zero()
    {
      next, prev, tid, finiStarted, finiDone := null, NoSlot, 0, false, false;
    }

    /** memset(tn, 0, ...). */
    method Clear()
      modifies this
      ensures Zero()
    {
      next, prev, tid, finiStarted, finiDone := null, NoSlot, 0, false, false;
    }
  }

  function After(q: seq<Node>, i: int): Node?
    requires -1 <= i < |q|
  {
    if i + 1 < |q| then q[i + 1] else null
  }

  function SlotOf(h: ListHead, q: seq<Node>, i: int): Slot
    requires 0 <= i < |q|
  {
    if i == 0 then HeadSlot(h) else NextSlot(q[i - 1])
  }

  /** The list with head h holds exactly the elements of q, in this order. */
  ghost predicate Chain(h: ListHead, q: seq<Node>)
    reads h, q
  {
    && NoDup(q)
    && h.first == After(q, -1)
    && (forall i {:trigger q[i].next} :: 0 <= i < |q| ==> q[i].next == After(q, i))
    && (forall i {:trigger q[i].prev} :: 0 <= i < |q| ==> q[i].prev == SlotOf(h, q, i))
  }

  lemma {:induction false} SamePrefix(h: ListHead, p: seq<Node>, q: seq<Node>, k: nat)
    requires Chain(h, p) && Chain(h, q) && k <= |p| && k <= |q|
    ensures forall i :: 0 <= i < k ==> p[i] == q[i]
  {
    if k > 0 {
      SamePrefix(h, p, q, k - 1);
      assert k > 1 ==> p[k - 2].next == After(p, k - 2) && q[k - 2].next == After(q, k - 2);
    }
  }

  /** A list has only one reading. */
  lemma ChainUnique(h: ListHead, p: seq<Node>, q: seq<Node>)
    requires Chain(h, p) && Chain(h, q) && |p| <= |q|
    ensures p == q
  {
    SamePrefix(h, p, q, |p|);
    assert p != [] ==> p[|p| - 1].next == After(p, |p| - 1) && q[|p| - 1].next == After(q, |p| - 1);
  }

  /** An element of a list is in no other list. */
  lemma {:induction false} OneList(h: ListHead, q: seq<Node>, i: nat, h': ListHead, q': seq<Node>, i': nat)
    requires Chain(h, q) && Chain(h', q') && h != h' && i < |q| && i' < |q'|
    ensures q[i] != q'[i']
  {
    assert q[i].prev == SlotOf(h, q, i) && q'[i'].prev == SlotOf(h', q', i');
    if q[i] == q'[i'] && i > 0 && i' > 0 {
      OneList(h, q, i - 1, h', q', i' - 1);
    }
  }

  lemma {:induction false} DeleteAt(q: seq<Node>, i: nat)
    requires NoDup(q) && i < |q|
    ensures Delete(q, q[i]) == q[..i] + q[i + 1..]
    ensures q[i] !in Delete(q, q[i])
  {
    if i > 0 { DeleteAt(q[1..], i - 1); }
  }

  /** LIST_INSERT_HEAD. */
  method InsertHead(head: ListHead, elm: Node, ghost q: seq<Node>)
    requires Chain(head, q) && elm !in q
    modifies head, elm`next, elm`prev, if q == [] then {} else {q[0]}`prev
    ensures Chain(head, [elm] + q)
  {
    elm.next := head.first;
    if elm.next != null {
      elm.next.prev := NextSlot(elm);
    }
    head.first := elm;
    elm.prev := HeadSlot(head);
  }

  /** The head whose slot is le_prev, and the elements beside elm. */
  ghost function HeadOf(elm: Node): set<ListHead>
    reads elm
  {
    if elm.prev.HeadSlot? then {elm.prev.head} else {}
  }

  ghost function Beside(elm: Node): set<Node>
    reads elm
  {
    (if elm.prev.NextSlot? then {elm.prev.node} else {}) + (if elm.next == null then {} else {elm.next})
  }

  /** The elements of q, but for the links around the i-th, are linked as in a list with head h. */
  ghost predicate Cut(h: ListHead, q: seq<Node>, i: int)
    requires 0 <= i < |q|
    reads h, q
  {
    && NoDup(q)
    && h.first == (if i == 0 then After(q, 0) else q[0])
    && (forall j {:trigger q[j].next} :: 0 <= j < |q| && j != i - 1 && j != i ==> q[j].next == After(q, j))
    && (forall j {:trigger q[j].prev} :: 0 <= j < |q| && j != i + 1 && j != i ==> q[j].prev == SlotOf(h, q, j))
    && (i > 0 ==> q[i - 1].next == After(q, i))
    && (i + 1 < |q| ==> q[i + 1].prev == SlotOf(h, q, i))
  }

  lemma CutChain(h: ListHead, q: seq<Node>, i: int)
    requires 0 <= i < |q| && Cut(h, q, i)
    ensures Chain(h, q[..i] + q[i + 1..])
  {
    var r := q[..i] + q[i + 1..];
    forall j | 0 <= j < |r| ensures r[j].next == After(r, j) && r[j].prev == SlotOf(h, r, j) {
      var k := if j < i then j else j + 1;
      assert r[j] == q[k];
    }
  }

  /** LIST_REMOVE: only the element is given. */
  method Remove(elm: Node, ghost h: ListHead, ghost q: seq<Node>)
    requires Chain(h, q) && elm in q
    modifies HeadOf(elm), Beside(elm)`next, Beside(elm)`prev
    ensures Chain(h, Delete(q, elm))
  {
    ghost var i :| 0 <= i < |q| && q[i] == elm;
    DeleteAt(q, i);
    assert elm.next == After(q, i) && elm.prev == SlotOf(h, q, i);
    if elm.next != null {
      elm.next.prev := elm.prev;
    }
    match elm.prev {
      case NoSlot =>
      case HeadSlot(l) => l.first := elm.next;
      case NextSlot(n) => n.next := elm.next;
    }
    CutChain(h, q, i);
  }

  lemma {:induction false} DeleteAbsent(q: seq<Node>, n: Node)
    requires n !in q
    ensures Delete(q, n) == q
  {
    if q != [] { DeleteAbsent(q[1..], n); }
  }

  lemma Disjoint(a: ListHead, p: seq<Node>, b: ListHead, q: seq<Node>)
    requires Chain(a, p) && Chain(b, q) && a != b
    ensures forall x :: x in p ==> x !in q
  {
    forall i, j | 0 <= i < |p| && 0 <= j < |q| ensures p[i] != q[j] {
      OneList(a, p, i, b, q, j);
    }
  }

  /** LIST_REMOVE with two lists about: it leaves the list that holds elm without it, whichever that
      is, and the other as it was. */
  method RemoveFromEither(elm: Node, ghost a: ListHead, ghost p: seq<Node>, ghost b: ListHead, ghost q: seq<Node>)
    requires Chain(a, p) && Chain(b, q) && a != b && (elm in p || elm in q)
    modifies HeadOf(elm), Beside(elm)`next, Beside(elm)`prev
    ensures Chain(a, Delete(p, elm)) && Chain(b, Delete(q, elm))
    ensures elm !in p ==> Delete(p, elm) == p
    ensures elm !in q ==> Delete(q, elm) == q
  {
    Disjoint(a, p, b, q);
    ghost var h, own := if elm in p then a else b, if elm in p then p else q;
    DeleteAbsent(if elm in p then q else p, elm);
    BesideIn(elm, h, own);
    Remove(elm, h, own);
  }

  lemma BesideIn(elm: Node, h: ListHead, q: seq<Node>)
    requires Chain(h, q) && elm in q
    ensures HeadOf(elm) <= {h} && forall x :: x in Beside(elm) ==> x in q
  {
    var i :| 0 <= i < |q| && q[i] == elm;
    assert elm.next == After(q, i) && elm.prev == SlotOf(h, q, i);
  }

  // ----- the thread registry ------------------------------------------------------------------

  ghost predicate Sorted(q: seq<Node>, top: int)
    reads q
  {
    && (forall i {:trigger q[i].tid} :: 0 <= i < |q| ==> q[i].tid <= top)
    && (forall i, j {:trigger q[i].tid, q[j].tid} :: 0 <= i < j < |q| ==> q[i].tid > q[j].tid)
  }

  lemma DeleteIn(q: seq<Node>, n: Node)
    requires NoDup(q) && n in q
    ensures NoDup(Delete(q, n))
    ensures forall i :: 0 <= i < |Delete(q, n)| ==> Delete(q, n)[i] in q && Delete(q, n)[i] != n
  {
    var i :| 0 <= i < |q| && q[i] == n;
    DeleteAt(q, i);
    PickIn(q, q[..i] + q[i + 1..], i);
  }

  lemma PickIn(q: seq<Node>, r: seq<Node>, i: int)
    requires 0 <= i < |q| == |r| + 1 && NoDup(q)
    requires forall j :: 0 <= j < |r| ==> r[j] == q[if j < i then j else j + 1]
    ensures NoDup(r) && forall j :: 0 <= j < |r| ==> r[j] in q && r[j] != q[i]
  {
  }

  lemma SortedDelete(q: seq<Node>, n: Node, top: int)
    requires NoDup(q) && n in q && Sorted(q, top)
    ensures Sorted(Delete(q, n), top)
  {
    var i :| 0 <= i < |q| && q[i] == n;
    DeleteAt(q, i);
    SortedPick(q, q[..i] + q[i + 1..], i, top);
  }

  lemma SortedPick(q: seq<Node>, r: seq<Node>, i: int, top: int)
    requires 0 <= i < |q| == |r| + 1 && Sorted(q, top)
    requires forall j :: 0 <= j < |r| ==> r[j] == q[if j < i then j else j + 1]
    ensures Sorted(r, top)
  {
    forall j | 0 <= j < |r| ensures r[j].tid <= top { assert q[if j < i then j else j + 1].tid <= top; }
    forall j, k | 0 <= j < k < |r| ensures r[j].tid > r[k].tid {
      assert q[if j < i then j else j + 1].tid > q[if k < i then k else k + 1].tid;
    }
  }

  /** LIST_REMOVE, memset and LIST_INSERT_HEAD of monitor_unlink_thread_node. */
  method MoveNode(tn: Node, ghost h: ListHead, to: ListHead, ghost p: seq<Node>, ghost q: seq<Node>)
    requires h != to && Chain(h, p) && Chain(to, q) && tn in p
    requires forall x :: x in p ==> x !in q
    modifies h, to, tn, (set x | x in p)`next, (set x | x in p)`prev, (set x | x in q)`prev
    ensures Chain(h, Delete(p, tn)) && Chain(to, [tn] + q)
    ensures tn.tid == 0 && !tn.finiStarted && !tn.finiDone
  {
    DeleteIn(p, tn);
    BesideIn(tn, h, p);
    Remove(tn, h, p);
    tn.Clear();
    InsertHead(to, tn, q);
  }

  /** LIST_FIRST and LIST_REMOVE of monitor_make_thread_node. */
  method PopHead(h: ListHead, ghost q: seq<Node>) returns (tn: Node)
    requires Chain(h, q) && q != []
    modifies h, (set x | x in q)`prev, (set x | x in q)`next
    ensures tn == q[0] && Chain(h, q[1..])
  {
    tn := h.first;
    assert tn == q[0] && tn.next == After(q, 0) && tn.prev == HeadSlot(h);
    Remove(tn, h, q);
  }

  /** The static variables of pthread.c.  `inUse` is the nodes handed out and not given back. */
  class Registry {
    const threadList: ListHead
    const freeList: ListHead
    var tnArray: array<Node>
    var arrayPos: nat
    var threadNum: int
    var inExit: bool
    ghost var threads: seq<Node>
    ghost var frees: seq<Node>
    ghost var inUse: set<Node>

    ghost predicate Valid()
      reads this, threadList, freeList, tnArray, threads, frees
    {
      && threadList != freeList && Chain(threadList, threads) && Chain(freeList, frees)
      && (forall n :: n in threads ==> n in inUse)
      && (forall n :: n in frees ==> n !in inUse)
      && Sorted(threads, threadNum)
      && tnArray.Length == ARRAY_SIZE && arrayPos <= ARRAY_SIZE
      && (forall k :: arrayPos <= k < ARRAY_SIZE ==> tnArray[k] !in inUse && tnArray[k] !in frees)
      && (forall j, k :: arrayPos <= j < k < ARRAY_SIZE ==> tnArray[j] != tnArray[k])
    }

    /** The state before the first thread. */
    constructor ()
      ensures Valid() && fresh(threadList) && fresh(freeList) && fresh(tnArray)
      ensures threads == [] && frees == [] && inUse == {} && arrayPos == 0 && threadNum == 0 && !inExit
    {
      threadList := new ListHead();
      freeList := new ListHead();
      var a := NewArray();
      tnArray, arrayPos, threadNum, inExit := a, 0, 0, false;
      threads, frees, inUse := [], [], {};
    }

    /** The node that monitor_make_thread_node takes: the head of the free list, else the next element
        of the array, else the first element of a new array. */
    method Take() returns (tn: Node)
      requires Valid()
      modifies this, freeList, frees
      ensures tn !in old(inUse) && inUse == old(inUse) + {tn} && Valid()
      ensures threads == old(threads) && threadNum == old(threadNum) && inExit == old(inExit)
      ensures old(frees) != [] ==> tn == old(frees[0]) && frees == old(frees[1..]) && arrayPos == old(arrayPos)
      ensures old(frees) == [] ==>
        frees == [] && arrayPos == (if old(arrayPos) < ARRAY_SIZE then old(arrayPos) + 1 else 1)
      ensures old(frees) == [] && old(arrayPos) < ARRAY_SIZE ==> tn == old(tnArray[arrayPos])
      ensures old(frees) == [] && old(arrayPos) == ARRAY_SIZE ==> fresh(tn) && fresh(tnArray)
    {
      var first := freeList.first;
      if first != null {
        tn := PopHead(freeList, frees);
        frees := frees[1..];
      } else if arrayPos < ARRAY_SIZE {
        tn := tnArray[arrayPos];
        arrayPos := arrayPos + 1;
      } else {
        tnArray := NewArray();
        tn := tnArray[0];
        arrayPos := 1;
      }
      inUse := inUse + {tn};
    }

    /** monitor_make_thread_node: the node it returns was in nobody's use. */
    method MakeThreadNode() returns (tn: Node)
      requires Valid()
      modifies this, freeList, frees, tnArray[..]
      ensures tn !in old(inUse) && inUse == old(inUse) + {tn} && Valid()
      ensures threads == old(threads) && frees == (if old(frees) == [] then [] else old(frees)[1..])
      ensures tn.tid == -1 && !tn.finiStarted && !tn.finiDone
    {
      tn := Take();
      tn.Clear();
      tn.tid := -1;
    }

    /** monitor_link_thread_node. */
    method LinkThreadNode(tn: Node) returns (refused: bool)
      requires Valid() && tn in inUse && tn !in threads
      modifies this`threadNum, this`threads, threadList, tn, threads
      ensures Valid() && refused == inExit
      ensures refused ==> threads == old(threads) && threadNum == old(threadNum)
      ensures !refused ==> threads == [tn] + old(threads) && tn.tid == threadNum == old(threadNum) + 1
    {
      if inExit {
        return true;
      }
      threadNum := threadNum + 1;
      tn.tid := threadNum;
      InsertHead(threadList, tn, threads);
      threads := [tn] + threads;
      return false;
    }

    /** monitor_unlink_thread_node. */
    method UnlinkThreadNode(tn: Node)
      requires Valid() && tn in threads
      modifies this`threads, this`frees, this`inUse, threadList, freeList, threads, frees
      ensures Valid()
      ensures inExit ==>
        && threads == old(threads) && frees == old(frees) && inUse == old(inUse) && tn.finiStarted && tn.finiDone
      ensures !inExit ==>
        && threads == Delete(old(threads), tn) && frees == [tn] + old(frees) && inUse == old(inUse) - {tn}
        && tn.tid == 0 && !tn.finiStarted && !tn.finiDone
    {
      if inExit {
        tn.finiStarted := true;
        tn.finiDone := true;
      } else {
        DeleteIn(threads, tn);
        SortedDelete(threads, tn, threadNum);
        MoveNode(tn, threadList, freeList, threads, frees);
        threads := Delete(threads, tn);
        frees := [tn] + frees;
        inUse := inUse - {tn};
      }
    }
  }

  /** The array that malloc returns. */
  method NewArray() returns (a: array<Node>)
    ensures fresh(a) && a.Length == ARRAY_SIZE
    ensures forall k :: 0 <= k < ARRAY_SIZE ==> fresh(a[k])
    ensures forall j, k :: 0 <= j < k < ARRAY_SIZE ==> a[j] != a[k]
  {
    var filler := new Node();
    a := new Node[ARRAY_SIZE](_ => filler);
    var k := 0;
    while k < ARRAY_SIZE
      invariant 0 <= k <= ARRAY_SIZE
      invariant forall i :: 0 <= i < ARRAY_SIZE ==> fresh(a[i])
      invariant forall i, j :: 0 <= i < j < k ==> a[i] != a[j]
    {
      var n := new Node();
      a[k] := n;
      k := k + 1;
    }
  }
}
