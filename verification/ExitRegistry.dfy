/** Where the thread nodes are: on the thread list, on the free list, or in the hands of one frame. */
module ExitRegistry {
  import opened NodeLists
  import opened Options
  import opened ExitMachine
  import opened ExitLock

  /** A creating, running or finishing thread has charge of its node. */
  predicate Holding(at: At) {
    match at
    case MakeClear | MakeUnlock | MakePre | MakeDone | BeginWait | BeginSleep | BeginSelf => true
    case LinkLock | LinkTest | LinkRefuse | Refused | LinkInsert => true
    case LinkUnlock | InInit | ApplSet | Running | CleanTest | CleanDone | CleanSet | CleanIn => true
    case UnLock | UnTest | UnMark | UnRemove | UnClear | UnPut => true
    case _ => false
  }

  /** The node is in charge of the frame and on neither list. */
  predicate InFlight(at: At) {
    match at
    case MakeClear | MakeUnlock | MakePre | MakeDone | BeginWait | BeginSleep | BeginSelf => true
    case LinkLock | LinkTest | LinkRefuse | Refused | LinkInsert => true
    case UnClear | UnPut => true
    case _ => false
  }

  predicate HasSelf(at: At) {
    match at
    case LinkLock | LinkTest | LinkInsert | LinkUnlock | InInit | ApplSet | Running => true
    case CleanTest | CleanDone | CleanSet | CleanIn | UnLock | UnTest | UnMark | UnRemove => true
    case _ => false
  }

  /** Past the test of tn_appl_started. */
  predicate PastTest(at: At) {
    match at
    case CleanDone | CleanSet | CleanIn | UnLock | UnTest | UnMark | UnRemove | HandDone | SigSet | SigIn => true
    case _ => false
  }

  function Tid(nodes: seq<Node>, x: int): int { if 0 <= x < |nodes| then nodes[x].tid else 0 }

  predicate Sorted(nodes: seq<Node>, q: seq<int>) {
    forall i, j :: 0 <= i < j < |q| ==> Tid(nodes, q[i]) > Tid(nodes, q[j])
  }

  /** Each list holds nodes that exist, once, and not main's; no node is on both; the thread list is
      strictly decreasing in tn_tid.  Node n is element (n - 1) % 150 of array (n - 1) / 150, and the
      last array is used up to arrayPos. */
  predicate ListsOk(reg: Registry) {
    && |reg.nodes| > 0
    && 0 <= reg.arrayPos <= ARRAY_SIZE && 0 <= |reg.nodes| - 1 - reg.arrayPos
    && (|reg.nodes| - 1 - reg.arrayPos) % ARRAY_SIZE == 0
    && NoDup(reg.threadList) && NoDup(reg.freeList)
    && (forall x :: x in reg.threadList ==> 0 < x < |reg.nodes| && x !in reg.freeList)
    && (forall x :: x in reg.freeList ==> 0 < x < |reg.nodes|)
    && Sorted(reg.nodes, reg.threadList)
    && (forall x :: x in reg.threadList ==> Tid(reg.nodes, x) <= reg.threadNum)
  }

  /** Lives are not reused. */
  predicate LivesOk(reg: Registry) {
    && (forall i, j :: 0 <= i < j < |reg.nodes| ==> reg.nodes[i].life != reg.nodes[j].life)
    && (forall i :: 0 <= i < |reg.nodes| ==> reg.nodes[i].life < reg.nextLife)
  }

  /** The thread-specific data are nodes, and only nodes of the thread list are application-started. */
  predicate NodesOk(reg: Registry, g: Gate) {
    && LivesOk(reg)
    && (forall t :: t in reg.tsd ==> 0 <= reg.tsd[t] < |reg.nodes|)
    && (forall i :: 0 <= i < |reg.nodes| && reg.nodes[i].applStarted ==>
          i in reg.threadList || (g.unlinking.Some? && g.unlinking.value.0 == i))
  }

  predicate HoldLocal(reg: Registry, f: int, at: At, n: int, t: int) {
    && (Holding(at) ==> 0 < n < |reg.nodes| && n in reg.holder && reg.holder[n] == f)
    && (InFlight(at) ==> n !in reg.threadList && n !in reg.freeList)
    && (Holding(at) && !InFlight(at) ==> n in reg.threadList)
    && (HasSelf(at) ==> NodeAt(reg, n).self == Some(t))
    && (PastTest(at) ==> n in reg.threadList && NodeAt(reg, n).applStarted)
    && (InSignal(at) ==> 0 <= n < |reg.nodes|)
    && (at.OwnSet? || at.OwnIn? ==> n in reg.threadList && NodeAt(reg, n).self == Some(t))
  }

  /** What a frame must know before it changes the registry. */
  predicate RegGuard(reg: Registry, f: int, e: Effect) {
    match e
    case Wipe(n, _) => Owns(reg, f, n) && n !in reg.threadList && n !in reg.freeList
    case SetSelf(n, _) => Owns(reg, f, n) && n !in reg.threadList
    case Insert(n) => Owns(reg, f, n) && n !in reg.threadList && n !in reg.freeList
    case Put(n) => Owns(reg, f, n) && n !in reg.threadList && n !in reg.freeList
    case SetAppl(n) => Owns(reg, f, n) && n in reg.threadList
    case Remove(n) => Owns(reg, f, n) && n in reg.threadList
    case Spawn(n) => Owns(reg, f, n) && n !in reg.threadList && n !in reg.freeList
    case Begin(n, life) => n in reg.threadList && life == NodeAt(reg, n).life
    case End(n, life) => n in reg.threadList && life == NodeAt(reg, n).life
    case Mark(n) => n in reg.threadList
    case _ => true
  }

  predicate Owns(reg: Registry, f: int, n: int) {
    0 < n < |reg.nodes| && n in reg.holder && reg.holder[n] == f
  }

  lemma {:induction false} DeleteIs(q: seq<int>, n: int)
    requires NoDup(q)
    ensures NoDup(Delete(q, n))
    ensures forall x :: x in Delete(q, n) <==> x in q && x != n
  {
    if q != [] {
      var r := q[1..];
      assert q == [q[0]] + r;
      assert forall i :: 0 <= i < |r| ==> r[i] == q[i + 1];
      assert q[0] !in r;
      DeleteIs(r, n);
    }
  }

  lemma {:induction false} DeleteSorted(nodes: seq<Node>, q: seq<int>, n: int)
    requires NoDup(q) && Sorted(nodes, q)
    ensures Sorted(nodes, Delete(q, n))
  {
    if q != [] {
      var r := q[1..];
      assert q == [q[0]] + r;
      assert forall i :: 0 <= i < |r| ==> r[i] == q[i + 1];
      DeleteSorted(nodes, r, n);
      DeleteIs(r, n);
      SortedHead(nodes, q[0], Delete(r, n), r);
    }
  }

  lemma SortedHead(nodes: seq<Node>, x: int, d: seq<int>, r: seq<int>)
    requires forall y :: y in d ==> y in r
    requires Sorted(nodes, [x] + r) && Sorted(nodes, d)
    ensures Sorted(nodes, [x] + d)
  {
    var xr, xd := [x] + r, [x] + d;
    forall y | y in r ensures Tid(nodes, x) > Tid(nodes, y) {
      var k :| 0 <= k < |r| && r[k] == y;
      assert xr[0] == x && xr[k + 1] == y;
    }
    forall i, j | 0 <= i < j < |xd| ensures Tid(nodes, xd[i]) > Tid(nodes, xd[j]) {
      assert xd[j] == d[j - 1];
      if i > 0 { assert xd[i] == d[i - 1]; }
    }
  }

  lemma SortedSame(nodes: seq<Node>, nodes': seq<Node>, q: seq<int>)
    requires forall x :: x in q ==> Tid(nodes', x) == Tid(nodes, x)
    requires Sorted(nodes, q)
    ensures Sorted(nodes', q)
  {
    assert forall i :: 0 <= i < |q| ==> q[i] in q;
  }

  lemma ListsEffect(reg: Registry, f: int, e: Effect, id: int)
    requires ListsOk(reg) && RegGuard(reg, f, e)
    ensures ListsOk(ApplyReg(reg, f, e, id))
  {
    var q := reg.threadList;
    match e
    case Remove(n) =>
      DeleteIs(q, n);
      DeleteSorted(reg.nodes, q, n);
    case Take => ListsTake(reg, f, id);
    case Insert(n) => ListsInsert(reg, n);
    case Put(n) => InsertOnce(n, reg.freeList);
    case _ =>
      var nodes' := ApplyReg(reg, f, e, id).nodes;
      SortedSame(reg.nodes, nodes', q);
  }

  lemma ListsTake(reg: Registry, f: int, id: int)
    requires ListsOk(reg)
    ensures ListsOk(ApplyReg(reg, f, Take, id))
  {
    if reg.freeList != [] {
      assert forall x :: x in reg.freeList[1..] ==> x in reg.freeList;
      assert forall i :: 0 <= i < |reg.freeList[1..]| ==> reg.freeList[1..][i] == reg.freeList[i + 1];
    } else {
      SortedSame(reg.nodes, ApplyReg(reg, f, Take, id).nodes, reg.threadList);
    }
  }

  lemma ListsInsert(reg: Registry, n: int)
    requires ListsOk(reg) && 0 < n < |reg.nodes| && n !in reg.threadList && n !in reg.freeList
    ensures ListsOk(ApplyReg(reg, 0, Insert(n), 0))
  {
    var nodes' := ApplyReg(reg, 0, Insert(n), 0).nodes;
    SortedSame(reg.nodes, nodes', reg.threadList);
    InsertSorted(nodes', n, reg.threadList);
    InsertOnce(n, reg.threadList);
  }

  lemma InsertSorted(nodes: seq<Node>, n: int, q: seq<int>)
    requires Sorted(nodes, q) && forall x :: x in q ==> Tid(nodes, x) < Tid(nodes, n)
    ensures Sorted(nodes, [n] + q)
  {
    assert forall i :: 0 <= i < |q| ==> q[i] in q;
    assert forall j :: 1 <= j < |[n] + q| ==> ([n] + q)[j] == q[j - 1];
  }

  lemma InsertOnce(n: int, q: seq<int>)
    requires NoDup(q) && n !in q
    ensures NoDup([n] + q)
  {
    assert forall j :: 1 <= j < |[n] + q| ==> ([n] + q)[j] == q[j - 1];
  }

  lemma NodesEffect(reg: Registry, g: Gate, f: int, e: Effect)
    requires ListsOk(reg) && NodesOk(reg, g) && RegGuard(reg, f, e)
    requires e.Remove? ==> g.unlinking.None?
    requires e.Wipe? ==> g.unlinking.None? || g.unlinking.value.0 == e.n
    ensures NodesOk(ApplyReg(reg, f, e, g.nextFrame), ApplyGate(g, f, e))
  {
    LivesEffect(reg, f, e, g.nextFrame);
    if e.Remove? {
      DeleteIs(reg.threadList, e.n);
    } else if e.Take? {
      NodesTake(reg, g, f);
    }
  }

  lemma LivesEffect(reg: Registry, f: int, e: Effect, id: int)
    requires LivesOk(reg)
    ensures LivesOk(ApplyReg(reg, f, e, id))
  {
  }

  lemma NodesTake(reg: Registry, g: Gate, f: int)
    requires ListsOk(reg) && NodesOk(reg, g)
    ensures NodesOk(ApplyReg(reg, f, Take, g.nextFrame), g)
  {
  }

  /** What an effect of another frame leaves of node n, for a frame h. */
  predicate Undisturbed(reg: Registry, reg': Registry, h: int, n: int, holding: bool, removing: bool) {
    && |reg.nodes| <= |reg'.nodes|
    && (holding && Owns(reg, h, n) ==>
          && Owns(reg', h, n)
          && (n in reg'.threadList <==> n in reg.threadList)
          && (n in reg'.freeList <==> n in reg.freeList)
          && NodeAt(reg', n).self == NodeAt(reg, n).self)
    && (n in reg.threadList && ((holding && Owns(reg, h, n)) || !removing) ==>
          && n in reg'.threadList
          && NodeAt(reg', n).self == NodeAt(reg, n).self
          && (NodeAt(reg, n).applStarted ==> NodeAt(reg', n).applStarted))
  }

  lemma RegUndisturbed(reg: Registry, f: int, e: Effect, id: int, h: int, n: int, holding: bool)
    requires ListsOk(reg) && RegGuard(reg, f, e) && h != f && h != id
    requires holding ==> n !in reg.freeList
    ensures Undisturbed(reg, ApplyReg(reg, f, e, id), h, n, holding, e.Remove?)
  {
    match e
    case Remove(m) => DeleteIs(reg.threadList, m);
    case Take =>
      if reg.freeList != [] {
        assert reg.freeList == [reg.freeList[0]] + reg.freeList[1..];
      }
    case _ =>
  }

  lemma HoldUndisturbed(reg: Registry, reg': Registry, h: int, at: At, n: int, t: int, removing: bool)
    requires HoldLocal(reg, h, at, n, t) && Undisturbed(reg, reg', h, n, Holding(at), removing)
    requires removing ==> !AfterFreeze(at)
    ensures HoldLocal(reg', h, at, n, t)
  {
  }

  predicate MineOk(reg: Registry, fr: Frame) {
    fr.pass.mine.Some? ==>
      fr.pass.mine.value in reg.threadList && NodeAt(reg, fr.pass.mine.value).self == Some(fr.thread)
  }

  predicate HoldFrame(reg: Registry, f: int, fr: Frame) { HoldLocal(reg, f, fr.at, fr.n, fr.thread) }

  predicate HoldKept(sh: Shared, f: int, m: Move) {
    && RegGuard(sh.reg, f, m.e)
    && (m.Go? ==> HoldFrame(ApplyReg(sh.reg, f, m.e, sh.gate.nextFrame), f, m.to))
  }

  predicate HoldPre(sh: Shared, f: int, fr: Frame) {
    && GateOk(sh.gate) && ListsOk(sh.reg) && NodesOk(sh.reg, sh.gate)
    && LockLocal(sh.gate, f, fr.at, fr.n) && HoldFrame(sh.reg, f, fr)
  }

  lemma HoldMake(sh: Shared, f: int, fr: Frame, c: bool)
    requires HoldPre(sh, f, fr) && InMake(fr.at)
    ensures HoldKept(sh, f, MakeMove(sh, fr, c))
  {
    var q := sh.reg.freeList;
    assert q != [] ==> q[0] in q && forall x :: x in q[1..] ==> x in q && x != q[0];
  }

  /** Before the node is linked. */
  predicate Unlinked(at: At) {
    match at
    case BeginWait | BeginSleep | BeginSelf | LinkLock | LinkTest | LinkRefuse | Refused => true
    case _ => false
  }

  lemma HoldUnlinked(sh: Shared, f: int, fr: Frame, c: bool)
    requires HoldPre(sh, f, fr) && Unlinked(fr.at)
    ensures HoldKept(sh, f, BeginMove(sh, fr, c))
  {
  }

  lemma HoldLinked(sh: Shared, f: int, fr: Frame, c: bool)
    requires HoldPre(sh, f, fr) && InBegin(fr.at) && !Unlinked(fr.at)
    ensures HoldKept(sh, f, BeginMove(sh, fr, c))
  {
  }

  lemma HoldBegin(sh: Shared, f: int, fr: Frame, c: bool)
    requires HoldPre(sh, f, fr) && InBegin(fr.at)
    ensures HoldKept(sh, f, BeginMove(sh, fr, c))
  {
    if Unlinked(fr.at) { HoldUnlinked(sh, f, fr, c); } else { HoldLinked(sh, f, fr, c); }
  }

  lemma HoldClean(sh: Shared, f: int, fr: Frame)
    requires HoldPre(sh, f, fr) && InClean(fr.at)
    ensures HoldKept(sh, f, CleanMove(sh, fr))
  {
  }

  lemma HoldRemove(sh: Shared, f: int, fr: Frame)
    requires HoldPre(sh, f, fr) && (fr.at.UnRemove? || fr.at.UnClear? || fr.at.UnPut?)
    ensures HoldKept(sh, f, UnlinkMove(sh, fr))
  {
    if fr.at.UnRemove? { DeleteIs(sh.reg.threadList, fr.n); }
  }

  lemma HoldUnlink(sh: Shared, f: int, fr: Frame)
    requires HoldPre(sh, f, fr) && InUnlink(fr.at)
    ensures HoldKept(sh, f, UnlinkMove(sh, fr))
  {
    if fr.at.UnRemove? || fr.at.UnClear? || fr.at.UnPut? { HoldRemove(sh, f, fr); }
  }

  lemma HoldSignal(sh: Shared, f: int, fr: Frame)
    requires HoldPre(sh, f, fr) && InSignal(fr.at)
    ensures HoldKept(sh, f, SignalMove(sh, fr))
  {
  }

  lemma HoldMark(sh: Shared, f: int, fr: Frame)
    requires HoldPre(sh, f, fr) && fr.at.ExitMark?
    ensures HoldKept(sh, f, ShootMove(sh, fr))
  {
  }

  lemma HoldFreeze(sh: Shared, f: int, fr: Frame)
    requires HoldPre(sh, f, fr) && InShoot(fr.at) && !fr.at.ExitMark?
    ensures HoldKept(sh, f, ShootMove(sh, fr))
  {
  }

  lemma HoldShoot(sh: Shared, f: int, fr: Frame)
    requires HoldPre(sh, f, fr) && InShoot(fr.at)
    ensures HoldKept(sh, f, ShootMove(sh, fr))
  {
    if fr.at.ExitMark? { HoldMark(sh, f, fr); } else { HoldFreeze(sh, f, fr); }
  }

  lemma HoldScan(sh: Shared, f: int, fr: Frame, c: bool)
    requires HoldPre(sh, f, fr) && InScan(fr.at)
    ensures HoldKept(sh, f, ScanMove(sh, fr, c))
  {
  }

  lemma HoldOwn(sh: Shared, f: int, fr: Frame)
    requires HoldPre(sh, f, fr) && InOwn(fr.at) && (fr.at.OwnTest? ==> MineOk(sh.reg, fr))
    ensures HoldKept(sh, f, OwnMove(sh, fr))
  {
  }

  lemma HoldFini(sh: Shared, f: int, fr: Frame)
    requires HoldPre(sh, f, fr) && InFini(fr.at)
    ensures HoldKept(sh, f, FiniMove(fr))
  {
  }

  lemma HoldExit(sh: Shared, f: int, fr: Frame)
    requires HoldPre(sh, f, fr)
    ensures HoldKept(sh, f, ExitMove(sh, fr))
  {
  }

  lemma HoldMove(sh: Shared, f: int, fr: Frame, c: bool)
    requires HoldPre(sh, f, fr) && (fr.at.OwnTest? ==> MineOk(sh.reg, fr))
    ensures HoldKept(sh, f, MoveOf(sh, fr, c))
  {
    if InMake(fr.at) { HoldMake(sh, f, fr, c); }
    else if InBegin(fr.at) { HoldBegin(sh, f, fr, c); }
    else if InClean(fr.at) { HoldClean(sh, f, fr); }
    else if InUnlink(fr.at) { HoldUnlink(sh, f, fr); }
    else if InSignal(fr.at) { HoldSignal(sh, f, fr); }
    else if InShoot(fr.at) { HoldShoot(sh, f, fr); }
    else if InScan(fr.at) { HoldScan(sh, f, fr, c); }
    else if InOwn(fr.at) { HoldOwn(sh, f, fr); }
    else if InFini(fr.at) { HoldFini(sh, f, fr); }
    else { HoldExit(sh, f, fr); }
  }
}
