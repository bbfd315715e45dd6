/** What monitor_block_shootdown does: while a thread has blocked shootdown, no handler, cleanup routine or sigwait
    helper begins its callback. */
module ExitBlock {
  import opened Options
  import opened ExitMachine
  import opened ExitRegistry
  import opened ExitInvariant
  import opened ExitCallbacks
  import opened ExitOnce

  /** Past the test of the node, other than the winner's own call. */
  predicate PastNodeTest(at: At) {
    match at
    case CleanDone | CleanSet | HandDone | SigSet => true
    case _ => false
  }

  ghost predicate NonePast(s: State, n: int) {
    forall f :: f in s.frames && s.frames[f].n == n ==> !PastNodeTest(s.frames[f].at)
  }

  /** A frame gets past the test only from before it, when its node is not blocked. */
  lemma PastMove(sh: Shared, fr: Frame, c: bool)
    requires MoveOf(sh, fr, c).Go? && PastNodeTest(MoveOf(sh, fr, c).to.at)
    ensures MoveOf(sh, fr, c).to.n == fr.n && (PastNodeTest(fr.at) || !NodeAt(sh.reg, fr.n).block)
  {
  }

  lemma NonePastStep(s: State, a: Action, n: int)
    requires Enabled(s, a) && NonePast(s, n) && NodeAt(s.sh.reg, n).block
    ensures NonePast(Do(s, a), n)
  {
    var s' := Do(s, a);
    DeedDone(s, a);
    forall f | f in s'.frames && s'.frames[f].n == n ensures !PastNodeTest(s'.frames[f].at) {
      match a
      case Step(g, c) =>
        var m := MoveOf(s.sh, s.frames[g], c);
        if m.Go? && PastNodeTest(m.to.at) { PastMove(s.sh, s.frames[g], c); }
      case Push(g, call) => CalleeIsNew(s.sh, s.frames[g].thread, g, call);
      case Block(t, on) =>
      case Support =>
    }
  }

  /** A node keeps its life as long as it is blocked: clearing it unblocks it. */
  lemma LifeStays(s: State, a: Action, n: int)
    requires Inv(s) && Enabled(s, a) && NodeAt(s.sh.reg, n).block && NodeAt(Do(s, a).sh.reg, n).block
    ensures NodeAt(Do(s, a).sh.reg, n).life == NodeAt(s.sh.reg, n).life
  {
    var d := DeedOf(s, a);
    BlockEffect(s.sh.reg, d.actor, d.e, s.sh.gate.nextFrame, n);
  }

  lemma BlockEffect(reg: Registry, f: int, e: Effect, id: int, n: int)
    requires NodeAt(reg, n).block && NodeAt(ApplyReg(reg, f, e, id), n).block
    ensures NodeAt(ApplyReg(reg, f, e, id), n).life == NodeAt(reg, n).life
  {
  }

  /** The callback of a life begins only by a store of a frame that has the node of this life. */
  lemma BeginsByStore(s: State, a: Action, n: int)
    requires Inv(s) && Enabled(s, a) && 0 <= n < |s.sh.reg.nodes|
    requires FiniThreadBegin(s.sh.reg.nodes[n].life) in Do(s, a).sh.log.trace
    requires FiniThreadBegin(s.sh.reg.nodes[n].life) !in s.sh.log.trace
    ensures a.Step? && s.frames[a.f].n == n && (PastNodeTest(s.frames[a.f].at) || s.frames[a.f].at.OwnSet?)
  {
    MovedKept(s, a);
    var e := DeedOf(s, a).e;
    if a.Step? { BeginsAt(s.sh, s.frames[a.f], a.c); }
    assert e.Begin? && e.life == s.sh.reg.nodes[n].life;
  }

  /** What a step does while node n is blocked and no frame is past its test for it. */
  ghost predicate BlockedPair(s: State, s': State, n: int) {
    NodeAt(s.sh.reg, n).block && NodeAt(s'.sh.reg, n).block && NonePast(s, n) ==>
      && NonePast(s', n) && NodeAt(s'.sh.reg, n).life == NodeAt(s.sh.reg, n).life
      && (FiniThreadBegin(NodeAt(s.sh.reg, n).life) in s'.sh.log.trace ==>
            FiniThreadBegin(NodeAt(s.sh.reg, n).life) in s.sh.log.trace || AtOwnStore(s, n))
  }

  /** The winner is about to begin the callback of its own node n. */
  ghost predicate AtOwnStore(s: State, n: int) {
    exists f :: Top(s, f) && s.frames[f].at.OwnSet? && s.frames[f].n == n
  }

  lemma BlockedStep(s: State, a: Action, n: int)
    requires Inv(s) && Enabled(s, a)
    ensures BlockedPair(s, Do(s, a), n)
  {
    var s' := Do(s, a);
    if NodeAt(s.sh.reg, n).block && NodeAt(s'.sh.reg, n).block && NonePast(s, n) {
      NonePastStep(s, a, n);
      LifeStays(s, a, n);
      var begin := FiniThreadBegin(NodeAt(s.sh.reg, n).life);
      if begin in s'.sh.log.trace && begin !in s.sh.log.trace { BeginsByStore(s, a, n); }
    }
  }

  lemma BlockedAt(run: seq<State>, k: int, n: int)
    requires IsRun(run) && 0 < k < |run|
    ensures BlockedPair(run[k - 1], run[k], n)
  {
    InvRun(run, k - 1);
    var a := ActionAt(run, k);
    BlockedStep(run[k - 1], a, n);
  }

  lemma {:induction false} BlockedChain(run: seq<State>, j: int, i: int, n: int)
    requires 0 <= j <= i < |run| && NonePast(run[j], n)
    requires forall k :: j <= k <= i ==> NodeAt(run[k].sh.reg, n).block
    requires forall k :: 0 < k < |run| ==> BlockedPair(run[k - 1], run[k], n)
    ensures NonePast(run[i], n) && NodeAt(run[i].sh.reg, n).life == NodeAt(run[j].sh.reg, n).life
    ensures FiniThreadBegin(NodeAt(run[j].sh.reg, n).life) in run[i].sh.log.trace ==>
      || FiniThreadBegin(NodeAt(run[j].sh.reg, n).life) in run[j].sh.log.trace
      || exists k :: j <= k < i && AtOwnStore(run[k], n)
    decreases i
  {
    if j < i {
      BlockedChain(run, j, i - 1, n);
      assert BlockedPair(run[i - 1], run[i], n);
    }
  }

  /** While a node's shootdown is blocked, and no call was past its test for it at the start, its callback does not
      begin, unless the winner of process exit calls it for its own node. */
  lemma BlockedNeverBegins(run: seq<State>, j: int, i: int, n: int)
    requires IsRun(run) && 0 <= j <= i < |run|
    requires forall k :: j <= k <= i ==> NodeAt(run[k].sh.reg, n).block
    requires forall f :: f in run[j].frames && run[j].frames[f].n == n ==>
      var at := run[j].frames[f].at; !at.CleanDone? && !at.CleanSet? && !at.HandDone? && !at.SigSet?
    ensures var begin := FiniThreadBegin(NodeAt(run[j].sh.reg, n).life);
      begin in run[i].sh.log.trace ==>
        || begin in run[j].sh.log.trace
        || exists k :: j <= k < i && AtOwnStore(run[k], n)
  {
    forall k | 0 < k < |run| ensures BlockedPair(run[k - 1], run[k], n) { BlockedAt(run, k, n); }
    assert NonePast(run[j], n);
    BlockedChain(run, j, i, n);
  }

  // ----- what sets the flag -------------------------------------------------------------------

  /** The action is monitor_block_shootdown, or monitor_unblock_shootdown, by a thread with node n. */
  predicate Sets(s: State, a: Action, n: int, on: bool)
    requires Enabled(s, a)
  {
    a.Block? && a.on == on && s.sh.reg.tsd[a.t] == n
  }

  /** The flag of a node is set and reset by these two routines only, and reset when the node is cleared, which gives
      it a new life. */
  lemma BlockExactly(run: seq<State>, i: int, a: Action, n: int)
    requires IsRun(run) && 0 <= i < |run| && Enabled(run[i], a) && 0 <= n < |run[i].sh.reg.nodes|
    ensures var v, v' := NodeAt(run[i].sh.reg, n), NodeAt(Do(run[i], a).sh.reg, n);
      v'.block <==> Sets(run[i], a, n, true) || (v.block && !Sets(run[i], a, n, false) && v'.life == v.life)
  {
    InvRun(run, i);
    BlockFlag(run[i].sh.reg, DeedOf(run[i], a).actor, DeedOf(run[i], a).e, run[i].sh.gate.nextFrame, n);
    if a.Step? { NoBlock(run[i].sh, run[i].frames[a.f], a.c); }
  }

  lemma NoBlock(sh: Shared, fr: Frame, c: bool)
    ensures !MoveOf(sh, fr, c).e.SetBlock?
  {
  }

  lemma BlockFlag(reg: Registry, f: int, e: Effect, id: int, n: int)
    requires LivesOk(reg) && 0 <= n < |reg.nodes|
    ensures var v, v' := NodeAt(reg, n), NodeAt(ApplyReg(reg, f, e, id), n);
      && (e.SetBlock? && e.n == n ==> v'.block == e.on && v'.life == v.life)
      && (!(e.SetBlock? && e.n == n) ==> (v'.block <==> v.block && v'.life == v.life))
  {
  }
}
