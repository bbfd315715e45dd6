/** libmonitor's thread registry and process-exit protocol (monitor/src/pthread.c and
    monitor/src/main.c) as an interleaved step machine.

    A thread is a stack of frames, one per call of a monitor routine; only the top frame of a
    thread moves, and threads interleave arbitrarily.  Each move makes one access to the shared
    state (a condition over several flags of one node counts as one), so the test and the store
    of tn_fini_started are separate moves.  Signals, calls of exit() and calls of
    pthread_create() may arrive on top of any frame. */
module ExitMachine {

  import opened NodeLists
  import opened Options

  const MAIN_NODE: int := 0     // monitor_main_tn, which is never on a list

  /** The callbacks and resumptions of interest.  A life is one use of a thread node, from one
      memset of it to the next. */
  datatype Event =
    | FiniThreadBegin(life: int) | FiniThreadEnd(life: int)
    | FiniProcessBegin | FiniProcessEnd
    | ExitWon(thread: int) | RepeatWinner(thread: int) | LoserResumed(thread: int)
    | NodeLost(n: int)  // a node that nobody refers to any more

  /** struct monitor_thread_node. */
  datatype Node = Node(tid: int, self: Option<int>, applStarted: bool, finiStarted: bool,
                       finiDone: bool, exitWin: bool, block: bool, life: int)

  const ZERO_NODE := Node(0, None, false, false, false, false, false, 0)

  /** The program points, named after what the next move does. */
  datatype At =
    | App | Tail
      // monitor_make_thread_node, called by pthread_create
    | MakeLock | MakeTake | MakeClear | MakeUnlock | MakePre | MakeDone
      // monitor_begin_thread and monitor_link_thread_node
    | BeginWait | BeginSleep | BeginSelf | LinkLock | LinkTest | LinkRefuse | Refused | LinkInsert | LinkUnlock
    | InInit | ApplSet | Running
      // monitor_pthread_cleanup_routine and monitor_unlink_thread_node
    | CleanTest | CleanDone | CleanSet | CleanIn
    | UnLock | UnTest | UnMark | UnRemove | UnClear | UnPut | UnUnlock
      // monitor_sigwait_helper and monitor_shootdown_handler
    | WaitExit | WaitDone | WaitTest | HandTest | HandDone | SigSet | SigIn
      // monitor_end_process_fcn and monitor_thread_shootdown
    | ExitCas | ExitLost | ExitRepeat | ExitWait | ExitResume
    | ExitMark | ExitUsed | ShootLock | ShootSet | ShootUnlock | ShootInstall
    | ScanHead | ScanAppl | ScanStarted | ScanDone
    | ShootDone | OwnTest | OwnSet | OwnIn | ExitFini | InProcess | ExitSetDone
      // monitor_broadcast_signal
    | CastTry | CastHold

  /** The variables of the shootdown loop: the index of the walk, my_tn, the nodes this walk found
      not application-started, the two counts, and how the loop ended. */
  datatype Pass = Pass(k: int, mine: Option<int>, skipped: seq<int>, unstarted: int, unfinished: int,
                       walked: bool, timedOut: bool)

  const FIRST_PASS := Pass(0, None, [], 0, 0, false, false)

  /** One call of a monitor routine: `n` and `tn` are its node pointers. */
  datatype Frame = Frame(thread: int, parent: Option<int>, at: At, n: int, tn: Option<int>, pass: Pass)

  /** The thread lock and the flags it orders.  `owner` is the frame in the critical section and
      `unlinking` a node that is off the thread list and not yet cleared, with its frame. */
  datatype Gate = Gate(lockWord: int, inExit: bool, handlerOn: bool,
                       owner: Option<int>, unlinking: Option<(int, int)>, nextFrame: int)

  /** The nodes and lists.  `holder` is the frame that last took charge of a node, `tsd` the
      thread-specific data of the threads. */
  datatype Registry = Registry(nodes: seq<Node>, threadList: seq<int>, freeList: seq<int>, arrayPos: int,
                               threadNum: int, tsd: map<int, int>, nextLife: int, holder: map<int, int>)

  /** The flags of thread support and process exit.  `winner` is the frame whose CAS won. */
  datatype Race = Race(cookie: int, used: bool, supportDone: bool, finiThreadDone: bool, finiProcessDone: bool,
                       winner: Option<int>)

  /** The callbacks so far, and the frame that called monitor_fini_thread for each life. */
  datatype Log = Log(trace: seq<Event>, caller: map<int, int>)

  /** The shared state.  No move reads owner, unlinking, nextFrame, nextLife, holder, winner or log:
      they record history. */
  datatype Shared = Shared(gate: Gate, reg: Registry, race: Race, log: Log)

  datatype State = State(frames: map<int, Frame>, tops: map<int, Option<int>>, nextThread: int, sh: Shared)

  /** Before the first pthread_create: the main thread runs application code. */
  const INITIAL := State(
    map[0 := Frame(0, None, App, 0, None, FIRST_PASS)], map[0 := Some(0)], 1,
    Shared(Gate(0, false, false, None, None, 1),
           Registry([ZERO_NODE], [], [], 0, 0, map[0 := MAIN_NODE], 1, map[]),
           Race(0, false, false, false, false, None),
           Log([], map[])))

  // ----- effects on the shared state ----------------------------------------------------------

  datatype Effect =
    | Read
    | Lock | Unlock
    | Take | Wipe(n: int, tid: int) | Spawn(n: int)
    | SetSelf(n: int, t: int) | Insert(n: int) | SetAppl(n: int)
    | Begin(n: int, life: int) | End(n: int, life: int)
    | Mark(n: int) | Remove(n: int) | Put(n: int)
    | Win(t: int) | SetWin(n: int) | SetInExit | SetHandler | SetSupportDone | SetThreadDone | SetProcessDone
    | Emit(e: Event)
    | Enter(creates: bool) | SetBlock(n: int, on: bool)

  function NodeAt(reg: Registry, n: int): Node {
    if 0 <= n < |reg.nodes| then reg.nodes[n] else ZERO_NODE
  }

  function SetNode(reg: Registry, n: int, v: Node): Registry {
    if 0 <= n < |reg.nodes| then reg.(nodes := reg.nodes[n := v]) else reg
  }

  /** The node that monitor_make_thread_node picks: the head of the free list, else the next
      element of the array, else the first element of a new array.  Nodes are numbered in the
      order in which the arrays hand them out. */
  function Taken(reg: Registry): int {
    if reg.freeList != [] then reg.freeList[0] else |reg.nodes|
  }

  /** What frame `f` writes. */
  function Apply(sh: Shared, f: int, e: Effect): Shared {
    Shared(ApplyGate(sh.gate, f, e), ApplyReg(sh.reg, f, e, sh.gate.nextFrame), ApplyRace(sh.race, f, e),
           ApplyLog(sh.log, f, e))
  }

  function ApplyGate(g: Gate, f: int, e: Effect): Gate {
    match e
    case Lock => g.(lockWord := 1, owner := Some(f))
    case Unlock => g.(lockWord := 0, owner := None)
    case Remove(n) => g.(unlinking := Some((n, f)))
    case Wipe(_, _) => g.(unlinking := None)
    case SetInExit => g.(inExit := true)
    case SetHandler => g.(handlerOn := true)
    case Spawn(_) => g.(nextFrame := g.nextFrame + 1)
    case Enter(_) => g.(nextFrame := g.nextFrame + 1)
    case _ => g
  }

  function ApplyReg(reg: Registry, f: int, e: Effect, nextFrame: int): Registry {
    match e
    case Take =>
      if reg.freeList != [] then
        reg.(freeList := reg.freeList[1..], holder := reg.holder[reg.freeList[0] := f])
      else
        reg.(nodes := reg.nodes + [ZERO_NODE.(life := reg.nextLife)], nextLife := reg.nextLife + 1,
             arrayPos := if reg.arrayPos < ARRAY_SIZE then reg.arrayPos + 1 else 1,
             holder := reg.holder[|reg.nodes| := f])
    case Wipe(n, tid) =>
      SetNode(reg, n, ZERO_NODE.(tid := tid, life := reg.nextLife)).(nextLife := reg.nextLife + 1)
    case Spawn(n) => reg.(holder := reg.holder[n := nextFrame])
    case SetSelf(n, t) => SetNode(reg, n, NodeAt(reg, n).(self := Some(t))).(tsd := reg.tsd[t := n])
    case Insert(n) =>
      SetNode(reg, n, NodeAt(reg, n).(tid := reg.threadNum + 1))
        .(threadNum := reg.threadNum + 1, threadList := [n] + reg.threadList)
    case SetAppl(n) => SetNode(reg, n, NodeAt(reg, n).(applStarted := true))
    case Begin(n, _) => SetNode(reg, n, NodeAt(reg, n).(finiStarted := true))
    case End(n, _) => SetNode(reg, n, NodeAt(reg, n).(finiDone := true))
    case Mark(n) => SetNode(reg, n, NodeAt(reg, n).(finiStarted := true, finiDone := true))
    case Remove(n) => reg.(threadList := Delete(reg.threadList, n))
    case Put(n) => reg.(freeList := [n] + reg.freeList)
    case SetWin(n) => SetNode(reg, n, NodeAt(reg, n).(exitWin := true))
    case SetBlock(n, on) => SetNode(reg, n, NodeAt(reg, n).(block := on))
    case _ => reg
  }

  function ApplyRace(r: Race, f: int, e: Effect): Race {
    match e
    case Win(_) => r.(cookie := 1, winner := Some(f))
    case SetSupportDone => r.(supportDone := true)
    case SetThreadDone => r.(finiThreadDone := true)
    case SetProcessDone => r.(finiProcessDone := true)
    case Enter(creates) => r.(used := r.used || creates)  // set by the first pthread_create
    case _ => r
  }

  function ApplyLog(l: Log, f: int, e: Effect): Log {
    match e
    case Begin(_, life) => Log(l.trace + [FiniThreadBegin(life)], l.caller[life := f])
    case End(_, life) => l.(trace := l.trace + [FiniThreadEnd(life)])
    case Win(t) => l.(trace := l.trace + [ExitWon(t)])
    case Emit(ev) => l.(trace := l.trace + [ev])
    case _ => l
  }

  // ----- control ------------------------------------------------------------------------------

  /** What a move writes and where the frame goes, or that it returns. */
  datatype Move = Go(e: Effect, to: Frame) | Ret(e: Effect)

  /** The condition of pthread.c:459, 869 and 1183-1185. */
  predicate MayStart(v: Node) { v.applStarted && !v.finiStarted && !v.block }

  /** The lock loops and the loser's loop wait. */
  predicate Ready(sh: Shared, fr: Frame) {
    && !fr.at.App?
    && (fr.at.MakeLock? || fr.at.LinkLock? || fr.at.UnLock? || fr.at.ShootLock? ==> sh.gate.lockWord == 0)
    && (fr.at.ExitWait? ==> sh.race.finiProcessDone)
  }

  /** The next move of a frame.  The flag c settles what the code leaves open: whether the real
      pthread_create succeeds, whether the thread is cancelled in monitor_thread_pre_create, in the
      usleep of the wait for thread support or in its init callback, whether the shootdown timeout has passed. */
  function MoveOf(sh: Shared, fr: Frame, c: bool): Move {
    if InMake(fr.at) then MakeMove(sh, fr, c)
    else if InBegin(fr.at) then BeginMove(sh, fr, c)
    else if InClean(fr.at) then CleanMove(sh, fr)
    else if InUnlink(fr.at) then UnlinkMove(sh, fr)
    else if InSignal(fr.at) then SignalMove(sh, fr)
    else if InShoot(fr.at) then ShootMove(sh, fr)
    else if InScan(fr.at) then ScanMove(sh, fr, c)
    else if InOwn(fr.at) then OwnMove(sh, fr)
    else if InFini(fr.at) then FiniMove(fr)
    else ExitMove(sh, fr)
  }

  predicate InMake(at: At) {
    match at
    case Tail | MakeLock | MakeTake | MakeClear | MakeUnlock | MakePre | MakeDone => true
    case _ => false
  }

  predicate InBegin(at: At) {
    match at
    case BeginWait | BeginSleep | BeginSelf | LinkLock | LinkTest | LinkRefuse | Refused | LinkInsert | LinkUnlock
          | InInit | ApplSet | Running => true
    case _ => false
  }

  predicate InClean(at: At) {
    match at
    case CleanTest | CleanDone | CleanSet | CleanIn => true
    case _ => false
  }

  predicate InUnlink(at: At) {
    match at
    case UnLock | UnTest | UnMark | UnRemove | UnClear | UnPut | UnUnlock => true
    case _ => false
  }

  predicate InSignal(at: At) {
    match at
    case WaitExit | WaitDone | WaitTest | HandTest | HandDone | SigSet | SigIn => true
    case _ => false
  }

  predicate InShoot(at: At) {
    match at
    case ExitMark | ExitUsed | ShootLock | ShootSet | ShootUnlock | ShootInstall => true
    case _ => false
  }

  predicate InScan(at: At) {
    match at
    case ScanHead | ScanAppl | ScanStarted | ScanDone => true
    case _ => false
  }

  predicate InOwn(at: At) {
    match at
    case ShootDone | OwnTest | OwnSet | OwnIn => true
    case _ => false
  }

  predicate InFini(at: At) {
    match at
    case ExitFini | InProcess | ExitSetDone => true
    case _ => false
  }

  /** monitor_make_thread_node, then monitor_thread_pre_create and the real pthread_create. */
  function MakeMove(sh: Shared, fr: Frame, c: bool): Move {
    match fr.at
    case MakeLock => Go(Lock, fr.(at := MakeTake))
    case MakeTake => Go(Take, fr.(at := MakeClear, n := Taken(sh.reg)))
    case MakeClear => Go(Wipe(fr.n, -1), fr.(at := MakeUnlock))
    case MakeUnlock => Go(Unlock, fr.(at := MakePre))
    case MakePre => if c then Ret(Emit(NodeLost(fr.n))) else Go(Read, fr.(at := MakeDone))
    case MakeDone => Ret(if c then Spawn(fr.n) else Emit(NodeLost(fr.n)))
    case _ => Ret(Read)
  }

  /** monitor_begin_thread. */
  function BeginMove(sh: Shared, fr: Frame, c: bool): Move {
    match fr.at
    case BeginWait => Go(Read, fr.(at := if sh.race.supportDone then BeginSelf else BeginSleep))
    case BeginSleep => if c then Ret(Emit(NodeLost(fr.n))) else Go(Read, fr.(at := BeginWait))
    case BeginSelf => Go(SetSelf(fr.n, fr.thread), fr.(at := LinkLock))
    case LinkLock => Go(Lock, fr.(at := LinkTest))
    case LinkTest => Go(Read, fr.(at := if sh.gate.inExit then LinkRefuse else LinkInsert))
    case LinkRefuse => Go(Unlock, fr.(at := Refused))
    case Refused => Ret(Emit(NodeLost(fr.n)))
    case LinkInsert => Go(Insert(fr.n), fr.(at := LinkUnlock))
    case LinkUnlock => Go(Unlock, fr.(at := InInit))
    case InInit => Go(Read, fr.(at := if c then CleanTest else ApplSet))
    case ApplSet => Go(SetAppl(fr.n), fr.(at := Running))
    case Running => Go(Read, fr.(at := CleanTest))
    case _ => Ret(Read)
  }

  /** monitor_pthread_cleanup_routine. */
  function CleanMove(sh: Shared, fr: Frame): Move {
    match fr.at
    case CleanTest => Go(Read, fr.(at := if MayStart(NodeAt(sh.reg, fr.n)) then CleanDone else Tail))
    case CleanDone => Go(Read, fr.(at := if sh.race.finiThreadDone then Tail else CleanSet))
    case CleanSet => Go(Begin(fr.n, NodeAt(sh.reg, fr.n).life), fr.(at := CleanIn))
    case CleanIn => Go(End(fr.n, NodeAt(sh.reg, fr.n).life), fr.(at := UnLock))
    case _ => Ret(Read)
  }

  /** monitor_unlink_thread_node. */
  function UnlinkMove(sh: Shared, fr: Frame): Move {
    match fr.at
    case UnLock => Go(Lock, fr.(at := UnTest))
    case UnTest => Go(Read, fr.(at := if sh.gate.inExit then UnMark else UnRemove))
    case UnMark => Go(Mark(fr.n), fr.(at := UnUnlock))
    case UnRemove => Go(Remove(fr.n), fr.(at := UnClear))
    case UnClear => Go(Wipe(fr.n, 0), fr.(at := UnPut))
    case UnPut => Go(Put(fr.n), fr.(at := UnUnlock))
    case UnUnlock => Go(Unlock, fr.(at := Tail))
    case _ => Ret(Read)
  }

  /** monitor_sigwait_helper (Wait...) and monitor_shootdown_handler (Hand...). */
  function SignalMove(sh: Shared, fr: Frame): Move {
    match fr.at
    case WaitExit => if sh.gate.inExit then Go(Read, fr.(at := WaitDone)) else Ret(Read)
    case WaitDone => if sh.race.finiThreadDone then Ret(Read) else Go(Read, fr.(at := WaitTest))
    case WaitTest => if MayStart(NodeAt(sh.reg, fr.n)) then Go(Read, fr.(at := SigSet)) else Ret(Read)
    case HandTest => if MayStart(NodeAt(sh.reg, fr.n)) then Go(Read, fr.(at := HandDone)) else Ret(Read)
    case HandDone => if sh.race.finiThreadDone then Ret(Read) else Go(Read, fr.(at := SigSet))
    case SigSet => Go(Begin(fr.n, NodeAt(sh.reg, fr.n).life), fr.(at := SigIn))
    case SigIn => Ret(End(fr.n, NodeAt(sh.reg, fr.n).life))
    case _ => Ret(Read)
  }

  /** The winner, up to the loop of monitor_thread_shootdown. */
  function ShootMove(sh: Shared, fr: Frame): Move {
    match fr.at
    case ExitMark => Go(if fr.tn.Some? then SetWin(fr.tn.value) else Read, fr.(at := ExitUsed))
    case ExitUsed => Go(Read, fr.(at := if sh.race.used then ShootLock else ExitFini, pass := FIRST_PASS))
    case ShootLock => Go(Lock, fr.(at := ShootSet))
    case ShootSet => Go(SetInExit, fr.(at := ShootUnlock))
    case ShootUnlock => Go(Unlock, fr.(at := ShootInstall))
    case ShootInstall => Go(SetHandler, fr.(at := ScanHead, pass := FIRST_PASS))
    case _ => Ret(Read)
  }

  /** The loop of monitor_thread_shootdown. */
  function ScanMove(sh: Shared, fr: Frame, c: bool): Move {
    var p := fr.pass;
    var v := NodeAt(sh.reg, Walked(sh.reg, p.k));
    match fr.at
    case ScanHead => Go(Read, ScanFrom(sh.reg, fr, c))
    case ScanAppl =>
      if v.applStarted then Go(Read, fr.(at := ScanStarted))
      else Go(Read, fr.(at := ScanHead, pass := p.(k := p.k + 1, skipped := p.skipped + [Walked(sh.reg, p.k)])))
    case ScanStarted =>  // a node not yet started is sent the signal
      Go(Read, fr.(at := ScanDone, pass := p.(unstarted := if v.finiStarted then p.unstarted else p.unstarted + 1)))
    case ScanDone =>
      Go(Read, fr.(at := ScanHead,
                   pass := p.(k := p.k + 1, unfinished := if v.finiDone then p.unfinished else p.unfinished + 1)))
    case _ => Ret(Read)
  }

  /** The winner after the loop: its own thread callback. */
  function OwnMove(sh: Shared, fr: Frame): Move {
    match fr.at
    case ShootDone => Go(SetThreadDone, fr.(at := OwnTest))
    case OwnTest =>
      if fr.pass.mine.Some? && !NodeAt(sh.reg, fr.pass.mine.value).finiStarted
      then Go(Read, fr.(at := OwnSet, n := fr.pass.mine.value))
      else Go(Read, fr.(at := ExitFini))
    case OwnSet => Go(Begin(fr.n, NodeAt(sh.reg, fr.n).life), fr.(at := OwnIn))
    case OwnIn => Go(End(fr.n, NodeAt(sh.reg, fr.n).life), fr.(at := ExitFini))
    case _ => Ret(Read)
  }

  /** The winner at the end: the process callback. */
  function FiniMove(fr: Frame): Move {
    match fr.at
    case ExitFini => Go(Emit(FiniProcessBegin), fr.(at := InProcess))
    case InProcess => Go(Emit(FiniProcessEnd), fr.(at := ExitSetDone))
    case ExitSetDone => Ret(SetProcessDone)
    case _ => Ret(Read)
  }

  /** The node under the shootdown loop's walk. */
  function Walked(reg: Registry, k: int): int {
    if 0 <= k < |reg.threadList| then reg.threadList[k] else 0
  }

  /** The head of the walk: skip the winner's own node, and at the end of the list leave the loop
      or walk again. */
  function ScanFrom(reg: Registry, fr: Frame, c: bool): Frame {
    var p := fr.pass;
    if 0 <= p.k < |reg.threadList| then
      if NodeAt(reg, reg.threadList[p.k]).self == Some(fr.thread)
      then fr.(pass := p.(k := p.k + 1, mine := Some(reg.threadList[p.k])))
      else fr.(at := ScanAppl)
    else if p.unfinished == 0 then fr.(at := ShootDone, pass := p.(walked := true, timedOut := false))
    else if c && p.unstarted > 0 then fr.(at := ShootDone, pass := p.(walked := true, timedOut := true))
    else fr.(pass := FIRST_PASS.(mine := p.mine))
  }

  /** The race of monitor_end_process_fcn and its losers, and monitor_broadcast_signal. */
  function ExitMove(sh: Shared, fr: Frame): Move {
    match fr.at
    case ExitCas => if sh.race.cookie == 0 then Go(Win(fr.thread), fr.(at := ExitMark))
      else Go(Read, fr.(at := ExitLost))
    case ExitLost =>
      if fr.tn.Some? && NodeAt(sh.reg, fr.tn.value).exitWin
        then Go(Emit(RepeatWinner(fr.thread)), fr.(at := ExitRepeat))
      else Go(Read, fr.(at := ExitWait))
    case ExitRepeat => Ret(SetProcessDone)
    case ExitWait => Go(Emit(LoserResumed(fr.thread)), fr.(at := ExitResume))
    case ExitResume => Ret(SetProcessDone)
    case CastTry => if sh.gate.lockWord == 0 then Go(Lock, fr.(at := CastHold)) else Ret(Read)
    case CastHold => Ret(Unlock)
    case _ => Ret(Read)
  }

  // ----- the machine --------------------------------------------------------------------------

  datatype Call = Create | Exit | Sigwait | Deliver | Broadcast

  /** `Step(f, c)` moves frame f, `Push(f, call)` starts a monitor routine on top of frame f,
      `Block` is monitor_block_shootdown or monitor_unblock_shootdown, and `Support` is the return of
      monitor_init_thread_support. */
  datatype Action = Step(f: int, c: bool) | Push(f: int, call: Call) | Block(t: int, on: bool) | Support

  predicate Top(s: State, f: int) {
    f in s.frames && s.frames[f].thread in s.tops && s.tops[s.frames[f].thread] == Some(f)
  }

  predicate Enabled(s: State, a: Action) {
    match a
    case Step(f, c) => Top(s, f) && Ready(s.sh, s.frames[f])
    case Push(f, call) =>
      Top(s, f) &&
      (call.Deliver? ==> s.sh.gate.handlerOn) &&
      (call.Deliver? || call.Sigwait? ==> s.frames[f].thread in s.sh.reg.tsd)
    case Block(t, on) => t in s.sh.reg.tsd
    case Support => true
  }

  /** A new call on thread t, on top of frame f. */
  function Callee(sh: Shared, t: int, f: int, call: Call): Frame {
    var fr := Frame(t, Some(f), App, 0, None, FIRST_PASS);
    var tsd := sh.reg.tsd;
    match call
    case Create => fr.(at := MakeLock)
    case Exit =>
      fr.(at := ExitCas,
          tn := if !sh.race.used then Some(MAIN_NODE) else if t in tsd then Some(tsd[t]) else None)
    case Sigwait => fr.(at := WaitExit, n := if t in tsd then tsd[t] else 0)
    case Deliver => fr.(at := HandTest, n := if t in tsd then tsd[t] else 0)
    case Broadcast => fr.(at := CastTry)
  }

  /** What an action does: the frame that writes (-1 for a frame yet to come), what it writes, the
      frame that leaves its place and the frame put in place. */
  datatype Deed = Deed(actor: int, e: Effect, from: Option<int>, to: Option<(int, Frame)>)

  function MoveDeed(f: int, m: Move, id: int, thread: int): Deed {
    Deed(f, m.e, Some(f),
         if m.Go? then Some((f, m.to))
         else if m.e.Spawn? then Some((id, FirstFrame(thread, m.e.n)))
         else None)
  }

  function DeedOf(s: State, a: Action): Deed
    requires Enabled(s, a)
  {
    var id := s.sh.gate.nextFrame;
    match a
    case Step(f, c) => MoveDeed(f, MoveOf(s.sh, s.frames[f], c), id, s.nextThread)
    case Push(f, call) =>
      Deed(-1, Enter(call.Create?), None, Some((id, Callee(s.sh, s.frames[f].thread, f, call))))
    case Block(t, on) => Deed(-1, SetBlock(s.sh.reg.tsd[t], on), None, None)
    case Support => Deed(-1, SetSupportDone, None, None)
  }

  function Do(s: State, a: Action): State
    requires Enabled(s, a)
  {
    var d := DeedOf(s, a);
    var frames := if d.from.Some? then s.frames - {d.from.value} else s.frames;
    var frames' := if d.to.Some? then frames[d.to.value.0 := d.to.value.1] else frames;
    var sh := Apply(s.sh, d.actor, d.e);
    match a
    case Step(f, c) =>
      if d.to.Some? && d.to.value.0 == f then State(frames', s.tops, s.nextThread, sh)
      else
        var t := s.frames[f].thread;
        var tops := s.tops[t := s.frames[f].parent];
        if d.to.Some? then State(frames', tops[s.nextThread := Some(d.to.value.0)], s.nextThread + 1, sh)
        else State(frames', tops, s.nextThread, sh)
    case Push(f, call) => State(frames', s.tops[s.frames[f].thread := Some(d.to.value.0)], s.nextThread, sh)
    case Block(t, on) => State(frames', s.tops, s.nextThread, sh)
    case Support => State(frames', s.tops, s.nextThread, sh)
  }

  /** The bottom frame of a new thread, in monitor_begin_thread. */
  function FirstFrame(t: int, n: int): Frame { Frame(t, None, BeginWait, n, None, FIRST_PASS) }

  ghost predicate Next(s: State, s': State) {
    exists a :: Enabled(s, a) && s' == Do(s, a)
  }

  ghost predicate IsPath(path: seq<State>) {
    |path| > 0 && forall i :: 0 <= i < |path| - 1 ==> Next(path[i], path[i + 1])
  }

  ghost predicate IsRun(run: seq<State>) { IsPath(run) && run[0] == INITIAL }

  /** The action of a step of a run. */
  lemma ActionAt(run: seq<State>, i: int) returns (a: Action)
    requires IsRun(run) && 0 < i < |run|
    ensures Enabled(run[i - 1], a) && run[i] == Do(run[i - 1], a)
  {
    assert Next(run[i - 1], run[(i - 1) + 1]);
    a :| Enabled(run[i - 1], a) && run[i] == Do(run[i - 1], a);
  }

  ghost predicate Leads(s: State, s': State) {
    exists path :: IsPath(path) && path[0] == s && path[|path| - 1] == s'
  }

  lemma LeadsOne(s: State, s1: State)
    requires Next(s, s1)
    ensures Leads(s, s1)
  {
    var path := [s, s1];
    assert IsPath(path) && path[0] == s && path[|path| - 1] == s1;
  }

  lemma LeadsNext(s: State, s1: State, s2: State)
    requires Leads(s, s1) && Next(s1, s2)
    ensures Leads(s, s2)
  {
    var path :| IsPath(path) && path[0] == s && path[|path| - 1] == s1;
    var path' := path + [s2];
    forall i | 0 <= i < |path'| - 1 ensures Next(path'[i], path'[i + 1]) {
      if i < |path| - 1 { assert path'[i] == path[i] && path'[i + 1] == path[i + 1]; }
    }
    assert IsPath(path') && path'[0] == s && path'[|path'| - 1] == s2;
  }

  // ----- lifting assertions about one frame to states ------------------------------------------

  type Assertion = (Shared, int, Frame) -> bool

  ghost predicate Everywhere(p: Assertion, s: State) {
    forall f :: f in s.frames ==> p(s.sh, f, s.frames[f])
  }

  /** All that the assertions need to know of a new state. */
  ghost predicate Done(s: State, d: Deed, s': State) {
    && s'.sh == Apply(s.sh, d.actor, d.e)
    && forall f :: f in s'.frames ==>
         || d.to == Some((f, s'.frames[f]))
         || (f in s.frames && s'.frames[f] == s.frames[f] && d.from != Some(f))
  }

  lemma DeedDone(s: State, a: Action)
    requires Enabled(s, a)
    ensures Done(s, DeedOf(s, a), Do(s, a))
  {
  }

  /** An assertion about each frame is kept if it holds of the frame put in place and no other
      frame is disturbed. */
  lemma Lift(p: Assertion, s: State, d: Deed, s': State)
    requires Done(s, d, s')
    requires d.to.Some? ==> p(s'.sh, d.to.value.0, d.to.value.1)
    requires forall f :: f in s.frames && d.from != Some(f) ==> p(s'.sh, f, s.frames[f])
    ensures Everywhere(p, s')
  {
  }
}
