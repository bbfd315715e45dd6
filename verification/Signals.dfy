/** The signal table of monitor/src/signal.c: which signals applications may block, and how the
    signal for thread shootdown is kept open over any history of mask and handler calls. */
module Signals {

  import opened Options

  const NSIG: int := 65   // MONITOR_NSIG on Linux
  const SIGKILL: int := 9
  const SIGSTOP: int := 19
  const LAST_RESORT: int := 28  // SIGWINCH
  const STOPPING: seq<int> := [20, 21, 22]  // SIGTSTP, SIGTTIN, SIGTTOU
  const EXTRA: seq<int> := [12, 10, 30, 23, 13]  // SIGUSR2, SIGUSR1, SIGPWR, SIGURG, SIGPIPE

  /** struct monitor_signal_entry, with the handlers as flags. */
  datatype Entry = Entry(avoid: bool, invalid: bool, stop: bool, blocked: bool,
                         applHand: bool, clientHand: bool, keepOpen: bool)

  const BLANK := Entry(false, false, false, false, false, false, false)

  /** The table by signal number, the shootdown list without its -1, and the shootdown signal. */
  datatype Table = Table(entries: seq<Entry>, list: seq<int>, shootdown: int)

  function At(t: Table, sig: int): Entry { if 0 <= sig < |t.entries| then t.entries[sig] else BLANK }

  /** What monitor may filter and observe. */
  predicate Managed(e: Entry) { !e.avoid && !e.invalid }

  /** The first element of the list that satisfies p, or -1. */
  function First(list: seq<int>, p: int -> bool): int {
    if list == [] then -1 else if p(list[0]) then list[0] else First(list[1..], p)
  }

  lemma {:induction false} FirstHolds(list: seq<int>, p: int -> bool)
    requires forall x :: x in list ==> x > 0
    ensures First(list, p) > 0 <==> exists x :: x in list && p(x)
    ensures First(list, p) > 0 ==> First(list, p) in list && p(First(list, p))
    ensures First(list, p) <= 0 ==> First(list, p) == -1
  {
    if list != [] {
      assert forall x :: x in list <==> x == list[0] || x in list[1..];
      FirstHolds(list[1..], p);
    }
  }

  // ----- the operations on tables -------------------------------------------------------------

  function Open(t: Table): int -> bool { sig => !At(t, sig).blocked }

  function OpenAfter(t: Table, mask: set<int>): int -> bool { sig => !At(t, sig).blocked && sig !in mask }

  function WithEntry(t: Table, sig: int, e: Entry): Table {
    if 0 <= sig < |t.entries| then t.(entries := t.entries[sig := e]) else t
  }

  /** When the new mask covers all that is still open, the shootdown signal is chosen now. */
  function Settle(t: Table, mask: set<int>): Table {
    var unblocked := First(t.list, Open(t));
    if t.shootdown < 0 && unblocked > 0 && First(t.list, OpenAfter(t, mask)) < 0
    then WithEntry(t, unblocked, At(t, unblocked).(keepOpen := true)).(shootdown := unblocked)
    else t
  }

  function Blocked(e: Entry, inMask: bool): Entry {
    if Managed(e) && !e.keepOpen && inMask then e.(blocked := true) else e
  }

  /** monitor_remove_client_signals: the new table and the mask that is passed on. */
  function Filter(t: Table, mask: set<int>): (Table, set<int>) {
    var u := Settle(t, mask);
    (u.(entries := seq(|u.entries|, i requires 0 <= i < |u.entries| =>
                         if i == 0 then u.entries[0] else Blocked(u.entries[i], i in mask))),
     set sig | sig in mask && !(1 <= sig < |u.entries| && Managed(u.entries[sig]) && u.entries[sig].keepOpen))
  }

  function Free(t: Table): int -> bool { sig => !At(t, sig).blocked && !At(t, sig).clientHand }

  function Unused(t: Table): int -> bool {
    sig => !At(t, sig).blocked && !At(t, sig).clientHand && !At(t, sig).applHand
  }

  /** monitor_shootdown_signal: prefer a signal nobody handles, then one the client does not handle,
      then any that is open. */
  function Choice(t: Table): int {
    var a1, a2, a3 := First(t.list, Unused(t)), First(t.list, Free(t)), First(t.list, Open(t));
    if t.shootdown > 0 then t.shootdown
    else if a1 > 0 then a1 else if a2 > 0 then a2 else if a3 > 0 then a3 else LAST_RESORT
  }

  function Choose(t: Table): Table { t.(shootdown := Choice(t)) }

  datatype How = Block | Unblock | SetMask

  /** A call that may pass a filtered mask on to the kernel: sigprocmask or pthread_sigmask, the
      application's sigaction or signal, the client's monitor_sigaction. */
  datatype Op =
    | Mask(how: How, mask: Option<set<int>>)
    | ApplAction(sig: int, catches: bool, mask: Option<set<int>>)
    | ClientAction(sig: int, handles: bool, mask: Option<set<int>>)

  function FilterOf(t: Table, mask: Option<set<int>>): (Table, set<int>) {
    if mask.Some? then Filter(t, mask.value) else (t, {})
  }

  /** The new table, and the signals in the mask passed on, if one is. */
  function Step(t: Table, op: Op): (Table, set<int>) {
    match op
    case Mask(how, mask) => if how.Unblock? then (t, {}) else FilterOf(t, mask)
    case ApplAction(sig, catches, mask) =>
      if !(0 < sig < NSIG) || !Managed(At(t, sig)) then (t, {})
      else FilterOf(if mask.Some? && catches then WithEntry(t, sig, At(t, sig).(applHand := true)) else t, mask)
    case ClientAction(sig, handles, mask) =>
      if !(0 < sig < NSIG) || !Managed(At(t, sig)) then (t, {})
      else FilterOf(WithEntry(t, sig, At(t, sig).(keepOpen := true, clientHand := handles)), mask)
  }

  /** A history: the last table, and all signals that were in some mask passed on. */
  function Run(t: Table, ops: seq<Op>): (Table, set<int>) {
    if ops == [] then (t, {})
    else
      var (u, seen) := Run(t, ops[..|ops| - 1]);
      var (v, passed) := Step(u, ops[|ops| - 1]);
      (v, seen + passed)
  }

  // ----- monitor_signal_init ------------------------------------------------------------------

  /** What init finds: the signals the kernel accepts, SIGRTMIN, the configured client signals, and
      the number in MONITOR_SHOOTDOWN_SIGNAL (None if unset, Some(0) if no number). */
  datatype Config = Config(valid: set<int>, rtmin: nat, clientSignals: seq<int>, env: Option<int>)

  function FirstEntry(c: Config, sig: int): Entry {
    var avoid := sig == SIGKILL || sig == SIGSTOP;
    Entry(avoid, 1 <= sig && !avoid && sig !in c.valid, sig in STOPPING, false, false, false,
          1 <= sig && sig in Positive(c.clientSignals))
  }

  /** A list up to its end mark. */
  function Positive(list: seq<int>): seq<int> {
    if list == [] || list[0] <= 0 then [] else [list[0]] + Positive(list[1..])
  }

  predicate Usable(e: Entry) { Managed(e) && !e.stop && !e.keepOpen }

  function Candidates(c: Config, list: seq<int>): seq<int> {
    if list == [] then []
    else
      var rest := Candidates(c, list[..|list| - 1]);
      var sig := list[|list| - 1];
      if sig < NSIG && Usable(FirstEntry(c, sig)) then rest + [sig] else rest
  }

  function RealTime(c: Config): seq<int> { seq(8, i => c.rtmin + 6 + i) }

  function InitTable(c: Config): Table {
    var t := Table(seq(NSIG, i => FirstEntry(c, i)),
                   Candidates(c, RealTime(c)) + Candidates(c, EXTRA) + [LAST_RESORT], -1);
    if c.env.Some? && 0 < c.env.value < NSIG && Managed(At(t, c.env.value)) && !At(t, c.env.value).stop
    then WithEntry(t, c.env.value, At(t, c.env.value).(keepOpen := true)).(shootdown := c.env.value)
    else t
  }

  // ----- what every history keeps -------------------------------------------------------------

  /** The list holds signals that monitor manages, but for the last resort; as long as no shootdown
      signal is chosen, one of them is open, and one that is chosen is kept open. */
  ghost predicate TableOk(t: Table) {
    && |t.entries| == NSIG && LAST_RESORT in t.list
    && (forall x :: x in t.list ==> 0 < x < NSIG && (Managed(t.entries[x]) || x == LAST_RESORT))
    && (t.shootdown < 0 ==> exists x :: x in t.list && Open(t)(x))
    && (t.shootdown >= 0 ==>
          && 0 < t.shootdown < NSIG && t.entries[t.shootdown].keepOpen
          && (Managed(t.entries[t.shootdown]) || t.shootdown == LAST_RESORT))
  }

  /** A managed signal that was in a mask passed on is marked blocked, and is not the chosen one. */
  ghost predicate SeenOk(t: Table, seen: set<int>) {
    forall x :: x in seen && 0 < x < |t.entries| && Managed(t.entries[x]) ==> t.entries[x].blocked && x != t.shootdown
  }

  lemma SettleKeeps(t: Table, seen: set<int>, mask: set<int>)
    requires TableOk(t) && SeenOk(t, seen)
    ensures TableOk(Settle(t, mask)) && SeenOk(Settle(t, mask), seen)
    ensures Settle(t, mask).shootdown < 0 ==>
      exists x :: x in t.list && Open(t)(x) && x !in mask && Settle(t, mask) == t
  {
    FirstHolds(t.list, Open(t));
    FirstHolds(t.list, OpenAfter(t, mask));
  }

  lemma FilterKeeps(t: Table, seen: set<int>, mask: set<int>)
    requires TableOk(t) && SeenOk(t, seen)
    ensures TableOk(Filter(t, mask).0) && SeenOk(Filter(t, mask).0, seen + Filter(t, mask).1)
  {
    SettleKeeps(t, seen, mask);
    var u := Settle(t, mask);
    var v := Filter(t, mask).0;
    if u.shootdown < 0 {
      var x :| x in t.list && Open(t)(x) && x !in mask && u == t;
      assert Open(v)(x);
    }
  }

  lemma FilterOfKeeps(t: Table, seen: set<int>, mask: Option<set<int>>)
    requires TableOk(t) && SeenOk(t, seen)
    ensures TableOk(FilterOf(t, mask).0) && SeenOk(FilterOf(t, mask).0, seen + FilterOf(t, mask).1)
  {
    if mask.Some? { FilterKeeps(t, seen, mask.value); } else { assert seen + {} == seen; }
  }

  lemma EntryKeeps(t: Table, seen: set<int>, sig: int, e: Entry)
    requires TableOk(t) && SeenOk(t, seen) && 0 < sig < NSIG
    requires var o := At(t, sig);
      e.avoid == o.avoid && e.invalid == o.invalid && e.blocked == o.blocked && (o.keepOpen ==> e.keepOpen)
    ensures TableOk(WithEntry(t, sig, e)) && SeenOk(WithEntry(t, sig, e), seen)
  {
    assert forall x :: Open(WithEntry(t, sig, e))(x) == Open(t)(x);
  }

  lemma StepKeeps(t: Table, seen: set<int>, op: Op)
    requires TableOk(t) && SeenOk(t, seen)
    ensures TableOk(Step(t, op).0) && SeenOk(Step(t, op).0, seen + Step(t, op).1)
  {
    assert seen + {} == seen;
    match op {
      case Mask(how, mask) => FilterOfKeeps(t, seen, mask);
      case ApplAction(sig, catches, mask) =>
        if 0 < sig < NSIG {
          var u := WithEntry(t, sig, At(t, sig).(applHand := true));
          EntryKeeps(t, seen, sig, At(t, sig).(applHand := true));
          FilterOfKeeps(if mask.Some? && catches then u else t, seen, mask);
        }
      case ClientAction(sig, handles, mask) =>
        if 0 < sig < NSIG {
          var e := At(t, sig).(keepOpen := true, clientHand := handles);
          EntryKeeps(t, seen, sig, e);
          FilterOfKeeps(WithEntry(t, sig, e), seen, mask);
        }
    }
  }

  lemma {:induction false} CandidatesOk(c: Config, list: seq<int>)
    ensures forall x :: x in Candidates(c, list) <==> x in list && x < NSIG && Usable(FirstEntry(c, x))
  {
    if list != [] {
      assert forall x :: x in list <==> x in list[..|list| - 1] || x == list[|list| - 1];
      CandidatesOk(c, list[..|list| - 1]);
    }
  }

  lemma InitOk(c: Config)
    ensures TableOk(InitTable(c)) && SeenOk(InitTable(c), {})
  {
    CandidatesOk(c, RealTime(c));
    CandidatesOk(c, EXTRA);
    assert LAST_RESORT in InitTable(c).list && Open(InitTable(c))(LAST_RESORT);
  }

  lemma {:induction false} RunKeeps(c: Config, ops: seq<Op>)
    ensures var (t, seen) := Run(InitTable(c), ops); TableOk(t) && SeenOk(t, seen)
  {
    InitOk(c);
    if ops != [] {
      RunKeeps(c, ops[..|ops| - 1]);
      var (u, seen) := Run(InitTable(c), ops[..|ops| - 1]);
      StepKeeps(u, seen, ops[|ops| - 1]);
    }
  }

  // ----- the shootdown signal -----------------------------------------------------------------

  /** The fallback of monitor_shootdown_signal is unreachable: in every history some signal of the list is
      open unless one is chosen already, so the signal returned is one of them, or that one. */
  lemma FallbackUnreachable(c: Config, ops: seq<Op>)
    ensures var t := Run(InitTable(c), ops).0;
      t.shootdown > 0 || (Choice(t) in t.list && Open(t)(Choice(t)) && First(t.list, Open(t)) > 0)
  {
    RunKeeps(c, ops);
    var t := Run(InitTable(c), ops).0;
    FirstHolds(t.list, Open(t));
    FirstHolds(t.list, Free(t));
    FirstHolds(t.list, Unused(t));
  }

  /** The order of preference: no open signal of the list is less used than the one returned. */
  lemma ChoicePrefers(c: Config, ops: seq<Op>, x: int)
    requires var t := Run(InitTable(c), ops).0; t.shootdown < 0 && x in t.list && Open(t)(x)
    ensures var t := Run(InitTable(c), ops).0;
      && (Unused(t)(x) ==> Unused(t)(Choice(t)))
      && (Free(t)(x) ==> Free(t)(Choice(t)))
  {
    RunKeeps(c, ops);
    var t := Run(InitTable(c), ops).0;
    FirstHolds(t.list, Open(t));
    FirstHolds(t.list, Free(t));
    FirstHolds(t.list, Unused(t));
  }

  /** The signal that the first call of monitor_shootdown_signal returns was in no mask passed on before,
      provided that the kernel accepts SIGWINCH or MONITOR_SHOOTDOWN_SIGNAL chose the signal. */
  lemma NeverMasked(c: Config, ops: seq<Op>)
    requires LAST_RESORT in c.valid || InitTable(c).shootdown > 0
    ensures var (t, seen) := Run(InitTable(c), ops); Choice(t) !in seen
  {
    RunKeeps(c, ops);
    FallbackUnreachable(c, ops);
    RunSame(InitTable(c), ops);
    var (t, seen) := Run(InitTable(c), ops);
    assert 0 < Choice(t) < NSIG && Managed(t.entries[Choice(t)]);
  }

  /** What no call changes: the list, the kind of each entry, and a shootdown signal once chosen. */
  predicate Same(t: Table, u: Table) {
    && u.list == t.list && |u.entries| == |t.entries|
    && (forall x :: 0 <= x < |t.entries| ==>
          && u.entries[x].avoid == t.entries[x].avoid && u.entries[x].invalid == t.entries[x].invalid
          && (t.entries[x].keepOpen ==> u.entries[x].keepOpen))
    && (t.shootdown >= 0 ==> u.shootdown == t.shootdown)
  }

  lemma FilterSame(t: Table, mask: Option<set<int>>)
    ensures Same(t, FilterOf(t, mask).0)
  {
  }

  lemma StepSame(t: Table, op: Op)
    ensures Same(t, Step(t, op).0)
  {
    match op {
      case Mask(how, mask) => FilterSame(t, mask);
      case ApplAction(sig, catches, mask) =>
        FilterSame(t, mask);
        FilterSame(WithEntry(t, sig, At(t, sig).(applHand := true)), mask);
      case ClientAction(sig, handles, mask) =>
        FilterSame(WithEntry(t, sig, At(t, sig).(keepOpen := true, clientHand := handles)), mask);
    }
  }

  lemma {:induction false} RunSame(t: Table, ops: seq<Op>)
    ensures Same(t, Run(t, ops).0)
  {
    if ops != [] {
      RunSame(t, ops[..|ops| - 1]);
      StepSame(Run(t, ops[..|ops| - 1]).0, ops[|ops| - 1]);
    }
  }

  /** When the kernel refuses SIGWINCH and MONITOR_SHOOTDOWN_SIGNAL chooses nothing, two masks suffice:
      SIGWINCH, and then all the other signals of the list. */
  lemma LastResortMasked(c: Config)
    requires LAST_RESORT !in c.valid && InitTable(c).shootdown < 0
    ensures var t := InitTable(c);
      var rest := set x | x in t.list && x != LAST_RESORT;
      var (u, seen) := Run(t, [Mask(SetMask, Some({LAST_RESORT})), Mask(SetMask, Some(rest))]);
      Choice(u) == LAST_RESORT && LAST_RESORT in seen
  {
    var t := InitTable(c);
    InitOk(c);
    InitFresh(c);
    var rest := set x | x in t.list && x != LAST_RESORT;
    RunTwo(t, [Mask(SetMask, Some({LAST_RESORT})), Mask(SetMask, Some(rest))]);
    if rest == {} { OneMask(t); } else { TwoMasks(t, rest); }
  }

  /** A table with no handlers and nothing blocked, whose last resort is not managed. */
  ghost predicate FreshTable(t: Table) {
    && TableOk(t) && t.shootdown < 0 && t.entries[LAST_RESORT].invalid
    && (forall x :: 0 < x < NSIG ==> Unused(t)(x))
    && (forall x :: x in t.list && x != LAST_RESORT ==> Usable(t.entries[x]))
  }

  lemma InitFresh(c: Config)
    requires LAST_RESORT !in c.valid && InitTable(c).shootdown < 0
    ensures FreshTable(InitTable(c))
  {
    InitOk(c);
    CandidatesOk(c, RealTime(c));
    CandidatesOk(c, EXTRA);
  }

  lemma OneMask(t: Table)
    requires FreshTable(t) && forall x :: x in t.list ==> x == LAST_RESORT
    ensures Filter(t, {LAST_RESORT}).0.shootdown == LAST_RESORT && LAST_RESORT in Filter(t, {LAST_RESORT}).1
  {
    FirstHolds(t.list, Open(t));
    FirstHolds(t.list, OpenAfter(t, {LAST_RESORT}));
  }

  lemma TwoMasks(t: Table, rest: set<int>)
    requires FreshTable(t) && rest == (set x | x in t.list && x != LAST_RESORT) && rest != {}
    ensures Filter(t, {LAST_RESORT}).0 == t && LAST_RESORT in Filter(t, {LAST_RESORT}).1
    ensures Choice(Filter(t, rest).0) == LAST_RESORT
  {
    var x :| x in rest;
    assert Unused(t)(x) && Unused(t)(LAST_RESORT);
    SettleNot(t, {LAST_RESORT}, x);
    SettleNot(t, rest, LAST_RESORT);
    FilterKeeps(t, {}, rest);
    ChoiceOnly(Filter(t, rest).0, LAST_RESORT);
  }

  lemma RunTwo(t: Table, ops: seq<Op>)
    requires |ops| == 2
    ensures var (t1, p1) := Step(t, ops[0]); var (t2, p2) := Step(t1, ops[1]);
      Run(t, ops).0 == t2 && Run(t, ops).1 == p1 + p2
  {
    assert ops[..1][..0] == [];
    assert Run(t, ops[..1]) == (Step(t, ops[0]).0, {} + Step(t, ops[0]).1);
  }

  lemma SettleNot(t: Table, mask: set<int>, x: int)
    requires TableOk(t) && x in t.list && Open(t)(x) && x !in mask
    ensures Settle(t, mask) == t
  {
    FirstHolds(t.list, OpenAfter(t, mask));
  }

  lemma ChoiceOnly(t: Table, x: int)
    requires TableOk(t) && t.shootdown < 0 && x in t.list && Unused(t)(x)
    requires forall y :: y in t.list && y != x ==> !Open(t)(y)
    ensures Choice(t) == x
  {
    FirstHolds(t.list, Unused(t));
  }

  /** Exactly when the promise holds of every history. */
  lemma NeverMaskedExactly(c: Config)
    ensures (forall ops :: Choice(Run(InitTable(c), ops).0) !in Run(InitTable(c), ops).1)
            <==> LAST_RESORT in c.valid || InitTable(c).shootdown > 0
  {
    var t := InitTable(c);
    if LAST_RESORT in c.valid || t.shootdown > 0 {
      forall ops ensures Choice(Run(t, ops).0) !in Run(t, ops).1 {
        NeverMasked(c, ops);
      }
    } else {
      LastResortMasked(c);
    }
  }

  /** monitor_shootdown_signal does not mark what it returns: a signal r that is chosen stays out of all
      later masks exactly when it was marked keep-open before, by a filter or by the client. */
  lemma ChosenStaysOpen(t: Table, r: int)
    requires |t.entries| == NSIG && t.shootdown == r && 0 < r < NSIG && Managed(t.entries[r])
    ensures (forall ops :: r !in Run(t, ops).1) <==> t.entries[r].keepOpen
  {
    if t.entries[r].keepOpen {
      forall ops ensures r !in Run(t, ops).1 {
        KeptOpen(t, ops, r);
      }
    } else {
      MaskedNow(t, r);
      assert r in Run(t, [Mask(Block, Some({r}))]).1;
    }
  }

  /** A signal not marked keep-open is masked by the next mask that asks for it. */
  lemma MaskedNow(t: Table, r: int)
    requires |t.entries| == NSIG && t.shootdown == r && 0 < r < NSIG && Managed(t.entries[r]) && !t.entries[r].keepOpen
    ensures r in Run(t, [Mask(Block, Some({r}))]).1
  {
    var op := Mask(Block, Some({r}));
    RunOne(t, op);
    assert r in Filter(t, {r}).1;
  }

  lemma RunOne(t: Table, op: Op)
    ensures Run(t, [op]).1 == Step(t, op).1
  {
    assert [op][..|[op]| - 1] == [];
  }

  lemma {:induction false} KeptOpen(t: Table, ops: seq<Op>, r: int)
    requires 0 < r < |t.entries| && Managed(t.entries[r]) && t.entries[r].keepOpen
    ensures r !in Run(t, ops).1
  {
    if ops != [] {
      KeptOpen(t, ops[..|ops| - 1], r);
      RunSame(t, ops[..|ops| - 1]);
      StepOpen(Run(t, ops[..|ops| - 1]).0, ops[|ops| - 1], r);
    }
  }

  lemma FilterOpen(t: Table, mask: Option<set<int>>, r: int)
    requires 0 < r < |t.entries| && Managed(t.entries[r]) && t.entries[r].keepOpen
    ensures r !in FilterOf(t, mask).1
  {
  }

  lemma StepOpen(t: Table, op: Op, r: int)
    requires 0 < r < |t.entries| && Managed(t.entries[r]) && t.entries[r].keepOpen
    ensures r !in Step(t, op).1
  {
    match op {
      case Mask(how, mask) => FilterOpen(t, mask, r);
      case ApplAction(sig, catches, mask) =>
        FilterOpen(t, mask, r);
        FilterOpen(WithEntry(t, sig, At(t, sig).(applHand := true)), mask, r);
      case ClientAction(sig, handles, mask) =>
        FilterOpen(WithEntry(t, sig, At(t, sig).(keepOpen := true, clientHand := handles)), mask, r);
    }
  }
}
