/** What the signal table says, in terms of the calls made so far: after any history each flag of an entry is an
    if-and-only-if on the configuration and the calls. */
module SignalHistory {
  import opened Options
  import opened Signals

  // ----- the table that monitor_signal_init leaves --------------------------------------------

  /** The number is in the client list before its end mark. */
  ghost predicate InClientList(c: Config, sig: int) {
    exists k :: 0 <= k < |c.clientSignals| && c.clientSignals[k] == sig && AllPositive(c.clientSignals, k)
  }

  predicate AllPositive(list: seq<int>, k: int)
    requires 0 <= k < |list|
  {
    forall j :: 0 <= j <= k ==> list[j] > 0
  }

  lemma {:induction false} PositiveIs(list: seq<int>, sig: int)
    ensures sig in Positive(list) <==> exists k :: 0 <= k < |list| && list[k] == sig && AllPositive(list, k)
  {
    if list != [] && list[0] > 0 {
      PositiveIs(list[1..], sig);
      if k :| 0 <= k < |list[1..]| && list[1..][k] == sig && AllPositive(list[1..], k) {
        assert list[k + 1] == sig && AllPositive(list, k + 1);
      }
      if k :| 0 <= k < |list| && list[k] == sig && AllPositive(list, k) {
        if k > 0 { assert list[1..][k - 1] == sig && AllPositive(list[1..], k - 1); }
      }
    }
  }

  /** What MONITOR_SHOOTDOWN_SIGNAL may choose. */
  predicate EnvChooses(c: Config, sig: int) {
    c.env == Some(sig) && 0 < sig < 65 && sig !in {9, 19, 20, 21, 22} && sig in c.valid
  }

  /** Each entry that monitor_signal_init leaves, and the shootdown signal. */
  lemma InitExactly(c: Config, sig: int)
    requires 0 < sig < 65
    ensures var t := InitTable(c);
      && |t.entries| == 65
      && (t.entries[sig].avoid <==> sig in {9, 19})
      && (t.entries[sig].invalid <==> sig !in {9, 19} && sig !in c.valid)
      && (t.entries[sig].stop <==> sig in {20, 21, 22})
      && !t.entries[sig].blocked && !t.entries[sig].applHand && !t.entries[sig].clientHand
      && (t.entries[sig].keepOpen <==> InClientList(c, sig) || EnvChooses(c, sig))
      && (t.shootdown == sig <==> EnvChooses(c, sig)) && (t.shootdown == -1 || EnvChooses(c, t.shootdown))
  {
    PositiveIs(c.clientSignals, sig);
  }

  /** The signals tried for shootdown, in order: eight real-time signals, then SIGUSR2, SIGUSR1, SIGPWR, SIGURG and
      SIGPIPE. */
  function Tried(c: Config): seq<int> { RealTime(c) + EXTRA }

  lemma TriedAre(c: Config)
    ensures Tried(c) == [c.rtmin + 6, c.rtmin + 7, c.rtmin + 8, c.rtmin + 9, c.rtmin + 10, c.rtmin + 11, c.rtmin + 12,
                         c.rtmin + 13, 12, 10, 30, 23, 13]
  {
  }

  /** The places of the signals that may be used: those that monitor manages, that do not stop the process and that
      are not on the client list. */
  ghost predicate May(c: Config, sig: int) {
    0 < sig < 65 && sig !in {9, 19, 20, 21, 22} && sig in c.valid && !InClientList(c, sig)
  }

  predicate Increasing(q: seq<int>) { forall i, j :: 0 <= i < j < |q| ==> q[i] < q[j] }

  /** The list `picked` is the elements of `list` at the increasing places of those that may be used. */
  ghost predicate Picks(c: Config, list: seq<int>, picked: seq<int>, places: seq<int>) {
    && Increasing(places) && |picked| == |places|
    && (forall k :: k in places <==> 0 <= k < |list| && May(c, list[k]))
    && (forall i :: 0 <= i < |places| ==> 0 <= places[i] < |list| && picked[i] == list[places[i]])
  }

  lemma UsableIs(c: Config, sig: int)
    requires sig > 0
    ensures sig < NSIG && Usable(FirstEntry(c, sig)) <==> May(c, sig)
  {
    PositiveIs(c.clientSignals, sig);
  }

  lemma PicksNext(c: Config, list: seq<int>, picked: seq<int>, places: seq<int>)
    requires list != [] && Picks(c, list[..|list| - 1], picked, places)
    ensures var n := |list| - 1;
      if May(c, list[n]) then Picks(c, list, picked + [list[n]], places + [n]) else Picks(c, list, picked, places)
  {
    var n := |list| - 1;
    assert forall k :: 0 <= k < n ==> list[..n][k] == list[k];
    assert forall i :: 0 <= i < |places| ==> places[i] in places;
    var more := places + [n];
    assert forall k :: k in more <==> k in places || k == n;
  }

  lemma {:induction false} CandidatesPick(c: Config, list: seq<int>) returns (places: seq<int>)
    requires forall i :: 0 <= i < |list| ==> list[i] > 0
    ensures Picks(c, list, Candidates(c, list), places)
  {
    places := [];
    if list != [] {
      var n := |list| - 1;
      places := CandidatesPick(c, list[..n]);
      UsableIs(c, list[n]);
      PicksNext(c, list, Candidates(c, list[..n]), places);
      if May(c, list[n]) { places := places + [n]; }
    }
  }

  lemma {:induction false} CandidatesSplit(c: Config, a: seq<int>, b: seq<int>)
    ensures Candidates(c, a + b) == Candidates(c, a) + Candidates(c, b)
  {
    if b == [] {
      assert a + b == a;
    } else {
      CandidatesSplit(c, a, b[..|b| - 1]);
      assert (a + b)[..|a + b| - 1] == a + b[..|b| - 1];
    }
  }

  /** The shootdown list: of the signals tried those that may be used, in order, and SIGWINCH at the end. */
  lemma ListExactly(c: Config) returns (places: seq<int>)
    ensures var list := InitTable(c).list;
      list != [] && list[|list| - 1] == 28 && Picks(c, Tried(c), list[..|list| - 1], places)
  {
    CandidatesSplit(c, RealTime(c), EXTRA);
    places := CandidatesPick(c, Tried(c));
    var picked := Candidates(c, Tried(c));
    assert InitTable(c).list == picked + [LAST_RESORT];
    assert (picked + [LAST_RESORT])[..|picked|] == picked;
  }

  // ----- handlers -----------------------------------------------------------------------------

  /** The signals that monitor manages: those that the kernel accepts but for SIGKILL and SIGSTOP. */
  predicate Accepts(c: Config, sig: int) { 0 < sig < 65 && sig != 9 && sig != 19 && sig in c.valid }

  lemma RunKind(c: Config, ops: seq<Op>, sig: int)
    ensures var t := Run(InitTable(c), ops).0;
      |t.entries| == 65 && t.list == InitTable(c).list
    ensures 0 < sig < 65 ==> (Managed(Run(InitTable(c), ops).0.entries[sig]) <==> Accepts(c, sig))
  {
    RunSame(InitTable(c), ops);
    if 0 < sig < 65 { InitExactly(c, sig); }
  }

  /** A filter leaves the handlers alone. */
  lemma FilterHands(t: Table, mask: Option<set<int>>, sig: int)
    ensures At(FilterOf(t, mask).0, sig).clientHand == At(t, sig).clientHand
    ensures At(FilterOf(t, mask).0, sig).applHand == At(t, sig).applHand
    ensures |FilterOf(t, mask).0.entries| == |t.entries|
  {
  }

  lemma StepHands(t: Table, op: Op, sig: int)
    requires |t.entries| == NSIG && 0 < sig < NSIG
    ensures At(Step(t, op).0, sig).clientHand ==
      (if op.ClientAction? && op.sig == sig && Managed(At(t, sig)) then op.handles else At(t, sig).clientHand)
    ensures At(Step(t, op).0, sig).applHand <==>
      At(t, sig).applHand || (op.ApplAction? && op.sig == sig && op.catches && op.mask.Some? && Managed(At(t, sig)))
  {
    match op {
      case Mask(how, mask) => FilterHands(t, mask, sig);
      case ApplAction(s, catches, mask) =>
        FilterHands(t, mask, sig);
        FilterHands(WithEntry(t, s, At(t, s).(applHand := true)), mask, sig);
      case ClientAction(s, handles, mask) =>
        FilterHands(WithEntry(t, s, At(t, s).(keepOpen := true, clientHand := handles)), mask, sig);
    }
  }

  /** Call k sets a handler. */
  predicate SetsHandler(ops: seq<Op>, sig: int, k: int) {
    0 <= k < |ops| && ops[k].ClientAction? && ops[k].sig == sig && ops[k].handles
  }

  /** The client has a handler: some call has set one and no later call has taken it away. */
  ghost predicate ClientHas(ops: seq<Op>, sig: int) {
    exists k :: SetsHandler(ops, sig, k) && NoneTakes(ops, sig, k)
  }

  predicate NoneTakes(ops: seq<Op>, sig: int, k: int) {
    forall j :: k < j < |ops| && 0 <= j && ops[j].ClientAction? && ops[j].sig == sig ==> ops[j].handles
  }

  /** The application has set a handler at some time. */
  ghost predicate ApplHas(ops: seq<Op>, sig: int) {
    exists k :: 0 <= k < |ops| && ops[k].ApplAction? && ops[k].sig == sig && ops[k].catches && ops[k].mask.Some?
  }

  lemma ClientHasNext(ops: seq<Op>, sig: int)
    requires ops != []
    ensures var op := ops[|ops| - 1];
      ClientHas(ops, sig) <==>
        if op.ClientAction? && op.sig == sig then op.handles else ClientHas(ops[..|ops| - 1], sig)
  {
    var n := |ops| - 1;
    var front, op := ops[..n], ops[n];
    assert forall k :: 0 <= k < n ==> front[k] == ops[k];
    if op.ClientAction? && op.sig == sig {
      if op.handles { assert SetsHandler(ops, sig, n) && NoneTakes(ops, sig, n); }
    } else {
      if k :| SetsHandler(front, sig, k) && NoneTakes(front, sig, k) {
        assert SetsHandler(ops, sig, k) && NoneTakes(ops, sig, k);
      }
      if k :| SetsHandler(ops, sig, k) && NoneTakes(ops, sig, k) {
        assert SetsHandler(front, sig, k) && NoneTakes(front, sig, k);
      }
    }
  }

  lemma ApplHasNext(ops: seq<Op>, sig: int)
    requires ops != []
    ensures var op := ops[|ops| - 1];
      ApplHas(ops, sig) <==>
        (op.ApplAction? && op.sig == sig && op.catches && op.mask.Some?) || ApplHas(ops[..|ops| - 1], sig)
  {
    assert forall k :: 0 <= k < |ops| - 1 ==> ops[..|ops| - 1][k] == ops[k];
  }

  /** After any history the client has a handler for a signal if and only if monitor manages the signal, some call of
      monitor_sigaction has set one, and no later call has taken it away; the application has been given one if and
      only if some call of sigaction or signal has caught the signal. */
  lemma {:induction false} HandlersExactly(c: Config, ops: seq<Op>, sig: int)
    requires 0 < sig < 65
    ensures var e := At(Run(InitTable(c), ops).0, sig);
      && (e.clientHand <==> Accepts(c, sig) && ClientHas(ops, sig))
      && (e.applHand <==> Accepts(c, sig) && ApplHas(ops, sig))
  {
    if ops == [] {
      InitExactly(c, sig);
    } else {
      var front := ops[..|ops| - 1];
      HandlersExactly(c, front, sig);
      RunKind(c, front, sig);
      StepHands(Run(InitTable(c), front).0, ops[|ops| - 1], sig);
      ClientHasNext(ops, sig);
      ApplHasNext(ops, sig);
    }
  }

  // ----- masks --------------------------------------------------------------------------------

  /** The call has a mask that monitor filters: a mask to block or to set, or the mask of a handler for a signal that
      monitor manages. */
  predicate Offers(c: Config, op: Op, m: set<int>) {
    match op
    case Mask(how, mask) => !how.Unblock? && mask == Some(m)
    case ApplAction(sig, _, mask) => Accepts(c, sig) && mask == Some(m)
    case ClientAction(sig, _, mask) => Accepts(c, sig) && mask == Some(m)
  }

  /** The table is one of this configuration: the entries that monitor manages are those that it accepts. */
  ghost predicate Configured(c: Config, t: Table) {
    |t.entries| == 65 && forall sig :: 0 < sig < 65 ==> (Managed(t.entries[sig]) <==> Accepts(c, sig))
  }

  /** The table that the filter of a call starts from. */
  function Prepared(t: Table, op: Op): Table {
    match op
    case Mask(_, _) => t
    case ApplAction(sig, catches, mask) =>
      if mask.Some? && catches then WithEntry(t, sig, At(t, sig).(applHand := true)) else t
    case ClientAction(sig, handles, _) => WithEntry(t, sig, At(t, sig).(keepOpen := true, clientHand := handles))
  }

  lemma StepIs(c: Config, t: Table, op: Op, m: set<int>)
    requires Configured(c, t)
    ensures Offers(c, op, m) ==> Step(t, op) == Filter(Prepared(t, op), m)
    ensures Configured(c, Prepared(t, op))
    ensures forall sig {:trigger At(Prepared(t, op), sig)} ::
      At(Prepared(t, op), sig).blocked == At(t, sig).blocked &&
      (At(Prepared(t, op), sig).keepOpen <==>
       At(t, sig).keepOpen || (op.ClientAction? && op.sig == sig && 0 <= sig < 65))
    ensures Prepared(t, op).list == t.list && Prepared(t, op).shootdown == t.shootdown
  {
  }

  /** A call whose mask is not filtered. */
  lemma StepIdle(c: Config, t: Table, op: Op)
    requires Configured(c, t) && forall m :: !Offers(c, op, m)
    ensures Step(t, op).1 == {}
    ensures Step(t, op).0 == t || (op.ClientAction? && Accepts(c, op.sig) && Step(t, op).0 == Prepared(t, op))
  {
    match op {
      case Mask(how, mask) => if mask.Some? { assert !Offers(c, op, mask.value); }
      case ApplAction(sig, catches, mask) => if mask.Some? { assert !Offers(c, op, mask.value); }
      case ClientAction(sig, handles, mask) => if mask.Some? { assert !Offers(c, op, mask.value); }
    }
  }

  /** What a filter does to one entry and to the mask. */
  lemma FilterIs(t: Table, mask: set<int>, sig: int)
    requires |t.entries| == 65 && 0 < sig < 65
    ensures var (v, passed) := Filter(t, mask); var e, e' := t.entries[sig], At(v, sig);
      && v.shootdown == Settle(t, mask).shootdown
      && (e'.keepOpen <==> e.keepOpen || (v.shootdown != t.shootdown && v.shootdown == sig))
      && (e'.blocked <==> e.blocked || (Managed(e) && sig in passed))
      && (sig in passed <==> sig in mask && !(Managed(e) && e'.keepOpen))
  {
  }

  lemma FilterOutside(t: Table, mask: set<int>, sig: int)
    requires |t.entries| == 65 && !(0 < sig < 65)
    ensures sig in Filter(t, mask).1 <==> sig in mask
  {
  }

  /** One call, seen from one signal. */
  lemma StepFlags(c: Config, t: Table, op: Op, sig: int)
    requires Configured(c, t) && 0 < sig < 65
    ensures var (v, passed) := Step(t, op); var e, e' := t.entries[sig], At(v, sig);
      && (e'.keepOpen <==> e.keepOpen || (Accepts(c, sig) && op.ClientAction? && op.sig == sig)
                           || (v.shootdown != t.shootdown && v.shootdown == sig))
      && (e'.blocked <==> e.blocked || (Accepts(c, sig) && sig in passed))
      && (sig in passed <==> (exists m :: Offers(c, op, m) && sig in m) && !(Accepts(c, sig) && e'.keepOpen))
  {
    if m :| Offers(c, op, m) {
      StepIs(c, t, op, m);
      FilterIs(Prepared(t, op), m, sig);
      assert forall m' :: Offers(c, op, m') ==> m' == m;
    } else {
      StepIdle(c, t, op);
      StepIs(c, t, op, {});
    }
  }

  lemma RunConfigured(c: Config, ops: seq<Op>)
    ensures Configured(c, Run(InitTable(c), ops).0)
  {
    forall sig | 0 < sig < 65 ensures Managed(At(Run(InitTable(c), ops).0, sig)) <==> Accepts(c, sig) {
      RunKind(c, ops, sig);
    }
    RunKind(c, ops, 1);
  }

  /** Some call of monitor_sigaction was about the signal. */
  ghost predicate ClientCalled(ops: seq<Op>, sig: int) {
    exists k :: 0 <= k < |ops| && ops[k].ClientAction? && ops[k].sig == sig
  }

  lemma ClientCalledNext(ops: seq<Op>, sig: int)
    requires ops != []
    ensures var op := ops[|ops| - 1];
      ClientCalled(ops, sig) <==> (op.ClientAction? && op.sig == sig) || ClientCalled(ops[..|ops| - 1], sig)
  {
    assert forall k :: 0 <= k < |ops| - 1 ==> ops[..|ops| - 1][k] == ops[k];
  }

  /** After any history a signal is kept open if and only if it is on the configured client list, the client has
      called monitor_sigaction for it, or it is the shootdown signal; and it is marked blocked if and only if monitor
      manages it and it was in a mask passed on. */
  lemma {:induction false} FlagsExactly(c: Config, ops: seq<Op>, sig: int)
    requires 0 < sig < 65
    ensures var (t, seen) := Run(InitTable(c), ops); var e := At(t, sig);
      && (e.keepOpen <==>
            InClientList(c, sig) || (Accepts(c, sig) && ClientCalled(ops, sig)) || t.shootdown == sig)
      && (e.blocked <==> Accepts(c, sig) && sig in seen)
  {
    InitExactly(c, sig);
    if ops != [] {
      var front, op := ops[..|ops| - 1], ops[|ops| - 1];
      FlagsExactly(c, front, sig);
      RunConfigured(c, front);
      var t := Run(InitTable(c), front).0;
      StepFlags(c, t, op, sig);
      StepSame(t, op);
      ClientCalledNext(ops, sig);
      ShootdownKept(c, front, op);
    }
  }

  /** A shootdown signal once chosen stays, and it is a signal. */
  lemma ShootdownKept(c: Config, ops: seq<Op>, op: Op)
    ensures var t := Run(InitTable(c), ops).0; var v := Step(t, op).0;
      (t.shootdown == v.shootdown || t.shootdown < 0) && (t.shootdown < 0 || 0 < t.shootdown < 65)
  {
    RunKeeps(c, ops);
    StepSame(Run(InitTable(c), ops).0, op);
  }

  /** Exactly which signals a call passes on: those of the mask that it offers, except the signals that monitor
      manages and keeps open after the call. */
  lemma PassedExactly(c: Config, ops: seq<Op>, op: Op, sig: int)
    requires 0 < sig < 65
    ensures sig in Step(Run(InitTable(c), ops).0, op).1 <==>
      (exists m :: Offers(c, op, m) && sig in m) &&
      !(Accepts(c, sig) && At(Run(InitTable(c), ops + [op]).0, sig).keepOpen)
  {
    RunConfigured(c, ops);
    StepFlags(c, Run(InitTable(c), ops).0, op, sig);
    assert (ops + [op])[..|ops + [op]| - 1] == ops;
  }

  // ----- the choice ---------------------------------------------------------------------------

  /** The first element of the list that satisfies p. */
  lemma {:induction false} FirstAt(list: seq<int>, p: int -> bool) returns (k: int)
    requires First(list, p) > 0
    ensures 0 <= k < |list| && list[k] == First(list, p) && p(list[k]) && forall j :: 0 <= j < k ==> !p(list[j])
  {
    k := 0;
    if !p(list[0]) {
      var k' := FirstAt(list[1..], p);
      k := k' + 1;
      assert forall j :: 0 < j < k ==> list[j] == list[1..][j - 1];
    }
  }

  /** The call masks all that is still open of the list. */
  ghost predicate CoversAll(c: Config, ops: seq<Op>, op: Op) {
    exists m :: Offers(c, op, m) && forall x :: x in InitTable(c).list && NotMasked(c, ops, x) ==> x in m
  }

  /** No earlier call has passed a mask with the signal on, or monitor does not manage it. */
  ghost predicate NotMasked(c: Config, ops: seq<Op>, sig: int) {
    !(Accepts(c, sig) && sig in Run(InitTable(c), ops).1)
  }

  lemma OpenIs(c: Config, ops: seq<Op>, x: int)
    requires x in InitTable(c).list
    ensures 0 < x < 65 && x in Run(InitTable(c), ops).0.list
    ensures Open(Run(InitTable(c), ops).0)(x) <==> NotMasked(c, ops, x)
  {
    RunKeeps(c, ops);
    RunKind(c, ops, x);
    FlagsExactly(c, ops, x);
  }

  predicate Covers(t: Table, m: set<int>) { forall x :: x in t.list && Open(t)(x) ==> x in m }

  lemma SettlesNow(t: Table, m: set<int>)
    requires (forall x :: x in t.list ==> x > 0) && (exists x :: x in t.list && Open(t)(x)) && t.shootdown < 0
    ensures var v := Filter(t, m).0;
      if Covers(t, m) then
        exists k :: 0 <= k < |t.list| && v.shootdown == t.list[k] && Open(t)(t.list[k]) &&
                    forall j :: 0 <= j < k ==> !Open(t)(t.list[j])
      else v.shootdown == t.shootdown
  {
    FirstHolds(t.list, Open(t));
    FirstHolds(t.list, OpenAfter(t, m));
    var k := FirstAt(t.list, Open(t));
    assert Covers(t, m) <==> First(t.list, OpenAfter(t, m)) < 0;
  }

  /** Signal r is the first of the list that no mask passed on has had on, but for signals not managed. */
  ghost predicate FirstOpen(c: Config, ops: seq<Op>, r: int) {
    var list := InitTable(c).list;
    exists k :: 0 <= k < |list| && r == list[k] && NotMasked(c, ops, list[k]) &&
                forall j :: 0 <= j < k ==> !NotMasked(c, ops, list[j])
  }

  lemma OpenAll(c: Config, ops: seq<Op>)
    ensures var t, list := Run(InitTable(c), ops).0, InitTable(c).list;
      t.list == list && forall x :: x in list ==> 0 < x < 65 && (Open(t)(x) <==> NotMasked(c, ops, x))
  {
    RunKind(c, ops, 1);
    forall x | x in InitTable(c).list
      ensures 0 < x < 65 && (Open(Run(InitTable(c), ops).0)(x) <==> NotMasked(c, ops, x))
    {
      OpenIs(c, ops, x);
    }
  }

  lemma SettledFirst(c: Config, ops: seq<Op>, u: Table, m: set<int>)
    requires u.list == InitTable(c).list && u.shootdown < 0 && exists x :: x in u.list && Open(u)(x)
    requires forall x :: x in u.list ==> 0 < x && (Open(u)(x) <==> NotMasked(c, ops, x))
    ensures if forall x :: x in u.list && NotMasked(c, ops, x) ==> x in m
      then FirstOpen(c, ops, Filter(u, m).0.shootdown) else Filter(u, m).0.shootdown == u.shootdown
  {
    SettlesNow(u, m);
    assert forall j :: 0 <= j < |u.list| ==> u.list[j] in u.list;
  }

  /** A call with mask m. */
  lemma SettlesWith(c: Config, ops: seq<Op>, op: Op, m: set<int>)
    requires Run(InitTable(c), ops).0.shootdown < 0 && Offers(c, op, m)
    ensures var t, list := Run(InitTable(c), ops).0, InitTable(c).list; var v := Step(t, op).0;
      if forall x :: x in list && NotMasked(c, ops, x) ==> x in m then FirstOpen(c, ops, v.shootdown)
      else v.shootdown == t.shootdown
  {
    var t := Run(InitTable(c), ops).0;
    RunKeeps(c, ops);
    RunConfigured(c, ops);
    OpenAll(c, ops);
    StepIs(c, t, op, m);
    var u := Prepared(t, op);
    assert forall x :: x in t.list ==> Open(u)(x) == Open(t)(x);
    var x :| x in t.list && Open(t)(x);
    assert Open(u)(x);
    SettledFirst(c, ops, u, m);
  }

  /** When the filter of a call chooses the shootdown signal: none is chosen yet, and the call masks all that is still
      open; then it is the first of those. */
  lemma SettlesExactly(c: Config, ops: seq<Op>, op: Op)
    requires Run(InitTable(c), ops).0.shootdown < 0
    ensures var v := Run(InitTable(c), ops + [op]).0;
      if CoversAll(c, ops, op) then FirstOpen(c, ops, v.shootdown)
      else v.shootdown == Run(InitTable(c), ops).0.shootdown
  {
    assert (ops + [op])[..|ops + [op]| - 1] == ops;
    if m :| Offers(c, op, m) {
      SettlesWith(c, ops, op, m);
      assert forall m' :: Offers(c, op, m') ==> m' == m;
    } else {
      RunConfigured(c, ops);
      StepIdle(c, Run(InitTable(c), ops).0, op);
    }
  }

  // ----- monitor_shootdown_signal -------------------------------------------------------------

  /** No client handler, and no application handler, as far as the calls tell. */
  ghost predicate ClientFree(c: Config, ops: seq<Op>, sig: int) { !(Accepts(c, sig) && ClientHas(ops, sig)) }
  ghost predicate ApplFree(c: Config, ops: seq<Op>, sig: int) { !(Accepts(c, sig) && ApplHas(ops, sig)) }

  lemma UseIs(c: Config, ops: seq<Op>)
    ensures var t := Run(InitTable(c), ops).0;
      forall x :: x in t.list ==>
        && (Open(t)(x) <==> NotMasked(c, ops, x))
        && (Free(t)(x) <==> NotMasked(c, ops, x) && ClientFree(c, ops, x))
        && (Unused(t)(x) <==> NotMasked(c, ops, x) && ClientFree(c, ops, x) && ApplFree(c, ops, x))
  {
    OpenAll(c, ops);
    var t := Run(InitTable(c), ops).0;
    forall x | x in t.list
      ensures Free(t)(x) <==> NotMasked(c, ops, x) && ClientFree(c, ops, x)
      ensures Unused(t)(x) <==> NotMasked(c, ops, x) && ClientFree(c, ops, x) && ApplFree(c, ops, x)
    {
      HandlersExactly(c, ops, x);
    }
  }

  /** The k-th of the list is the one to take: open, and no other open one is less used, nor any earlier one as little
      used, where one without handlers is less used than one with an application handler only, and that than one with
      a client handler. */
  ghost predicate Best(c: Config, ops: seq<Op>, k: int)
    requires 0 <= k < |InitTable(c).list|
  {
    var list := InitTable(c).list;
    && NotMasked(c, ops, list[k])
    && forall j :: 0 <= j < |list| && NotMasked(c, ops, list[j]) ==>
         if ClientFree(c, ops, list[j]) && ApplFree(c, ops, list[j]) then
           ClientFree(c, ops, list[k]) && ApplFree(c, ops, list[k]) && k <= j
         else if ClientFree(c, ops, list[j]) then
           ClientFree(c, ops, list[k]) && (ApplFree(c, ops, list[k]) || k <= j)
         else ClientFree(c, ops, list[k]) || k <= j
  }

  /** What monitor_shootdown_signal returns after any history, in terms of the calls made. */
  lemma ChoiceExactly(c: Config, ops: seq<Op>)
    requires Run(InitTable(c), ops).0.shootdown < 0
    ensures exists k :: 0 <= k < |InitTable(c).list| && Choice(Run(InitTable(c), ops).0) == InitTable(c).list[k] &&
                        Best(c, ops, k)
  {
    var t := Run(InitTable(c), ops).0;
    RunKeeps(c, ops);
    FallbackUnreachable(c, ops);
    OpenAll(c, ops);
    UseIs(c, ops);
    FirstHolds(t.list, Free(t));
    FirstHolds(t.list, Unused(t));
    var p :=
      if First(t.list, Unused(t)) > 0 then Unused(t) else if First(t.list, Free(t)) > 0 then Free(t) else Open(t);
    var k := FirstAt(t.list, p);
    assert forall j :: 0 <= j < |t.list| ==> t.list[j] in t.list;
    assert Best(c, ops, k);
  }
}
