/** make_compatible_eventset of papiex/src/main.c: from a comma-separated list of events, greedily keep those
    that can be counted together.  What PAPI answers is a parameter. */
module EventSet {

  import opened Options

  /** PAPI: the code of a name, whether the hardware has the event, and whether a list of events can be added
      to one event set. */
  datatype Papi = Papi(code: string -> Option<int>, query: int -> bool, addable: seq<int> -> bool)

  // ----- comma-separated lists ----------------------------------------------------------------

  predicate IsToken(t: string) { t != "" && ',' !in t }

  /** The characters up to the first comma. */
  function Head(s: string): (t: string)
    ensures |t| <= |s| && t == s[..|t|] && ',' !in t
    ensures |t| < |s| ==> s[|t|] == ','
  {
    if s == "" || s[0] == ',' then "" else [s[0]] + Head(s[1..])
  }

  /** What strtok(s, ",") finds: the runs of other characters. */
  function Tokens(s: string): (ts: seq<string>)
    decreases |s|
  {
    if s == "" then []
    else if s[0] == ',' then Tokens(s[1..])
    else [Head(s)] + Tokens(s[|Head(s)|..])
  }

  /** A list that append_option has built. */
  function Join(ts: seq<string>): string {
    if ts == [] then "" else Append(Join(ts[..|ts| - 1]), ts[|ts| - 1])
  }

  function Append(s: string, t: string): string { if s != "" then s + "," + t else t }

  lemma {:induction false} TokensAreTokens(s: string)
    ensures forall i :: 0 <= i < |Tokens(s)| ==> IsToken(Tokens(s)[i])
    decreases |s|
  {
    if s != "" {
      if s[0] == ',' { TokensAreTokens(s[1..]); } else { TokensAreTokens(s[|Head(s)|..]); }
    }
  }

  lemma {:induction false} HeadOf(t: string, rest: string)
    requires ',' !in t && (rest == "" || rest[0] == ',')
    ensures Head(t + rest) == t
  {
    if t == "" {
      assert t + rest == rest;
    } else {
      assert (t + rest)[1..] == t[1..] + rest;
      HeadOf(t[1..], rest);
    }
  }

  lemma TokensOne(t: string)
    requires IsToken(t)
    ensures Tokens(t) == [t]
  {
    HeadOf(t, "");
    assert t + "" == t;
  }

  lemma {:induction false} TokensAppend(s: string, t: string)
    requires IsToken(t)
    ensures Tokens(s + "," + t) == Tokens(s) + [t]
    decreases |s|
  {
    var u := s + "," + t;
    if s == "" {
      assert u[1..] == t;
      TokensOne(t);
    } else if s[0] == ',' {
      assert u[1..] == s[1..] + "," + t;
      TokensAppend(s[1..], t);
    } else {
      var h := Head(s);
      var rest := s[|h|..] + "," + t;
      assert u == h + rest;
      HeadOf(h, rest);
      assert u[|h|..] == rest;
      TokensAppend(s[|h|..], t);
    }
  }

  /** Splitting undoes joining. */
  lemma {:induction false} TokensJoin(ts: seq<string>)
    requires forall i :: 0 <= i < |ts| ==> IsToken(ts[i])
    ensures Tokens(Join(ts)) == ts && (ts != [] ==> Join(ts) != "")
  {
    if ts != [] {
      var front, t := ts[..|ts| - 1], ts[|ts| - 1];
      TokensJoin(front);
      assert ts == front + [t];
      if Join(front) != "" { TokensAppend(Join(front), t); } else { TokensOne(t); }
    }
  }

  /** The number of characters of the events of a list. */
  function Letters(ts: seq<string>): int {
    if ts == [] then 0 else Letters(ts[..|ts| - 1]) + |ts[|ts| - 1]|
  }

  /** The list has one comma between two events and none at its ends. */
  lemma {:induction false} OneCommaEach(ts: seq<string>)
    requires forall i :: 0 <= i < |ts| ==> IsToken(ts[i])
    ensures ts != [] ==> |Join(ts)| == Letters(ts) + |ts| - 1
    ensures ts == [] ==> Join(ts) == ""
  {
    if ts != [] {
      var front := ts[..|ts| - 1];
      OneCommaEach(front);
      TokensJoin(front);
    }
  }

  // ----- the choice ---------------------------------------------------------------------------

  datatype Fate = Accepted | Unavailable | Incompatible

  /** What becomes of a token when these codes have been accepted. */
  function FateOf(p: Papi, codes: seq<int>, t: string): Fate {
    var code := p.code(t);
    if code.None? then Unavailable
    else if p.query(code.value) && p.addable(codes + [code.value]) then Accepted
    else Incompatible
  }

  /** The codes after one more token. */
  function Next(p: Papi, codes: seq<int>, t: string): seq<int> {
    if FateOf(p, codes, t).Accepted? then codes + [p.code(t).value] else codes
  }

  /** The codes accepted of some tokens. */
  function Chosen(p: Papi, ts: seq<string>): seq<int> {
    if ts == [] then [] else Next(p, Chosen(p, ts[..|ts| - 1]), ts[|ts| - 1])
  }

  /** The tokens of one fate, in order. */
  function Kept(p: Papi, ts: seq<string>, f: Fate): seq<string> {
    if ts == [] then []
    else
      var front, t := ts[..|ts| - 1], ts[|ts| - 1];
      if FateOf(p, Chosen(p, front), t) == f then Kept(p, front, f) + [t] else Kept(p, front, f)
  }

  lemma KeptNext(p: Papi, ts: seq<string>, t: string, f: Fate)
    ensures Kept(p, ts + [t], f) == (if FateOf(p, Chosen(p, ts), t) == f then Kept(p, ts, f) + [t] else Kept(p, ts, f))
    ensures Chosen(p, ts + [t]) == Next(p, Chosen(p, ts), t)
  {
    assert (ts + [t])[..|ts + [t]| - 1] == ts;
  }

  /** The fate of the j-th token. */
  function FateAt(p: Papi, ts: seq<string>, j: int): Fate
    requires 0 <= j < |ts|
  {
    FateOf(p, Chosen(p, ts[..j]), ts[j])
  }

  /** Where the tokens of one fate are in the request. */
  function Places(p: Papi, ts: seq<string>, f: Fate): seq<int> {
    if ts == [] then []
    else
      var n := |ts| - 1;
      if FateOf(p, Chosen(p, ts[..n]), ts[n]) == f then Places(p, ts[..n], f) + [n] else Places(p, ts[..n], f)
  }

  predicate Increasing(q: seq<int>) { forall i, j :: 0 <= i < j < |q| ==> q[i] < q[j] }

  lemma {:induction false} PlacesAre(p: Papi, ts: seq<string>, f: Fate)
    ensures Increasing(Places(p, ts, f))
    ensures forall j :: j in Places(p, ts, f) <==> 0 <= j < |ts| && FateAt(p, ts, j) == f
  {
    if ts != [] {
      var n := |ts| - 1;
      var front := ts[..n];
      PlacesAre(p, front, f);
      assert forall j :: 0 <= j < n ==> ts[..j] == front[..j];
      assert forall j :: 0 <= j < n ==> FateAt(p, ts, j) == FateAt(p, front, j);
      assert forall k :: 0 <= k < |Places(p, front, f)| ==> Places(p, front, f)[k] in Places(p, front, f);
    }
  }

  lemma {:induction false} KeptAtPlaces(p: Papi, ts: seq<string>, f: Fate)
    ensures |Kept(p, ts, f)| == |Places(p, ts, f)|
    ensures forall k :: 0 <= k < |Places(p, ts, f)| ==>
      0 <= Places(p, ts, f)[k] < |ts| && Kept(p, ts, f)[k] == ts[Places(p, ts, f)[k]]
  {
    if ts != [] { KeptAtPlaces(p, ts[..|ts| - 1], f); }
  }

  /** The list of each fate is the events of that fate, in the order of the request: those at the increasing sequence
      of all their places.  Each place is in the list of exactly one fate, so the three lists make up the request. */
  lemma Partition(p: Papi, ts: seq<string>)
    ensures forall f :: Increasing(Places(p, ts, f)) && |Kept(p, ts, f)| == |Places(p, ts, f)|
    ensures forall f, k {:trigger Kept(p, ts, f)[k]} :: 0 <= k < |Kept(p, ts, f)| ==>
      0 <= Places(p, ts, f)[k] < |ts| && Kept(p, ts, f)[k] == ts[Places(p, ts, f)[k]]
    ensures forall f, j :: 0 <= j < |ts| ==> (j in Places(p, ts, f) <==> FateAt(p, ts, j) == f)
    ensures multiset(ts) == multiset(Kept(p, ts, Accepted)) + multiset(Kept(p, ts, Unavailable))
                            + multiset(Kept(p, ts, Incompatible))
  {
    forall f
      ensures Increasing(Places(p, ts, f)) && |Kept(p, ts, f)| == |Places(p, ts, f)|
      ensures forall k :: 0 <= k < |Kept(p, ts, f)| ==>
        0 <= Places(p, ts, f)[k] < |ts| && Kept(p, ts, f)[k] == ts[Places(p, ts, f)[k]]
      ensures forall j :: 0 <= j < |ts| ==> (j in Places(p, ts, f) <==> FateAt(p, ts, j) == f)
    {
      PlacesAre(p, ts, f);
      KeptAtPlaces(p, ts, f);
    }
    MultisetOfKept(p, ts);
  }

  lemma {:induction false} MultisetOfKept(p: Papi, ts: seq<string>)
    ensures multiset(ts) == multiset(Kept(p, ts, Accepted)) + multiset(Kept(p, ts, Unavailable))
                            + multiset(Kept(p, ts, Incompatible))
  {
    if ts != [] {
      var front, t := ts[..|ts| - 1], ts[|ts| - 1];
      MultisetOfKept(p, front);
      assert ts == front + [t];
      KeptNext(p, front, t, Accepted);
      KeptNext(p, front, t, Unavailable);
      KeptNext(p, front, t, Incompatible);
    }
  }

  /** The codes of the events of a list. */
  function Codes(p: Papi, ts: seq<string>): seq<int> {
    if ts == [] then []
    else
      var c := p.code(ts[|ts| - 1]);
      Codes(p, ts[..|ts| - 1]) + (if c.Some? then [c.value] else [])
  }

  /** The accepted events can be added together, and so could every list of them on the way. */
  lemma {:induction false} AddableThroughout(p: Papi, ts: seq<string>)
    ensures Chosen(p, ts) == Codes(p, Kept(p, ts, Accepted))
    ensures forall k :: 0 < k <= |Chosen(p, ts)| ==> p.addable(Chosen(p, ts)[..k])
  {
    if ts != [] {
      var front, t := ts[..|ts| - 1], ts[|ts| - 1];
      AddableThroughout(p, front);
      assert ts == front + [t];
      KeptNext(p, front, t, Accepted);
      var codes := Chosen(p, front);
      assert forall k :: 0 < k <= |codes| ==> Chosen(p, ts)[..k] == codes[..k];
      assert Chosen(p, ts)[..|Chosen(p, ts)|] == Chosen(p, ts);
      assert (Kept(p, front, Accepted) + [t])[..|Kept(p, front, Accepted)|] == Kept(p, front, Accepted);
    }
  }

  // ----- maximality and stability -------------------------------------------------------------

  /** Any event can be dropped from an event set. */
  ghost predicate ClosedUnderDropping(p: Papi) {
    forall xs: seq<int>, i {:trigger xs[..i] + xs[i + 1..]} :: 0 <= i < |xs| && p.addable(xs) ==>
      p.addable(xs[..i] + xs[i + 1..])
  }

  lemma {:induction false} DropTail(p: Papi, xs: seq<int>, m: int, c: int)
    requires ClosedUnderDropping(p) && 0 <= m <= |xs| && p.addable(xs + [c])
    ensures p.addable(xs[..m] + [c])
    decreases |xs|
  {
    if m < |xs| {
      var n := |xs| - 1;
      assert (xs + [c])[..n] + (xs + [c])[n + 1..] == xs[..n] + [c];
      DropTail(p, xs[..n], m, c);
      assert xs[..n][..m] == xs[..m];
    } else {
      assert xs[..m] == xs;
    }
  }

  /** The add test rejected the j-th token. */
  predicate AddRejected(p: Papi, ts: seq<string>, j: int)
    requires 0 <= j < |ts|
  {
    var c := p.code(ts[j]);
    c.Some? && p.query(c.value) && !p.addable(Chosen(p, ts[..j]) + [c.value])
  }

  lemma {:induction false} CodesGrow(p: Papi, ts: seq<string>, j: int)
    requires 0 <= j <= |ts|
    ensures Chosen(p, ts[..j]) <= Chosen(p, ts)
  {
    if j < |ts| {
      CodesGrow(p, ts[..|ts| - 1], j);
      assert ts[..|ts| - 1][..j] == ts[..j];
    } else {
      assert ts[..j] == ts;
    }
  }

  /** If events can be dropped from a set, then no event that the add test rejected can be added to the final
      set. */
  lemma RejectedForGood(p: Papi, ts: seq<string>, j: int)
    requires ClosedUnderDropping(p) && 0 <= j < |ts| && AddRejected(p, ts, j)
    ensures !p.addable(Chosen(p, ts) + [p.code(ts[j]).value])
  {
    CodesGrow(p, ts, j);
    var xs, m, c := Chosen(p, ts), |Chosen(p, ts[..j])|, p.code(ts[j]).value;
    assert xs[..m] == Chosen(p, ts[..j]);
    if p.addable(xs + [c]) { DropTail(p, xs, m, c); }
  }

  /** Running it again on its own answer accepts everything and changes nothing. */
  lemma {:induction false} Stable(p: Papi, ts: seq<string>)
    ensures var kept := Kept(p, ts, Accepted);
      Kept(p, kept, Accepted) == kept && Chosen(p, kept) == Chosen(p, ts)
  {
    if ts != [] {
      var front, t := ts[..|ts| - 1], ts[|ts| - 1];
      Stable(p, front);
      assert ts == front + [t];
      KeptNext(p, front, t, Accepted);
      KeptNext(p, Kept(p, front, Accepted), t, Accepted);
    }
  }

  lemma {:induction false} KeptIn(p: Papi, ts: seq<string>, f: Fate)
    ensures forall t :: t in Kept(p, ts, f) ==> t in ts
  {
    if ts != [] {
      KeptIn(p, ts[..|ts| - 1], f);
      KeptNext(p, ts[..|ts| - 1], ts[|ts| - 1], f);
      assert ts == ts[..|ts| - 1] + [ts[|ts| - 1]];
    }
  }

  /** The same on strings: the list left in the buffer reads back as the accepted events, and a second run
      leaves it as it is. */
  lemma SecondRun(p: Papi, s: string)
    ensures var kept := Kept(p, Tokens(s), Accepted);
      && Tokens(Join(kept)) == kept
      && Join(Kept(p, Tokens(Join(kept)), Accepted)) == Join(kept)
      && Chosen(p, Tokens(Join(kept))) == Chosen(p, Tokens(s))
  {
    var kept := Kept(p, Tokens(s), Accepted);
    TokensAreTokens(s);
    KeptIn(p, Tokens(s), Accepted);
    assert forall i :: 0 <= i < |kept| ==> kept[i] in Tokens(s);
    TokensJoin(kept);
    Stable(p, Tokens(s));
  }

  // ----- the buffers --------------------------------------------------------------------------

  /** Whether the routine returns PAPI_OK: its result is that of the last token. */
  predicate LastOk(p: Papi, ts: seq<string>) {
    ts == [] ||
    var c := p.code(ts[|ts| - 1]);
    c.Some? && (p.query(c.value) ==> !AddRejected(p, ts, |ts| - 1))
  }

  /** What the loop has written: the accepted events and their codes, and the two lists of the others. */
  datatype Record = Record(comp: string, codes: seq<int>, un: string, inc: string)

  /** The record of the tokens `done`. */
  predicate Recorded(p: Papi, done: seq<string>, r: Record) {
    && r.comp == Join(Kept(p, done, Accepted)) && r.codes == Chosen(p, done)
    && r.un == Join(Kept(p, done, Unavailable)) && r.inc == Join(Kept(p, done, Incompatible))
  }

  lemma JoinNext(ts: seq<string>, t: string)
    ensures Join(ts + [t]) == Append(Join(ts), t)
  {
    assert (ts + [t])[..|ts|] == ts;
  }

  /** Event t joins the list of its fate. */
  function Extended(r: Record, t: string, f: Fate, codes: seq<int>): Record {
    match f
    case Accepted => r.(comp := Append(r.comp, t), codes := codes)
    case Unavailable => r.(un := Append(r.un, t))
    case Incompatible => r.(inc := Append(r.inc, t))
  }

  /** The list of one fate after one more token. */
  lemma JoinKept(p: Papi, done: seq<string>, t: string, f: Fate)
    ensures Join(Kept(p, done + [t], f)) ==
      (if FateOf(p, Chosen(p, done), t) == f then Append(Join(Kept(p, done, f)), t) else Join(Kept(p, done, f)))
  {
    KeptNext(p, done, t, f);
    JoinNext(Kept(p, done, f), t);
  }

  lemma RecordNext(p: Papi, done: seq<string>, t: string, r: Record)
    requires Recorded(p, done, r)
    ensures Recorded(p, done + [t], Extended(r, t, FateOf(p, r.codes, t), Next(p, r.codes, t)))
  {
    KeptNext(p, done, t, Accepted);
    JoinKept(p, done, t, Accepted);
    JoinKept(p, done, t, Unavailable);
    JoinKept(p, done, t, Incompatible);
  }

  ghost predicate SomeRejected(p: Papi, ts: seq<string>) { exists j :: 0 <= j < |ts| && AddRejected(p, ts, j) }

  predicate Rejected(p: Papi, done: seq<string>, t: string) {
    var code := p.code(t);
    code.Some? && p.query(code.value) && !p.addable(Chosen(p, done) + [code.value])
  }

  lemma RejectedNext(p: Papi, done: seq<string>, t: string)
    ensures SomeRejected(p, done + [t]) <==> SomeRejected(p, done) || Rejected(p, done, t)
    ensures LastOk(p, done + [t]) <==> p.code(t).Some? && !Rejected(p, done, t)
  {
    var all, n := done + [t], |done|;
    assert all[..n] == done;
    assert forall j :: 0 <= j < n ==> all[..j] == done[..j] && all[j] == done[j];
    assert forall j :: 0 <= j < n ==> AddRejected(p, all, j) == AddRejected(p, done, j);
    assert AddRejected(p, all, n) <==> Rejected(p, done, t);
  }

  /** The verdicts on a token: the record it leads to, the result so far, and whether the add test rejected it. */
  ghost predicate Judged(p: Papi, done: seq<string>, t: string, r: Record, ok: bool, rejected: bool) {
    Recorded(p, done + [t], r) && ok == LastOk(p, done + [t]) && rejected == Rejected(p, done, t)
  }

  lemma JudgeUnavailable(p: Papi, done: seq<string>, t: string, r: Record)
    requires Recorded(p, done, r) && p.code(t).None?
    ensures Judged(p, done, t, r.(un := Append(r.un, t)), false, false)
  {
    RecordNext(p, done, t, r);
    RejectedNext(p, done, t);
  }

  lemma JudgeUncountable(p: Papi, done: seq<string>, t: string, r: Record)
    requires Recorded(p, done, r) && p.code(t).Some? && !p.query(p.code(t).value)
    ensures Judged(p, done, t, r.(inc := Append(r.inc, t)), true, false)
  {
    RecordNext(p, done, t, r);
    RejectedNext(p, done, t);
  }

  lemma JudgeRejected(p: Papi, done: seq<string>, t: string, r: Record)
    requires Recorded(p, done, r) && p.code(t).Some? && p.query(p.code(t).value)
    requires !p.addable(r.codes + [p.code(t).value])
    ensures Judged(p, done, t, r.(inc := Append(r.inc, t)), false, true)
  {
    RecordNext(p, done, t, r);
    RejectedNext(p, done, t);
  }

  lemma JudgeAccepted(p: Papi, done: seq<string>, t: string, r: Record)
    requires Recorded(p, done, r) && p.code(t).Some? && p.query(p.code(t).value)
    requires p.addable(r.codes + [p.code(t).value])
    ensures Judged(p, done, t, r.(comp := Append(r.comp, t), codes := r.codes + [p.code(t).value]), true, false)
  {
    RecordNext(p, done, t, r);
    RejectedNext(p, done, t);
  }

  /** The current token and the rest of the buffer are what comes after the tokens `done`. */
  predicate Pending(ts: seq<string>, done: seq<string>, t: Option<string>, rest: string) {
    if t == None then done == ts else ts == done + [t.value] + Tokens(rest) && IsToken(t.value)
  }

  predicate Found(s: string, t: Option<string>, rest: string) {
    if t == None then Tokens(s) == [] else IsToken(t.value) && Tokens(s) == [t.value] + Tokens(rest)
  }

  lemma PendingNext(ts: seq<string>, done: seq<string>, t: string, s: string, t': Option<string>, rest: string)
    requires Pending(ts, done, Some(t), s) && Found(s, t', rest)
    ensures Pending(ts, done + [t], t', rest)
  {
  }

  class Tool {
    var events: string
    var unavailable: string
    var incompatible: string
    var couldNotAdd: bool

    constructor (events: string)
      ensures this.events == events && unavailable == "" && incompatible == "" && !couldNotAdd
    {
      this.events, unavailable, incompatible, couldNotAdd := events, "", "", false;
    }

    /** The body of the loop, for one token. */
    method Consider(p: Papi, t: string, comp: string, codes: seq<int>, ghost done: seq<string>)
      returns (comp': string, codes': seq<int>, ok: bool, ghost rejected: bool)
      requires Recorded(p, done, Record(comp, codes, unavailable, incompatible))
      modifies this`unavailable, this`incompatible, this`couldNotAdd
      ensures Judged(p, done, t, Record(comp', codes', unavailable, incompatible), ok, rejected)
      ensures couldNotAdd <==> old(couldNotAdd) || rejected
    {
      ghost var r := Record(comp, codes, unavailable, incompatible);
      comp', codes', ok, rejected := comp, codes, false, false;
      var code := p.code(t);
      if code.None? {
        JudgeUnavailable(p, done, t, r);
        unavailable := Append(unavailable, t);
      } else if !p.query(code.value) {
        JudgeUncountable(p, done, t, r);
        ok := true;
        incompatible := Append(incompatible, t);
      } else if p.addable(codes + [code.value]) {
        JudgeAccepted(p, done, t, r);
        ok := true;
        codes' := codes + [code.value];
        comp' := Append(comp, t);
      } else {
        JudgeRejected(p, done, t, r);
        rejected := true;
        incompatible := Append(incompatible, t);
        couldNotAdd := true;
      }
    }

    /** make_compatible_eventset.  The result is None when strtok finds no token in a list that is not empty: the
        routine then uses the null pointer. */
    method MakeCompatible(p: Papi) returns (ok: Option<bool>)
      modifies this
      ensures ok == None <==> old(events) != "" && Tokens(old(events)) == []
      ensures ok == None ==>
        events == old(events) && unavailable == "" && incompatible == "" && couldNotAdd == old(couldNotAdd)
      ensures var ts := Tokens(old(events));
        ok.Some? ==>
        && events == Join(Kept(p, ts, Accepted))
        && unavailable == Join(Kept(p, ts, Unavailable))
        && incompatible == Join(Kept(p, ts, Incompatible))
        && ok.value == LastOk(p, ts)
        && (couldNotAdd <==> old(couldNotAdd) || SomeRejected(p, ts))
    {
      unavailable, incompatible := "", "";
      ok := Some(true);
      if events != "" {
        assert events[0..] == events;
        var tmp, next := Strtok(events, 0);
        if tmp == None {
          return None;
        }
        var all := ChooseAll(p, tmp.value, next);
        ok := Some(all);
      }
    }

    /** The loop, from the first token on. */
    method ChooseAll(p: Papi, first: string, start: int) returns (ok: bool)
      requires 0 <= start <= |events| && IsToken(first) && Tokens(events) == [first] + Tokens(events[start..])
      requires unavailable == "" && incompatible == ""
      modifies this
      ensures var ts := Tokens(old(events));
        && Recorded(p, ts, Record(events, Chosen(p, ts), unavailable, incompatible))
        && ok == LastOk(p, ts)
        && (couldNotAdd <==> old(couldNotAdd) || SomeRejected(p, ts))
    {
      var comp := "";
      var codes: seq<int> := [];
      ghost var ts := Tokens(events);
      ghost var done: seq<string> := [];
      var tmp, next := Some(first), start;
      ok := true;
      while tmp != None
        invariant 0 <= next <= |events| && Pending(ts, done, tmp, events[next..])
        invariant Recorded(p, done, Record(comp, codes, unavailable, incompatible))
        invariant events == old(events) && ok == LastOk(p, done)
        invariant couldNotAdd <==> old(couldNotAdd) || SomeRejected(p, done)
        decreases |events| - next, if tmp == None then 0 else 1
      {
        var t := tmp.value;
        RejectedNext(p, done, t);
        ghost var rejected;
        comp, codes, ok, rejected := Consider(p, t, comp, codes, done);
        ghost var rest := events[next..];
        tmp, next := Strtok(events, next);
        PendingNext(ts, done, t, rest, tmp, events[next..]);
        done := done + [t];
      }
      events := comp;
    }
  }

  /** strtok: the next token from position `start`, and where to go on. */
  method Strtok(s: string, start: int) returns (t: Option<string>, next: int)
    requires 0 <= start <= |s|
    ensures start <= next <= |s|
    ensures Found(s[start..], t, s[next..]) && (t != None ==> start < next)
  {
    var i := start;
    while i < |s| && s[i] == ','
      invariant start <= i <= |s| && Tokens(s[start..]) == Tokens(s[i..])
    {
      assert s[i..][1..] == s[i + 1..];
      i := i + 1;
    }
    if i == |s| {
      return None, i;
    }
    next := i + |Head(s[i..])|;
    t := Some(s[i..next]);
    assert s[i..next] == Head(s[i..]);
    assert s[i..][|Head(s[i..])|..] == s[next..];
  }
}
