/** The routines of monitor/src/signal.c on the signal array itself, proved against the operations of
    Signals. */
module SignalTable {
  import opened Options
  import opened Signals

  lemma ListOk(c: Config, l: seq<int>)
    requires l == Candidates(c, RealTime(c)) + Candidates(c, EXTRA) + [LAST_RESORT]
    ensures forall i :: 0 <= i < |l| ==> 0 < l[i] < NSIG
  {
    CandidatesOk(c, RealTime(c));
    CandidatesOk(c, EXTRA);
    assert forall i :: 0 <= i < |l| ==> l[i] in l;
  }

  /** One of the first k numbers. */
  ghost predicate Among(list: seq<int>, k: int, s: int) { exists j :: 0 <= j < k && j < |list| && list[j] == s }

  lemma AmongNext(list: seq<int>, k: int, s: int)
    requires 0 <= k < |list|
    ensures Among(list, k + 1, s) <==> Among(list, k, s) || s == list[k]
  {
  }

  lemma {:induction false} PositiveAmong(list: seq<int>, k: int, s: int)
    requires 0 <= k <= |list| && (forall j :: 0 <= j < k ==> list[j] > 0) && (k < |list| ==> list[k] <= 0)
    ensures s in Positive(list) <==> Among(list, k, s)
  {
    if k > 0 {
      var rest := list[1..];
      PositiveAmong(rest, k - 1, s);
      if j :| 0 <= j < k - 1 && j < |rest| && rest[j] == s { assert list[j + 1] == s; }
      if j :| 0 < j < k && list[j] == s { assert rest[j - 1] == s; }
    }
  }

  lemma CandidatesNext(c: Config, all: seq<int>, i: int)
    requires 0 <= i < |all|
    ensures Candidates(c, all[..i + 1]) ==
      Candidates(c, all[..i]) + (if all[i] < NSIG && Usable(FirstEntry(c, all[i])) then [all[i]] else [])
  {
    assert all[..i + 1][..i] == all[..i];
  }

  /** What becomes of the application's sigaction for a signal. */
  datatype Answer = Refused | ToSystem | Handled

  class SignalArray {
    const entries: array<Entry>
    const list: array<int>  // monitor_shootdown_list
    var shootdown: int
    ghost var count: nat    // where the list has its -1

    ghost predicate Valid()
      reads this, entries, list
    {
      && entries.Length == NSIG && list.Length == NSIG && entries != list as object
      && count < NSIG && list[count] == -1
      && forall i :: 0 <= i < count ==> 0 < list[i] < NSIG
    }

    ghost function View(): Table
      requires Valid()
      reads this, entries, list
    {
      Table(entries[..], list[..count], shootdown)
    }

    /** monitor_signal_init. */
    constructor (c: Config)
      ensures Valid() && View() == InitTable(c) && fresh(entries) && fresh(list)
    {
      entries := new Entry[NSIG](_ => BLANK);
      list := new int[NSIG](_ => -1);
      shootdown, count := -1, 0;
      new;
      MarkEntries(c);
      BuildList(c);
      ListOk(c, list[..count]);
      assert forall i :: 0 <= i < count ==> list[i] == list[..count][i];
      if c.env.Some? {
        var sig := c.env.value;
        if 0 < sig < NSIG && !entries[sig].avoid && !entries[sig].invalid && !entries[sig].stop {
          shootdown := sig;
          entries[sig] := entries[sig].(keepOpen := true);
        }
      }
    }

    /** The flags of the lists, and the signals that the kernel refuses. */
    method MarkEntries(c: Config)
      requires entries.Length == NSIG && forall s :: 0 <= s < NSIG ==> entries[s] == BLANK
      modifies entries
      ensures forall s :: 0 <= s < NSIG ==> entries[s] == FirstEntry(c, s)
    {
      MarkLists(c);
      for sig := 1 to NSIG
        invariant forall s :: 0 <= s < sig ==> entries[s] == FirstEntry(c, s)
        invariant forall s :: sig <= s < NSIG ==> entries[s] == FirstEntry(c, s).(invalid := false)
      {
        if !entries[sig].avoid && sig !in c.valid {
          entries[sig] := entries[sig].(invalid := true);
        }
      }
    }

    method MarkLists(c: Config)
      requires entries.Length == NSIG && forall s :: 0 <= s < NSIG ==> entries[s] == BLANK
      modifies entries
      ensures forall s :: 0 <= s < NSIG ==> entries[s] == FirstEntry(c, s).(invalid := false)
    {
      MarkFixed();
      MarkClients(c);
    }

    /** The avoid list and the stop list. */
    method MarkFixed()
      requires entries.Length == NSIG && forall s :: 0 <= s < NSIG ==> entries[s] == BLANK
      modifies entries
      ensures forall s :: 0 <= s < NSIG ==>
        entries[s] == BLANK.(avoid := s == SIGKILL || s == SIGSTOP, stop := s in STOPPING)
    {
      entries[SIGKILL] := entries[SIGKILL].(avoid := true);
      entries[SIGSTOP] := entries[SIGSTOP].(avoid := true);
      for i := 0 to |STOPPING|
        invariant forall s :: 0 <= s < NSIG ==>
          entries[s] == BLANK.(avoid := s == SIGKILL || s == SIGSTOP, stop := s in STOPPING[..i])
      {
        entries[STOPPING[i]] := entries[STOPPING[i]].(stop := true);
      }
    }

    /** The client list, up to the first number that is not positive. */
    method MarkClients(c: Config)
      requires entries.Length == NSIG && forall s :: 0 <= s < NSIG ==> !entries[s].keepOpen
      modifies entries
      ensures forall s :: 0 <= s < NSIG ==>
        entries[s] == old(entries[s]).(keepOpen := 1 <= s && s in Positive(c.clientSignals))
    {
      var k := 0;
      while k < |c.clientSignals| && c.clientSignals[k] > 0
        invariant 0 <= k <= |c.clientSignals| && forall j :: 0 <= j < k ==> c.clientSignals[j] > 0
        invariant forall s :: 0 <= s < NSIG ==>
          entries[s] == old(entries[s]).(keepOpen := 1 <= s && Among(c.clientSignals, k, s))
      {
        var sig := c.clientSignals[k];
        if 1 <= sig && sig < NSIG {
          entries[sig] := entries[sig].(keepOpen := true);
        }
        forall s ensures Among(c.clientSignals, k + 1, s) <==> Among(c.clientSignals, k, s) || s == sig {
          AmongNext(c.clientSignals, k, s);
        }
        k := k + 1;
      }
      forall s ensures Among(c.clientSignals, k, s) <==> s in Positive(c.clientSignals) {
        PositiveAmong(c.clientSignals, k, s);
      }
    }

    /** The shootdown list: real-time signals, the extra list, the last resort, -1. */
    method BuildList(c: Config)
      requires entries.Length == NSIG && list.Length == NSIG && entries != list as object
      requires forall s :: 0 <= s < NSIG ==> entries[s] == FirstEntry(c, s)
      modifies list, this`count
      ensures count < NSIG && list[count] == -1
      ensures list[..count] == Candidates(c, RealTime(c)) + Candidates(c, EXTRA) + [LAST_RESORT]
    {
      var k := AddRealTime(c);
      k := AddExtra(c, k);
      list[k] := LAST_RESORT;
      list[k + 1] := -1;
      count := k + 1;
    }

    method AddExtra(c: Config, start: int) returns (k: int)
      requires entries.Length == NSIG && list.Length == NSIG && entries != list as object && 0 <= start <= 8
      requires forall s :: 0 <= s < NSIG ==> entries[s] == FirstEntry(c, s)
      modifies list
      ensures start <= k <= 13 && list[..k] == old(list[..start]) + Candidates(c, EXTRA)
    {
      k := start;
      ghost var first := list[..start];
      for i := 0 to |EXTRA|
        invariant start <= k <= start + i && list[..k] == first + Candidates(c, EXTRA[..i])
      {
        var sig := EXTRA[i];
        CandidatesNext(c, EXTRA, i);
        if Usable(entries[sig]) {
          list[k] := sig;
          k := k + 1;
        }
      }
      assert EXTRA[..|EXTRA|] == EXTRA;
    }

    method AddRealTime(c: Config) returns (k: int)
      requires entries.Length == NSIG && list.Length == NSIG && entries != list as object
      requires forall s :: 0 <= s < NSIG ==> entries[s] == FirstEntry(c, s)
      modifies list
      ensures 0 <= k <= 8 && list[..k] == Candidates(c, RealTime(c))
    {
      k := 0;
      ghost var all := RealTime(c);
      for i := 6 to 14
        invariant 0 <= k <= i - 6 && list[..k] == Candidates(c, all[..i - 6])
      {
        var sig := c.rtmin + i;
        CandidatesNext(c, all, i - 6);
        if sig < NSIG && Usable(entries[sig]) {
          list[k] := sig;
          k := k + 1;
        }
      }
      assert all[..8] == all;
    }

    /** monitor_remove_client_signals. */
    method RemoveClientSignals(mask: set<int>) returns (passed: set<int>)
      requires Valid()
      modifies this`shootdown, entries
      ensures Valid() && (View(), passed) == Filter(old(View()), mask)
    {
      ghost var t := View();
      if shootdown < 0 {
        SettleShootdown(mask);
      }
      passed := DropKeptOpen(mask);
      assert entries[..] == Filter(t, mask).0.entries;
      assert passed == Filter(t, mask).1;
    }

    /** Its first loop: look for an open signal of the list, and for one that the mask leaves open. */
    method SettleShootdown(mask: set<int>)
      requires Valid() && shootdown < 0
      modifies this`shootdown, entries
      ensures Valid() && View() == Settle(old(View()), mask)
    {
      ghost var t := View();
      var oldAvail, newAvail, i := -1, -1, 0;
      while list[i] > 0
        invariant 0 <= i <= count
        invariant oldAvail == -1 || oldAvail > 0
        invariant First(t.list, Open(t)) == if oldAvail > 0 then oldAvail else First(t.list[i..], Open(t))
        invariant First(t.list, OpenAfter(t, mask)) == First(t.list[i..], OpenAfter(t, mask))
        invariant newAvail == -1
        decreases count - i
      {
        var sig := list[i];
        assert t.list[i..][0] == sig && t.list[i..][1..] == t.list[i + 1..];
        if !entries[sig].blocked {
          if oldAvail < 0 {
            oldAvail := sig;
          }
          if sig !in mask {
            newAvail := sig;
            break;
          }
        }
        i := i + 1;
      }
      if oldAvail > 0 && newAvail < 0 {
        assert i == count;
        FirstHolds(t.list, Open(t));
        shootdown := oldAvail;
        entries[oldAvail] := entries[oldAvail].(keepOpen := true);
      }
    }

    /** Its second loop: drop what is kept open from the mask and mark the rest of it blocked. */
    method DropKeptOpen(mask: set<int>) returns (passed: set<int>)
      requires Valid()
      modifies entries
      ensures Valid() && entries[0] == old(entries[0])
      ensures forall s :: 1 <= s < NSIG ==> entries[s] == Blocked(old(entries[s]), s in mask)
      ensures passed == set s | s in mask && !(1 <= s < NSIG && Managed(old(entries[s])) && old(entries[s]).keepOpen)
    {
      passed := mask;
      var sig := 1;
      while sig < NSIG
        invariant 1 <= sig <= NSIG && Valid() && entries[0] == old(entries[0])
        invariant forall s :: 1 <= s < sig ==> entries[s] == Blocked(old(entries[s]), s in mask)
        invariant forall s :: sig <= s < NSIG ==> entries[s] == old(entries[s])
        invariant passed ==
          set s | s in mask && !(1 <= s < sig && Managed(old(entries[s])) && old(entries[s]).keepOpen)
      {
        var e := entries[sig];
        if !e.avoid && !e.invalid {
          if e.keepOpen {
            passed := passed - {sig};
          } else if sig in passed {
            entries[sig] := e.(blocked := true);
          }
        }
        sig := sig + 1;
      }
    }

    /** monitor_shootdown_signal. */
    method ShootdownSignal() returns (chosen: int)
      requires Valid()
      modifies this`shootdown
      ensures Valid() && View() == Choose(old(View())) && chosen == Choice(old(View()))
    {
      if shootdown > 0 {
        return shootdown;
      }
      ghost var t := View();
      var ans1, ans2, ans3, i := -1, -1, -1, 0;
      while list[i] > 0
        invariant 0 <= i <= count && ans1 == -1
        invariant (ans2 == -1 || ans2 > 0) && (ans3 == -1 || ans3 > 0)
        invariant First(t.list, Open(t)) == if ans3 > 0 then ans3 else First(t.list[i..], Open(t))
        invariant First(t.list, Free(t)) == if ans2 > 0 then ans2 else First(t.list[i..], Free(t))
        invariant First(t.list, Unused(t)) == First(t.list[i..], Unused(t))
        decreases count - i
      {
        var sig := list[i];
        assert t.list[i..][0] == sig && t.list[i..][1..] == t.list[i + 1..];
        var e := entries[sig];
        if !e.blocked {
          if ans3 < 0 {
            ans3 := sig;
          }
          if !e.clientHand {
            if ans2 < 0 {
              ans2 := sig;
            }
            if !e.applHand {
              ans1 := sig;
              break;
            }
          }
        }
        i := i + 1;
      }
      if ans1 > 0 {
        shootdown := ans1;
      } else if ans2 > 0 {
        shootdown := ans2;
      } else if ans3 > 0 {
        shootdown := ans3;
      } else {
        shootdown := LAST_RESORT;
      }
      return shootdown;
    }

    /** sigprocmask and pthread_sigmask: the mask that goes to the real routine. */
    method SigProcMask(how: How, mask: Option<set<int>>) returns (actual: Option<set<int>>)
      requires Valid()
      modifies this`shootdown, entries
      ensures Valid() && View() == Step(old(View()), Mask(how, mask)).0
      ensures how.Unblock? || mask.None? ==> actual == mask
      ensures !how.Unblock? && mask.Some? ==> actual == Some(Step(old(View()), Mask(how, mask)).1)
    {
      actual := mask;
      if mask.Some? && (how.Block? || how.SetMask?) {
        var passed := RemoveClientSignals(mask.value);
        actual := Some(passed);
      }
    }

    /** monitor_appl_sigaction: whether the signal is refused, handed to the system's sigaction with its mask as it
        is, or handled here, with the mask of the handler that is installed. */
    method ApplSigAction(sig: int, catches: bool, mask: Option<set<int>>) returns (answer: Answer, passed: set<int>)
      requires Valid()
      modifies this`shootdown, entries
      ensures Valid()
      ensures answer.Refused? <==> sig <= 0 || sig >= 65 || old(entries[sig]).invalid
      ensures answer.ToSystem? <==> 0 < sig < 65 && !old(entries[sig]).invalid && old(entries[sig]).avoid
      ensures answer.Refused? ==> View() == old(View()) && passed == {}
      ensures answer.ToSystem? ==> View() == old(View()) && passed == (if mask.Some? then mask.value else {})
      ensures !answer.ToSystem? ==> (View(), passed) == Step(old(View()), ApplAction(sig, catches, mask))
    {
      passed := {};
      if sig <= 0 || sig >= NSIG || entries[sig].invalid {
        return Refused, {};
      }
      if entries[sig].avoid {
        return ToSystem, if mask.Some? then mask.value else {};
      }
      if mask.Some? {
        if catches {
          entries[sig] := entries[sig].(applHand := true);
        }
        passed := RemoveClientSignals(mask.value);
      }
      answer := Handled;
    }

    /** monitor_sigaction, by the client. */
    method ClientSigAction(sig: int, handles: bool, mask: Option<set<int>>) returns (ok: bool, passed: set<int>)
      requires Valid()
      modifies this`shootdown, entries
      ensures Valid() && (View(), passed) == Step(old(View()), ClientAction(sig, handles, mask))
      ensures ok <==> 0 < sig < 65 && !old(entries[sig]).avoid && !old(entries[sig]).invalid
    {
      if sig <= 0 || sig >= NSIG || entries[sig].avoid || entries[sig].invalid {
        return false, {};
      }
      entries[sig] := entries[sig].(keepOpen := true, clientHand := handles);
      passed := {};
      if mask.Some? {
        passed := RemoveClientSignals(mask.value);
      }
      ok := true;
    }
  }
}
