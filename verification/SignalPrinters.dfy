/** monitor_signal_list_string and monitor_sigset_string of monitor/src/utils.c on the buffer itself,
    proved against the text of SignalText. */
module SignalPrinters {
  import opened Options
  import opened SignalText

  /** The text and the result: all items but the last comma if each finds ITEM_SIZE characters left, else
      the items before the last that was written, and " and more". */
  function Outcome(items: seq<string>, count: int, size: int): (string, int) {
    var k := Fitting(items, 0, size);
    if k == |items| then (Line(items), count)
    else (Text(items[..if k > 0 then k - 1 else 0]) + " and more", -1)
  }

  /** The number of items that find room, given that the first k do. */
  function Fitting(items: seq<string>, k: int, size: int): (n: int)
    requires 0 <= k <= |items|
    ensures k <= n <= |items|
    decreases |items| - k
  {
    if k < |items| && |Text(items[..k])| + ITEM_SIZE <= size then Fitting(items, k + 1, size) else k
  }

  function Printed(l: seq<int>, size: int): (string, int)
    requires Positive(Ranges(l))
  {
    Outcome(Bodies(Ranges(l)), |l|, size)
  }

  /** When the result is not negative, reading the text and expanding the ranges gives back the list, and
      the result is its length. */
  lemma PrintedDetermines(l: seq<int>, size: int)
    requires forall i :: 0 <= i < |l| ==> l[i] > 0
    ensures Positive(Ranges(l))
    ensures var (text, n) := Printed(l, size);
      n >= 0 ==> n == |l| && ReadLine(text) == Some(Ranges(l)) && Expand(Ranges(l)) == l
  {
    RangesPositive(l);
    ExpandRanges(l);
    ReadLineBack(Ranges(l));
  }

  lemma {:induction false} RangesPositive(l: seq<int>)
    requires forall i :: 0 <= i < |l| ==> l[i] > 0
    ensures Positive(Ranges(l))
    decreases |l|
  {
    if l != [] { RangesPositive(l[RunLength(l)..]); }
  }

  // ----- lengths ------------------------------------------------------------------------------

  lemma DecimalLength(n: int)
    requires 0 <= n <= MAX_SIGNAL
    ensures |Decimal(n)| <= 5
  {
    assert n / 10 <= 9999 && n / 10 / 10 <= 999 && n / 10 / 10 / 10 <= 99 && n / 10 / 10 / 10 / 10 <= 9;
    Shorter(n);
    Shorter(n / 10);
    Shorter(n / 10 / 10);
    Shorter(n / 10 / 10 / 10);
  }

  lemma Shorter(n: int)
    requires 0 <= n
    ensures |Decimal(n)| <= 1 + (if n < 10 then 0 else |Decimal(n / 10)|)
  {
  }

  lemma BodyLength(r: Range)
    requires 0 <= r.first <= r.last <= MAX_SIGNAL
    ensures |Body(r)| <= 12
  {
    DecimalLength(r.first);
    DecimalLength(r.last);
  }

  // ----- when the buffer is long enough -------------------------------------------------------

  /** Every item that is printed, with its comma and the NUL, stays within the first `size` characters. */
  ghost predicate StaysInside(items: seq<string>, size: int) {
    forall d {:trigger Ends(items, d)} :: 0 <= d < Fitting(items, 0, size) ==> Ends(items, d) <= size
  }

  /** The same of the first d items. */
  ghost predicate InsideSoFar(items: seq<string>, size: int, d: int)
    requires 0 <= d <= |items|
  {
    forall e {:trigger Ends(items, e)} :: 0 <= e < d ==> Ends(items, e) <= size
  }

  lemma InsideNext(items: seq<string>, size: int, d: int)
    requires 0 <= d < |items| && InsideSoFar(items, size, d) && Ends(items, d) <= size
    ensures InsideSoFar(items, size, d + 1)
  {
  }

  /** Where item d ends, with its comma and the NUL. */
  function Ends(items: seq<string>, d: int): int
    requires 0 <= d < |items|
  {
    |Text(items[..d])| + |items[d]| + 2
  }

  /** Items of at most 15 characters, with the comma and the NUL. */
  predicate ShortItems(items: seq<string>) { forall d :: 0 <= d < |items| ==> |items[d]| + 2 <= 15 }

  lemma {:induction false} FittingHasRoom(items: seq<string>, k: int, size: int, d: int)
    requires 0 <= k <= |items| && k <= d < Fitting(items, k, size)
    ensures |Text(items[..d])| + ITEM_SIZE <= size
    decreases d - k
  {
    if k < d { FittingHasRoom(items, k + 1, size, d); }
  }

  lemma {:induction false} RoomFits(items: seq<string>, k: int, size: int, d: int)
    requires 0 <= k <= d < |items| && |Text(items[..d])| + ITEM_SIZE <= size
    ensures d < Fitting(items, k, size)
    decreases d - k
  {
    TextGrows(items, k, d);
    if k < d { RoomFits(items, k + 1, size, d); }
  }

  lemma {:induction false} TextGrows(items: seq<string>, k: int, d: int)
    requires 0 <= k <= d <= |items|
    ensures |Text(items[..k])| <= |Text(items[..d])|
    decreases d - k
  {
    if k < d {
      TextGrows(items, k, d - 1);
      TextPrefix(items, d);
    }
  }

  lemma TextPrefix(items: seq<string>, d: int)
    requires 0 < d <= |items|
    ensures Text(items[..d]) == Text(items[..d - 1]) + (items[d - 1] + ",")
  {
    TextNext(items[..d - 1], items[d - 1]);
    assert items[..d] == items[..d - 1] + [items[d - 1]];
  }

  /** Exactly when 15 characters are enough for each item: the printers stay inside the buffer for every size if
      and only if no item with its comma and NUL is longer. */
  lemma InsideExactly(items: seq<string>)
    ensures (forall size :: size >= ITEM_SIZE ==> StaysInside(items, size)) <==> ShortItems(items)
  {
    if ShortItems(items) {
      forall size, d | 0 <= d < Fitting(items, 0, size) ensures Ends(items, d) <= size {
        FittingHasRoom(items, 0, size, d);
      }
    }
    if forall size :: size >= ITEM_SIZE ==> StaysInside(items, size) {
      forall d | 0 <= d < |items| ensures |items[d]| + 2 <= ITEM_SIZE {
        var size := |Text(items[..d])| + ITEM_SIZE;
        RoomFits(items, 0, size, d);
        assert StaysInside(items, size);
        assert Ends(items, d) <= size;
      }
    }
  }

  /** Signal numbers of at most five digits are short enough. */
  lemma FiveDigitsFit(l: seq<int>)
    requires forall i :: 0 <= i < |l| ==> 0 < l[i] <= MAX_SIGNAL
    ensures Positive(Ranges(l)) && ShortItems(Bodies(Ranges(l)))
  {
    RangesPositive(l);
    RangesFit(l);
    forall d | 0 <= d < |Ranges(l)| ensures |Bodies(Ranges(l))[d]| + 2 <= ITEM_SIZE { BodyLength(Ranges(l)[d]); }
  }

  lemma {:induction false} FittingStops(items: seq<string>, k: int, size: int)
    requires 0 <= k <= |items| && Fitting(items, k, size) < |items|
    ensures |Text(items[..Fitting(items, k, size)])| + ITEM_SIZE > size
    decreases |items| - k
  {
    if |Text(items[..k])| + ITEM_SIZE <= size { FittingStops(items, k + 1, size); }
  }

  /** There is room for an item when 15 characters are left before it. */
  predicate RoomFor(items: seq<string>, d: int, size: int)
    requires 0 <= d <= |items|
  {
    |Text(items[..d])| + 15 <= size
  }

  /** Exactly what is printed: all items and the given result if each finds room, and otherwise the items before the
      last that found room, " and more", and -1. */
  lemma OutcomeExactly(items: seq<string>, count: int, size: int) returns (k: int)
    ensures 0 <= k <= |items| && (forall d :: 0 <= d < k ==> RoomFor(items, d, size))
    ensures k < |items| ==> !RoomFor(items, k, size)
    ensures k == |items| ==> Outcome(items, count, size) == (Line(items), count)
    ensures k < |items| ==>
      Outcome(items, count, size) == (Text(items[..if k > 0 then k - 1 else 0]) + " and more", -1)
  {
    k := Fitting(items, 0, size);
    forall d | 0 <= d < k ensures RoomFor(items, d, size) { FittingHasRoom(items, 0, size, d); }
    if k < |items| { FittingStops(items, 0, size); }
  }

  // ----- the buffer ---------------------------------------------------------------------------

  /** The buffer holds the text and its NUL. */
  ghost predicate Holds(buf: array<char>, text: string)
    reads buf
  {
    |text| < buf.Length && buf[..|text|] == text && buf[|text|] == NUL
  }

  /** sprintf(&buf[pos], ...). */
  method Put(buf: array<char>, pos: int, text: string)
    requires 0 <= pos && pos + |text| < buf.Length
    modifies buf
    ensures buf[..pos + |text|] == old(buf[..pos]) + text && buf[pos + |text|] == NUL
    ensures forall i :: pos + |text| < i < buf.Length ==> buf[i] == old(buf[i])
  {
    for k := 0 to |text|
      invariant buf[..pos] == old(buf[..pos]) && buf[pos..pos + k] == text[..k]
      invariant forall i :: pos + k <= i < buf.Length ==> buf[i] == old(buf[i])
    {
      buf[pos + k] := text[k];
    }
    buf[pos + |text|] := NUL;
    assert buf[..pos + |text|] == buf[..pos] + buf[pos..pos + |text|];
  }

  // ----- the loops ----------------------------------------------------------------------------

  /** The routine is to return `ret`, and the buffer holds what is printed of the items. */
  ghost predicate Prints(buf: array<char>, items: seq<string>, num: int, size: int, ret: int)
    reads buf
  {
    Holds(buf, Outcome(items, num, size).0) && ret == Outcome(items, num, size).1
  }

  /** No item of the list is printed past the first `size` characters. */
  ghost predicate ListInside(l: seq<int>, size: int) { Positive(Ranges(l)) && StaysInside(Bodies(Ranges(l)), size) }

  /** What the loops know when d items have been written, the last of them from `prev` on. */
  ghost predicate Written(buf: array<char>, items: seq<string>, d: int, size: int, pos: int, prev: int)
    reads buf
  {
    && 0 <= d <= |items| && ITEM_SIZE <= size <= buf.Length
    && pos == |Text(items[..d])| && pos < size && buf[..pos] == Text(items[..d])
    && prev == (if d > 0 then |Text(items[..d - 1])| else 0) && prev + ITEM_SIZE <= size
    && Fitting(items, 0, size) == Fitting(items, d, size)
  }

  method Format(first: int, last: int) returns (item: string, count: int)
    requires 0 <= first <= last
    ensures item == Body(Range(first, last)) + "," && count == last - first + 1
  {
    if last > first {
      return " " + Decimal(first) + "-" + Decimal(last) + ",", last - first + 1;
    } else {
      return " " + Decimal(first) + ",", 1;
    }
  }

  /** One item. */
  method PutItem(buf: array<char>, ghost items: seq<string>, ghost d: int, ghost size: int, pos: int, ghost prev: int,
                 item: string)
    returns (pos': int)
    requires Written(buf, items, d, size, pos, prev) && pos + ITEM_SIZE <= size
    requires d < |items| && item == items[d] + "," && pos + |item| < size
    modifies buf
    ensures Written(buf, items, d + 1, size, pos', pos)
    ensures forall i :: size <= i < buf.Length ==> buf[i] == old(buf[i])
  {
    TextPrefix(items, d + 1);
    Put(buf, pos, item);
    pos' := pos + |item|;
  }

  /** One range. */
  method PutRange(buf: array<char>, ghost rs: seq<Range>, ghost d: int, ghost size: int, pos: int, ghost prev: int,
                  first: int, last: int) returns (pos': int, count: int)
    requires Positive(rs) && Written(buf, Bodies(rs), d, size, pos, prev) && pos + ITEM_SIZE <= size
    requires d < |rs| && rs[d] == Range(first, last) && Ends(Bodies(rs), d) <= size
    modifies buf
    ensures Written(buf, Bodies(rs), d + 1, size, pos', pos) && count == last - first + 1
    ensures forall i :: size <= i < buf.Length ==> buf[i] == old(buf[i])
  {
    var item;
    item, count := Format(first, last);
    pos' := PutItem(buf, Bodies(rs), d, size, pos, prev, item);
  }

  /** The end of the loop: the last comma becomes the NUL. */
  method Finish(buf: array<char>, ghost items: seq<string>, ghost size: int, pos: int, ghost prev: int, ghost num: int)
    requires Written(buf, items, |items|, size, pos, prev)
    modifies buf
    ensures Prints(buf, items, num, size, num)
    ensures forall i :: size <= i < buf.Length ==> buf[i] == old(buf[i])
  {
    assert items[..|items|] == items;
    if items != [] { TextLine(items); }
    ghost var text := Line(items);
    assert pos > 0 ==> buf[..pos][..pos - 1] == text;
    buf[if pos > 0 then pos - 1 else 0] := NUL;
    assert |text| == if pos > 0 then pos - 1 else 0;
    assert buf[..|text|] == text;
  }

  /** No room for the next item. */
  method Overflow(buf: array<char>, ghost items: seq<string>, ghost d: int, ghost size: int, ghost pos: int,
                  prev: int, ghost num: int)
    requires Written(buf, items, d, size, pos, prev) && d < |items| && pos + ITEM_SIZE > size
    modifies buf
    ensures Prints(buf, items, num, size, -1)
    ensures forall i :: size <= i < buf.Length ==> buf[i] == old(buf[i])
  {
    assert d > 0;
    TextPrefix(items, d);
    assert buf[..prev] == buf[..pos][..prev];
    Put(buf, prev, " and more");
  }

  /** The ranges from the d-th on are those of the list from k on. */
  ghost predicate Left(l: seq<int>, k: int, rs: seq<Range>, d: int) {
    0 <= k <= |l| && 0 <= d <= |rs| && Ranges(l[k..]) == rs[d..]
  }

  /** m numbers are consecutive from the k-th on, and no more. */
  ghost predicate IsRun(l: seq<int>, k: int, m: int) { 0 <= k < |l| && m == RunLength(l[k..]) }

  lemma LeftHead(l: seq<int>, k: int, rs: seq<Range>, d: int) returns (m: int)
    requires Left(l, k, rs, d) && k < |l|
    ensures IsRun(l, k, m) && 1 <= m && d < |rs| && rs[d] == Range(l[k], l[k] + m - 1) && Left(l, k + m, rs, d + 1)
  {
    m := RunLength(l[k..]);
    assert l[k..][m..] == l[k + m..];
    assert rs[d..][1..] == rs[d + 1..];
    assert Ranges(l[k..])[0] == rs[d..][0] && Ranges(l[k..])[1..] == rs[d + 1..];
  }

  lemma LeftEnd(l: seq<int>, rs: seq<Range>, d: int)
    requires Left(l, |l|, rs, d)
    ensures d == |rs|
  {
    assert l[|l|..] == [];
  }

  lemma LeftStart(l: seq<int>)
    ensures Left(l, 0, Ranges(l), 0)
  {
    assert l[0..] == l;
  }

  /** All numbers have at most five digits. */
  predicate Fits(rs: seq<Range>) { forall i :: 0 <= i < |rs| ==> 0 <= rs[i].first <= rs[i].last <= MAX_SIGNAL }

  lemma {:induction false} RangesFit(l: seq<int>)
    requires forall i :: 0 <= i < |l| ==> 0 < l[i] <= MAX_SIGNAL
    ensures Fits(Ranges(l))
    decreases |l|
  {
    if l != [] {
      RunLast(l);
      RangesFit(l[RunLength(l)..]);
    }
  }

  lemma {:induction false} RunLast(l: seq<int>)
    requires l != []
    ensures l[RunLength(l) - 1] == l[0] + RunLength(l) - 1
  {
    if RunLength(l) > 1 { RunLast(l[1..]); }
  }

  /** The array holds the numbers of l and then an end mark. */
  ghost predicate Terminated(list: array<int>, l: seq<int>)
    reads list
  {
    |l| < list.Length && list[|l|] <= 0 && forall i :: 0 <= i < |l| ==> list[i] == l[i] && 0 < l[i]
  }

  /** Before the pass for index k: d ranges are written, with k numbers in them. */
  ghost predicate ListState(buf: array<char>, l: seq<int>, rs: seq<Range>, size: int, k: int, d: int, pos: int,
    prev: int)
    requires Positive(rs)
    reads buf
  {
    && 0 <= k <= |l| && 0 <= d <= |rs| && Left(l, k, rs, d) && Written(buf, Bodies(rs), d, size, pos, prev)
    && InsideSoFar(Bodies(rs), size, d)
  }

  /** One pass of the outer loop, when there is room, for the range that ends at index `last`. */
  method ListPass(buf: array<char>, ghost l: seq<int>, ghost rs: seq<Range>, ghost size: int, ghost k: int,
    ghost d: int,
                  pos: int, ghost prev: int, first: int, ghost last: int, sig: int) returns (pos': int, count: int)
    requires Positive(rs) && ListState(buf, l, rs, size, k, d, pos, prev) && d < |rs| && Ends(Bodies(rs), d) <= size
    requires rs[d] == Range(first, sig) && pos + ITEM_SIZE <= size && last < |l| && Left(l, last + 1, rs, d + 1)
    modifies buf
    ensures ListState(buf, l, rs, size, last + 1, d + 1, pos', pos) && count == sig - first + 1
    ensures forall i :: size <= i < buf.Length ==> buf[i] == old(buf[i])
  {
    InsideNext(Bodies(rs), size, d);
    pos', count := PutRange(buf, rs, d, size, pos, prev, first, sig);
  }

  /** The items written so far are all that find room. */
  lemma AllInside(buf: array<char>, items: seq<string>, d: int, size: int, pos: int, prev: int)
    requires Written(buf, items, d, size, pos, prev) && (d == |items| || pos + ITEM_SIZE > size)
    requires InsideSoFar(items, size, d)
    ensures StaysInside(items, size)
  {
    assert Fitting(items, d, size) == d;
  }

  lemma NotInside(buf: array<char>, items: seq<string>, d: int, size: int, pos: int, prev: int)
    requires Written(buf, items, d, size, pos, prev) && d < |items| && pos + ITEM_SIZE <= size && Ends(items, d) > size
    ensures !StaysInside(items, size)
  {
    RoomFits(items, 0, size, d);
  }

  /** No room for the range that starts at index k. */
  method ListFull(buf: array<char>, ghost l: seq<int>, ghost rs: seq<Range>, ghost size: int, ghost k: int,
    ghost d: int,
                  ghost pos: int, prev: int)
    requires Positive(rs) && ListState(buf, l, rs, size, k, d, pos, prev) && k < |l| && pos + ITEM_SIZE > size
    modifies buf
    ensures StaysInside(Bodies(rs), size) && Prints(buf, Bodies(rs), |l|, size, -1)
    ensures forall i :: size <= i < buf.Length ==> buf[i] == old(buf[i])
  {
    ghost var _ := LeftHead(l, k, rs, d);
    AllInside(buf, Bodies(rs), d, size, pos, prev);
    Overflow(buf, Bodies(rs), d, size, pos, prev, |l|);
  }

  /** The end of the outer loop. */
  method ListEnd(buf: array<char>, ghost l: seq<int>, ghost rs: seq<Range>, ghost size: int, ghost d: int,
                 pos: int, ghost prev: int)
    requires Positive(rs) && ListState(buf, l, rs, size, |l|, d, pos, prev)
    modifies buf
    ensures StaysInside(Bodies(rs), size) && Prints(buf, Bodies(rs), |l|, size, |l|)
    ensures forall i :: size <= i < buf.Length ==> buf[i] == old(buf[i])
  {
    LeftEnd(l, rs, d);
    AllInside(buf, Bodies(rs), d, size, pos, prev);
    Finish(buf, Bodies(rs), size, pos, prev, |l|);
  }

  /** Whether the item for a range ends, with its comma and the NUL, within `size` characters; sprintf does not ask. */
  method ItemFits(buf: array<char>, ghost rs: seq<Range>, ghost d: int, first: int, last: int, size: int, pos: int,
                  ghost prev: int) returns (fits: bool)
    requires Positive(rs) && Written(buf, Bodies(rs), d, size, pos, prev) && pos + ITEM_SIZE <= size
    requires d < |rs| && rs[d] == Range(first, last)
    ensures fits <==> Ends(Bodies(rs), d) <= size
    ensures !fits ==> !StaysInside(Bodies(rs), size)
  {
    var item, _ := Format(first, last);
    fits := pos + |item| < size;
    if !fits { NotInside(buf, Bodies(rs), d, size, pos, prev); }
  }

  /** The body of the outer loop, when there is room for 15 characters. */
  method ListTry(buf: array<char>, size: int, list: array<int>, ghost l: seq<int>, ghost rs: seq<Range>, k: int,
                 ghost d: int, pos: int, ghost prev: int) returns (fits: bool, k': int, pos': int, count: int)
    requires Terminated(list, l) && Positive(rs) && ListState(buf, l, rs, size, k, d, pos, prev)
    requires k < |l| && pos + ITEM_SIZE <= size
    modifies buf
    ensures !fits ==> !StaysInside(Bodies(rs), size)
    ensures fits ==> k < k' <= |l| && count == k' - k && ListState(buf, l, rs, size, k', d + 1, pos', pos)
    ensures forall i :: size <= i < buf.Length ==> buf[i] == old(buf[i])
  {
    var last, sig := NextRange(list, l, k, rs, d);
    k', pos', count := last + 1, pos, 0;
    fits := ItemFits(buf, rs, d, list[k], sig, size, pos, prev);
    if fits {
      pos', count := ListPass(buf, l, rs, size, k, d, pos, prev, list[k], last, sig);
    }
  }

  /** The loops of monitor_signal_list_string; l is the list up to its end mark.  They end with `inside` false where
      sprintf would write past `size`. */
  method ListLoop(buf: array<char>, size: int, list: array<int>, ghost l: seq<int>, ghost rs: seq<Range>)
    returns (ret: int, inside: bool)
    requires ITEM_SIZE <= size <= buf.Length
    requires Terminated(list, l)
    requires Positive(rs) && ListState(buf, l, rs, size, 0, 0, 0, 0)
    modifies buf
    ensures inside <==> StaysInside(Bodies(rs), size)
    ensures inside ==> Prints(buf, Bodies(rs), |l|, size, ret)
    ensures forall i :: size <= i < buf.Length ==> buf[i] == old(buf[i])
  {
    ghost var d := 0;
    var pos, prev, num, k := 0, 0, 0, 0;
    while list[k] > 0
      invariant 0 <= k <= |l| && ListState(buf, l, rs, size, k, d, pos, prev) && num == k && Terminated(list, l)
      invariant forall i :: size <= i < buf.Length ==> buf[i] == old(buf[i])
      decreases |l| - k
    {
      if pos + ITEM_SIZE > size {
        ListFull(buf, l, rs, size, k, d, pos, prev);
        return -1, true;
      }
      var fits, k', pos', count := ListTry(buf, size, list, l, rs, k, d, pos, prev);
      if !fits {
        return 0, false;
      }
      prev, pos, num, d, k := pos, pos', num + count, d + 1, k';
    }
    ListEnd(buf, l, rs, size, d, pos, prev);
    return num, true;
  }

  /** The next range of the list, and the index of its last number. */
  method NextRange(list: array<int>, ghost l: seq<int>, k: int, ghost rs: seq<Range>, ghost d: int)
    returns (last: int, sig: int)
    requires Terminated(list, l) && 0 <= k < |l| && Left(l, k, rs, d)
    ensures k <= last < |l| && d < |rs| && rs[d] == Range(l[k], sig) && sig == l[k] + (last - k)
    ensures Left(l, last + 1, rs, d + 1)
  {
    ghost var m := LeftHead(l, k, rs, d);
    last, sig := SkipRun(list, l, k, m);
  }

  /** The inner loop: the last index and the last number of the run that starts at k. */
  method SkipRun(list: array<int>, ghost l: seq<int>, k: int, ghost m: int) returns (last: int, sig: int)
    requires Terminated(list, l) && 0 <= k < |l| && IsRun(l, k, m)
    ensures last == k + m - 1 && last < |l| && sig == l[last] == l[k] + m - 1
  {
    last, sig := k, list[k];
    while list[last + 1] == sig + 1
      invariant k <= last < |l| && sig == l[last] == l[k] + (last - k) && IsRun(l, last, m - (last - k))
      decreases |l| - last
    {
      IsRunNext(l, last, m - (last - k));
      last := last + 1;
      sig := sig + 1;
    }
    IsRunEnd(l, last, m - (last - k));
  }

  lemma IsRunNext(l: seq<int>, k: int, m: int)
    requires IsRun(l, k, m) && k + 1 < |l| && l[k + 1] == l[k] + 1
    ensures IsRun(l, k + 1, m - 1)
  {
    assert l[k..][1..] == l[k + 1..];
  }

  lemma IsRunEnd(l: seq<int>, k: int, m: int)
    requires IsRun(l, k, m) && (k + 1 < |l| ==> l[k + 1] != l[k] + 1)
    ensures m == 1
  {
  }

  /** monitor_signal_list_string.  It checks for 15 characters before each item; `inside` is false exactly for a list
      with an item that is longer and would be printed past `size` (InsideExactly, FiveDigitsFit). */
  method PrintList(buf: array?<char>, size: int, list: array?<int>, ghost n: int) returns (ret: int, inside: bool)
    requires buf != null ==> buf.Length >= 1 && size <= buf.Length
    requires list != null ==>
      0 <= n < list.Length && list[n] <= 0 && forall i :: 0 <= i < n ==> 0 < list[i]
    modifies buf
    ensures inside <==> buf == null || size < 15 || list == null || ListInside(list[..n], size)
    ensures buf == null || size < 15 ==> ret == -1
    ensures buf != null && size < 15 ==> Holds(buf, "") && forall i :: 1 <= i < buf.Length ==>
      buf[i] == old(buf[i])
    ensures buf != null && size >= 15 && list == null ==> Holds(buf, " (null)") && ret == 0
    ensures buf != null && size >= 15 && list != null ==> Positive(Ranges(list[..n]))
    ensures buf != null && size >= 15 && list != null && inside ==>
      Holds(buf, Printed(list[..n], size).0) && ret == Printed(list[..n], size).1
    ensures buf != null && size >= 15 ==> forall i :: size <= i < buf.Length ==> buf[i] == old(buf[i])
  {
    if buf == null {
      return -1, true;
    }
    buf[0] := NUL;
    if size < ITEM_SIZE {
      return -1, true;
    }
    if list == null {
      Put(buf, 0, " (null)");
      return 0, true;
    }
    ghost var l := list[..n];
    RangesPositive(l);
    LeftStart(l);
    assert Bodies(Ranges(l))[..0] == [];
    ret, inside := ListLoop(buf, size, list, l, Ranges(l));
  }

  // ----- sets ---------------------------------------------------------------------------------

  /** The signals of the set from sig on, in order. */
  function Members(mask: set<int>, sig: int): seq<int>
    requires 1 <= sig <= NSIG
    decreases mask, NSIG - sig
  {
    if sig == NSIG then [] else (if sig in mask then [sig] else []) + Members(mask, sig + 1)
  }

  lemma {:induction false} MembersAre(mask: set<int>, sig: int)
    requires 1 <= sig <= NSIG
    ensures forall x :: x in Members(mask, sig) <==> x in mask && sig <= x < NSIG
    ensures forall i :: 0 <= i < |Members(mask, sig)| ==> sig <= Members(mask, sig)[i] < NSIG
    decreases NSIG - sig
  {
    if sig < NSIG { MembersAre(mask, sig + 1); }
  }

  /** When the result is not negative, the text of a set determines it, and the result is its size. */
  lemma SetDetermined(mask: set<int>, size: int)
    requires forall x :: x in mask ==> 1 <= x < 65
    ensures Positive(Ranges(Members(mask, 1)))
    ensures var (text, n) := Printed(Members(mask, 1), size);
      n >= 0 ==>
        var rs := ReadLine(text);
        rs.Some? && (set x | x in Expand(rs.value)) == mask && n == |mask|
  {
    var l := Members(mask, 1);
    MembersAre(mask, 1);
    PrintedDetermines(l, size);
    MembersSize(mask, 1);
    assert mask == (set x | x in l) == (set x | x in mask && 1 <= x < NSIG);
  }

  lemma {:induction false} MembersSize(mask: set<int>, sig: int)
    requires 1 <= sig <= NSIG
    ensures |Members(mask, sig)| == |set x | x in mask && sig <= x < NSIG|
    decreases NSIG - sig
  {
    var here := set x | x in mask && sig <= x < NSIG;
    if sig == NSIG {
      assert here == {};
    } else {
      MembersSize(mask, sig + 1);
      var rest := set x | x in mask && sig + 1 <= x < NSIG;
      assert here == (if sig in mask then {sig} else {}) + rest;
      assert sig !in rest;
    }
  }

  /** The members from `first` to `sig` are consecutive, and m are from sig on. */
  ghost predicate RunTo(mask: set<int>, first: int, sig: int, m: int) {
    && 1 <= first <= sig < NSIG && sig in mask
    && sig - first < |Members(mask, first)| && Members(mask, sig) == Members(mask, first)[sig - first..]
    && RunLength(Members(mask, first)) == sig - first + m && m == RunLength(Members(mask, sig))
  }

  lemma RunToNext(mask: set<int>, first: int, sig: int, m: int)
    requires RunTo(mask, first, sig, m) && sig + 1 < NSIG && sig + 1 in mask
    ensures RunTo(mask, first, sig + 1, m - 1)
  {
    assert Members(mask, sig)[1..] == Members(mask, sig + 1);
  }

  lemma RunToEnd(mask: set<int>, first: int, sig: int, m: int)
    requires RunTo(mask, first, sig, m) && (sig + 1 < NSIG ==> sig + 1 !in mask)
    ensures m == 1 && Members(mask, sig + 1) == Members(mask, first)[sig - first + 1..]
  {
    MembersAre(mask, sig + 1);
    assert Members(mask, sig)[1..] == Members(mask, sig + 1);
  }

  /** The inner loop over the set. */
  method SkipMembers(mask: set<int>, first: int) returns (sig: int)
    requires 1 <= first < NSIG && first in mask
    ensures first <= sig < NSIG && RunLength(Members(mask, first)) == sig - first + 1
    ensures Members(mask, sig + 1) == Members(mask, first)[sig - first + 1..]
  {
    sig := first;
    ghost var m := RunLength(Members(mask, first));
    while sig + 1 < NSIG && sig + 1 in mask
      invariant first <= sig < NSIG && RunTo(mask, first, sig, m)
    {
      RunToNext(mask, first, sig, m);
      m := m - 1;
      sig := sig + 1;
    }
    RunToEnd(mask, first, sig, m);
  }

  /** The ranges from the d-th on are those of the members from sig on. */
  ghost predicate Remaining(mask: set<int>, sig: int, rs: seq<Range>, d: int) {
    1 <= sig <= NSIG && 0 <= d <= |rs| && Ranges(Members(mask, sig)) == rs[d..]
  }

  lemma RemainingHead(mask: set<int>, sig: int, rs: seq<Range>, d: int)
    requires sig < NSIG && sig in mask && Remaining(mask, sig, rs, d)
    ensures d < |rs|
    ensures var l := Members(mask, sig); var m := RunLength(l);
      rs[d] == Range(sig, sig + m - 1) && Ranges(l[m..]) == rs[d + 1..]
  {
    var l := Members(mask, sig);
    assert l[0] == sig && rs[d..][1..] == rs[d + 1..];
    assert Ranges(l)[0] == rs[d..][0] && Ranges(l)[1..] == rs[d + 1..];
  }

  lemma RemainingAfter(mask: set<int>, sig: int, last: int, rs: seq<Range>, d: int)
    requires 1 <= sig <= last < NSIG && sig in mask && Remaining(mask, sig, rs, d)
    requires RunLength(Members(mask, sig)) == last - sig + 1
    requires Members(mask, last + 1) == Members(mask, sig)[last - sig + 1..]
    ensures d < |rs| && rs[d] == Range(sig, last) && Remaining(mask, last + 1, rs, d + 1)
    ensures |Members(mask, sig)| == last - sig + 1 + |Members(mask, last + 1)|
  {
    RemainingHead(mask, sig, rs, d);
  }

  /** One pass of the outer loop over the set, when there is room. */
  method SetItem(buf: array<char>, ghost size: int, mask: set<int>, sig: int, ghost rs: seq<Range>, ghost d: int,
                 pos: int, ghost prev: int) returns (last: int, pos': int, count: int)
    requires sig < NSIG && sig in mask && Positive(rs) && StaysInside(Bodies(rs), size) && Remaining(mask, sig, rs, d)
    requires Written(buf, Bodies(rs), d, size, pos, prev) && pos + ITEM_SIZE <= size
    modifies buf
    ensures sig <= last < NSIG && Remaining(mask, last + 1, rs, d + 1)
    ensures |Members(mask, sig)| == count + |Members(mask, last + 1)|
    ensures Written(buf, Bodies(rs), d + 1, size, pos', pos)
    ensures forall i :: size <= i < buf.Length ==> buf[i] == old(buf[i])
  {
    last := SkipMembers(mask, sig);
    RemainingAfter(mask, sig, last, rs, d);
    RoomFits(Bodies(rs), 0, size, d);
    assert Ends(Bodies(rs), d) <= size;
    pos', count := PutRange(buf, rs, d, size, pos, prev, sig, last);
  }

  lemma RemainingNext(mask: set<int>, sig: int, rs: seq<Range>, d: int)
    requires sig < NSIG && Remaining(mask, sig, rs, d)
    ensures sig !in mask ==> Remaining(mask, sig + 1, rs, d) && |Members(mask, sig + 1)| == |Members(mask, sig)|
    ensures sig in mask ==> d < |rs|
  {
    assert sig !in mask ==> Members(mask, sig) == Members(mask, sig + 1);
  }

  /** Before the pass for `sig`: d ranges are written with num members in them, of n in all. */
  ghost predicate SetState(buf: array<char>, mask: set<int>, rs: seq<Range>, n: int, size: int,
                           sig: int, d: int, num: int, pos: int, prev: int)
    requires Positive(rs)
    reads buf
  {
    && 1 <= sig <= NSIG && 0 <= d <= |rs| && Remaining(mask, sig, rs, d)
    && num + |Members(mask, sig)| == n && Written(buf, Bodies(rs), d, size, pos, prev)
  }

  /** One pass of the loop over the set, for a signal that is in it and has room. */
  method SetPass(buf: array<char>, ghost size: int, mask: set<int>, ghost rs: seq<Range>, ghost n: int, sig: int,
                 ghost d: int, num: int, pos: int, ghost prev: int) returns (last: int, pos': int, num': int)
    requires Positive(rs) && StaysInside(Bodies(rs), size) && SetState(buf, mask, rs, n, size, sig, d, num, pos, prev)
    requires sig < NSIG && sig in mask && pos + ITEM_SIZE <= size
    modifies buf
    ensures sig <= last < NSIG && SetState(buf, mask, rs, n, size, last + 1, d + 1, num', pos', pos)
    ensures forall i :: size <= i < buf.Length ==> buf[i] == old(buf[i])
  {
    RemainingNext(mask, sig, rs, d);
    var count;
    last, pos', count := SetItem(buf, size, mask, sig, rs, d, pos, prev);
    num' := num + count;
  }

  lemma SetSkip(buf: array<char>, mask: set<int>, rs: seq<Range>, n: int, size: int,
                sig: int, d: int, num: int, pos: int, prev: int)
    requires Positive(rs) && SetState(buf, mask, rs, n, size, sig, d, num, pos, prev) && sig < NSIG && sig !in mask
    ensures SetState(buf, mask, rs, n, size, sig + 1, d, num, pos, prev)
  {
    RemainingNext(mask, sig, rs, d);
  }

  /** No room for the range that starts with `sig`. */
  method SetFull(buf: array<char>, ghost size: int, mask: set<int>, ghost rs: seq<Range>, ghost n: int, sig: int,
                 ghost d: int, ghost num: int, ghost pos: int, prev: int)
    requires Positive(rs) && SetState(buf, mask, rs, n, size, sig, d, num, pos, prev)
    requires sig < NSIG && sig in mask && pos + ITEM_SIZE > size
    modifies buf
    ensures Prints(buf, Bodies(rs), n, size, -1)
    ensures forall i :: size <= i < buf.Length ==> buf[i] == old(buf[i])
  {
    RemainingNext(mask, sig, rs, d);
    Overflow(buf, Bodies(rs), d, size, pos, prev, n);
  }

  /** The end of the loop over the set. */
  method SetEnd(buf: array<char>, ghost size: int, ghost mask: set<int>, ghost rs: seq<Range>, ghost n: int,
                ghost d: int, ghost num: int, pos: int, ghost prev: int)
    requires Positive(rs) && SetState(buf, mask, rs, n, size, NSIG, d, num, pos, prev)
    modifies buf
    ensures num == n && Prints(buf, Bodies(rs), n, size, n)
    ensures forall i :: size <= i < buf.Length ==> buf[i] == old(buf[i])
  {
    RemainingEnd(mask, rs, d);
    Finish(buf, Bodies(rs), size, pos, prev, num);
  }

  /** The loops of monitor_sigset_string; n is the number of members. */
  method SetLoop(buf: array<char>, size: int, mask: set<int>, ghost rs: seq<Range>, ghost n: int) returns (ret: int)
    requires ITEM_SIZE <= size <= buf.Length && Positive(rs) && StaysInside(Bodies(rs), size)
    requires SetState(buf, mask, rs, n, size, 1, 0, 0, 0, 0)
    modifies buf
    ensures Prints(buf, Bodies(rs), n, size, ret)
    ensures forall i :: size <= i < buf.Length ==> buf[i] == old(buf[i])
  {
    ghost var d := 0;
    var pos, prev, num, sig := 0, 0, 0, 1;
    while sig < NSIG
      invariant 1 <= sig <= NSIG && SetState(buf, mask, rs, n, size, sig, d, num, pos, prev)
      invariant forall i :: size <= i < buf.Length ==> buf[i] == old(buf[i])
    {
      if sig in mask {
        if pos + ITEM_SIZE > size {
          SetFull(buf, size, mask, rs, n, sig, d, num, pos, prev);
          return -1;
        }
        var last, pos', num' := SetPass(buf, size, mask, rs, n, sig, d, num, pos, prev);
        prev, pos, num, d, sig := pos, pos', num', d + 1, last;
      } else {
        SetSkip(buf, mask, rs, n, size, sig, d, num, pos, prev);
      }
      sig := sig + 1;
    }
    SetEnd(buf, size, mask, rs, n, d, num, pos, prev);
    return num;
  }

  lemma RemainingEnd(mask: set<int>, rs: seq<Range>, d: int)
    requires Remaining(mask, NSIG, rs, d)
    ensures d == |rs| && Members(mask, NSIG) == []
  {
  }

  /** Sets are always short enough. */
  lemma SetInside(mask: set<int>, size: int)
    requires size >= ITEM_SIZE
    ensures var rs := Ranges(Members(mask, 1));
      Positive(rs) && StaysInside(Bodies(rs), size) && Remaining(mask, 1, rs, 0)
    ensures var items := Bodies(Ranges(Members(mask, 1))); items[..0] == []
  {
    var rs := Ranges(Members(mask, 1));
    MembersAre(mask, 1);
    FiveDigitsFit(Members(mask, 1));
    InsideExactly(Bodies(rs));
    assert rs[0..] == rs;
  }

  /** monitor_sigset_string. */
  method PrintSet(buf: array?<char>, size: int, mask: Option<set<int>>) returns (ret: int)
    requires buf != null ==> buf.Length >= 1 && size <= buf.Length
    modifies buf
    ensures buf == null || size < 15 ==> ret == -1
    ensures buf != null && size < 15 ==> Holds(buf, "") && forall i :: 1 <= i < buf.Length ==>
      buf[i] == old(buf[i])
    ensures buf != null && size >= 15 && mask == None ==> Holds(buf, " (null)") && ret == 0
    ensures buf != null && size >= 15 && mask != None ==>
      var l := Members(mask.value, 1);
      Positive(Ranges(l)) && Holds(buf, Printed(l, size).0) && ret == Printed(l, size).1
    ensures buf != null && size >= 15 ==> forall i :: size <= i < buf.Length ==> buf[i] == old(buf[i])
  {
    if buf == null {
      return -1;
    }
    buf[0] := NUL;
    if size < ITEM_SIZE {
      return -1;
    }
    if mask == None {
      Put(buf, 0, " (null)");
      return 0;
    }
    SetInside(mask.value, size);
    ret := SetLoop(buf, size, mask.value, Ranges(Members(mask.value, 1)), |Members(mask.value, 1)|);
  }
}
