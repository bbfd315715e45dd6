/** The signal printers of monitor/src/utils.c: a set or a list of signal numbers as text with ranges,
    written into a buffer of limited size. */
module SignalText {

  import opened Options

  const NSIG: int := 65       // MONITOR_NSIG on Linux
  const ITEM_SIZE: int := 15  // SIG_ITEM_SIZE
  const NUL: char := '\0'
  const MAX_SIGNAL: int := 99999  // the largest number whose item surely fits

  // ----- ranges -------------------------------------------------------------------------------

  datatype Range = Range(first: int, last: int)

  /** How many numbers at the head of the list are consecutive. */
  function RunLength(l: seq<int>): (n: int)
    requires l != []
    ensures 1 <= n <= |l|
  {
    if |l| > 1 && l[1] == l[0] + 1 then 1 + RunLength(l[1..]) else 1
  }

  function Ranges(l: seq<int>): seq<Range> {
    if l == [] then [] else [Range(l[0], l[0] + RunLength(l) - 1)] + Ranges(l[RunLength(l)..])
  }

  function Numbers(a: int, b: int): seq<int>
    decreases b - a
  {
    if b < a then [] else [a] + Numbers(a + 1, b)
  }

  function Expand(rs: seq<Range>): seq<int> {
    if rs == [] then [] else Numbers(rs[0].first, rs[0].last) + Expand(rs[1..])
  }

  lemma {:induction false} RunIsNumbers(l: seq<int>)
    requires l != []
    ensures Numbers(l[0], l[0] + RunLength(l) - 1) == l[..RunLength(l)]
  {
    if RunLength(l) > 1 {
      RunIsNumbers(l[1..]);
      assert l[..RunLength(l)] == [l[0]] + l[1..][..RunLength(l) - 1];
    } else {
      assert Numbers(l[0] + 1, l[0]) == [];
    }
  }

  /** Expanding the ranges gives back the list. */
  lemma {:induction false} ExpandRanges(l: seq<int>)
    ensures Expand(Ranges(l)) == l
    decreases |l|
  {
    if l != [] {
      RunIsNumbers(l);
      ExpandRanges(l[RunLength(l)..]);
      assert l == l[..RunLength(l)] + l[RunLength(l)..];
    }
  }

  lemma {:induction false} RunEnds(l: seq<int>)
    requires l != [] && RunLength(l) < |l|
    ensures l[RunLength(l)] != l[0] + RunLength(l)
  {
    if l[1] == l[0] + 1 {
      RunEnds(l[1..]);
      assert l[1..][RunLength(l[1..])] == l[RunLength(l)];
    }
  }

  /** The ranges are as long as they can be: none begins where the one before it ends. */
  lemma {:induction false} RangesMaximal(l: seq<int>)
    ensures forall i :: 0 < i < |Ranges(l)| ==> Ranges(l)[i].first != Ranges(l)[i - 1].last + 1
    decreases |l|
  {
    if l != [] {
      var m, rest := RunLength(l), Ranges(l[RunLength(l)..]);
      RangesMaximal(l[m..]);
      if m < |l| { RunEnds(l); }
      assert forall i :: 0 < i < |Ranges(l)| ==> Ranges(l)[i] == rest[i - 1];
    }
  }

  // ----- text ---------------------------------------------------------------------------------

  function Digit(d: int): char
    requires 0 <= d < 10
  {
    "0123456789"[d]
  }

  function Value(c: char): int { if '0' <= c <= '9' then c as int - '0' as int else -1 }

  lemma DigitValue(d: int)
    requires 0 <= d < 10
    ensures Value(Digit(d)) == d
  {
  }

  /** %d of a number that is not negative. */
  function Decimal(n: int): string
    requires 0 <= n
  {
    if n < 10 then [Digit(n)] else Decimal(n / 10) + [Digit(n % 10)]
  }

  predicate Positive(rs: seq<Range>) { forall i :: 0 <= i < |rs| ==> 0 <= rs[i].first <= rs[i].last }

  function Body(r: Range): string
    requires 0 <= r.first <= r.last
  {
    if r.last > r.first then " " + Decimal(r.first) + "-" + Decimal(r.last) else " " + Decimal(r.first)
  }

  function Bodies(rs: seq<Range>): (r: seq<string>)
    requires Positive(rs)
    ensures |r| == |rs|
  {
    seq(|rs|, i requires 0 <= i < |rs| => Body(rs[i]))
  }

  /** What the loops write for items with these bodies, and the text without the last comma. */
  function Text(items: seq<string>): string {
    if items == [] then "" else items[0] + ("," + Text(items[1..]))
  }

  function Line(items: seq<string>): string {
    if items == [] then "" else if |items| == 1 then items[0] else items[0] + ("," + Line(items[1..]))
  }

  lemma Joined(a: string, b: string, c: string)
    ensures (a + ("," + b)) + c == a + ("," + (b + c))
  {
  }

  lemma {:induction false} TextLine(items: seq<string>)
    requires items != []
    ensures Text(items) == Line(items) + ","
  {
    if |items| == 1 {
      assert Text(items[1..]) == "";
    } else {
      TextLine(items[1..]);
      Joined(items[0], Line(items[1..]), ",");
    }
  }

  lemma {:induction false} TextNext(items: seq<string>, item: string)
    ensures Text(items + [item]) == Text(items) + (item + ",")
  {
    if items == [] {
      assert items + [item] == [item] && Text([item][1..]) == "";
    } else {
      TextNext(items[1..], item);
      assert (items + [item])[1..] == items[1..] + [item];
      Joined(items[0], Text(items[1..]), item + ",");
    }
  }

  // ----- reading the text back ----------------------------------------------------------------

  /** The number whose first digits make up n and whose other digits head s, and the rest. */
  function ReadNumber(s: string, n: int): (r: (int, string))
    ensures |r.1| <= |s|
  {
    if s != "" && Value(s[0]) >= 0 then ReadNumber(s[1..], 10 * n + Value(s[0])) else (n, s)
  }

  lemma {:induction false} ReadDecimal(n: int, rest: string)
    requires 0 <= n
    ensures ReadNumber(Decimal(n) + rest, 0) == ReadNumber(rest, n)
    decreases n
  {
    if n < 10 {
      DigitValue(n);
      assert (Decimal(n) + rest)[1..] == rest;
    } else {
      var d := [Digit(n % 10)];
      DigitValue(n % 10);
      ReadDecimal(n / 10, d + rest);
      assert Decimal(n) + rest == Decimal(n / 10) + (d + rest);
      assert (d + rest)[1..] == rest;
    }
  }

  /** The range after a dash, or the single number. */
  function ReadTail(a: int, s: string): (r: (Range, string))
    ensures |r.1| <= |s|
  {
    if s != "" && s[0] == '-' then
      var (b, rest) := ReadNumber(s[1..], 0);
      (Range(a, b), rest)
    else (Range(a, a), s)
  }

  function ReadBody(s: string): (r: (Range, string))
    requires s != ""
    ensures |r.1| < |s|
  {
    var (a, rest) := ReadNumber(s[1..], 0);
    ReadTail(a, rest)
  }

  /** A reader of the text: a blank, a number or two with a dash, a comma before the next item. */
  function ReadLine(s: string): Option<seq<Range>>
    decreases |s|
  {
    if s == "" then Some([])
    else if s[0] != ' ' then None
    else
      var (r, rest) := ReadBody(s);
      if rest == "" then Some([r])
      else if rest[0] != ',' then None
      else
        match ReadLine(rest[1..])
        case None => None
        case Some(rs) => Some([r] + rs)
  }

  predicate Ends(s: string) { s == "" || s[0] == ',' }

  lemma ReadTailBack(a: int, b: int, rest: string)
    requires 0 <= b && Ends(rest)
    ensures ReadTail(a, "-" + Decimal(b) + rest) == (Range(a, b), rest)
  {
    assert ("-" + Decimal(b) + rest)[1..] == Decimal(b) + rest;
    ReadDecimal(b, rest);
  }

  lemma ReadBodyBack(r: Range, rest: string)
    requires 0 <= r.first <= r.last && Ends(rest)
    ensures ReadBody(Body(r) + rest) == (r, rest)
  {
    var tail := if r.last > r.first then "-" + Decimal(r.last) + rest else rest;
    assert (Body(r) + rest)[1..] == Decimal(r.first) + tail;
    ReadDecimal(r.first, tail);
    if r.last > r.first { ReadTailBack(r.first, r.last, rest); }
  }

  lemma ReadNext(r: Range, line: string, rs: seq<Range>)
    requires 0 <= r.first <= r.last && ReadLine(line) == Some(rs)
    ensures ReadLine(Body(r) + ("," + line)) == Some([r] + rs)
  {
    ReadBodyBack(r, "," + line);
    assert ("," + line)[1..] == line;
    assert (Body(r) + ("," + line))[0] == ' ';
  }

  lemma ReadLast(r: Range)
    requires 0 <= r.first <= r.last
    ensures ReadLine(Body(r)) == Some([r])
  {
    ReadBodyBack(r, "");
    assert Body(r) + "" == Body(r) && Body(r)[0] == ' ';
  }

  /** The text determines the ranges. */
  lemma {:induction false} ReadLineBack(rs: seq<Range>)
    requires Positive(rs)
    ensures ReadLine(Line(Bodies(rs))) == Some(rs)
  {
    if |rs| == 1 {
      ReadLast(rs[0]);
      assert [rs[0]] == rs;
    } else if rs != [] {
      ReadLineBack(rs[1..]);
      ReadNext(rs[0], Line(Bodies(rs[1..])), rs[1..]);
      assert Bodies(rs)[1..] == Bodies(rs[1..]);
      assert [rs[0]] + rs[1..] == rs;
    }
  }
}
