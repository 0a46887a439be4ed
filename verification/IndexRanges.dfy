/** Index lists as texts: `1-3,7,9-10`, printed with maximal runs and parsed back. */
module IndexRanges {
  import opened Wrappers
  import opened Texts

  // ---- Numbers ----

  function DigitChar(d: nat): char
    requires d < 10
  {
    "0123456789"[d]
  }

  function DigitValue(c: char): Option<nat> {
    if '0' <= c <= '9' then Some(c as nat - '0' as nat) else None
  }

  function Digits(n: nat): (r: string)
    ensures r != ""
  {
    if n < 10 then [DigitChar(n)] else Digits(n / 10) + [DigitChar(n % 10)]
  }

  function ParseDigits(s: string): Option<nat> {
    if s == "" then None
    else
      var last := DigitValue(s[|s| - 1]);
      if last.None? then None
      else if |s| == 1 then last
      else
        var before := ParseDigits(s[..|s| - 1]);
        if before.None? then None else Some(10 * before.value + last.value)
  }

  function Text(n: int): string {
    if n < 0 then "-" + Digits(-n) else Digits(n)
  }

  /** An integer: white space around it, an optional sign, digits. */
  function ParseInt(s: string): Option<int> {
    var t := Strip(s);
    if t == "" then None
    else
      var digits := ParseDigits(if t[0] == '-' || t[0] == '+' then t[1..] else t);
      if digits.None? then None
      else
        var value: int := digits.value;
        Some(if t[0] == '-' then -value else value)
  }

  predicate AllDigits(s: string) {
    forall c :: c in s ==> '0' <= c <= '9'
  }

  lemma {:induction false} DigitsParse(n: nat)
    ensures ParseDigits(Digits(n)) == Some(n) && AllDigits(Digits(n))
  {
    if n >= 10 {
      DigitsParse(n / 10);
      assert Digits(n)[..|Digits(n)| - 1] == Digits(n / 10);
    }
  }

  lemma NoSpaceAround(s: string)
    requires s != "" ==> !IsSpace(s[0]) && !IsSpace(s[|s| - 1])
    ensures Strip(s) == s
  {
  }

  lemma NumberParses(n: nat)
    ensures ParseInt(Digits(n)) == Some(n) && AllDigits(Digits(n)) && Strip(Digits(n)) == Digits(n)
  {
    DigitsParse(n);
    var s := Digits(n);
    assert s[0] in s && s[|s| - 1] in s;
    NoSpaceAround(s);
  }

  // ---- Splitting ----

  function IndexOf(s: string, c: char): (i: nat)
    ensures i <= |s| && c !in s[..i] && (i < |s| ==> s[i] == c)
    ensures i == |s| <==> c !in s
  {
    if s == "" then 0
    else if s[0] == c then 0
    else
      var i := 1 + IndexOf(s[1..], c);
      assert s == [s[0]] + s[1..];
      assert s[..i] == [s[0]] + s[1..][..i - 1];
      i
  }

  function Split(s: string, c: char): (parts: seq<string>)
    ensures parts != []
    decreases |s|
  {
    var i := IndexOf(s, c);
    if i == |s| then [s] else [s[..i]] + Split(s[i + 1..], c)
  }

  function Join(parts: seq<string>, c: char): string {
    if parts == [] then "" else if |parts| == 1 then parts[0] else parts[0] + [c] + Join(parts[1..], c)
  }

  lemma {:induction false} FirstIndex(a: string, c: char, b: string)
    requires c !in a
    ensures IndexOf(a + [c] + b, c) == |a|
  {
    if a != "" {
      FirstIndex(a[1..], c, b);
      assert (a + [c] + b)[1..] == a[1..] + [c] + b;
      assert a[0] in a;
    }
  }

  lemma {:induction false} SplitOfJoin(parts: seq<string>, c: char)
    requires parts != [] && forall p :: p in parts ==> c !in p
    ensures Split(Join(parts, c), c) == parts
  {
    if |parts| == 1 {
      assert parts[0] in parts;
    } else {
      assert parts[0] in parts;
      SplitOfJoin(parts[1..], c);
      SplitOnce(parts[0], c, Join(parts[1..], c));
      assert parts == [parts[0]] + parts[1..];
    }
  }

  lemma SplitOnce(a: string, c: char, rest: string)
    requires c !in a
    ensures Split(a + [c] + rest, c) == [a] + Split(rest, c)
  {
    FirstIndex(a, c, rest);
    hide IndexOf;
    var s := a + [c] + rest;
    assert s[..|a|] == a && s[|a| + 1..] == rest;
  }

  // ---- Parsing ----

  datatype Error = NotAnInteger | Descending | NoIndex

  function Span(first: int, last: int): (r: seq<int>)
    ensures forall x :: x in r <==> first <= x <= last
    decreases last - first
  {
    if last < first then [] else [first] + Span(first + 1, last)
  }

  function ParseItem(raw: string): Result<seq<int>, Error> {
    var item := Strip(raw);
    if item == "" then Success([])
    else if '-' in item then
      var i := IndexOf(item, '-');
      var first := ParseInt(item[..i]);
      var last := ParseInt(item[i + 1..]);
      if first.None? || last.None? then Failure(NotAnInteger)
      else if last.value < first.value then Failure(Descending)
      else Success(Span(first.value, last.value))
    else
      var n := ParseInt(item);
      if n.None? then Failure(NotAnInteger) else Success([n.value])
  }

  function ParseItems(items: seq<string>): Result<seq<int>, Error> {
    if items == [] then Success([])
    else
      var before := ParseItems(items[..|items| - 1]);
      if before.Failure? then before
      else
        var more := ParseItem(items[|items| - 1]);
        if more.Failure? then more else Success(before.value + more.value)
  }

  ghost predicate Increasing(s: seq<int>) {
    forall i, j :: 0 <= i < j < |s| ==> s[i] < s[j]
  }

  lemma InFront(x: int, s: seq<int>)
    requires Increasing(s) && forall y :: y in s ==> x < y
    ensures Increasing([x] + s) && forall y :: y in [x] + s <==> y == x || y in s
  {
    forall i, j | 0 <= i < j < |[x] + s| ensures ([x] + s)[i] < ([x] + s)[j] {
      assert s[j - 1] in s;
    }
  }

  /** The distinct values in increasing order. */
  function InsertDistinct(x: int, s: seq<int>): (r: seq<int>)
    requires Increasing(s)
    ensures Increasing(r) && forall y :: y in r <==> y == x || y in s
  {
    if s == [] then [x]
    else if x < s[0] then [x] + s
    else if x == s[0] then s
    else
      var rest := InsertDistinct(x, s[1..]);
      assert s == [s[0]] + s[1..];
      InFront(s[0], rest);
      [s[0]] + rest
  }

  function SortedDistinct(values: seq<int>): (r: seq<int>)
    ensures Increasing(r) && forall y :: y in r <==> y in values
  {
    if values == [] then []
    else
      assert values == [values[0]] + values[1..];
      InsertDistinct(values[0], SortedDistinct(values[1..]))
  }

  /** The parsing loop. */
  method ParseIndices(text: string) returns (r: Result<seq<int>, Error>)
    ensures var values := ParseItems(Split(text, ','));
            r == if values.Failure? then Failure(values.error)
                 else if values.value == [] then Failure(NoIndex)
                 else Success(SortedDistinct(values.value))
  {
    var items := Split(text, ',');
    var values: seq<int> := [];
    for k := 0 to |items|
      invariant ParseItems(items[..k]) == Success(values)
      invariant ParseItems(items[..k]).Success?
    {
      assert items[..k + 1][..k] == items[..k];
      var more := ParseItem(items[k]);
      if more.Failure? {
        FailureStays(items, k + 1);
        return Failure(more.error);
      }
      values := values + more.value;
    }
    assert items[..|items|] == items;
    if values == [] {
      return Failure(NoIndex);
    }
    return Success(SortedDistinct(values));
  }

  lemma {:induction false} FailureStays(items: seq<string>, k: nat)
    requires k <= |items| && ParseItems(items[..k]).Failure?
    ensures ParseItems(items) == ParseItems(items[..k])
  {
    if k == |items| {
      assert items[..k] == items;
    } else {
      var last := |items| - 1;
      assert items[..last][..k] == items[..k];
      FailureStays(items[..last], k);
    }
  }

  // ---- Printing ----

  datatype Range = Range(first: int, last: int)

  function PartText(r: Range): string {
    if r.first != r.last then Text(r.first) + "-" + Text(r.last) else Text(r.first)
  }

  function Parts(runs: seq<Range>): seq<string> {
    seq(|runs|, i requires 0 <= i < |runs| => PartText(runs[i]))
  }

  function Expand(runs: seq<Range>): seq<int> {
    if runs == [] then [] else Expand(runs[..|runs| - 1]) + Span(runs[|runs| - 1].first, runs[|runs| - 1].last)
  }

  /** The runs are in order, and no two of them could be one. */
  ghost predicate Maximal(runs: seq<Range>) {
    && (forall i :: 0 <= i < |runs| ==> runs[i].first <= runs[i].last)
    && (forall i :: 0 <= i < |runs| - 1 ==> runs[i].last + 1 < runs[i + 1].first)
  }

  ghost predicate IsLabel(shown: string, indices: seq<int>, runs: seq<Range>) {
    shown == Join(Parts(runs), ',') && Expand(runs) == indices && Maximal(runs) && runs != []
  }

  lemma SpanGrows(first: int, last: int)
    requires first <= last + 1
    ensures Span(first, last + 1) == Span(first, last) + [last + 1]
    decreases last - first + 1
  {
    if first <= last {
      SpanGrows(first + 1, last);
    }
  }

  /** What is printed and what is still open after the indices `done`. */
  ghost predicate Printed(done: seq<int>, parts: seq<string>, runs: seq<Range>, open: Range) {
    && parts == Parts(runs)
    && Expand(runs) + Span(open.first, open.last) == done
    && Maximal(runs + [open])
  }

  lemma Extend(done: seq<int>, parts: seq<string>, runs: seq<Range>, open: Range)
    requires Printed(done, parts, runs, open)
    ensures Printed(done + [open.last + 1], parts, runs, Range(open.first, open.last + 1))
  {
    assert (runs + [open])[|runs|] == open;
    SpanGrows(open.first, open.last);
    var longer := runs + [Range(open.first, open.last + 1)];
    forall i | 0 <= i < |longer| - 1 ensures longer[i].last + 1 < longer[i + 1].first {
      assert (runs + [open])[i].last + 1 < (runs + [open])[i + 1].first;
    }
    forall i | 0 <= i < |longer| ensures longer[i].first <= longer[i].last {
      assert (runs + [open])[i].first <= (runs + [open])[i].last;
    }
  }

  lemma CloseRun(done: seq<int>, parts: seq<string>, runs: seq<Range>, open: Range)
    requires Printed(done, parts, runs, open)
    ensures Parts(runs + [open]) == parts + [PartText(open)]
    ensures Expand(runs + [open]) == done && Maximal(runs + [open])
  {
    assert (runs + [open])[..|runs|] == runs;
  }

  lemma OpenRun(done: seq<int>, parts: seq<string>, runs: seq<Range>, open: Range, index: int)
    requires Printed(done, parts, runs, open) && open.last + 1 < index
    ensures Printed(done + [index], parts + [PartText(open)], runs + [open], Range(index, index))
  {
    CloseRun(done, parts, runs, open);
    assert Span(index, index) == [index];
    var longer := runs + [open] + [Range(index, index)];
    forall i | 0 <= i < |longer| - 1 ensures longer[i].last + 1 < longer[i + 1].first {
      if i < |runs| {
        assert longer[i] == (runs + [open])[i] && longer[i + 1] == (runs + [open])[i + 1];
      }
    }
    forall i | 0 <= i < |longer| ensures longer[i].first <= longer[i].last {
      if i <= |runs| {
        assert longer[i] == (runs + [open])[i];
      }
    }
  }

  /** The printing loop, over strictly increasing indices. */
  method RangeLabel(indices: seq<int>) returns (shown: string, ghost runs: seq<Range>)
    requires Increasing(indices)
    ensures indices == [] ==> shown == "empty"
    ensures indices != [] ==> IsLabel(shown, indices, runs)
  {
    if indices == [] {
      return "empty", [];
    }
    var parts: seq<string> := [];
    var start, prev := indices[0], indices[0];
    runs := [];
    assert Span(start, prev) == [start] == indices[..1];
    for k := 1 to |indices|
      invariant prev == indices[k - 1] && Printed(indices[..k], parts, runs, Range(start, prev))
    {
      hide Printed, PartText;
      var index := indices[k];
      assert indices[..k + 1] == indices[..k] + [index];
      if index == prev + 1 {
        Extend(indices[..k], parts, runs, Range(start, prev));
        prev := index;
      } else {
        OpenRun(indices[..k], parts, runs, Range(start, prev), index);
        parts := parts + [PartText(Range(start, prev))];
        runs := runs + [Range(start, prev)];
        start, prev := index, index;
      }
    }
    CloseRun(indices, parts, runs, Range(start, prev)) by {
      assert indices[..|indices|] == indices;
    }
    parts := parts + [PartText(Range(start, prev))];
    runs := runs + [Range(start, prev)];
    shown := Join(parts, ',');
  }

  // ---- Round trip ----

  lemma NotSpace(c: char)
    requires '0' <= c <= '9'
    ensures !IsSpace(c)
  {
  }

  lemma PairParses(m: nat, n: nat)
    requires m <= n
    ensures ParseItem(Digits(m) + "-" + Digits(n)) == Success(Span(m, n))
  {
    NumberParses(m);
    NumberParses(n);
    hide ParseInt, Digits, Strip, IsSpace, Span;
    var a, b := Digits(m), Digits(n);
    var item := a + "-" + b;
    assert item[0] == a[0] && item[|item| - 1] == b[|b| - 1] && a[0] in a && b[|b| - 1] in b;
    NotSpace(item[0]);
    NotSpace(item[|item| - 1]);
    NoSpaceAround(item);
    FirstIndex(a, '-', b);
    assert item == a + ['-'] + b;
    assert item[..|a|] == a && item[|a| + 1..] == b;
    assert item[|a|] == '-';
  }

  lemma SingleParses(m: nat)
    ensures ParseItem(Digits(m)) == Success([m])
  {
    NumberParses(m);
    hide ParseInt, Digits, Strip, IsSpace;
    assert '-' !in Digits(m);
  }

  lemma PartParses(r: Range)
    requires 0 <= r.first <= r.last
    ensures ParseItem(PartText(r)) == Success(Span(r.first, r.last)) && ',' !in PartText(r)
  {
    NumberParses(r.first);
    NumberParses(r.last);
    if r.first == r.last {
      SingleParses(r.first);
      assert Span(r.first, r.last) == [r.first];
    } else {
      PairParses(r.first, r.last);
    }
    hide ParseItem, Digits, ParseInt, Strip, Span;
  }

  lemma {:induction false} PartsParse(runs: seq<Range>)
    requires forall i :: 0 <= i < |runs| ==> 0 <= runs[i].first <= runs[i].last
    ensures ParseItems(Parts(runs)) == Success(Expand(runs))
  {
    if runs != [] {
      var last := |runs| - 1;
      PartsParse(runs[..last]);
      PartParses(runs[last]);
      hide ParseItem, PartText, Span;
      assert Parts(runs)[..last] == Parts(runs[..last]);
      assert Parts(runs)[last] == PartText(runs[last]);
    }
  }

  lemma PartsHaveNoComma(runs: seq<Range>)
    requires forall i :: 0 <= i < |runs| ==> 0 <= runs[i].first <= runs[i].last
    ensures forall p :: p in Parts(runs) ==> ',' !in p
  {
    forall i | 0 <= i < |runs| ensures ',' !in PartText(runs[i]) {
      PartParses(runs[i]);
    }
    hide PartText;
  }

  lemma {:induction false} IncreasingIsUnique(a: seq<int>, b: seq<int>)
    requires Increasing(a) && Increasing(b) && forall x :: x in a <==> x in b
    ensures a == b
  {
    assert a != [] ==> a[0] in a;
    assert b != [] ==> b[0] in b;
    if a != [] && b != [] {
      assert a[0] == b[0];
      assert a == [a[0]] + a[1..] && b == [b[0]] + b[1..];
      forall x ensures x in a[1..] <==> x in b[1..] {
        assert x in a[1..] <==> x in a && x != a[0];
        assert x in b[1..] <==> x in b && x != b[0];
      }
      IncreasingIsUnique(a[1..], b[1..]);
    }
  }

  lemma {:induction false} RunsAreExpanded(runs: seq<Range>, i: nat)
    requires i < |runs| && runs[i].first <= runs[i].last
    ensures runs[i].first in Expand(runs)
  {
    var last := |runs| - 1;
    if i < last {
      RunsAreExpanded(runs[..last], i);
    }
  }

  /** Parsing the label of a non-empty strictly increasing sequence of non-negative indices gives
    * the sequence back. */
  lemma LabelParsesBack(shown: string, indices: seq<int>, runs: seq<Range>)
    requires IsLabel(shown, indices, runs) && Increasing(indices) && forall x :: x in indices ==> x >= 0
    ensures ParseItems(Split(shown, ',')) == Success(indices) && SortedDistinct(indices) == indices
  {
    forall i | 0 <= i < |runs| ensures runs[i].first >= 0 {
      RunsAreExpanded(runs, i);
    }
    PartsParse(runs);
    PartsHaveNoComma(runs);
    SplitOfJoin(Parts(runs), ',');
    IncreasingIsUnique(SortedDistinct(indices), indices);
  }

  /** Printing and parsing in sequence. */
  method RoundTrip(indices: seq<int>) returns (r: Result<seq<int>, Error>)
    requires Increasing(indices) && indices != [] && forall x :: x in indices ==> x >= 0
    ensures r == Success(indices)
  {
    var shown, runs := RangeLabel(indices);
    LabelParsesBack(shown, indices, runs);
    r := ParseIndices(shown);
  }
}
