/** The rows of a cell as the report lists them: in the order of the suite file, with the instances
  * that have no row yet. */
module CellRows {
  import opened Wrappers
  import opened Replacement

  /** The row of an instance; a later row hides an earlier one. */
  function RowFor(rows: seq<Row>, i: Instance): Option<Row> {
    if rows == [] then None
    else if rows[|rows| - 1].instance == i then Some(rows[|rows| - 1])
    else RowFor(rows[..|rows| - 1], i)
  }

  /** The rows of the suite, in its order. */
  function InSuite(rows: seq<Row>, suite: seq<Instance>): seq<Row> {
    if suite == [] then []
    else
      var row := RowFor(rows, suite[0]);
      (if row.Some? then [row.value] else []) + InSuite(rows, suite[1..])
  }

  function Extra(rows: seq<Row>, suite: seq<Instance>): seq<Row> {
    if rows == [] then []
    else (if rows[0].instance in suite then [] else [rows[0]]) + Extra(rows[1..], suite)
  }

  function Missing(rows: seq<Row>, suite: seq<Instance>): seq<Instance> {
    if suite == [] then []
    else (if RowFor(rows, suite[0]).None? then [suite[0]] else []) + Missing(rows, suite[1..])
  }

  function OrderRows(rows: seq<Row>, suite: seq<Instance>): seq<Row> {
    InSuite(rows, suite) + Extra(rows, suite)
  }

  /** What the report lists as rows, and as missing. */
  function Shown(rows: seq<Row>, suite: seq<Instance>, wanted: set<Instance>): seq<Row> {
    Inside(OrderRows(rows, suite), wanted)
  }

  function Absent(rows: seq<Row>, suite: seq<Instance>, wanted: set<Instance>): seq<Instance> {
    Among(Missing(rows, suite), wanted)
  }

  function Among(names: seq<Instance>, wanted: set<Instance>): seq<Instance> {
    if names == [] then [] else (if names[0] in wanted then [names[0]] else []) + Among(names[1..], wanted)
  }

  // ---- Members ----

  ghost predicate Distinct(rows: seq<Row>) {
    !Repeats(rows)
  }

  lemma {:induction false} RowForIs(rows: seq<Row>, i: Instance)
    ensures RowFor(rows, i).Some? <==> exists r :: r in rows && r.instance == i
    ensures RowFor(rows, i).Some? ==> RowFor(rows, i).value in rows && RowFor(rows, i).value.instance == i
  {
    if rows != [] {
      var rest, last := rows[..|rows| - 1], rows[|rows| - 1];
      RowForIs(rest, i);
      assert rows == rest + [last];
    }
  }

  lemma OneRow(rows: seq<Row>, r: Row)
    requires Distinct(rows) && r in rows
    ensures RowFor(rows, r.instance) == Some(r)
  {
    RowForIs(rows, r.instance);
    var other := RowFor(rows, r.instance).value;
    var i :| 0 <= i < |rows| && rows[i] == r;
    var j :| 0 <= j < |rows| && rows[j] == other;
  }

  lemma {:induction false} InSuiteMembers(rows: seq<Row>, suite: seq<Instance>)
    requires Distinct(rows)
    ensures forall r :: r in InSuite(rows, suite) <==> r in rows && r.instance in suite
  {
    if suite != [] {
      InSuiteMembers(rows, suite[1..]);
      RowForIs(rows, suite[0]);
      assert suite == [suite[0]] + suite[1..];
      forall r | r in rows && r.instance == suite[0] ensures r in InSuite(rows, suite) {
        OneRow(rows, r);
      }
    }
  }

  lemma {:induction false} InSuiteDistinct(rows: seq<Row>, suite: seq<Instance>)
    requires Distinct(rows) && NoDuplicates(suite)
    ensures Distinct(InSuite(rows, suite))
  {
    if suite != [] {
      var rest := suite[1..];
      InSuiteDistinct(rows, rest);
      InSuiteMembers(rows, rest);
      RowForIs(rows, suite[0]);
      assert suite == [suite[0]] + rest;
      forall i | i in rest ensures i != suite[0] {
      }
      var row := RowFor(rows, suite[0]);
      if row.Some? {
        PrependDistinct(row.value, InSuite(rows, rest));
      }
    }
  }

  lemma PrependDistinct(r: Row, rows: seq<Row>)
    requires Distinct(rows) && forall q :: q in rows ==> q.instance != r.instance
    ensures Distinct([r] + rows)
  {
    var all := [r] + rows;
    forall i, j | 0 <= i < j < |all| ensures all[i].instance != all[j].instance {
      assert all[j] == rows[j - 1];
      if i > 0 {
        assert all[i] == rows[i - 1];
      } else {
        assert rows[j - 1] in rows;
      }
    }
  }

  lemma {:induction false} ExtraMembers(rows: seq<Row>, suite: seq<Instance>)
    ensures forall r :: r in Extra(rows, suite) <==> r in rows && r.instance !in suite
  {
    if rows != [] {
      ExtraMembers(rows[1..], suite);
      assert rows == [rows[0]] + rows[1..];
    }
  }

  lemma RestDistinct(rows: seq<Row>)
    requires Distinct(rows) && rows != []
    ensures Distinct(rows[1..]) && forall q :: q in rows[1..] ==> q.instance != rows[0].instance
  {
    assert rows == [rows[0]] + rows[1..];
    forall i, j | 0 <= i < j < |rows[1..]| ensures rows[1..][i].instance != rows[1..][j].instance {
      assert rows[1..][i] == rows[i + 1] && rows[1..][j] == rows[j + 1];
    }
    forall q | q in rows[1..] ensures q.instance != rows[0].instance {
      var j :| 0 <= j < |rows[1..]| && rows[1..][j] == q;
      assert rows[j + 1] == q;
    }
  }

  lemma {:induction false} ExtraDistinct(rows: seq<Row>, suite: seq<Instance>)
    requires Distinct(rows)
    ensures Distinct(Extra(rows, suite))
  {
    if rows != [] {
      RestDistinct(rows);
      ExtraDistinct(rows[1..], suite);
      ExtraMembers(rows[1..], suite);
      if rows[0].instance !in suite {
        PrependDistinct(rows[0], Extra(rows[1..], suite));
      }
    }
  }

  lemma {:induction false} JoinDistinct(a: seq<Row>, b: seq<Row>)
    requires Distinct(a) && Distinct(b)
    requires forall q, r :: q in a && r in b ==> q.instance != r.instance
    ensures Distinct(a + b)
  {
    if a == [] {
      assert a + b == b;
    } else {
      RestDistinct(a);
      JoinDistinct(a[1..], b);
      PrependDistinct(a[0], a[1..] + b);
      assert a + b == [a[0]] + (a[1..] + b);
    }
  }

  /** Ordering loses no row and doubles none. */
  lemma OrderedAre(rows: seq<Row>, suite: seq<Instance>)
    requires Distinct(rows) && NoDuplicates(suite)
    ensures Distinct(OrderRows(rows, suite))
    ensures forall r :: r in OrderRows(rows, suite) <==> r in rows
  {
    InSuiteMembers(rows, suite);
    InSuiteDistinct(rows, suite);
    ExtraMembers(rows, suite);
    ExtraDistinct(rows, suite);
    JoinDistinct(InSuite(rows, suite), Extra(rows, suite));
  }

  lemma {:induction false} InsideMembers(rows: seq<Row>, ids: set<Instance>)
    ensures forall r :: r in Inside(rows, ids) <==> r in rows && r.instance in ids
  {
    if rows != [] {
      InsideMembers(rows[1..], ids);
      assert rows == [rows[0]] + rows[1..];
    }
  }

  lemma {:induction false} InsideDistinct(rows: seq<Row>, ids: set<Instance>)
    requires Distinct(rows)
    ensures Distinct(Inside(rows, ids))
  {
    if rows != [] {
      RestDistinct(rows);
      InsideDistinct(rows[1..], ids);
      InsideMembers(rows[1..], ids);
      if rows[0].instance in ids {
        PrependDistinct(rows[0], Inside(rows[1..], ids));
      }
    }
  }

  lemma {:induction false} AbsentMembers(rows: seq<Row>, suite: seq<Instance>, wanted: set<Instance>)
    ensures forall i :: i in Absent(rows, suite, wanted) <==> i in suite && i in wanted && i !in Ids(rows)
  {
    MissingMembers(rows, suite);
    AmongMembers(Missing(rows, suite), wanted);
  }

  lemma {:induction false} MissingMembers(rows: seq<Row>, suite: seq<Instance>)
    ensures forall i :: i in Missing(rows, suite) <==> i in suite && i !in Ids(rows)
  {
    if suite != [] {
      MissingMembers(rows, suite[1..]);
      RowForIs(rows, suite[0]);
      assert suite == [suite[0]] + suite[1..];
    }
  }

  lemma {:induction false} AmongMembers(names: seq<Instance>, wanted: set<Instance>)
    ensures forall i :: i in Among(names, wanted) <==> i in names && i in wanted
  {
    if names != [] {
      AmongMembers(names[1..], wanted);
      assert names == [names[0]] + names[1..];
    }
  }

  // ---- Every wanted instance is accounted for ----

  lemma {:induction false} AsManyIds(rows: seq<Row>)
    requires Distinct(rows)
    ensures |Ids(rows)| == |rows|
  {
    if rows == [] {
      assert Ids(rows) == {};
    } else {
      RestDistinct(rows);
      AsManyIds(rows[1..]);
      var first := rows[0];
      assert rows == [first] + rows[1..];
      assert Ids(rows) == {first.instance} + Ids(rows[1..]);
      assert first.instance !in Ids(rows[1..]);
    }
  }

  lemma {:induction false} AsManyNames(names: seq<Instance>)
    requires NoDuplicates(names)
    ensures |set i | i in names| == |names|
  {
    if names == [] {
      assert (set i | i in names) == {};
    } else {
      AsManyNames(names[1..]);
      assert names == [names[0]] + names[1..];
      var rest := set i | i in names[1..];
      assert (set i | i in names) == {names[0]} + rest;
      assert names[0] !in rest;
    }
  }

  function Names(rows: seq<Row>): seq<Instance> {
    seq(|rows|, i requires 0 <= i < |rows| => rows[i].instance)
  }

  /** The rows of the suite come in its order. */
  lemma {:induction false} SuiteOrderIsKept(rows: seq<Row>, suite: seq<Instance>)
    ensures Names(InSuite(rows, suite)) == Among(suite, Ids(rows))
  {
    if suite != [] {
      SuiteOrderIsKept(rows, suite[1..]);
      RowForIs(rows, suite[0]);
      var row := RowFor(rows, suite[0]);
      if row.Some? {
        assert Names([row.value] + InSuite(rows, suite[1..])) == [suite[0]] + Names(InSuite(rows, suite[1..]));
      }
    }
  }

  lemma {:induction false} MissingDistinct(rows: seq<Row>, suite: seq<Instance>)
    requires NoDuplicates(suite)
    ensures NoDuplicates(Missing(rows, suite))
  {
    if suite != [] {
      var rest := Missing(rows, suite[1..]);
      MissingDistinct(rows, suite[1..]);
      MissingMembers(rows, suite[1..]);
      assert suite[0] !in suite[1..];
      PrependName(suite[0], rest);
    }
  }

  lemma PrependName(i: Instance, names: seq<Instance>)
    requires NoDuplicates(names)
    ensures i !in names ==> NoDuplicates([i] + names)
    ensures NoDuplicates([] + names)
  {
    assert [] + names == names;
  }

  lemma {:induction false} AmongDistinct(names: seq<Instance>, wanted: set<Instance>)
    requires NoDuplicates(names)
    ensures NoDuplicates(Among(names, wanted))
  {
    if names != [] {
      AmongDistinct(names[1..], wanted);
      AmongMembers(names[1..], wanted);
      assert names[0] !in names[1..];
      PrependName(names[0], Among(names[1..], wanted));
    }
  }

  /** Each wanted instance of the suite, or with a row, is either shown by its one row or listed as
    * missing; nothing else is, and the numbers add up. */
  lemma WantedAreAccountedFor(rows: seq<Row>, suite: seq<Instance>, wanted: set<Instance>)
    requires Distinct(rows) && NoDuplicates(suite)
    requires forall i :: i in wanted ==> i in suite || i in Ids(rows)
    ensures forall r :: r in Shown(rows, suite, wanted) <==> r in rows && r.instance in wanted
    ensures forall i :: i in Absent(rows, suite, wanted) <==> i in wanted && i !in Ids(rows)
    ensures Distinct(Shown(rows, suite, wanted)) && NoDuplicates(Absent(rows, suite, wanted))
    ensures |Shown(rows, suite, wanted)| + |Absent(rows, suite, wanted)| == |wanted|
  {
    OrderedAre(rows, suite);
    InsideMembers(OrderRows(rows, suite), wanted);
    InsideDistinct(OrderRows(rows, suite), wanted);
    AbsentMembers(rows, suite, wanted);
    MissingDistinct(rows, suite);
    AmongDistinct(Missing(rows, suite), wanted);
    var shown, absent := Shown(rows, suite, wanted), Absent(rows, suite, wanted);
    AsManyIds(shown);
    AsManyNames(absent);
    hide OrderRows, Missing, Shown, Absent, Distinct;
    var there, gone := Ids(shown), set i | i in absent;
    forall i ensures i in wanted <==> i in there || i in gone {
      if i in Ids(rows) && i in wanted {
        var r :| r in rows && r.instance == i;
        assert r in shown;
      }
    }
    assert wanted == there + gone && there !! gone;
  }

  /** A selected cell is reported in full: every instance it wants is shown once or missing. */
  lemma SelectedCellIsReported(
    s: Selection, base: seq<Row>, standIns: seq<Row>, merged: seq<StandIn>, withdrawals: set<Instance>,
    suite: seq<Instance>, slice: set<Instance>)
    requires StandFor(standIns, merged) && IsSelection(s, base, standIns, Replaced(merged), withdrawals, slice)
    requires !Repeats(s.rows) && NoDuplicates(suite) && forall i :: i in slice ==> i in suite
    ensures |Shown(s.rows, suite, s.wanted)| + |Absent(s.rows, suite, s.wanted)| == |s.wanted|
    ensures forall i :: i in s.wanted <==>
              i in Ids(Shown(s.rows, suite, s.wanted)) || i in Absent(s.rows, suite, s.wanted)
  {
    var staying := Staying(standIns, withdrawals);
    if s.replaced == map[] {
      forall row | row in standIns ensures IsWithdrawn(row, withdrawals) {
        MarksAreReplaced(standIns, merged, row);
        var gone := row.replacementFor.value;
        assert gone in Replaced(merged) && (gone in withdrawals || gone in s.replaced);
      }
      NoneStay(standIns, withdrawals);
    } else {
      assert forall r :: r in staying ==> r in s.rows;
    }
    forall i | i in s.wanted ensures i in suite || i in Ids(s.rows) {
      if i !in slice {
        assert i in Ids(staying);
      }
    }
    WantedAreAccountedFor(s.rows, suite, s.wanted);
    hide Shown, Absent, Repeats;
    forall i | i in s.wanted && i in Ids(s.rows) ensures i in Ids(Shown(s.rows, suite, s.wanted)) {
      var r :| r in s.rows && r.instance == i;
      assert r in Shown(s.rows, suite, s.wanted);
    }
  }
}
