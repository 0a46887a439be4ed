/** Replacements in a cell: which out-dirs stand in for which instances, which rows are selected
  * and which are set aside, and what a withdrawal gives back. */
module Replacement {
  import opened Wrappers

  type Instance = string

  /** A recorded batch: what it replaces, and the instances of its slice when they can be read. */
  datatype Record = Record(name: string, replaced: Option<(string, Instance)>, slice: Option<seq<Instance>>)

  datatype StandIn = StandIn(name: string, gone: Instance, arrives: Instance)

  datatype Error = ClaimedTwice | ArrivesTwice | UnexpectedRows | UnknownWithdrawal | RepeatedInstance

  predicate Claims(r: Record, batch: string) {
    r.replaced.Some? && r.replaced.value.0 == batch
  }

  predicate Usable(r: Record, batch: string) {
    Claims(r, batch) && r.slice.Some? && |r.slice.value| == 1
  }

  function StandInOf(r: Record, batch: string): StandIn
    requires Usable(r, batch)
  {
    StandIn(r.name, r.replaced.value.1, r.slice.value[0])
  }

  /** The stand-ins of the readable one-instance replacements, in record order. */
  function StandIns(records: seq<Record>, batch: string): seq<StandIn> {
    if records == [] then []
    else
      var last := records[|records| - 1];
      StandIns(records[..|records| - 1], batch) + if Usable(last, batch) then [StandInOf(last, batch)] else []
  }

  ghost predicate ClaimedOnce(records: seq<Record>, batch: string) {
    forall i, j :: 0 <= i < j < |records| && Claims(records[i], batch) && Claims(records[j], batch) ==>
      records[i].replaced != records[j].replaced
  }

  ghost predicate ArrivesOnce(found: seq<StandIn>) {
    forall i, j :: 0 <= i < j < |found| ==> found[i].arrives != found[j].arrives
  }

  /** The instances claimed and arriving so far. */
  ghost predicate Noted(claimed: set<Instance>, arrivals: set<Instance>, records: seq<Record>, batch: string) {
    && (forall gone :: gone in claimed <==>
          exists r :: r in records && Claims(r, batch) && r.replaced.value.1 == gone)
    && (forall arrives :: arrives in arrivals <==> exists s :: s in StandIns(records, batch) && s.arrives == arrives)
    && ClaimedOnce(records, batch) && ArrivesOnce(StandIns(records, batch))
  }

  lemma StandInsLonger(records: seq<Record>, batch: string, r: Record)
    ensures StandIns(records + [r], batch) ==
            if Usable(r, batch) then StandIns(records, batch) + [StandInOf(r, batch)] else StandIns(records, batch)
  {
    assert (records + [r])[..|records|] == records;
  }

  lemma NoteOne(claimed: set<Instance>, arrivals: set<Instance>, records: seq<Record>, batch: string, r: Record)
    requires Noted(claimed, arrivals, records, batch)
    requires Claims(r, batch) ==> r.replaced.value.1 !in claimed
    requires Usable(r, batch) ==> r.slice.value[0] !in arrivals
    ensures Noted(
      if Claims(r, batch) then claimed + {r.replaced.value.1} else claimed,
      if Usable(r, batch) then arrivals + {r.slice.value[0]} else arrivals, records + [r], batch)
  {
    StandInsLonger(records, batch, r);
    hide StandIns;
    assert r in records + [r];
    assert forall q :: q in records ==> q in records + [r];
    assert forall s :: s in StandIns(records, batch) ==> s in StandIns(records + [r], batch);
  }

  /** The loop over the records. It fails exactly when two of them claim one instance, whether or
    * not their slices can be read, or two stand-ins run one instance. */
  method ReplacementBatches(records: seq<Record>, batch: string) returns (r: Result<seq<StandIn>, Error>)
    ensures r.Success? <==> ClaimedOnce(records, batch) && ArrivesOnce(StandIns(records, batch))
    ensures r.Success? ==> r.value == StandIns(records, batch)
  {
    var claimed: set<Instance> := {};
    var arrivals: set<Instance> := {};
    var found: seq<StandIn> := [];
    assert records[..0] == [];
    for k := 0 to |records|
      invariant found == StandIns(records[..k], batch) && Noted(claimed, arrivals, records[..k], batch)
    {
      var record := records[k];
      assert records[..k + 1] == records[..k] + [record];
      StandInsLonger(records[..k], batch, record);
      hide StandIns, ClaimedOnce, ArrivesOnce, Noted;
      if Claims(record, batch) && record.replaced.value.1 in claimed {
        ClaimStays(records, batch, k, claimed, arrivals);
        return Failure(ClaimedTwice);
      }
      if Usable(record, batch) && record.slice.value[0] in arrivals {
        ArrivalStays(records, batch, k, claimed, arrivals);
        return Failure(ArrivesTwice);
      }
      NoteOne(claimed, arrivals, records[..k], batch, record);
      if Claims(record, batch) {
        claimed := claimed + {record.replaced.value.1};
      }
      if Usable(record, batch) {
        arrivals := arrivals + {record.slice.value[0]};
        found := found + [StandInOf(record, batch)];
      }
    }
    assert records[..|records|] == records;
    return Success(found);
  }

  lemma ClaimStays(records: seq<Record>, batch: string, k: nat, claimed: set<Instance>, arrivals: set<Instance>)
    requires k < |records| && Noted(claimed, arrivals, records[..k], batch)
    requires Claims(records[k], batch) && records[k].replaced.value.1 in claimed
    ensures !ClaimedOnce(records, batch)
  {
    var r :| r in records[..k] && Claims(r, batch) && r.replaced.value.1 == records[k].replaced.value.1;
    var i :| 0 <= i < k && records[i] == r;
  }

  lemma {:induction false} StandInsGrow(records: seq<Record>, batch: string, k: nat)
    requires k <= |records|
    ensures StandIns(records[..k], batch) <= StandIns(records, batch)
  {
    if k == |records| {
      assert records[..k] == records;
    } else {
      var shorter := records[..|records| - 1];
      StandInsGrow(shorter, batch, k);
      assert shorter[..k] == records[..k];
    }
  }

  lemma ArrivalStays(records: seq<Record>, batch: string, k: nat, claimed: set<Instance>, arrivals: set<Instance>)
    requires k < |records| && Noted(claimed, arrivals, records[..k], batch)
    requires Usable(records[k], batch) && records[k].slice.value[0] in arrivals
    ensures !ArrivesOnce(StandIns(records, batch))
  {
    var before, all := StandIns(records[..k], batch), StandIns(records, batch);
    var s := StandInOf(records[k], batch);
    assert records[..k + 1] == records[..k] + [records[k]];
    StandInsLonger(records[..k], batch, records[k]);
    StandInsGrow(records, batch, k + 1);
    hide StandIns;
    var t :| t in before && t.arrives == s.arrives;
    var i :| 0 <= i < |before| && before[i] == t;
    assert all[i] == t && all[|before|] == s;
  }

  // ---- The selection ----

  datatype Row = Row(instance: Instance, source: string, replacementFor: Option<Instance>)

  datatype Selection = Selection(
    rows: seq<Row>, excluded: seq<Row>, wanted: set<Instance>, replaced: map<Instance, Instance>)

  /** The rows observed for a stand-in, after its own retries are folded in. */
  type Observations = map<string, seq<Row>>

  function Observed(observations: Observations, name: string): seq<Row> {
    if name in observations then observations[name] else []
  }

  /** Stand-ins without any observation are not merged. */
  function Merged(found: seq<StandIn>, observations: Observations): seq<StandIn> {
    if found == [] then []
    else
      var last := found[|found| - 1];
      Merged(found[..|found| - 1], observations) + if Observed(observations, last.name) != [] then [last] else []
  }

  predicate AsExpected(s: StandIn, observations: Observations) {
    var rows := Observed(observations, s.name);
    rows == [] || (|rows| == 1 && rows[0].instance == s.arrives)
  }

  function RowOf(s: StandIn, observations: Observations): Row
    requires Observed(observations, s.name) != []
  {
    Observed(observations, s.name)[0].(replacementFor := Some(s.gone))
  }

  /** The observed rows of the merged stand-ins, in order, each marked with what it replaces. */
  function StandInRows(found: seq<StandIn>, observations: Observations): seq<Row> {
    if found == [] then []
    else
      var last := found[|found| - 1];
      StandInRows(found[..|found| - 1], observations)
      + if Observed(observations, last.name) != [] then [RowOf(last, observations)] else []
  }

  /** The stand-ins looked at so far are merged. */
  ghost predicate MergedRight(
    rows: seq<Row>, replaced: map<Instance, Instance>, found: seq<StandIn>, observations: Observations)
  {
    && (forall s :: s in found ==> AsExpected(s, observations))
    && rows == StandInRows(found, observations)
    && StandFor(rows, Merged(found, observations))
    && replaced == Replaced(Merged(found, observations))
  }

  lemma MergeOne(
    rows: seq<Row>, replaced: map<Instance, Instance>, found: seq<StandIn>, observations: Observations, s: StandIn)
    requires MergedRight(rows, replaced, found, observations) && AsExpected(s, observations)
    ensures Observed(observations, s.name) == [] ==> MergedRight(rows, replaced, found + [s], observations)
    ensures Observed(observations, s.name) != [] ==>
      MergedRight(rows + [RowOf(s, observations)], replaced[s.gone := s.arrives], found + [s], observations)
  {
    MergedLonger(found, observations, s);
    StandInRowsLonger(found, observations, s);
    ReplacedLonger(Merged(found, observations), s);
    hide Merged, StandInRows, Replaced;
  }

  method MergeStandIns(found: seq<StandIn>, observations: Observations)
    returns (r: Result<seq<Row>, Error>, replaced: map<Instance, Instance>)
    ensures r.Success? <==> forall s :: s in found ==> AsExpected(s, observations)
    ensures r.Success? ==> MergedRight(r.value, replaced, found, observations)
  {
    var rows: seq<Row> := [];
    replaced := map[];
    assert MergedRight(rows, replaced, found[..0], observations);
    for k := 0 to |found|
      invariant MergedRight(rows, replaced, found[..k], observations)
    {
      hide *;
      var s := found[k];
      assert found[..k + 1] == found[..k] + [s] && s in found;
      if !AsExpected(s, observations) {
        return Failure(UnexpectedRows), replaced;
      }
      MergeOne(rows, replaced, found[..k], observations, s);
      if Observed(observations, s.name) != [] {
        rows := rows + [RowOf(s, observations)];
        replaced := replaced[s.gone := s.arrives];
      }
    }
    assert found[..|found|] == found;
    return Success(rows), replaced;
  }

  /** The rows are those of the stand-ins, in order, each marked with what it replaces. */
  ghost predicate StandFor(rows: seq<Row>, merged: seq<StandIn>) {
    && |rows| == |merged|
    && forall i :: 0 <= i < |rows| ==>
         rows[i].instance == merged[i].arrives && rows[i].replacementFor == Some(merged[i].gone)
  }

  function Replaced(merged: seq<StandIn>): map<Instance, Instance> {
    if merged == [] then map[]
    else Replaced(merged[..|merged| - 1])[merged[|merged| - 1].gone := merged[|merged| - 1].arrives]
  }

  lemma MergedLonger(found: seq<StandIn>, observations: Observations, s: StandIn)
    ensures Merged(found + [s], observations) ==
            if Observed(observations, s.name) != [] then Merged(found, observations) + [s]
            else Merged(found, observations)
  {
    assert (found + [s])[..|found|] == found;
  }

  lemma StandInRowsLonger(found: seq<StandIn>, observations: Observations, s: StandIn)
    ensures StandInRows(found + [s], observations) ==
            if Observed(observations, s.name) != [] then StandInRows(found, observations) + [RowOf(s, observations)]
            else StandInRows(found, observations)
  {
    assert (found + [s])[..|found|] == found;
  }

  lemma ReplacedLonger(merged: seq<StandIn>, s: StandIn)
    ensures Replaced(merged + [s]) == Replaced(merged)[s.gone := s.arrives]
  {
    assert (merged + [s])[..|merged|] == merged;
  }

  predicate IsWithdrawn(row: Row, withdrawals: set<Instance>) {
    row.replacementFor.Some? && row.replacementFor.value in withdrawals
  }

  function Back(rows: seq<Row>, withdrawals: set<Instance>): seq<Row> {
    if rows == [] then []
    else (if IsWithdrawn(rows[0], withdrawals) then [rows[0]] else []) + Back(rows[1..], withdrawals)
  }

  function Staying(rows: seq<Row>, withdrawals: set<Instance>): seq<Row> {
    if rows == [] then []
    else (if IsWithdrawn(rows[0], withdrawals) then [] else [rows[0]]) + Staying(rows[1..], withdrawals)
  }

  function Inside(rows: seq<Row>, ids: set<Instance>): seq<Row> {
    if rows == [] then [] else (if rows[0].instance in ids then [rows[0]] else []) + Inside(rows[1..], ids)
  }

  function Outside(rows: seq<Row>, ids: set<Instance>): seq<Row> {
    if rows == [] then [] else (if rows[0].instance in ids then [] else [rows[0]]) + Outside(rows[1..], ids)
  }

  function Ids(rows: seq<Row>): set<Instance> {
    set r | r in rows :: r.instance
  }

  function Left(replaced: map<Instance, Instance>, withdrawals: set<Instance>): map<Instance, Instance> {
    map i | i in replaced && i !in withdrawals :: replaced[i]
  }

  /** Withdrawals move stand-ins out again; base rows that are still replaced are set aside. */
  ghost predicate IsSelection(
    s: Selection, base: seq<Row>, standIns: seq<Row>, replaced: map<Instance, Instance>, withdrawals: set<Instance>,
    slice: set<Instance>)
  {
    var back, staying := Back(standIns, withdrawals), Staying(standIns, withdrawals);
    && s.replaced == Left(replaced, withdrawals)
    && s.wanted == (slice - s.replaced.Keys) + Ids(staying)
    && if s.replaced == map[] then s.rows == base && s.excluded == back
       else
         && s.rows == Outside(base, s.replaced.Keys) + staying
         && s.excluded == back + Inside(base, s.replaced.Keys)
  }

  predicate Repeats(rows: seq<Row>) {
    exists i, j :: 0 <= i < j < |rows| && rows[i].instance == rows[j].instance
  }

  /** Selection succeeds exactly when every stand-in is as expected, every withdrawal names a merged
    * one and the selected rows repeat no instance; what it returns is the selection. */
  method SelectCellRows(
    base: seq<Row>, found: seq<StandIn>, observations: Observations, withdrawals: set<Instance>, slice: set<Instance>)
    returns (r: Result<Selection, Error>)
    ensures r.Success? ==>
      var standIns, merged := StandInRows(found, observations), Merged(found, observations);
      && StandFor(standIns, merged)
      && IsSelection(r.value, base, standIns, Replaced(merged), withdrawals, slice)
    ensures r.Success? <==>
      var standIns, replaced := StandInRows(found, observations), Replaced(Merged(found, observations));
      && (forall s :: s in found ==> AsExpected(s, observations))
      && withdrawals <= replaced.Keys
      && forall s :: IsSelection(s, base, standIns, replaced, withdrawals, slice) ==> !Repeats(s.rows)
  {
    var merged, replaced := MergeStandIns(found, observations);
    if merged.Failure? {
      return Failure(merged.error);
    }
    if !(withdrawals <= replaced.Keys) {
      return Failure(UnknownWithdrawal);
    }
    var back, staying := Back(merged.value, withdrawals), Staying(merged.value, withdrawals);
    var left := Left(replaced, withdrawals);
    var rows, excluded := base, back;
    if left != map[] {
      excluded := back + Inside(base, left.Keys);
      rows := Outside(base, left.Keys) + staying;
    }
    var selection := Selection(rows, excluded, (slice - left.Keys) + Ids(staying), left);
    assert IsSelection(selection, base, merged.value, replaced, withdrawals, slice);
    if Repeats(rows) {
      return Failure(RepeatedInstance);
    }
    return Success(selection);
  }

  // ---- Conservation ----

  lemma {:induction false} PartsOfStandIns(rows: seq<Row>, withdrawals: set<Instance>)
    ensures multiset(Back(rows, withdrawals)) + multiset(Staying(rows, withdrawals)) == multiset(rows)
  {
    if rows != [] {
      PartsOfStandIns(rows[1..], withdrawals);
      assert rows == [rows[0]] + rows[1..];
    }
  }

  lemma {:induction false} PartsOfBase(rows: seq<Row>, ids: set<Instance>)
    ensures multiset(Inside(rows, ids)) + multiset(Outside(rows, ids)) == multiset(rows)
  {
    if rows != [] {
      PartsOfBase(rows[1..], ids);
      assert rows == [rows[0]] + rows[1..];
    }
  }

  lemma {:induction false} ReplacedKeys(merged: seq<StandIn>)
    ensures forall gone :: gone in Replaced(merged) <==> exists s :: s in merged && s.gone == gone
  {
    if merged != [] {
      var rest, last := merged[..|merged| - 1], merged[|merged| - 1];
      ReplacedKeys(rest);
      assert merged == rest + [last];
    }
  }

  lemma {:induction false} NoneStay(rows: seq<Row>, withdrawals: set<Instance>)
    requires forall row :: row in rows ==> IsWithdrawn(row, withdrawals)
    ensures Staying(rows, withdrawals) == [] && Back(rows, withdrawals) == rows
  {
    if rows != [] {
      assert rows == [rows[0]] + rows[1..];
      NoneStay(rows[1..], withdrawals);
    }
  }

  lemma MarksAreReplaced(standIns: seq<Row>, merged: seq<StandIn>, row: Row)
    requires StandFor(standIns, merged) && row in standIns
    ensures row.replacementFor.Some? && row.replacementFor.value in Replaced(merged)
  {
    ReplacedKeys(merged);
    var i :| 0 <= i < |standIns| && standIns[i] == row;
    assert merged[i] in merged;
  }

  /** Every base row and every merged stand-in is either selected or set aside, none of them twice
    * and none in both. */
  lemma NothingIsLost(
    s: Selection, base: seq<Row>, standIns: seq<Row>, merged: seq<StandIn>, withdrawals: set<Instance>,
    slice: set<Instance>)
    requires StandFor(standIns, merged) && IsSelection(s, base, standIns, Replaced(merged), withdrawals, slice)
    ensures multiset(s.rows) + multiset(s.excluded) == multiset(base) + multiset(standIns)
  {
    PartsOfStandIns(standIns, withdrawals);
    PartsOfBase(base, s.replaced.Keys);
    if s.replaced == map[] {
      forall row | row in standIns ensures IsWithdrawn(row, withdrawals) {
        MarksAreReplaced(standIns, merged, row);
        var gone := row.replacementFor.value;
        assert gone in Replaced(merged) && (gone in withdrawals || gone in s.replaced);
      }
      NoneStay(standIns, withdrawals);
    }
  }

  /** Withdrawing every replacement gives the base cell back. */
  lemma WithdrawingAllRestores(
    s: Selection, base: seq<Row>, standIns: seq<Row>, merged: seq<StandIn>, withdrawals: set<Instance>,
    slice: set<Instance>)
    requires StandFor(standIns, merged) && IsSelection(s, base, standIns, Replaced(merged), withdrawals, slice)
    requires Replaced(merged).Keys <= withdrawals
    ensures s.rows == base && s.wanted == slice && s.excluded == standIns && s.replaced == map[]
  {
    forall i ensures i !in s.replaced {
      assert i in s.replaced ==> i in Replaced(merged).Keys;
    }
    assert s.replaced == map[];
    forall row | row in standIns ensures IsWithdrawn(row, withdrawals) {
      MarksAreReplaced(standIns, merged, row);
      assert row.replacementFor.value in Replaced(merged).Keys;
    }
    NoneStay(standIns, withdrawals);
  }

  ghost predicate GoneOnce(merged: seq<StandIn>) {
    forall i, j :: 0 <= i < j < |merged| ==> merged[i].gone != merged[j].gone
  }

  /** The instances that stay replaced, and those that stand in for them. */
  function Going(merged: seq<StandIn>, withdrawals: set<Instance>): set<Instance> {
    set s | s in merged && s.gone !in withdrawals :: s.gone
  }

  function Coming(merged: seq<StandIn>, withdrawals: set<Instance>): set<Instance> {
    set s | s in merged && s.gone !in withdrawals :: s.arrives
  }

  lemma {:induction false} AsManyComeAsGo(merged: seq<StandIn>, withdrawals: set<Instance>)
    requires GoneOnce(merged) && ArrivesOnce(merged)
    ensures |Going(merged, withdrawals)| == |Coming(merged, withdrawals)|
  {
    if merged == [] {
      assert Going(merged, withdrawals) == {} && Coming(merged, withdrawals) == {};
    } else {
      var rest, last := merged[..|merged| - 1], merged[|merged| - 1];
      AsManyComeAsGo(rest, withdrawals);
      assert merged == rest + [last];
      ExchangeLonger(rest, last, withdrawals);
      NotBefore(merged, withdrawals);
      hide Going, Coming, GoneOnce, ArrivesOnce;
    }
  }

  lemma ExchangeLonger(merged: seq<StandIn>, s: StandIn, withdrawals: set<Instance>)
    ensures Going(merged + [s], withdrawals) ==
            Going(merged, withdrawals) + if s.gone in withdrawals then {} else {s.gone}
    ensures Coming(merged + [s], withdrawals) ==
            Coming(merged, withdrawals) + if s.gone in withdrawals then {} else {s.arrives}
  {
    forall t ensures t in merged + [s] <==> t in merged || t == s {
    }
  }

  lemma NotBefore(merged: seq<StandIn>, withdrawals: set<Instance>)
    requires merged != [] && GoneOnce(merged) && ArrivesOnce(merged)
    ensures var last := merged[|merged| - 1];
            && last.gone !in Going(merged[..|merged| - 1], withdrawals)
            && last.arrives !in Coming(merged[..|merged| - 1], withdrawals)
  {
  }

  lemma {:induction false} StayingIds(standIns: seq<Row>, merged: seq<StandIn>, withdrawals: set<Instance>)
    requires StandFor(standIns, merged)
    ensures Ids(Staying(standIns, withdrawals)) == Coming(merged, withdrawals)
  {
    if standIns != [] {
      StayingIds(standIns[1..], merged[1..], withdrawals);
      var first := merged[0];
      assert merged == [first] + merged[1..];
      assert Coming(merged, withdrawals) ==
             Coming(merged[1..], withdrawals) + if first.gone in withdrawals then {} else {first.arrives};
      if first.gone !in withdrawals {
        var rest := Staying(standIns[1..], withdrawals);
        assert Ids([standIns[0]] + rest) == {standIns[0].instance} + Ids(rest);
      }
    }
  }

  lemma SizeOfExchange(slice: set<Instance>, going: set<Instance>, coming: set<Instance>)
    requires going <= slice && |going| == |coming|
    ensures |(slice - going) + coming| == |slice| <==> coming !! slice - going
  {
    var kept := slice - going;
    assert |slice| == |kept| + |going| by {
      assert slice == kept + going;
    }
    var both := kept * coming;
    assert |kept + coming| + |both| == |kept| + |coming|;
    if both == {} {
    } else {
      assert |both| > 0;
    }
  }

  /** The wanted set keeps the size of the slice exactly when no stand-in runs an instance that the
    * slice still has, provided the replaced instances are of the slice; planning sees to both. */
  lemma WantedKeepsSize(
    s: Selection, base: seq<Row>, standIns: seq<Row>, merged: seq<StandIn>, withdrawals: set<Instance>,
    slice: set<Instance>)
    requires StandFor(standIns, merged) && IsSelection(s, base, standIns, Replaced(merged), withdrawals, slice)
    requires GoneOnce(merged) && ArrivesOnce(merged) && Going(merged, withdrawals) <= slice
    ensures |s.wanted| == |slice| <==> Coming(merged, withdrawals) !! slice - Going(merged, withdrawals)
  {
    StayingIds(standIns, merged, withdrawals);
    AsManyComeAsGo(merged, withdrawals);
    ReplacedKeys(merged);
    assert s.replaced.Keys == Going(merged, withdrawals);
    SizeOfExchange(slice, Going(merged, withdrawals), Coming(merged, withdrawals));
  }
}
