/** What planning under the records lock is worth to the reading side: on every store the protocol can
  * reach, the replacements of a batch can be merged and keep the size of its cell. */
module ReplacementPlanning {
  import opened Wrappers
  import Protocol = BatchRecords
  import Safety = BatchSafety
  import opened Replacement

  /** A recorded batch as the report reads it. */
  function RecordOf(name: string, record: Protocol.Record): Record {
    var relation := record.spec.relation;
    Record(
      name, if relation.Replacing? then Some((relation.batch, relation.gone)) else None, Some(record.spec.rows))
  }

  /** The records of the store, each once, in any order. */
  ghost predicate Lists(records: seq<Record>, store: Protocol.Store) {
    && (forall r :: r in records ==> r.name in store && r == RecordOf(r.name, store[r.name]))
    && forall i, j :: 0 <= i < j < |records| ==> records[i].name != records[j].name
  }

  function SliceOf(store: Protocol.Store, batch: string): set<Instance> {
    if batch in store then set i | i in store[batch].spec.rows else {}
  }

  /** The stand-ins of one batch are pairwise distinct and exchange an instance of its slice for one
    * outside it. */
  ghost predicate WellPlanned(found: seq<StandIn>, slice: set<Instance>) {
    && GoneOnce(found) && ArrivesOnce(found)
    && forall s :: s in found ==> s.gone in slice && s.arrives !in slice
  }

  lemma ReplacingRow(s: Protocol.State, n: string)
    requires Protocol.Reachable(s) && n in s.store && s.store[n].spec.relation.Replacing?
    ensures |s.store[n].spec.rows| == 1
    ensures s.store[n].spec.relation.gone in SliceOf(s.store, s.store[n].spec.relation.batch)
    ensures s.store[n].spec.rows[0] !in SliceOf(s.store, s.store[n].spec.relation.batch)
  {
    Safety.ReachableInv(s);
    assert Protocol.RelationsMatch(s.hosts, s.store);
  }

  /** Where a stand-in comes from. */
  lemma {:induction false} ComesFrom(records: seq<Record>, batch: string, k: nat) returns (i: nat)
    requires k < |StandIns(records, batch)|
    ensures i < |records| && Usable(records[i], batch) && StandIns(records, batch)[k] == StandInOf(records[i], batch)
    ensures i >= k
  {
    var rest, last := records[..|records| - 1], records[|records| - 1];
    if k < |StandIns(rest, batch)| {
      i := ComesFrom(rest, batch, k);
    } else {
      i := |records| - 1;
      AtMostAsMany(rest, batch);
    }
  }

  lemma {:induction false} AtMostAsMany(records: seq<Record>, batch: string)
    ensures |StandIns(records, batch)| <= |records|
  {
    if records != [] {
      AtMostAsMany(records[..|records| - 1], batch);
    }
  }

  lemma {:induction false} ComeApart(records: seq<Record>, batch: string, k: nat, m: nat) returns (i: nat, j: nat)
    requires k < m < |StandIns(records, batch)|
    ensures i < j < |records| && Usable(records[i], batch) && Usable(records[j], batch)
    ensures StandIns(records, batch)[k] == StandInOf(records[i], batch)
    ensures StandIns(records, batch)[m] == StandInOf(records[j], batch)
  {
    var rest := records[..|records| - 1];
    if m < |StandIns(rest, batch)| {
      i, j := ComeApart(rest, batch, k, m);
    } else {
      i := ComesFrom(rest, batch, k);
      j := |records| - 1;
    }
  }

  /** On a reachable store no two records claim one instance and the stand-ins are well planned: the
    * merge of the replacements cannot fail. */
  lemma ReachableIsWellPlanned(s: Protocol.State, records: seq<Record>, batch: string)
    requires Protocol.Reachable(s) && Lists(records, s.store)
    ensures ClaimedOnce(records, batch) && WellPlanned(StandIns(records, batch), SliceOf(s.store, batch))
  {
    var found, slice := StandIns(records, batch), SliceOf(s.store, batch);
    hide StandIns, Protocol.Reachable;
    forall i, j | 0 <= i < j < |records| && Claims(records[i], batch) && Claims(records[j], batch)
      ensures records[i].replaced != records[j].replaced
    {
      assert records[i] in records && records[j] in records;
      Safety.ReplacementsNeverCollide(s, records[i].name, records[j].name);
    }
    forall k, m | 0 <= k < m < |found| ensures found[k].gone != found[m].gone && found[k].arrives != found[m].arrives {
      var i, j := ComeApart(records, batch, k, m);
      assert records[i] in records && records[j] in records;
      Safety.ReplacementsNeverCollide(s, records[i].name, records[j].name);
    }
    forall t | t in found ensures t.gone in slice && t.arrives !in slice {
      var k :| 0 <= k < |found| && found[k] == t;
      var i := ComesFrom(records, batch, k);
      assert records[i] in records;
      ReplacingRow(s, records[i].name);
    }
  }

  // ---- The merged ones ----

  lemma {:induction false} MergedArePart(found: seq<StandIn>, observations: Observations)
    ensures forall t :: t in Merged(found, observations) ==> t in found
  {
    if found != [] {
      MergedArePart(found[..|found| - 1], observations);
    }
  }

  lemma {:induction false} MergedWellPlanned(found: seq<StandIn>, observations: Observations, slice: set<Instance>)
    requires WellPlanned(found, slice)
    ensures WellPlanned(Merged(found, observations), slice)
  {
    if found != [] {
      var rest, last := found[..|found| - 1], found[|found| - 1];
      MergedWellPlanned(rest, observations, slice);
      MergedArePart(rest, observations);
      var merged := Merged(rest, observations);
      hide Merged;
      forall k | 0 <= k < |merged| ensures merged[k].gone != last.gone && merged[k].arrives != last.arrives {
        assert merged[k] in rest;
        var i :| 0 <= i < |rest| && rest[i] == merged[k];
        assert found[i] == merged[k];
      }
    }
  }

  lemma {:induction false} MergingIsRight(found: seq<StandIn>, observations: Observations)
    requires forall t :: t in found ==> AsExpected(t, observations)
    ensures StandFor(StandInRows(found, observations), Merged(found, observations))
  {
    if found != [] {
      var rest, last := found[..|found| - 1], found[|found| - 1];
      MergingIsRight(rest, observations);
      assert AsExpected(last, observations);
    }
  }

  lemma ExchangeFits(merged: seq<StandIn>, withdrawals: set<Instance>, slice: set<Instance>)
    requires WellPlanned(merged, slice)
    ensures Going(merged, withdrawals) <= slice && Coming(merged, withdrawals) !! slice
  {
  }

  /** Whatever has been planned, replaced, observed and withdrawn, the cell wants as many instances as
    * the slice of its batch has. */
  lemma CellKeepsItsSize(
    state: Protocol.State, records: seq<Record>, batch: string, observations: Observations,
    withdrawals: set<Instance>, base: seq<Row>, s: Selection)
    requires Protocol.Reachable(state) && Lists(records, state.store)
    requires var found := StandIns(records, batch);
             && (forall t :: t in found ==> AsExpected(t, observations))
             && IsSelection(
                  s, base, StandInRows(found, observations), Replaced(Merged(found, observations)), withdrawals,
                  SliceOf(state.store, batch))
    ensures |s.wanted| == |SliceOf(state.store, batch)|
  {
    var found, slice := StandIns(records, batch), SliceOf(state.store, batch);
    var merged := Merged(found, observations);
    ReachableIsWellPlanned(state, records, batch);
    MergedWellPlanned(found, observations, slice);
    MergingIsRight(found, observations);
    ExchangeFits(merged, withdrawals, slice);
    WantedKeepsSize(s, base, StandInRows(found, observations), merged, withdrawals, slice);
  }
}
