/** What the batch record protocol guarantees over every run: theorems about the reachable
  * states of `BatchRecords`, phrased with the reference notion of a cell (`Connected`). */
module BatchSafety {
  import opened Wrappers
  import opened ModelIdentities
  import opened CellFamily
  import opened BatchRecords

  lemma {:induction false} RunKeepsInv(states: seq<State>, actions: seq<Action>, k: nat)
    requires IsRun(states, actions) && k < |states|
    ensures Inv(states[k])
  {
    if k > 0 {
      RunKeepsInv(states, actions, k - 1);
      hide Inv, Enabled, Apply;
      assert Step(states[k - 1], actions[k - 1], states[k]);
      StepKeepsInv(states[k - 1], actions[k - 1]);
    }
  }

  lemma ReachableInv(s: State)
    requires Reachable(s)
    ensures Inv(s)
  {
    var states, actions :| IsRun(states, actions) && states[|states| - 1] == s;
    RunKeepsInv(states, actions, |states| - 1);
  }

  /** Over every interleaving and crash of plan, preflight, launch and state updates, two
    * launches that claim a model in one cell claim the same model; and as soon as there are
    * two of them the identity is complete. */
  lemma OnePaidIdentityPerCell(s: State, n: Name, i: nat, m: Name, j: nat)
    requires Reachable(s) && Connected(SpecsOf(s.store), n, m)
    requires ClaimAt(s.store, n, i) && ClaimAt(s.store, m, j)
    ensures IdentityAt(s.store, n, i) == IdentityAt(s.store, m, j)
    ensures (n, i) != (m, j) ==> Complete(IdentityAt(s.store, n, i))
  {
    ReachableInv(s);
    CellIsRootClass(SpecsOf(s.store), s.age, n, m);
    if (n, i) != (m, j) {
      assert SameCell(s.store, s.age, n, m);
    }
  }

  /** A dispatched launch keeps its claim: it is never recorded as not started, it stays where
    * it was recorded, and the model it was started with is fully identified. */
  lemma DispatchedIsPaid(s: State, n: Name, i: nat)
    requires Reachable(s) && (n, i) in s.dispatched
    ensures ClaimAt(s.store, n, i)
    ensures s.store[n].launches[i].state == Some(StartUnknown) || s.store[n].launches[i].state == Some(Started)
    ensures Complete(IdentityAt(s.store, n, i))
  {
    ReachableInv(s);
    assert ClaimAt(s.store, n, i);
  }

  /** A launch prepared with an incomplete identity can never be advanced, and it is the only
    * claim its cell will ever hold. */
  lemma IncompleteClaimFreezesCell(s: State, n: Name, i: nat, m: Name, j: nat)
    requires Reachable(s) && ClaimAt(s.store, n, i) && !Complete(IdentityAt(s.store, n, i))
    ensures s.store[n].launches[i].state == Some(Preparing) && (n, i) !in s.dispatched
    ensures Connected(SpecsOf(s.store), n, m) && ClaimAt(s.store, m, j) ==> (m, j) == (n, i)
    ensures forall hosts, batch: Batch, op: Op | batch.name == n && !op.Plan? :: !Allowed(hosts, s.store, batch, op)
  {
    ReachableInv(s);
    if (n, i) in s.dispatched {
      DispatchedIsPaid(s, n, i);
    }
    if Connected(SpecsOf(s.store), n, m) && ClaimAt(s.store, m, j) && (m, j) != (n, i) {
      OnePaidIdentityPerCell(s, n, i, m, j);
    }
    forall hosts, batch: Batch, op: Op | batch.name == n && !op.Plan? ensures !Allowed(hosts, s.store, batch, op) {
      if Allowed(hosts, s.store, batch, op) {
        WrittenHostAgrees(hosts, s.store, batch, op, i);
      }
    }
  }

  /** The cell of a recorded batch can always be computed: no member is missing or unreadable
    * and no parent chain is cyclic. */
  lemma CellsAreAlwaysFound(s: State, name: Name)
    requires Reachable(s) && name in s.store
    ensures forall n :: Connected(SpecsOf(s.store), name, n) ==>
      n in s.store && Lookup(SpecsOf(s.store), n).Success? && !Revisits(SpecsOf(s.store), n)
  {
    ReachableInv(s);
    ForestNeverFails(SpecsOf(s.store), s.age, name);
    forall n | Connected(SpecsOf(s.store), name, n) ensures n in s.store {
      CellIsRootClass(SpecsOf(s.store), s.age, name, n);
    }
  }

  lemma {:induction false} ConditionsFollowRoot(s: State, n: Name)
    requires Inv(s) && n in s.store
    ensures var root := Root(SpecsOf(s.store), s.age, n);
      s.store[n].spec.paid == s.store[root].spec.paid
      && SameMachine(s.hosts, s.store[n].spec.host, s.store[root].spec.host)
    decreases s.age[n]
  {
    var specs := SpecsOf(s.store);
    var parent := Lookup(specs, n).value;
    if parent.Some? {
      assert s.store[n].spec.relation.batch == parent.value;
      ConditionsFollowRoot(s, parent.value);
    }
  }

  /** Every member of a cell was planned under the same paid conditions on one machine. */
  lemma CellSharesConditions(s: State, n: Name, m: Name)
    requires Reachable(s) && n in s.store && Connected(SpecsOf(s.store), n, m)
    ensures m in s.store && s.store[n].spec.paid == s.store[m].spec.paid
    ensures SameMachine(s.hosts, s.store[n].spec.host, s.store[m].spec.host)
  {
    ReachableInv(s);
    CellIsRootClass(SpecsOf(s.store), s.age, n, m);
    ConditionsFollowRoot(s, n);
    ConditionsFollowRoot(s, m);
  }

  /** No instance of a batch is ever replaced twice and no instance stands in twice, so the
    * replacement merge cannot meet the conflict it is prepared to reject. */
  lemma ReplacementsNeverCollide(s: State, n: Name, m: Name)
    requires Reachable(s) && n in s.store && m in s.store && n != m
    requires s.store[n].spec.relation.Replacing? && s.store[m].spec.relation.Replacing?
    requires s.store[n].spec.relation.batch == s.store[m].spec.relation.batch
    ensures s.store[n].spec.relation.gone != s.store[m].spec.relation.gone
    ensures |s.store[n].spec.rows| == 1 == |s.store[m].spec.rows|
    ensures s.store[n].spec.rows[0] != s.store[m].spec.rows[0]
    ensures s.store[n].spec.relation.batch in s.store
    ensures s.store[n].spec.relation.gone in s.store[s.store[n].spec.relation.batch].spec.rows
    ensures s.store[n].spec.rows[0] !in s.store[s.store[n].spec.relation.batch].spec.rows
  {
    ReachableInv(s);
    hide IsForest, LaunchesWellFormed, ClaimsConsistent, IncompleteStayPreparing, HostsAgree, DispatchedRecorded;
    hide ProcFits, OwnersDistinct;
    assert ReplacementsDistinct(s.store) && RelationsMatch(s.hosts, s.store);
  }

  /** A process that holds the records lock to record how its launch went is never refused,
    * whatever other processes planned or preflighted meanwhile, unless the identity it
    * prepared was incomplete. */
  lemma ProgressIsAlwaysRecordable(s: State, pid: Pid)
    requires Reachable(s) && pid in s.procs
    requires s.procs[pid].phase.Holding? && s.procs[pid].phase.op.Advance?
    ensures var p := s.procs[pid];
      && ClaimAt(s.store, p.batch.name, p.phase.op.index)
      && (Allowed(s.hosts, s.store, p.batch, p.phase.op) <==>
          Complete(IdentityAt(s.store, p.batch.name, p.phase.op.index)))
  {
    ReachableInv(s);
    var p := s.procs[pid];
    var n, op := p.batch.name, p.phase.op;
    assert ProcFits(s, pid);
    if Complete(IdentityAt(s.store, n, op.index)) {
      var record := s.store[n];
      assert ClaimsAgree(record, ModelIdentity(record.host.value)) by {
        forall j | 0 <= j < |record.launches| && Claims(record.launches[j]) ensures
          Complete(LaunchIdentity(record.launches[j], record))
          && LaunchIdentity(record.launches[j], record) == ModelIdentity(record.host.value)
        {
          assert ClaimAt(s.store, n, j);
          if j != op.index {
            assert SameCell(s.store, s.age, n, n);
            assert Agree(s.store, n, op.index, n, j);
          }
        }
      }
      RelationStillAccepted(s, p.batch);
    } else if Allowed(s.hosts, s.store, p.batch, op) {
      IncompleteClaimFreezesCell(s, n, op.index, n, op.index);
    }
  }

  lemma RelationStillAccepted(s: State, batch: Batch)
    requires RelationsMatch(s.hosts, s.store) && ReplacementsDistinct(s.store)
    requires batch.name in s.store && SameIdentity(s.store[batch.name].spec, batch.spec)
    ensures CheckRetry(s.hosts, s.store, batch) && CheckReplaces(s.store, batch)
  {
  }

  /** The loop over the launches of one record. */
  method ScanLaunches(record: Record, current: Identity) returns (agree: bool)
    ensures agree <==> ClaimsAgree(record, current)
  {
    for j := 0 to |record.launches|
      invariant forall i :: 0 <= i < j && Claims(record.launches[i]) ==>
        && Complete(LaunchIdentity(record.launches[i], record))
        && LaunchIdentity(record.launches[i], record) == current
    {
      if Claims(record.launches[j]) {
        var paid := LaunchIdentity(record.launches[j], record);
        if !Complete(paid) || paid != current {
          return false;
        }
      }
    }
    return true;
  }

  /** The check as the program makes it: one scan for the cell, then every launch of every
    * recorded member. It accepts exactly when the protocol's check does. */
  method ScanCell(order: seq<Name>, store: Store, batch: Batch, facts: Identity) returns (accepted: bool)
    requires forall n :: n in order <==> n in store || n == batch.name
    ensures accepted <==> CheckCellModelIdentity(store, batch, facts)
  {
    var current := ModelIdentity(facts);
    var specs := SpecsOf(store)[batch.name := CellSpec(batch.spec)];
    var found := CellModelFamily(order, specs, batch.name);
    if found.Failure? {
      return false;
    }
    var family := found.value;
    hide ClaimsAgree, Connected, Revisits, ModelIdentity;
    for k := 0 to |family|
      invariant forall i :: 0 <= i < k && family[i] in store ==> ClaimsAgree(store[family[i]], current)
    {
      if family[k] in store {
        var agree := ScanLaunches(store[family[k]], current);
        if !agree {
          assert family[k] in family;
          return false;
        }
      }
    }
    return true;
  }
}
