/** The batch record protocol: many processes plan, preflight and launch batches whose
  * records cite each other, all writes happen under one records lock, and any process may
  * die at any step.
  *
  * The store maps a batch name to its `batch.json`. A process is a program counter; one
  * action is one step of one process. The invariant below holds in every state of every
  * run, and `BatchSafety` reads the promises off it. */
module BatchRecords {
  import opened Wrappers
  import opened ModelIdentities
  import opened CellFamily

  type Instance = string
  type Pid = nat

  // ---- Records ----

  datatype LaunchState = Preparing | StartUnknown | Started | NotStarted

  /** Older records have neither a state nor an identity of their own. */
  datatype Launch = Launch(identity: Option<Identity>, state: Option<LaunchState>)

  datatype Relation = Original | RetryOf(batch: Name) | Replacing(batch: Name, gone: Instance)

  /** `paid` stands for every paid field with no special rule of its own (arm, cell, rung,
    * budget, steps, timeout, environment, pins, profile); `rows` are the instance ids the
    * suite slice selects. */
  datatype BatchSpec = BatchSpec(
    relation: Relation, suite: string, rows: seq<Instance>, host: string, paid: string, concurrency: nat)

  /** `inputs` stands for the digests of suite, frame content, instances and cards. */
  datatype Record = Record(spec: BatchSpec, inputs: string, host: Option<Identity>, launches: seq<Launch>)

  type Store = map<Name, Record>

  /** Host files: the fields of each host apart from its name and its checkouts. */
  type Hosts = map<string, string>

  datatype Batch = Batch(name: Name, spec: BatchSpec, inputs: string)

  /** What loading a spec file already refuses. */
  predicate Loadable(batch: Batch) {
    && batch.name != ""
    && batch.spec.rows != []
    && (batch.spec.relation.Original? || (batch.spec.relation.batch != "" && batch.spec.relation.batch != batch.name))
  }

  predicate Claims(launch: Launch) {
    launch.state != Some(NotStarted)
  }

  function LaunchIdentity(launch: Launch, record: Record): Identity {
    if launch.identity.Some? then ModelIdentity(launch.identity.value)
    else if record.host.Some? then ModelIdentity(record.host.value)
    else ModelIdentity(Identity("", "", ""))
  }

  function CellSpec(spec: BatchSpec): Spec {
    match spec.relation
    case Original => Readable(Unset, Unset)
    case RetryOf(p) => Readable(Text(p), Unset)
    case Replacing(p, _) => Readable(Unset, Text(p))
  }

  function SpecsOf(store: Store): Specs {
    map n | n in store :: CellSpec(store[n].spec)
  }

  // ---- The checks made inside a record transaction ----

  predicate SameMachine(hosts: Hosts, a: string, b: string) {
    a == b || (a in hosts && b in hosts && hosts[a] == hosts[b])
  }

  predicate RetryMatches(hosts: Hosts, mine: BatchSpec, theirs: BatchSpec) {
    && mine.suite == theirs.suite
    && mine.paid == theirs.paid
    && SameMachine(hosts, mine.host, theirs.host)
    && forall row :: row in mine.rows ==> row in theirs.rows
  }

  predicate ReplacementMatches(mine: BatchSpec, theirs: BatchSpec, gone: Instance) {
    && mine.paid == theirs.paid
    && mine.host == theirs.host
    && !theirs.relation.RetryOf?
    && |mine.rows| == 1
    && gone in theirs.rows
    && mine.rows[0] !in theirs.rows
  }

  predicate CheckRetry(hosts: Hosts, store: Store, batch: Batch) {
    batch.spec.relation.RetryOf? ==>
      && batch.spec.relation.batch in store
      && RetryMatches(hosts, batch.spec, store[batch.spec.relation.batch].spec)
  }

  predicate CheckReplaces(store: Store, batch: Batch) {
    batch.spec.relation.Replacing? ==>
      var parent := batch.spec.relation.batch;
      && parent in store
      && ReplacementMatches(batch.spec, store[parent].spec, batch.spec.relation.gone)
      && forall other | other in store && other != batch.name
            && store[other].spec.relation.Replacing? && store[other].spec.relation.batch == parent ::
          && store[other].spec.relation.gone != batch.spec.relation.gone
          && |store[other].spec.rows| == 1
          && store[other].spec.rows[0] != batch.spec.rows[0]
  }

  /** Every claiming launch of a record has this complete identity. */
  predicate ClaimsAgree(record: Record, identity: Identity) {
    forall i :: 0 <= i < |record.launches| && Claims(record.launches[i]) ==>
      Complete(LaunchIdentity(record.launches[i], record)) && LaunchIdentity(record.launches[i], record) == identity
  }

  /** The cell is found without error and every paid launch in it has the effective identity. */
  ghost predicate CheckCellModelIdentity(store: Store, batch: Batch, facts: Identity) {
    var specs := SpecsOf(store)[batch.name := CellSpec(batch.spec)];
    forall n :: Connected(specs, batch.name, n) ==>
      && Lookup(specs, n).Success?
      && !Revisits(specs, n)
      && (n in store ==> ClaimsAgree(store[n], ModelIdentity(facts)))
  }

  predicate SameIdentity(a: BatchSpec, b: BatchSpec) {
    a.(concurrency := b.concurrency) == b
  }

  /** `previous_record` accepts `batch` for what is stored under its name, given the host of
    * the record about to be written. */
  predicate PreviousRecordAccepts(store: Store, batch: Batch, inputs: string, host: Option<Identity>) {
    batch.name in store ==>
      && SameIdentity(store[batch.name].spec, batch.spec)
      && store[batch.name].inputs == inputs
      && (host.Some? ==> ClaimsAgree(store[batch.name], ModelIdentity(host.value)))
  }

  // ---- Record transactions ----

  datatype Op =
    | Plan
    | Preflight(facts: Identity)
    | Prepare(facts: Identity)
    | Advance(index: nat, state: LaunchState)

  predicate InRange(store: Store, name: Name, index: nat) {
    name in store && index < |store[name].launches|
  }

  function NewRecord(store: Store, batch: Batch, op: Op): Record
    requires op.Advance? ==> InRange(store, batch.name, op.index)
  {
    var previous := if batch.name in store then store[batch.name] else Record(batch.spec, batch.inputs, None, []);
    match op
    case Plan => Record(batch.spec, batch.inputs, previous.host, previous.launches)
    case Preflight(facts) => Record(batch.spec, batch.inputs, Some(facts), previous.launches)
    case Prepare(facts) =>
      Record(batch.spec, batch.inputs, Some(facts),
             previous.launches + [Launch(Some(ModelIdentity(facts)), Some(Preparing))])
    case Advance(index, state) =>
      previous.(launches := previous.launches[index := previous.launches[index].(state := Some(state))])
  }

  ghost predicate Allowed(hosts: Hosts, store: Store, batch: Batch, op: Op) {
    && CheckRetry(hosts, store, batch)
    && CheckReplaces(store, batch)
    && match op
       case Plan => PreviousRecordAccepts(store, batch, batch.inputs, None)
       case Preflight(facts) =>
         CheckCellModelIdentity(store, batch, facts) && PreviousRecordAccepts(store, batch, batch.inputs, Some(facts))
       case Prepare(facts) =>
         CheckCellModelIdentity(store, batch, facts) && PreviousRecordAccepts(store, batch, batch.inputs, Some(facts))
       case Advance(index, _) =>
         && InRange(store, batch.name, index)
         && PreviousRecordAccepts(store, batch, store[batch.name].inputs, store[batch.name].host)
  }

  // ---- Processes ----

  datatype Phase =
    | Waiting(op: Op)                  // before the records lock
    | Holding(op: Op)                  // lock taken, nothing read
    | Checked(op: Op, record: Record)  // checks passed, the write not yet made
    | Written(op: Op, index: nat)      // record replaced, lock still held
    | Copying(index: nat)              // launch recorded, inputs travelling to the host
    | Uploading(index: nat)            // uncertainty recorded, last upload
    | Launched(index: nat)             // start script dispatched

  datatype Proc = Proc(batch: Batch, phase: Phase)

  /** `dispatched` and `age` are history: which launches were sent to the host, and an order
    * in which parents come before children. */
  datatype State = State(
    hosts: Hosts,
    store: Store,
    lock: Option<Pid>,
    procs: map<Pid, Proc>,
    dispatched: set<(Name, nat)>,
    age: map<Name, nat>)

  datatype Action =
    | Begin(pid: Pid, batch: Batch, op: Op)
    | Acquire(pid: Pid)
    | Check(pid: Pid)
    | Refuse(pid: Pid)
    | Write(pid: Pid)
    | Release(pid: Pid)
    | Copied(pid: Pid)
    | Dispatch(pid: Pid)
    | Report(pid: Pid)
    | Fault(pid: Pid)
    | Crash(pid: Pid)

  /** Still inside the `try` whose failure means that the driver was certainly not started. */
  predicate MayFault(phase: Phase) {
    match phase
    case Waiting(op) => op.Advance? && op.state == StartUnknown
    case Holding(op) => op.Advance? && op.state == StartUnknown
    case Checked(op, _) => op.Advance? && op.state == StartUnknown
    case Written(op, _) => op.Advance? && op.state == StartUnknown
    case Copying(_) => true
    case Uploading(_) => true
    case Launched(_) => false
  }

  predicate HoldsLock(phase: Phase) {
    phase.Holding? || phase.Checked? || phase.Written?
  }

  /** The launch a phase is working on, if it has one already. */
  function Owned(phase: Phase): Option<nat> {
    match phase
    case Waiting(op) => if op.Advance? then Some(op.index) else None
    case Holding(op) => if op.Advance? then Some(op.index) else None
    case Checked(op, _) => if op.Advance? then Some(op.index) else None
    case Written(op, index) => if op.Advance? then Some(op.index) else if op.Prepare? then Some(index) else None
    case Copying(index) => Some(index)
    case Uploading(index) => Some(index)
    case Launched(index) => Some(index)
  }

  /** The action belongs to the phase. */
  predicate Shape(phase: Phase, a: Action) {
    match a
    case Begin(_, _, _) => false
    case Acquire(_) => phase.Waiting?
    case Check(_) => phase.Holding?
    case Refuse(_) => phase.Holding?
    case Write(_) => phase.Checked?
    case Release(_) => phase.Written?
    case Copied(_) => phase.Copying?
    case Dispatch(_) => phase.Uploading?
    case Report(_) => phase.Launched?
    case Fault(_) => MayFault(phase)
    case Crash(_) => true
  }

  ghost predicate Enabled(s: State, a: Action) {
    if a.Begin? then
      a.pid !in s.procs && Loadable(a.batch) && !a.op.Advance?
    else
      a.pid in s.procs && Shape(s.procs[a.pid].phase, a) &&
      var p := s.procs[a.pid];
      && (a.Acquire? ==> s.lock.None?)
      && (a.Check? ==> Allowed(s.hosts, s.store, p.batch, p.phase.op))
      && (a.Refuse? ==> !Allowed(s.hosts, s.store, p.batch, p.phase.op))
  }

  function RankOf(age: map<Name, nat>, batch: Batch): nat {
    if batch.name in age then age[batch.name]
    else if !batch.spec.relation.Original? && batch.spec.relation.batch in age then
      age[batch.spec.relation.batch] + 1
    else 0
  }

  function NextAge(age: map<Name, nat>, batch: Batch): map<Name, nat> {
    age[batch.name := RankOf(age, batch)]
  }

  /** Where the process goes next; `None` is a process that is gone. */
  function NextPhase(s: State, a: Action): Option<Phase>
    requires !a.Begin? && a.pid in s.procs
    requires Shape(s.procs[a.pid].phase, a)
    requires a.Check? && s.procs[a.pid].phase.op.Advance? ==>
      InRange(s.store, s.procs[a.pid].batch.name, s.procs[a.pid].phase.op.index)
  {
    var batch, phase := s.procs[a.pid].batch, s.procs[a.pid].phase;
    match a
    case Acquire(_) => Some(Holding(phase.op))
    case Check(_) => Some(Checked(phase.op, NewRecord(s.store, batch, phase.op)))
    case Refuse(_) => if MayFault(phase) then Some(Waiting(Advance(phase.op.index, NotStarted))) else None
    case Write(_) =>
      Some(Written(phase.op, if phase.record.launches == [] then 0 else |phase.record.launches| - 1))
    case Release(_) =>
      if phase.op.Prepare? then Some(Copying(phase.index))
      else if phase.op.Advance? && phase.op.state == StartUnknown then Some(Uploading(phase.op.index))
      else None
    case Copied(_) => Some(Waiting(Advance(phase.index, StartUnknown)))
    case Dispatch(_) => Some(Launched(phase.index))
    case Report(_) => Some(Waiting(Advance(phase.index, Started)))
    case Fault(_) => Some(Waiting(Advance(Owned(phase).value, NotStarted)))
    case Crash(_) => None
  }

  /** A process moves on; the records lock is held exactly through the phases that hold it
    * and dies with its holder. */
  function Move(s: State, pid: Pid, next: Option<Phase>): State
    requires pid in s.procs
  {
    s.(procs := if next.None? then s.procs - {pid} else s.procs[pid := s.procs[pid].(phase := next.value)],
       lock := if next.Some? && HoldsLock(next.value) then Some(pid) else if s.lock == Some(pid) then None else s.lock)
  }

  ghost function Apply(s: State, a: Action): State
    requires Enabled(s, a)
  {
    if a.Begin? then s.(procs := s.procs[a.pid := Proc(a.batch, Waiting(a.op))])
    else
      var moved := Move(s, a.pid, NextPhase(s, a));
      var p := s.procs[a.pid];
      if a.Write? then
        moved.(store := s.store[p.batch.name := p.phase.record], age := NextAge(s.age, p.batch))
      else if a.Dispatch? then moved.(dispatched := s.dispatched + {(p.batch.name, p.phase.index)})
      else moved
  }

  ghost predicate Init(s: State) {
    s.store == map[] && s.lock.None? && s.procs == map[] && s.dispatched == {} && s.age == map[]
  }

  ghost predicate Step(s: State, a: Action, s': State) {
    Enabled(s, a) && s' == Apply(s, a)
  }

  /** A run is any finite interleaving of the processes' steps, crashes included. */
  ghost predicate IsRun(states: seq<State>, actions: seq<Action>) {
    && |states| == |actions| + 1
    && Init(states[0])
    && forall i :: 0 <= i < |actions| ==> Step(states[i], actions[i], states[i + 1])
  }

  ghost predicate Reachable(s: State) {
    exists states, actions :: IsRun(states, actions) && states[|states| - 1] == s
  }

  // ---- What every store satisfies ----

  ghost predicate IsForest(store: Store, age: map<Name, nat>) {
    age.Keys == store.Keys && Forest(SpecsOf(store), age)
  }

  ghost predicate SameCell(store: Store, age: map<Name, nat>, a: Name, b: Name)
    requires IsForest(store, age) && a in store && b in store
  {
    Root(SpecsOf(store), age, a) == Root(SpecsOf(store), age, b)
  }

  predicate ClaimAt(store: Store, n: Name, i: nat) {
    InRange(store, n, i) && Claims(store[n].launches[i])
  }

  /** The identity stored with a launch. */
  function IdentityAt(store: Store, n: Name, i: nat): Identity
    requires InRange(store, n, i)
  {
    LaunchIdentity(store[n].launches[i], store[n])
  }

  /** Two launches of one cell claim one complete identity. */
  predicate Agree(store: Store, n: Name, i: nat, m: Name, j: nat)
    requires InRange(store, n, i) && InRange(store, m, j)
  {
    IdentityAt(store, n, i) == IdentityAt(store, m, j) && Complete(IdentityAt(store, n, i))
  }

  ghost predicate LaunchesWellFormed(store: Store) {
    forall n, i: nat {:trigger InRange(store, n, i)} :: InRange(store, n, i) ==>
      var launch := store[n].launches[i];
      && launch.state.Some?
      && launch.identity.Some?
      && ModelIdentity(launch.identity.value) == launch.identity.value
  }

  /** Two different paid launches of one cell have one complete identity. */
  ghost predicate ClaimsConsistent(store: Store, age: map<Name, nat>)
    requires IsForest(store, age)
  {
    forall n, i: nat, m, j: nat {:trigger ClaimAt(store, n, i), ClaimAt(store, m, j)} ::
      ClaimAt(store, n, i) && ClaimAt(store, m, j) && (n, i) != (m, j) && SameCell(store, age, n, m) ==>
        Agree(store, n, i, m, j)
  }

  ghost predicate IncompleteStayPreparing(store: Store) {
    forall n, i: nat {:trigger ClaimAt(store, n, i)} :: ClaimAt(store, n, i) && !Complete(IdentityAt(store, n, i)) ==>
      store[n].launches[i].state == Some(Preparing)
  }

  ghost predicate HostsAgree(store: Store) {
    forall n, i: nat {:trigger ClaimAt(store, n, i)} :: ClaimAt(store, n, i) ==>
      store[n].host.Some? && ModelIdentity(store[n].host.value) == IdentityAt(store, n, i)
  }

  ghost predicate DispatchedRecorded(store: Store, dispatched: set<(Name, nat)>) {
    forall n, i: nat {:trigger (n, i) in dispatched} :: (n, i) in dispatched ==>
      && InRange(store, n, i)
      && (store[n].launches[i].state == Some(StartUnknown) || store[n].launches[i].state == Some(Started))
  }

  ghost predicate RelationsMatch(hosts: Hosts, store: Store) {
    forall n :: n in store ==>
      match store[n].spec.relation
      case Original => true
      case RetryOf(p) => p in store && RetryMatches(hosts, store[n].spec, store[p].spec)
      case Replacing(p, gone) => p in store && ReplacementMatches(store[n].spec, store[p].spec, gone)
  }

  ghost predicate ReplacementsDistinct(store: Store) {
    forall n, m | n in store && m in store && n != m
        && store[n].spec.relation.Replacing? && store[m].spec.relation.Replacing?
        && store[n].spec.relation.batch == store[m].spec.relation.batch ::
      && store[n].spec.relation.gone != store[m].spec.relation.gone
      && |store[n].spec.rows| == 1 == |store[m].spec.rows|
      && store[n].spec.rows[0] != store[m].spec.rows[0]
  }

  ghost predicate StoreInv(hosts: Hosts, store: Store, age: map<Name, nat>, dispatched: set<(Name, nat)>) {
    && IsForest(store, age)
    && LaunchesWellFormed(store)
    && ClaimsConsistent(store, age)
    && IncompleteStayPreparing(store)
    && HostsAgree(store)
    && DispatchedRecorded(store, dispatched)
    && RelationsMatch(hosts, store)
    && ReplacementsDistinct(store)
    && forall n :: n in store ==> n != "" && store[n].spec.rows != []
  }

  // ---- One transaction keeps the store invariant ----

  lemma {:induction false} RootUnchangedByLeaf(
    specs: Specs, age: map<Name, nat>, specs': Specs, age': map<Name, nat>, n: Name)
    requires Forest(specs, age) && Forest(specs', age') && n in specs
    requires forall m :: m in specs ==> m in specs' && specs'[m] == specs[m] && age'[m] == age[m]
    ensures n in specs' && Root(specs', age', n) == Root(specs, age, n)
    decreases age[n]
  {
    var parent := Lookup(specs, n).value;
    assert Lookup(specs', n) == Lookup(specs, n);
    if parent.Some? {
      RootUnchangedByLeaf(specs, age, specs', age', parent.value);
    }
  }

  ghost predicate SaneAdvance(store: Store, dispatched: set<(Name, nat)>, batch: Batch, op: Op) {
    op.Advance? ==>
      && ClaimAt(store, batch.name, op.index)
      && (op.state == NotStarted ==> (batch.name, op.index) !in dispatched)
      && op.state != Preparing
  }

  function NextStore(store: Store, batch: Batch, op: Op): Store
    requires op.Advance? ==> InRange(store, batch.name, op.index)
  {
    store[batch.name := NewRecord(store, batch, op)]
  }

  /** A batch the checks let through is already recorded as it is, or cites a recorded parent. */
  predicate Attaches(store: Store, batch: Batch) {
    && Loadable(batch)
    && (batch.name in store ==> SameIdentity(store[batch.name].spec, batch.spec))
    && (!batch.spec.relation.Original? ==> batch.spec.relation.batch in store)
  }

  lemma AllowedAttaches(hosts: Hosts, store: Store, batch: Batch, op: Op)
    requires Loadable(batch) && Allowed(hosts, store, batch, op)
    ensures Attaches(store, batch)
  {
  }

  lemma SpecsGrow(store: Store, batch: Batch, op: Op)
    requires Attaches(store, batch) && (op.Advance? ==> InRange(store, batch.name, op.index))
    ensures SpecsOf(NextStore(store, batch, op)) == SpecsOf(store)[batch.name := CellSpec(batch.spec)]
    ensures batch.name in store ==> SpecsOf(NextStore(store, batch, op)) == SpecsOf(store)
  {
    var store' := NextStore(store, batch, op);
    assert store'[batch.name].spec.relation == batch.spec.relation;
  }

  lemma LeafKeepsForest(specs: Specs, age: map<Name, nat>, name: Name, spec: Spec, rank: nat)
    requires Forest(specs, age) && age.Keys == specs.Keys
    requires name in specs ==> specs[name] == spec && age[name] == rank
    requires ParentOf(name, spec).Success?
    requires ParentOf(name, spec).value.Some? ==>
      ParentOf(name, spec).value.value in specs && age[ParentOf(name, spec).value.value] < rank
    ensures Forest(specs[name := spec], age[name := rank])
    ensures forall n :: n in specs ==> Root(specs[name := spec], age[name := rank], n) == Root(specs, age, n)
  {
    var specs', age' := specs[name := spec], age[name := rank];
    forall n | n in specs' ensures
      && Lookup(specs', n).Success?
      && (Lookup(specs', n).value.Some? ==>
            Lookup(specs', n).value.value in specs' && age'[Lookup(specs', n).value.value] < age'[n])
    {
      if n in specs {
        assert Lookup(specs', n) == Lookup(specs, n);
      }
    }
    forall n | n in specs ensures Root(specs', age', n) == Root(specs, age, n) {
      RootUnchangedByLeaf(specs, age, specs', age', n);
    }
  }

  lemma ForestGrows(store: Store, age: map<Name, nat>, batch: Batch, op: Op)
    requires IsForest(store, age) && Attaches(store, batch) && (op.Advance? ==> InRange(store, batch.name, op.index))
    ensures IsForest(NextStore(store, batch, op), NextAge(age, batch))
    ensures forall n :: n in store ==>
      Root(SpecsOf(NextStore(store, batch, op)), NextAge(age, batch), n) == Root(SpecsOf(store), age, n)
  {
    SpecsGrow(store, batch, op);
    var specs, spec := SpecsOf(store), CellSpec(batch.spec);
    assert specs.Keys == store.Keys;
    var relation := batch.spec.relation;
    assert ParentOf(batch.name, spec) == Success(if relation.Original? then None else Some(relation.batch));
    if batch.name in store {
      assert specs[batch.name] == spec;
      assert Lookup(specs, batch.name) == ParentOf(batch.name, spec);
    } else if !relation.Original? {
      assert RankOf(age, batch) == age[relation.batch] + 1;
    }
    LeafKeepsForest(specs, age, batch.name, spec, RankOf(age, batch));
    KeysOfUpdate(age, batch.name, RankOf(age, batch));
    KeysOfUpdate(store, batch.name, NewRecord(store, batch, op));
  }

  /** A claim of the written store is the launch just prepared or an old claim with its old identity. */
  lemma ClaimSurvives(store: Store, batch: Batch, op: Op, n: Name, i: nat)
    requires LaunchesWellFormed(store)
    requires op.Advance? ==> ClaimAt(store, batch.name, op.index)
    requires ClaimAt(NextStore(store, batch, op), n, i)
    ensures if n == batch.name && op.Prepare? && !InRange(store, n, i) then
              IdentityAt(NextStore(store, batch, op), n, i) == ModelIdentity(op.facts)
            else
              ClaimAt(store, n, i) && IdentityAt(NextStore(store, batch, op), n, i) == IdentityAt(store, n, i)
  {
    if op.Prepare? {
      ModelIdentityIdempotent(op.facts);
    }
    if InRange(store, n, i) {
      assert store[n].launches[i].identity.Some?;
    }
  }

  lemma LaunchesStayWellFormed(store: Store, batch: Batch, op: Op)
    requires LaunchesWellFormed(store) && (op.Advance? ==> InRange(store, batch.name, op.index))
    ensures LaunchesWellFormed(NextStore(store, batch, op))
  {
    var store' := NextStore(store, batch, op);
    forall n, i: nat | InRange(store', n, i) ensures
      var launch := store'[n].launches[i];
      && launch.state.Some? && launch.identity.Some?
      && ModelIdentity(launch.identity.value) == launch.identity.value
    {
      if InRange(store, n, i) {
        assert store[n].launches[i].identity.Some?;
      } else {
        ModelIdentityIdempotent(op.facts);
      }
    }
  }

  lemma CheckedCellAgrees(store: Store, age: map<Name, nat>, batch: Batch, op: Op, n: Name, i: nat)
    requires IsForest(store, age) && Attaches(store, batch)
    requires (op.Preflight? || op.Prepare?) && CheckCellModelIdentity(store, batch, op.facts)
    requires ClaimAt(store, n, i)
    requires IsForest(NextStore(store, batch, op), NextAge(age, batch))
    requires SameCell(NextStore(store, batch, op), NextAge(age, batch), batch.name, n)
    ensures IdentityAt(store, n, i) == ModelIdentity(op.facts) && Complete(IdentityAt(store, n, i))
  {
    SpecsGrow(store, batch, op);
    CellIsRootClass(SpecsOf(NextStore(store, batch, op)), NextAge(age, batch), batch.name, n);
    assert ClaimsAgree(store[n], ModelIdentity(op.facts));
  }

  lemma PreparedClaimIsLast(store: Store, batch: Batch, op: Op, i: nat)
    requires op.Prepare? && InRange(NextStore(store, batch, op), batch.name, i) && !InRange(store, batch.name, i)
    ensures i == |NextStore(store, batch, op)[batch.name].launches| - 1
  {
  }

  /** The launch being prepared agrees with every old claim of its cell. */
  lemma PreparedClaimAgrees(store: Store, age: map<Name, nat>, batch: Batch, op: Op, i: nat, m: Name, j: nat)
    requires IsForest(store, age) && Attaches(store, batch) && LaunchesWellFormed(store)
    requires op.Prepare? && CheckCellModelIdentity(store, batch, op.facts)
    requires IsForest(NextStore(store, batch, op), NextAge(age, batch))
    requires ClaimAt(NextStore(store, batch, op), batch.name, i) && !InRange(store, batch.name, i)
    requires ClaimAt(NextStore(store, batch, op), m, j) && (batch.name, i) != (m, j)
    requires SameCell(NextStore(store, batch, op), NextAge(age, batch), batch.name, m)
    ensures Agree(NextStore(store, batch, op), batch.name, i, m, j)
  {
    PreparedClaimIsLast(store, batch, op, i);
    if m == batch.name && !InRange(store, m, j) {
      PreparedClaimIsLast(store, batch, op, j);
      assert false;
    } else {
      ClaimSurvives(store, batch, op, batch.name, i);
      ClaimSurvives(store, batch, op, m, j);
      CheckedCellAgrees(store, age, batch, op, m, j);
    }
  }

  lemma PairStaysConsistent(store: Store, age: map<Name, nat>, batch: Batch, op: Op,
                            n: Name, i: nat, m: Name, j: nat)
    requires IsForest(store, age) && Attaches(store, batch) && LaunchesWellFormed(store) && ClaimsConsistent(store, age)
    requires op.Advance? ==> ClaimAt(store, batch.name, op.index)
    requires op.Preflight? || op.Prepare? ==> CheckCellModelIdentity(store, batch, op.facts)
    requires IsForest(NextStore(store, batch, op), NextAge(age, batch))
    requires ClaimAt(NextStore(store, batch, op), n, i) && ClaimAt(NextStore(store, batch, op), m, j)
    requires (n, i) != (m, j)
    requires SameCell(NextStore(store, batch, op), NextAge(age, batch), n, m)
    ensures Agree(NextStore(store, batch, op), n, i, m, j)
  {
    if n == batch.name && op.Prepare? && !InRange(store, n, i) {
      PreparedClaimAgrees(store, age, batch, op, i, m, j);
    } else if m == batch.name && op.Prepare? && !InRange(store, m, j) {
      PreparedClaimAgrees(store, age, batch, op, j, n, i);
    } else {
      ForestGrows(store, age, batch, op);
      ClaimSurvives(store, batch, op, n, i);
      ClaimSurvives(store, batch, op, m, j);
      assert SameCell(store, age, n, m);
      assert Agree(store, n, i, m, j);
    }
  }

  /** After an allowed write, an old claim of the record agrees with the host written beside it. */
  lemma WrittenHostAgrees(hosts: Hosts, store: Store, batch: Batch, op: Op, i: nat)
    requires HostsAgree(store) && Allowed(hosts, store, batch, op)
    requires ClaimAt(store, batch.name, i)
    ensures var host := NextStore(store, batch, op)[batch.name].host;
      host.Some? && ModelIdentity(host.value) == IdentityAt(store, batch.name, i)
    ensures !op.Plan? ==> Complete(IdentityAt(store, batch.name, i))
  {
    var record := store[batch.name];
    assert record.host.Some? && ModelIdentity(record.host.value) == IdentityAt(store, batch.name, i);
    if op.Preflight? || op.Prepare? {
      assert ClaimsAgree(record, ModelIdentity(op.facts));
    } else if op.Advance? {
      assert ClaimsAgree(record, ModelIdentity(record.host.value));
    }
  }

  lemma LaunchFactsKept(hosts: Hosts, store: Store, batch: Batch, op: Op, n: Name, i: nat)
    requires LaunchesWellFormed(store) && HostsAgree(store) && IncompleteStayPreparing(store)
    requires Allowed(hosts, store, batch, op)
    requires op.Advance? ==> ClaimAt(store, batch.name, op.index)
    requires ClaimAt(NextStore(store, batch, op), n, i)
    ensures var store' := NextStore(store, batch, op);
      && store'[n].host.Some? && ModelIdentity(store'[n].host.value) == IdentityAt(store', n, i)
      && (!Complete(IdentityAt(store', n, i)) ==> store'[n].launches[i].state == Some(Preparing))
  {
    ClaimSurvives(store, batch, op, n, i);
    if ClaimAt(store, n, i) && n == batch.name {
      WrittenHostAgrees(hosts, store, batch, op, i);
    }
  }

  lemma DispatchedKept(store: Store, dispatched: set<(Name, nat)>, batch: Batch, op: Op)
    requires DispatchedRecorded(store, dispatched) && SaneAdvance(store, dispatched, batch, op)
    ensures DispatchedRecorded(NextStore(store, batch, op), dispatched)
  {
    var store' := NextStore(store, batch, op);
    forall n, i: nat | (n, i) in dispatched ensures
      && InRange(store', n, i)
      && (store'[n].launches[i].state == Some(StartUnknown) || store'[n].launches[i].state == Some(Started))
    {
      assert InRange(store, n, i);
    }
  }

  lemma RelationsKept(hosts: Hosts, store: Store, batch: Batch, op: Op)
    requires RelationsMatch(hosts, store) && Loadable(batch) && Allowed(hosts, store, batch, op)
    ensures RelationsMatch(hosts, NextStore(store, batch, op))
  {
    var store' := NextStore(store, batch, op);
    forall n | n in store ensures n in store' && SameIdentity(store[n].spec, store'[n].spec) {
    }
    assert SameIdentity(store'[batch.name].spec, batch.spec);
    forall n | n in store' ensures
      match store'[n].spec.relation
      case Original => true
      case RetryOf(p) => p in store' && RetryMatches(hosts, store'[n].spec, store'[p].spec)
      case Replacing(p, gone) => p in store' && ReplacementMatches(store'[n].spec, store'[p].spec, gone)
    {
      var spec := if n in store then store[n].spec else batch.spec;
      assert SameIdentity(spec, store'[n].spec);
      if !spec.relation.Original? {
        assert SameIdentity(store[spec.relation.batch].spec, store'[spec.relation.batch].spec);
      }
    }
  }

  lemma ReplacementsStayDistinct(hosts: Hosts, store: Store, batch: Batch, op: Op)
    requires ReplacementsDistinct(store) && Allowed(hosts, store, batch, op)
    ensures ReplacementsDistinct(NextStore(store, batch, op))
  {
    var store' := NextStore(store, batch, op);
    forall n | n in store ensures n in store' && SameIdentity(store[n].spec, store'[n].spec) {
    }
    assert SameIdentity(store'[batch.name].spec, batch.spec);
  }

  lemma ClaimsStayConsistent(hosts: Hosts, store: Store, age: map<Name, nat>, batch: Batch, op: Op)
    requires IsForest(store, age) && LaunchesWellFormed(store) && ClaimsConsistent(store, age)
    requires Attaches(store, batch) && Allowed(hosts, store, batch, op)
    requires op.Advance? ==> ClaimAt(store, batch.name, op.index)
    requires IsForest(NextStore(store, batch, op), NextAge(age, batch))
    ensures ClaimsConsistent(NextStore(store, batch, op), NextAge(age, batch))
  {
    var store', age' := NextStore(store, batch, op), NextAge(age, batch);
    forall n, i: nat, m, j: nat |
        ClaimAt(store', n, i) && ClaimAt(store', m, j) && (n, i) != (m, j) && SameCell(store', age', n, m)
      ensures Agree(store', n, i, m, j)
    {
      PairStaysConsistent(store, age, batch, op, n, i, m, j);
    }
  }

  lemma LaunchFactsStay(hosts: Hosts, store: Store, batch: Batch, op: Op)
    requires LaunchesWellFormed(store) && HostsAgree(store) && IncompleteStayPreparing(store)
    requires Allowed(hosts, store, batch, op)
    requires op.Advance? ==> ClaimAt(store, batch.name, op.index)
    ensures HostsAgree(NextStore(store, batch, op)) && IncompleteStayPreparing(NextStore(store, batch, op))
  {
    var store' := NextStore(store, batch, op);
    forall n, i: nat | ClaimAt(store', n, i) ensures
      && store'[n].host.Some? && ModelIdentity(store'[n].host.value) == IdentityAt(store', n, i)
      && (!Complete(IdentityAt(store', n, i)) ==> store'[n].launches[i].state == Some(Preparing))
    {
      LaunchFactsKept(hosts, store, batch, op, n, i);
    }
  }

  lemma NamesStayGood(hosts: Hosts, store: Store, batch: Batch, op: Op)
    requires Loadable(batch) && Allowed(hosts, store, batch, op)
    requires forall n :: n in store ==> n != "" && store[n].spec.rows != []
    ensures forall n :: n in NextStore(store, batch, op) ==> n != "" && NextStore(store, batch, op)[n].spec.rows != []
  {
  }

  lemma TransactionKeepsStoreInv(hosts: Hosts, store: Store, age: map<Name, nat>, dispatched: set<(Name, nat)>,
                                 batch: Batch, op: Op)
    requires StoreInv(hosts, store, age, dispatched) && Loadable(batch)
    requires Allowed(hosts, store, batch, op) && SaneAdvance(store, dispatched, batch, op)
    ensures StoreInv(hosts, NextStore(store, batch, op), NextAge(age, batch), dispatched)
  {
    hide IsForest, LaunchesWellFormed, ClaimsConsistent, IncompleteStayPreparing, HostsAgree, DispatchedRecorded;
    hide RelationsMatch, ReplacementsDistinct, Allowed, Attaches;
    ForestAndClaimsStay(hosts, store, age, dispatched, batch, op);
    LaunchFactsStay(hosts, store, batch, op);
    DispatchedKept(store, dispatched, batch, op);
    RelationsKept(hosts, store, batch, op);
    ReplacementsStayDistinct(hosts, store, batch, op);
    NamesStayGood(hosts, store, batch, op);
  }

  lemma ForestAndClaimsStay(hosts: Hosts, store: Store, age: map<Name, nat>, dispatched: set<(Name, nat)>,
                            batch: Batch, op: Op)
    requires IsForest(store, age) && LaunchesWellFormed(store) && ClaimsConsistent(store, age) && Loadable(batch)
    requires Allowed(hosts, store, batch, op) && SaneAdvance(store, dispatched, batch, op)
    ensures IsForest(NextStore(store, batch, op), NextAge(age, batch))
    ensures LaunchesWellFormed(NextStore(store, batch, op))
    ensures ClaimsConsistent(NextStore(store, batch, op), NextAge(age, batch))
  {
    hide IsForest, LaunchesWellFormed, ClaimsConsistent, Allowed, Attaches;
    AllowedAttaches(hosts, store, batch, op);
    ForestGrows(store, age, batch, op);
    LaunchesStayWellFormed(store, batch, op);
    ClaimsStayConsistent(hosts, store, age, batch, op);
  }

  // ---- What every process satisfies ----

  ghost predicate StateIs(store: Store, n: Name, i: nat, state: LaunchState) {
    InRange(store, n, i) && store[n].launches[i].state == Some(state)
  }

  /** The launch a process works on, in the state its phase says it is in. */
  ghost predicate LaunchFits(store: Store, dispatched: set<(Name, nat)>, batch: Batch, phase: Phase, index: nat) {
    var n := batch.name;
    && InRange(store, n, index)
    && SameIdentity(store[n].spec, batch.spec)
    && match phase
       case Copying(_) => StateIs(store, n, index, Preparing) && (n, index) !in dispatched
       case Uploading(_) => StateIs(store, n, index, StartUnknown) && (n, index) !in dispatched
       case Launched(_) => ClaimAt(store, n, index) && (n, index) in dispatched
       case Waiting(op) => AdvanceFits(store, dispatched, n, index, op)
       case Holding(op) => AdvanceFits(store, dispatched, n, index, op)
       case Checked(op, _) => AdvanceFits(store, dispatched, n, index, op)
       case Written(op, _) =>
         if op.Prepare? then StateIs(store, n, index, Preparing) && (n, index) !in dispatched
         else if op.Advance? && op.state == NotStarted then (n, index) !in dispatched
         else AdvanceFits(store, dispatched, n, index, op)
              && (op.Advance? && op.state == StartUnknown ==> StateIs(store, n, index, StartUnknown))
  }

  ghost predicate AdvanceFits(store: Store, dispatched: set<(Name, nat)>, n: Name, index: nat, op: Op) {
    op.Advance? ==>
      && (op.state == StartUnknown || op.state == Started || op.state == NotStarted)
      && ClaimAt(store, n, index)
      && ((n, index) in dispatched <==> op.state == Started)
  }

  ghost predicate ProcFits(s: State, pid: Pid)
    requires pid in s.procs
  {
    var p := s.procs[pid];
    && Loadable(p.batch)
    && (HoldsLock(p.phase) <==> s.lock == Some(pid))
    && (p.phase.Checked? ==>
          && (p.phase.op.Advance? ==> InRange(s.store, p.batch.name, p.phase.op.index))
          && Allowed(s.hosts, s.store, p.batch, p.phase.op)
          && p.phase.record == NewRecord(s.store, p.batch, p.phase.op))
    && (Owned(p.phase).Some? ==> LaunchFits(s.store, s.dispatched, p.batch, p.phase, Owned(p.phase).value))
  }

  ghost predicate OwnersDistinct(s: State) {
    forall p, q | p in s.procs && q in s.procs && p != q && s.procs[p].batch.name == s.procs[q].batch.name
        && Owned(s.procs[p].phase).Some? :: Owned(s.procs[p].phase) != Owned(s.procs[q].phase)
  }

  ghost predicate Inv(s: State) {
    && StoreInv(s.hosts, s.store, s.age, s.dispatched)
    && (s.lock.Some? ==> s.lock.value in s.procs)
    && (forall pid :: pid in s.procs ==> ProcFits(s, pid))
    && OwnersDistinct(s)
  }

  /** What another process keeps when the lock holder writes. */
  /** Another process finds its launch as it left it. */
  lemma OtherLaunchFits(
    store: Store, dispatched: set<(Name, nat)>, batch: Batch, op: Op, other: Batch, phase: Phase, index: nat)
    requires op.Advance? ==> InRange(store, batch.name, op.index) && !(other.name == batch.name && op.index == index)
    requires batch.name in store ==> SameIdentity(store[batch.name].spec, batch.spec)
    requires LaunchFits(store, dispatched, other, phase, index)
    ensures LaunchFits(NextStore(store, batch, op), dispatched, other, phase, index)
  {
    var store', n := NextStore(store, batch, op), other.name;
    assert InRange(store', n, index);
    assert store'[n].launches[index] == store[n].launches[index];
    assert SameIdentity(store'[n].spec, other.spec);
    hide NextStore, SameIdentity;
  }

  lemma WriteKeepsOthers(s: State, pid: Pid, other: Pid)
    requires pid in s.procs && other in s.procs && other != pid && s.procs[pid].phase.Checked?
    requires ProcFits(s, pid) && ProcFits(s, other) && OwnersDistinct(s)
    ensures ProcFits(Apply(s, Write(pid)), other)
  {
    var p, q := s.procs[pid], s.procs[other];
    hide StoreInv, LaunchFits, Loadable, CheckRetry, CheckReplaces, CheckCellModelIdentity;
    assert !HoldsLock(q.phase);
    if Owned(q.phase).Some? {
      OtherLaunchFits(s.store, s.dispatched, p.batch, p.phase.op, q.batch, q.phase, Owned(q.phase).value);
    }
  }

  /** A new launch takes an index no process is working on. */
  lemma PreparedIsUnowned(s: State, pid: Pid, other: Pid)
    requires Inv(s) && pid in s.procs && other in s.procs && s.procs[pid].phase.Checked?
    ensures other != pid && s.procs[pid].phase.op.Prepare? && s.procs[other].batch.name == s.procs[pid].batch.name
            && Owned(s.procs[other].phase).Some? ==>
      Owned(s.procs[other].phase).value < |s.procs[pid].phase.record.launches| - 1
  {
    assert ProcFits(s, pid) && ProcFits(s, other);
  }

  /** A process finds the launch that it has just prepared or advanced. */
  lemma OwnLaunchFits(
    store: Store, dispatched: set<(Name, nat)>, batch: Batch, op: Op, record: Record, index: nat)
    requires op.Advance? ==> InRange(store, batch.name, op.index)
    requires DispatchedRecorded(store, dispatched) && record == NewRecord(store, batch, op)
    requires batch.name in store ==> SameIdentity(store[batch.name].spec, batch.spec)
    requires op.Prepare? ==> index == |record.launches| - 1
    requires op.Advance? ==>
      index == op.index && LaunchFits(store, dispatched, batch, Checked(op, record), op.index)
    requires op.Prepare? || op.Advance?
    ensures LaunchFits(NextStore(store, batch, op), dispatched, batch, Written(op, index), index)
  {
    if op.Prepare? {
      assert !InRange(store, batch.name, index);
      assert (batch.name, index) !in dispatched;
      assert StateIs(NextStore(store, batch, op), batch.name, index, Preparing);
    }
  }

  lemma WrittenFits(s: State, pid: Pid)
    requires pid in s.procs && s.procs[pid].phase.Checked?
    requires ProcFits(s, pid) && DispatchedRecorded(s.store, s.dispatched)
    ensures ProcFits(Apply(s, Write(pid)), pid)
  {
    var p := s.procs[pid];
    var op, record := p.phase.op, p.phase.record;
    hide StoreInv, LaunchFits, Loadable, CheckRetry, CheckReplaces, CheckCellModelIdentity, OwnersDistinct;
    if op.Advance? {
      OwnLaunchFits(s.store, s.dispatched, p.batch, op, record, op.index);
      OwnIndex(s.store, s.dispatched, p.batch, op, record.launches, op.index);
    } else if op.Prepare? {
      OwnLaunchFits(s.store, s.dispatched, p.batch, op, record, |record.launches| - 1);
    }
  }

  /** For an advance, the index in the phase does not matter. */
  lemma OwnIndex(
    store: Store, dispatched: set<(Name, nat)>, batch: Batch, op: Op, launches: seq<Launch>, index: nat)
    requires op.Advance? && InRange(store, batch.name, op.index)
    requires LaunchFits(NextStore(store, batch, op), dispatched, batch, Written(op, index), op.index)
    ensures forall other :: LaunchFits(NextStore(store, batch, op), dispatched, batch, Written(op, other), op.index)
  {
    hide NextStore;
  }

  lemma WriteKeepsOwnersDistinct(s: State, pid: Pid)
    requires Inv(s) && pid in s.procs && s.procs[pid].phase.Checked?
    ensures OwnersDistinct(Apply(s, Write(pid)))
  {
    hide StoreInv, ProcFits, Allowed;
    var s' := Apply(s, Write(pid));
    forall x, y | x in s'.procs && y in s'.procs && x != y && s'.procs[x].batch.name == s'.procs[y].batch.name
        && Owned(s'.procs[x].phase).Some?
      ensures Owned(s'.procs[x].phase) != Owned(s'.procs[y].phase)
    {
      PreparedIsUnowned(s, pid, x);
      PreparedIsUnowned(s, pid, y);
    }
  }

  lemma WriteKeepsInv(s: State, pid: Pid)
    requires Inv(s) && pid in s.procs && s.procs[pid].phase.Checked?
    ensures Inv(Apply(s, Write(pid)))
  {
    var p := s.procs[pid];
    var s' := Apply(s, Write(pid));
    assert ProcFits(s, pid);
    assert SaneAdvance(s.store, s.dispatched, p.batch, p.phase.op);
    assert DispatchedRecorded(s.store, s.dispatched);
    hide StoreInv, Allowed, OwnersDistinct, ProcFits, DispatchedRecorded;
    TransactionKeepsStoreInv(s.hosts, s.store, s.age, s.dispatched, p.batch, p.phase.op);
    WriteKeepsOwnersDistinct(s, pid);
    forall other | other in s'.procs ensures ProcFits(s', other) {
      if other != pid {
        assert ProcFits(s, other);
        WriteKeepsOthers(s, pid, other);
      } else {
        WrittenFits(s, pid);
      }
    }
  }

  // ---- The steps that write nothing ----

  /** The process would satisfy its invariant in this phase, working on the launch it already has. */
  ghost predicate PhaseFits(s: State, pid: Pid, phase: Phase)
    requires pid in s.procs
  {
    && ProcFits(Move(s, pid, Some(phase)), pid)
    && (Owned(phase).Some? ==> Owned(phase) == Owned(s.procs[pid].phase))
  }

  /** A process may move to any phase that fits the store it leaves alone. */
  lemma MoveKeepsInv(s: State, pid: Pid, next: Option<Phase>)
    requires Inv(s) && pid in s.procs
    requires next.Some? && HoldsLock(next.value) ==> s.lock.None? || s.lock == Some(pid)
    requires next.Some? ==> PhaseFits(s, pid, next.value)
    ensures Inv(Move(s, pid, next))
  {
    hide StoreInv, Allowed;
    var s' := Move(s, pid, next);
    assert ProcFits(s, pid);
    forall other | other in s'.procs && other != pid ensures ProcFits(s', other) {
      assert ProcFits(s, other);
      assert s'.procs[other] == s.procs[other];
    }
  }

  lemma AllowedInRange(hosts: Hosts, store: Store, batch: Batch, op: Op)
    requires Allowed(hosts, store, batch, op)
    ensures op.Advance? ==> InRange(store, batch.name, op.index)
  {
  }

  /** Before the dispatch a failure may record that the launch was not started. */
  lemma FaultFits(store: Store, dispatched: set<(Name, nat)>, batch: Batch, phase: Phase, index: nat)
    requires MayFault(phase) && Owned(phase) == Some(index) && LaunchFits(store, dispatched, batch, phase, index)
    ensures LaunchFits(store, dispatched, batch, Waiting(Advance(index, NotStarted)), index)
  {
    hide SameIdentity;
  }

  predicate Follows(phase: Phase, next: Phase) {
    match next
    case Copying(_) => phase.Written? && phase.op.Prepare?
    case Uploading(_) => phase.Written? && phase.op.Advance? && phase.op.state == StartUnknown
    case Waiting(op) =>
      || (phase.Copying? && op == Advance(phase.index, StartUnknown))
      || (phase.Launched? && op == Advance(phase.index, Started))
    case _ => false
  }

  /** A finished write, copy or dispatch leads to the phase the launch is ready for. */
  lemma ForwardFits(store: Store, dispatched: set<(Name, nat)>, batch: Batch, phase: Phase, next: Phase, index: nat)
    requires Owned(phase) == Some(index) && LaunchFits(store, dispatched, batch, phase, index)
    requires Follows(phase, next)
    ensures LaunchFits(store, dispatched, batch, next, index)
  {
    hide SameIdentity;
  }

  lemma LockingFits(s: State, a: Action)
    requires Inv(s) && Enabled(s, a) && (a.Acquire? || a.Check?)
    requires NextPhase(s, a).Some?
    ensures PhaseFits(s, a.pid, NextPhase(s, a).value)
  {
    assert ProcFits(s, a.pid);
    if a.Check? {
      AllowedInRange(s.hosts, s.store, s.procs[a.pid].batch, s.procs[a.pid].phase.op);
    }
    hide StoreInv, OwnersDistinct, Allowed, NewRecord, Loadable, SameIdentity;
  }

  lemma FailingStepFits(s: State, a: Action)
    requires a.pid in s.procs && ProcFits(s, a.pid) && Enabled(s, a) && (a.Refuse? || a.Fault?)
    requires NextPhase(s, a).Some?
    ensures PhaseFits(s, a.pid, NextPhase(s, a).value)
  {
    var p := s.procs[a.pid];
    assert ProcFits(s, a.pid);
    hide LaunchFits, StoreInv, OwnersDistinct, Allowed, NewRecord, Loadable, SameIdentity;
    FaultFits(s.store, s.dispatched, p.batch, p.phase, Owned(p.phase).value);
  }

  lemma ForwardStepFits(s: State, a: Action)
    requires a.pid in s.procs && ProcFits(s, a.pid) && Enabled(s, a) && (a.Release? || a.Copied? || a.Report?)
    requires NextPhase(s, a).Some?
    ensures PhaseFits(s, a.pid, NextPhase(s, a).value)
  {
    var p := s.procs[a.pid];
    assert ProcFits(s, a.pid);
    hide LaunchFits, StoreInv, OwnersDistinct, Allowed, NewRecord, Loadable, SameIdentity;
    ForwardFits(s.store, s.dispatched, p.batch, p.phase, NextPhase(s, a).value, Owned(p.phase).value);
  }

  lemma DispatchKeepsOthers(s: State, pid: Pid, other: Pid)
    requires pid in s.procs && other in s.procs && ProcFits(s, pid) && ProcFits(s, other) && OwnersDistinct(s)
    requires Enabled(s, Dispatch(pid))
    ensures ProcFits(Apply(s, Dispatch(pid)), other)
  {
    hide Allowed, NewRecord, Loadable, SameIdentity;
  }

  lemma DispatchKeepsInv(s: State, pid: Pid)
    requires Inv(s) && Enabled(s, Dispatch(pid))
    ensures Inv(Apply(s, Dispatch(pid)))
  {
    var s' := Apply(s, Dispatch(pid));
    DispatchKeepsStoreInv(s, pid);
    hide StoreInv, Allowed, LaunchFits, ProcFits;
    assert OwnersDistinct(s');
    hide OwnersDistinct;
    forall other | other in s'.procs ensures ProcFits(s', other) {
      DispatchKeepsOthers(s, pid, other);
    }
  }

  lemma DispatchKeepsStoreInv(s: State, pid: Pid)
    requires Inv(s) && Enabled(s, Dispatch(pid))
    ensures StoreInv(s.hosts, s.store, s.age, Apply(s, Dispatch(pid)).dispatched)
  {
    var p := s.procs[pid];
    assert ProcFits(s, pid);
    hide IsForest, LaunchesWellFormed, ClaimsConsistent, IncompleteStayPreparing, HostsAgree, Allowed;
    hide RelationsMatch, ReplacementsDistinct;
    assert DispatchedRecorded(s.store, s.dispatched + {(p.batch.name, p.phase.index)});
  }

  lemma BeginKeepsInv(s: State, pid: Pid, batch: Batch, op: Op)
    requires Inv(s) && Enabled(s, Begin(pid, batch, op))
    ensures Inv(Apply(s, Begin(pid, batch, op)))
  {
    hide StoreInv, Allowed;
    var s' := Apply(s, Begin(pid, batch, op));
    forall other | other in s'.procs ensures ProcFits(s', other) {
      if other != pid {
        assert ProcFits(s, other);
      }
    }
  }

  lemma StepKeepsInv(s: State, a: Action)
    requires Inv(s) && Enabled(s, a)
    ensures Inv(Apply(s, a))
  {
    match a
    case Begin(pid, batch, op) => BeginKeepsInv(s, pid, batch, op);
    case Write(pid) => WriteKeepsInv(s, pid);
    case Dispatch(pid) => DispatchKeepsInv(s, pid);
    case _ =>
      hide StoreInv, OwnersDistinct, Allowed, LaunchFits, NewRecord, Loadable, PhaseFits;
      if NextPhase(s, a).Some? {
        if a.Acquire? || a.Check? {
          LockingFits(s, a);
        } else if a.Refuse? || a.Fault? {
          FailingStepFits(s, a);
        } else {
          ForwardStepFits(s, a);
        }
      }
      assert ProcFits(s, a.pid);
      MoveKeepsInv(s, a.pid, NextPhase(s, a));
  }
}
