/** Request slots of one provider, shared by the threads of many processes: one lock per slot,
  * and an allocation lock around every scan of the slots. Releases take no lock, and a process
  * that dies gives back everything it holds. */
module ProviderSlots {
  import opened Wrappers

  type Id = nat

  const SLOTS := 100

  /** `keep` is false for the scan of a snapshot. */
  datatype Phase =
    | Waiting
    | Configured(limit: nat, reserve: nat)
    | Scanning(limit: nat, reserve: nat, keep: bool, index: nat, active: nat, kept: Option<nat>)
    | Granting(limit: nat, reserve: nat, active: nat, slot: nat)

  datatype Task = Task(process: Id, phase: Phase)

  datatype Lease = Lease(process: Id, slot: nat)

  /** `locks` says which process has the slot locked through a descriptor it has open. */
  datatype State = State(tasks: map<Id, Task>, leases: map<Id, Lease>, locks: map<nat, Id>, allocator: Option<Id>)

  datatype Action =
    | Arrive(t: Id, process: Id)
    | Quit(t: Id)                                         // cancelled, disabled, or bad configuration
    | ReadConfig(t: Id, limit: nat, reserve: nat)         // whatever it says by now
    | TakeLock(t: Id, keep: bool)
    | ScanSlot(t: Id)
    | ScanFails(t: Id)
    | Decide(t: Id)
    | WriteFails(t: Id)
    | Grant(t: Id, lease: Id)
    | Release(lease: Id)
    | Die(process: Id)

  function Kept(phase: Phase): Option<nat> {
    match phase
    case Scanning(_, _, _, _, _, kept) => kept
    case Granting(_, _, _, slot) => Some(slot)
    case _ => None
  }

  predicate In(s: State, t: Id) {
    t in s.tasks
  }

  predicate Enabled(s: State, a: Action) {
    match a
    case Arrive(t, _) => t !in s.tasks
    case Quit(t) => In(s, t) && (s.tasks[t].phase.Waiting? || s.tasks[t].phase.Configured?)
    case ReadConfig(t, limit, _) => In(s, t) && s.tasks[t].phase.Waiting? && 1 <= limit <= 100
    case TakeLock(t, _) => In(s, t) && s.tasks[t].phase.Configured? && s.allocator.None?
    case ScanSlot(t) => In(s, t) && s.tasks[t].phase.Scanning? && s.tasks[t].phase.index < SLOTS
    case ScanFails(t) => In(s, t) && s.tasks[t].phase.Scanning?
    case Decide(t) => In(s, t) && s.tasks[t].phase.Scanning? && s.tasks[t].phase.index == SLOTS
    case WriteFails(t) => In(s, t) && s.tasks[t].phase.Granting?
    case Grant(t, lease) => In(s, t) && s.tasks[t].phase.Granting? && lease !in s.leases
    case Release(lease) => lease in s.leases
    case Die(_) => true
  }

  function SetPhase(s: State, t: Id, phase: Phase): State
    requires t in s.tasks
  {
    s.(tasks := s.tasks[t := s.tasks[t].(phase := phase)])
  }

  function CloseKept(s: State, t: Id): State
    requires t in s.tasks
  {
    var kept := Kept(s.tasks[t].phase);
    if kept.Some? then s.(locks := s.locks - {kept.value}) else s
  }

  function End(s: State, t: Id): State {
    s.(tasks := s.tasks - {t}, allocator := if s.allocator == Some(t) then None else s.allocator)
  }

  function Apply(s: State, a: Action): State
    requires Enabled(s, a)
  {
    match a
    case Arrive(t, process) => s.(tasks := s.tasks[t := Task(process, Waiting)])
    case Quit(t) => End(s, t)
    case ReadConfig(t, limit, reserve) => SetPhase(s, t, Configured(limit, reserve))
    case TakeLock(t, keep) =>
      var p := s.tasks[t].phase;
      SetPhase(s, t, Scanning(p.limit, p.reserve, keep, 0, 0, None)).(allocator := Some(t))
    case ScanSlot(t) =>
      var p := s.tasks[t].phase;
      if p.index in s.locks then SetPhase(s, t, p.(index := p.index + 1, active := p.active + 1))
      else if p.keep && p.kept.None? then
        SetPhase(s, t, p.(index := p.index + 1, kept := Some(p.index)))
          .(locks := s.locks[p.index := s.tasks[t].process])
      else SetPhase(s, t, p.(index := p.index + 1))
    case ScanFails(t) => End(CloseKept(s, t), t)
    case Decide(t) =>
      var p := s.tasks[t].phase;
      if p.kept.Some? && p.active + p.reserve < p.limit then
        SetPhase(s, t, Granting(p.limit, p.reserve, p.active, p.kept.value))
      else if p.keep then SetPhase(CloseKept(s, t), t, Waiting).(allocator := None)   // sleeps and tries again
      else End(s, t)                                                                  // the snapshot is taken
    case WriteFails(t) => End(CloseKept(s, t), t)
    case Grant(t, lease) =>
      End(s, t).(leases := s.leases[lease := Lease(s.tasks[t].process, s.tasks[t].phase.slot)])
    case Release(lease) => s.(leases := s.leases - {lease}, locks := s.locks - {s.leases[lease].slot})
    case Die(process) =>
      State(
        map t | t in s.tasks && s.tasks[t].process != process :: s.tasks[t],
        map l | l in s.leases && s.leases[l].process != process :: s.leases[l],
        map slot | slot in s.locks && s.locks[slot] != process :: s.locks[slot],
        if s.allocator.Some? && s.allocator.value in s.tasks && s.tasks[s.allocator.value].process == process then None
        else s.allocator)
  }

  const INITIAL := State(map[], map[], map[], None)

  ghost predicate IsRun(states: seq<State>, actions: seq<Action>) {
    && |states| == |actions| + 1
    && states[0] == INITIAL
    && forall k :: 0 <= k < |actions| ==>
         Enabled(states[k], actions[k]) && states[k + 1] == Apply(states[k], actions[k])
  }

  // ---- The invariant ----

  predicate Holding(phase: Phase) {
    phase.Scanning? || phase.Granting?
  }

  /** Only the one with the allocation lock scans, grants, or keeps a slot. */
  ghost predicate LockInv(s: State) {
    && (forall t :: t in s.tasks && Holding(s.tasks[t].phase) ==> s.allocator == Some(t))
    && (s.allocator.Some? ==> s.allocator.value in s.tasks && Holding(s.tasks[s.allocator.value].phase))
  }

  /** Live leases are on different slots that their processes have locked. */
  ghost predicate LeaseInv(s: State) {
    && (forall l :: l in s.leases ==> Holds(s, s.leases[l].slot, s.leases[l].process))
    && (forall l, m :: l in s.leases && m in s.leases && s.leases[l].slot == s.leases[m].slot ==> l == m)
  }

  predicate Holds(s: State, slot: nat, process: Id) {
    slot < SLOTS && slot in s.locks && s.locks[slot] == process
  }

  /** A kept slot is locked, has been scanned, and is nobody's lease. */
  ghost predicate KeptInv(s: State) {
    forall t :: t in s.tasks ==>
      var phase := s.tasks[t].phase;
      && (phase.Scanning? ==>
            phase.index <= SLOTS && (phase.kept.Some? ==> phase.keep && phase.kept.value < phase.index))
      && (Kept(phase).Some? ==>
            && Holds(s, Kept(phase).value, s.tasks[t].process)
            && forall l :: l in s.leases ==> s.leases[l].slot != Kept(phase).value)
  }

  /** No descriptor is left open: a locked slot is a live lease, or kept by the allocator. */
  ghost predicate NoLeak(s: State) {
    forall slot :: slot in s.locks ==> IsLeased(s, slot) || IsKept(s, slot)
  }

  predicate IsLeased(s: State, slot: nat) {
    exists l :: l in s.leases && s.leases[l].slot == slot
  }

  predicate IsKept(s: State, slot: nat) {
    s.allocator.Some? && s.allocator.value in s.tasks && Kept(s.tasks[s.allocator.value].phase) == Some(slot)
  }

  function LeasesBelow(leases: map<Id, Lease>, slot: nat): set<Id> {
    set l | l in leases && leases[l].slot < slot
  }

  /** A scan has counted every lease that is still live on the slots it has passed. */
  predicate Counted(s: State, t: Id)
    requires t in s.tasks
  {
    match s.tasks[t].phase
    case Scanning(_, _, _, index, active, _) => |LeasesBelow(s.leases, index)| <= active
    case Granting(limit, reserve, active, _) => |s.leases| <= active && active + reserve < limit
    case _ => true
  }

  ghost predicate CountInv(s: State) {
    forall t :: t in s.tasks ==> Counted(s, t)
  }

  ghost predicate Inv(s: State) {
    LockInv(s) && LeaseInv(s) && KeptInv(s) && NoLeak(s) && CountInv(s)
  }

  /** Steps of a task before it scans. */
  predicate Starts(a: Action) {
    a.Arrive? || a.Quit? || a.ReadConfig? || a.TakeLock?
  }

  lemma LockKept(s: State, a: Action)
    requires LockInv(s) && Enabled(s, a)
    ensures LockInv(Apply(s, a))
  {
  }

  lemma LeasesKept(s: State, a: Action)
    requires LockInv(s) && LeaseInv(s) && KeptInv(s) && Enabled(s, a)
    ensures LeaseInv(Apply(s, a))
  {
    hide LockInv, LeaseInv, KeptInv, Apply, Enabled;
    if Starts(a) {
      LeasesKeptByStart(s, a);
    } else if a.ScanSlot? {
      LeasesKeptByScan(s, a);
    } else if a.Decide? {
      LeasesKeptByDecision(s, a);
    } else if a.ScanFails? || a.WriteFails? {
      LeasesKeptByFailure(s, a);
    } else if a.Grant? {
      LeasesKeptByGrant(s, a);
    } else {
      LeasesKeptByLoss(s, a);
    }
  }

  lemma LeasesKeptByStart(s: State, a: Action)
    requires LockInv(s) && LeaseInv(s) && KeptInv(s) && Enabled(s, a) && Starts(a)
    ensures LeaseInv(Apply(s, a))
  {
  }

  lemma LeasesKeptByScan(s: State, a: Action)
    requires LockInv(s) && LeaseInv(s) && KeptInv(s) && Enabled(s, a) && a.ScanSlot?
    ensures LeaseInv(Apply(s, a))
  {
  }

  lemma LeasesKeptByDecision(s: State, a: Action)
    requires LockInv(s) && LeaseInv(s) && KeptInv(s) && Enabled(s, a) && a.Decide?
    ensures LeaseInv(Apply(s, a))
  {
  }

  lemma LeasesKeptByFailure(s: State, a: Action)
    requires LockInv(s) && LeaseInv(s) && KeptInv(s) && Enabled(s, a) && (a.ScanFails? || a.WriteFails?)
    ensures LeaseInv(Apply(s, a))
  {
  }

  lemma LeasesKeptByGrant(s: State, a: Action)
    requires LockInv(s) && LeaseInv(s) && KeptInv(s) && Enabled(s, a) && a.Grant?
    ensures LeaseInv(Apply(s, a))
  {
  }

  lemma LeasesKeptByLoss(s: State, a: Action)
    requires LockInv(s) && LeaseInv(s) && KeptInv(s) && Enabled(s, a) && (a.Release? || a.Die?)
    ensures LeaseInv(Apply(s, a))
  {
  }

  lemma KeptKept(s: State, a: Action)
    requires LockInv(s) && LeaseInv(s) && KeptInv(s) && Enabled(s, a)
    ensures KeptInv(Apply(s, a))
  {
    hide LockInv, LeaseInv, KeptInv, Apply, Enabled;
    if Starts(a) {
      KeptKeptByStart(s, a);
    } else if a.ScanSlot? {
      KeptKeptByScan(s, a);
    } else if a.Decide? {
      KeptKeptByDecision(s, a);
    } else if a.ScanFails? || a.WriteFails? {
      KeptKeptByFailure(s, a);
    } else if a.Grant? {
      KeptKeptByGrant(s, a);
    } else {
      KeptKeptByLoss(s, a);
    }
  }

  lemma KeptKeptByStart(s: State, a: Action)
    requires LockInv(s) && LeaseInv(s) && KeptInv(s) && Enabled(s, a) && Starts(a)
    ensures KeptInv(Apply(s, a))
  {
  }

  lemma KeptKeptByScan(s: State, a: Action)
    requires LockInv(s) && LeaseInv(s) && KeptInv(s) && Enabled(s, a) && a.ScanSlot?
    ensures KeptInv(Apply(s, a))
  {
  }

  lemma KeptKeptByDecision(s: State, a: Action)
    requires LockInv(s) && LeaseInv(s) && KeptInv(s) && Enabled(s, a) && a.Decide?
    ensures KeptInv(Apply(s, a))
  {
  }

  lemma KeptKeptByFailure(s: State, a: Action)
    requires LockInv(s) && LeaseInv(s) && KeptInv(s) && Enabled(s, a) && (a.ScanFails? || a.WriteFails?)
    ensures KeptInv(Apply(s, a))
  {
  }

  lemma KeptKeptByGrant(s: State, a: Action)
    requires LockInv(s) && LeaseInv(s) && KeptInv(s) && Enabled(s, a) && a.Grant?
    ensures KeptInv(Apply(s, a))
  {
  }

  lemma KeptKeptByLoss(s: State, a: Action)
    requires LockInv(s) && LeaseInv(s) && KeptInv(s) && Enabled(s, a) && (a.Release? || a.Die?)
    ensures KeptInv(Apply(s, a))
  {
  }

  lemma NoLeakKept(s: State, a: Action)
    requires LockInv(s) && LeaseInv(s) && KeptInv(s) && NoLeak(s) && Enabled(s, a)
    ensures NoLeak(Apply(s, a))
  {
    forall slot | slot in Apply(s, a).locks ensures IsLeased(Apply(s, a), slot) || IsKept(Apply(s, a), slot) {
      hide LockInv, LeaseInv, KeptInv, NoLeak, Apply, Enabled, IsLeased, IsKept;
      if a.Grant? {
        NoLeakByGrant(s, a, slot);
      } else if a.Release? || a.Die? {
        NoLeakByLoss(s, a, slot);
      } else if a.ScanSlot? {
        NoLeakByScan(s, a, slot);
      } else if a.Decide? {
        NoLeakByDecision(s, a, slot);
      } else {
        NoLeakByTask(s, a, slot);
      }
    }
  }

  lemma NoLeakByGrant(s: State, a: Action, slot: nat)
    requires LockInv(s) && LeaseInv(s) && KeptInv(s) && NoLeak(s) && Enabled(s, a)
    requires a.Grant? && slot in Apply(s, a).locks
    ensures IsLeased(Apply(s, a), slot) || IsKept(Apply(s, a), slot)
  {
    var t := Apply(s, a);
    assert IsLeased(s, slot) || IsKept(s, slot);
    if IsLeased(s, slot) {
      var l :| l in s.leases && s.leases[l].slot == slot;
      assert l in t.leases && t.leases[l].slot == slot;
    } else {
      assert t.leases[a.lease].slot == slot;
    }
  }

  lemma NoLeakByLoss(s: State, a: Action, slot: nat)
    requires LockInv(s) && LeaseInv(s) && KeptInv(s) && NoLeak(s) && Enabled(s, a)
    requires (a.Release? || a.Die?) && slot in Apply(s, a).locks
    ensures IsLeased(Apply(s, a), slot) || IsKept(Apply(s, a), slot)
  {
    var t := Apply(s, a);
    assert IsLeased(s, slot) || IsKept(s, slot);
    if IsLeased(s, slot) {
      var l :| l in s.leases && s.leases[l].slot == slot;
      assert l in t.leases && t.leases[l].slot == slot;
    }
  }

  lemma NoLeakByScan(s: State, a: Action, slot: nat)
    requires LockInv(s) && LeaseInv(s) && KeptInv(s) && NoLeak(s) && Enabled(s, a)
    requires a.ScanSlot? && slot in Apply(s, a).locks
    ensures IsLeased(Apply(s, a), slot) || IsKept(Apply(s, a), slot)
  {
    assert s.allocator == Some(a.t) && Apply(s, a).leases == s.leases;
    assert slot in s.locks ==> IsLeased(s, slot) || IsKept(s, slot);
    hide LockInv, LeaseInv, NoLeak, KeptInv;
    assert IsLeased(s, slot) ==> IsLeased(Apply(s, a), slot);
    hide IsLeased;
  }

  lemma NoLeakByDecision(s: State, a: Action, slot: nat)
    requires LockInv(s) && LeaseInv(s) && KeptInv(s) && NoLeak(s) && Enabled(s, a)
    requires a.Decide? && slot in Apply(s, a).locks
    ensures IsLeased(Apply(s, a), slot) || IsKept(Apply(s, a), slot)
  {
    assert s.allocator == Some(a.t) && Apply(s, a).leases == s.leases;
    assert slot in s.locks ==> IsLeased(s, slot) || IsKept(s, slot);
    hide LockInv, LeaseInv, NoLeak, KeptInv;
    assert IsLeased(s, slot) ==> IsLeased(Apply(s, a), slot);
    hide IsLeased;
  }

  lemma NoLeakByTask(s: State, a: Action, slot: nat)
    requires LockInv(s) && LeaseInv(s) && KeptInv(s) && NoLeak(s) && Enabled(s, a)
    requires !a.Grant? && !a.Release? && !a.Die? && !a.ScanSlot? && !a.Decide? && slot in Apply(s, a).locks
    ensures IsLeased(Apply(s, a), slot) || IsKept(Apply(s, a), slot)
  {
    var t := Apply(s, a);
    assert IsLeased(s, slot) || IsKept(s, slot);
    if IsLeased(s, slot) {
      var l :| l in s.leases && s.leases[l].slot == slot;
      assert l in t.leases && t.leases[l].slot == slot;
    }
  }

  lemma SmallerSet(a: set<Id>, b: set<Id>)
    requires a <= b
    ensures |a| <= |b|
  {
    if a != {} {
      var x :| x in a;
      SmallerSet(a - {x}, b - {x});
    }
  }

  /** Passing one more slot adds at most the one lease that is on it. */
  lemma OneMoreSlot(leases: map<Id, Lease>, slot: nat)
    requires forall l, m :: l in leases && m in leases && leases[l].slot == leases[m].slot ==> l == m
    ensures (forall l :: l in leases ==> leases[l].slot != slot) ==>
              LeasesBelow(leases, slot + 1) == LeasesBelow(leases, slot)
    ensures |LeasesBelow(leases, slot + 1)| <= |LeasesBelow(leases, slot)| + 1
  {
    if l :| l in leases && leases[l].slot == slot {
      assert LeasesBelow(leases, slot + 1) == LeasesBelow(leases, slot) + {l};
    } else {
      assert LeasesBelow(leases, slot + 1) == LeasesBelow(leases, slot);
    }
  }

  lemma AllBelow(leases: map<Id, Lease>)
    requires forall l :: l in leases ==> leases[l].slot < SLOTS
    ensures |leases| == |LeasesBelow(leases, SLOTS)|
  {
    assert LeasesBelow(leases, SLOTS) == leases.Keys;
  }

  lemma FewerLeases(few: map<Id, Lease>, many: map<Id, Lease>, slot: nat)
    requires forall l :: l in few ==> l in many && few[l] == many[l]
    ensures |LeasesBelow(few, slot)| <= |LeasesBelow(many, slot)| && |few| <= |many|
  {
    SmallerSet(LeasesBelow(few, slot), LeasesBelow(many, slot));
    SmallerSet(few.Keys, many.Keys);
  }

  lemma CountsKept(s: State, a: Action, t: Id)
    requires LockInv(s) && LeaseInv(s) && KeptInv(s) && Enabled(s, a)
    requires t in s.tasks ==> Counted(s, t)
    ensures t in Apply(s, a).tasks ==> Counted(Apply(s, a), t)
  {
    var after := Apply(s, a);
    if t in after.tasks && Holding(after.tasks[t].phase) {
      if a.ScanSlot? && a.t == t {
        OneMoreSlot(s.leases, s.tasks[t].phase.index);
      } else if a.Decide? && a.t == t {
        AllBelow(s.leases);
      } else if a.TakeLock? && a.t == t {
        assert LeasesBelow(s.leases, 0) == {};
      } else {
        OthersOnlyRelease(s, a, t);
        var index := if s.tasks[t].phase.Scanning? then s.tasks[t].phase.index else 0;
        FewerLeases(after.leases, s.leases, index);
      }
    }
  }

  /** While a task scans or grants, the others can only give leases back. */
  lemma OthersOnlyRelease(s: State, a: Action, t: Id)
    requires LockInv(s) && Enabled(s, a) && t in Apply(s, a).tasks && Holding(Apply(s, a).tasks[t].phase)
    requires !((a.ScanSlot? || a.Decide? || a.TakeLock?) && a.t == t)
    ensures t in s.tasks && s.tasks[t] == Apply(s, a).tasks[t]
    ensures forall l :: l in Apply(s, a).leases ==> l in s.leases && s.leases[l] == Apply(s, a).leases[l]
  {
  }

  lemma StepKeepsInv(s: State, a: Action)
    requires Inv(s) && Enabled(s, a)
    ensures Inv(Apply(s, a))
  {
    hide LockInv, LeaseInv, KeptInv, NoLeak, Enabled, Apply, Counted;
    LockKept(s, a);
    LeasesKept(s, a);
    KeptKept(s, a);
    NoLeakKept(s, a);
    forall t | t in Apply(s, a).tasks ensures Counted(Apply(s, a), t) {
      CountsKept(s, a, t);
    }
  }

  lemma {:induction false} RunKeepsInv(states: seq<State>, actions: seq<Action>, k: nat)
    requires IsRun(states, actions) && k < |states|
    ensures Inv(states[k])
  {
    if k == 0 {
    } else {
      RunKeepsInv(states, actions, k - 1);
      assert Enabled(states[k - 1], actions[k - 1]) && states[k] == Apply(states[k - 1], actions[k - 1]);
      hide IsRun, Inv, Enabled, Apply;
      StepKeepsInv(states[k - 1], actions[k - 1]);
    }
  }

  // ---- What the limiter promises ----

  /** A grant brings the live leases to no more than the limit minus the reserve that this very
    * attempt read, whatever the configuration says in the meantime, and on a slot of its own. */
  lemma GrantWithinLimit(states: seq<State>, actions: seq<Action>, k: nat)
    requires IsRun(states, actions) && k < |actions| && actions[k].Grant?
    ensures |states[k + 1].leases| == |states[k].leases| + 1
    ensures |states[k + 1].leases| + states[k].tasks[actions[k].t].phase.reserve
              <= states[k].tasks[actions[k].t].phase.limit
    ensures forall l :: l in states[k].leases ==>
              states[k].leases[l].slot != states[k + 1].leases[actions[k].lease].slot
  {
    RunKeepsInv(states, actions, k);
    GrantAddsOne(states[k], actions[k]);
  }

  predicate ReadRoom(phase: Phase, room: nat) {
    phase.Waiting? || phase.limit <= phase.reserve + room
  }

  /** The room that the attempts under way have read. */
  ghost predicate RoomInv(s: State, room: nat) {
    |s.leases| <= room && forall t :: t in s.tasks ==> ReadRoom(s.tasks[t].phase, room)
  }

  lemma RoomReadKept(s: State, a: Action, room: nat, t: Id)
    requires Enabled(s, a) && t in Apply(s, a).tasks
    requires t in s.tasks ==> ReadRoom(s.tasks[t].phase, room)
    requires a.ReadConfig? ==> a.limit <= a.reserve + room
    ensures ReadRoom(Apply(s, a).tasks[t].phase, room)
  {
  }

  lemma GrantAddsOne(s: State, a: Action)
    requires Enabled(s, a) && a.Grant? && Counted(s, a.t)
    ensures |Apply(s, a).leases| == |s.leases| + 1
    ensures |s.leases| + 1 + s.tasks[a.t].phase.reserve <= s.tasks[a.t].phase.limit
  {
    assert Apply(s, a).leases.Keys == s.leases.Keys + {a.lease};
    assert |Apply(s, a).leases| == |Apply(s, a).leases.Keys| && |s.leases| == |s.leases.Keys|;
  }

  lemma OnlyGrantsAdd(s: State, a: Action)
    requires Enabled(s, a) && !a.Grant?
    ensures |Apply(s, a).leases| <= |s.leases|
  {
    FewerLeases(Apply(s, a).leases, s.leases, 0);
  }

  lemma RoomKept(s: State, a: Action, room: nat)
    requires CountInv(s) && RoomInv(s, room) && Enabled(s, a)
    requires a.ReadConfig? ==> a.limit <= a.reserve + room
    ensures RoomInv(Apply(s, a), room)
  {
    if a.Grant? {
      assert ReadRoom(s.tasks[a.t].phase, room);
      GrantAddsOne(s, a);
    } else {
      OnlyGrantsAdd(s, a);
    }
    hide Apply, Enabled, ReadRoom, CountInv;
    forall t | t in Apply(s, a).tasks ensures ReadRoom(Apply(s, a).tasks[t].phase, room) {
      RoomReadKept(s, a, room, t);
    }
  }

  ghost predicate ReadAtMost(actions: seq<Action>, room: nat) {
    forall i :: 0 <= i < |actions| && actions[i].ReadConfig? ==> actions[i].limit <= actions[i].reserve + room
  }

  lemma RunStep(states: seq<State>, actions: seq<Action>, k: nat)
    requires IsRun(states, actions) && 0 < k < |states|
    ensures Enabled(states[k - 1], actions[k - 1]) && states[k] == Apply(states[k - 1], actions[k - 1])
  {
  }

  /** If no attempt of a run ever read more room than `room`, there are never more live leases. */
  lemma {:induction false} NeverMoreThanRoom(states: seq<State>, actions: seq<Action>, room: nat, k: nat)
    requires IsRun(states, actions) && k < |states|
    requires ReadAtMost(actions, room)
    ensures RoomInv(states[k], room)
  {
    if k == 0 {
    } else {
      hide IsRun, LockInv, LeaseInv, KeptInv, NoLeak, CountInv, Enabled, Apply;
      NeverMoreThanRoom(states, actions, room, k - 1);
      RunKeepsInv(states, actions, k - 1);
      RunStep(states, actions, k);
      hide RoomInv;
      RoomKept(states[k - 1], actions[k - 1], room);
    }
  }

  /** Every locked slot is a live lease or the one kept inside the allocation lock, so nothing
    * stays locked after failed scans, failed metadata writes and deaths. */
  lemma NothingLeaks(states: seq<State>, actions: seq<Action>, k: nat)
    requires IsRun(states, actions) && k < |states|
    requires states[k].allocator.None?
    ensures forall slot :: slot in states[k].locks <==> IsLeased(states[k], slot)
  {
    RunKeepsInv(states, actions, k);
  }
}
