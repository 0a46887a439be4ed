/** The claim of one task over every run of drivers, wrappers and evaluators: drivers inspect and
  * replace it under the claim lock, wrappers publish over it without that lock, processes die at
  * any time, process numbers are reused, and the clock moves on. */
module ClaimHandoff {
  import opened Wrappers
  import opened EvalClaims

  /** One process or group: its number and its start identity. */
  datatype Who = Who(pid: int, id: Id)

  datatype Stage =
    | Driving       // the driver replaced the claim and has not started the wrapper
    | Wrapping      // the wrapper runs, no evaluator yet
    | Evaluating    // the evaluator group runs, its claim is not yet published
    | Published
    | Settled       // the wrapper wrote its final claim
    | Abandoned     // the driver could not start the wrapper

  /** `kept`: the claim document of the wrapper still names the group; `again`: the final claim was
    * written on the main path, and may be written once more from the exception path. */
  datatype Handoff = Handoff(
    driver: Who, startedAt: int, stage: Stage, wrapper: Who, group: Who, kept: bool, again: bool)

  datatype Look = Locked | Read | OwnerGone | GroupGone | Cleared

  /** A driver holding the claim lock, the claim it read and when it read it. */
  datatype Inspection = Inspection(driver: Who, startedAt: int, look: Look, seen: Option<Claim>, readAt: int)

  datatype State = State(
    now: int, alive: map<int, Id>, groups: map<int, Id>, used: set<Id>,
    claim: Option<Claim>, mtime: int, handoffs: map<Id, Handoff>, lock: Option<Inspection>)

  datatype WorldStep =
    | Tick(to: int)
    | Spawn(w: Who)                   // a driver, or a process that has nothing to do with the claim
    | Die(pid: int)
    | GroupDies(pgid: int)

  /** A driver under the claim lock. */
  datatype InspectStep =
    | TakeLock(driver: Who, startedAt: int)
    | DropLock                        // gives up or dies
    | ReadClaim
    | CheckOwner(known: bool)
    | CheckGroup(known: bool)
    | CheckBootstrap
    | UnlinkStale
    | Replace(h: Id)

  /** A driver that replaced the claim, and then its wrapper. */
  datatype HandStep =
    | DriverFails
    | StartWrapper(w: Who)
    | StartEvaluator(w: Who)
    | Publish                         // the first publication and every heartbeat
    | Settle(quiesced: bool, recorded: bool, again: bool)
    | Rewrite(quiesced: bool)         // the final claim once more, from the exception path

  datatype Action = ByWorld(world: WorldStep) | ByInspection(inspect: InspectStep) | ByHandoff(h: Id, hand: HandStep)

  predicate Alive(s: State, w: Who) {
    w.pid in s.alive && s.alive[w.pid] == w.id
  }

  predicate GroupLive(s: State, w: Who) {
    w.pid in s.groups && s.groups[w.pid] == w.id
  }

  /** A number is free again once no process and no group has it; an identity is never reused. */
  predicate Fresh(s: State, w: Who) {
    w.pid > 1 && w.pid !in s.alive && w.pid !in s.groups && w.id !in s.used
  }

  function ProbeOf(s: State, running: map<int, Id>, pid: int, known: bool): Probe {
    Probe(pid in running, if known && pid in s.alive then Some(s.alive[pid]) else None)
  }

  function NewHandoff(driver: Who, startedAt: int): Handoff {
    Handoff(driver, startedAt, Driving, Who(0, 0), Who(0, 0), false, false)
  }

  function DriverClaim(h: Id, o: Handoff): Claim {
    Claim(o.driver.pid, Some(o.driver.id), Claiming, o.startedAt, o.startedAt + LEASE, 0, None, h)
  }

  function PublishedClaim(h: Id, o: Handoff, now: int): Claim {
    Claim(o.wrapper.pid, Some(o.wrapper.id), Started, o.startedAt, now + LEASE, o.group.pid, Some(o.group.id), h)
  }

  /** The final claim keeps the group unless it was reported quiet, or never got recorded. */
  function FinalClaim(h: Id, o: Handoff, quiesced: bool, keep: bool, now: int): Claim {
    Claim(0, None, if quiesced then Completed else Failed, o.startedAt, now + LEASE,
          if keep then o.group.pid else 0, if keep then Some(o.group.id) else None, h)
  }

  /** From the first final claim on, the group stays cleared once it is. */
  function RewrittenClaim(h: Id, o: Handoff, quiesced: bool, now: int): Claim {
    FinalClaim(h, o, quiesced, o.kept && !quiesced, now)
  }

  predicate Inspecting(s: State, look: Look) {
    s.lock.Some? && s.lock.value.look == look && Alive(s, s.lock.value.driver)
  }

  predicate WorldEnabled(s: State, step: WorldStep) {
    match step
    case Tick(to) => s.now <= to
    case Spawn(w) => Fresh(s, w)
    case Die(pid) => pid in s.alive
    case GroupDies(pgid) => pgid in s.groups && pgid !in s.alive
  }

  /** Only a live driver inspects; the lock of a dead one is dropped. */
  predicate InspectEnabled(s: State, step: InspectStep) {
    match step
    case TakeLock(driver, startedAt) => s.lock.None? && Alive(s, driver) && 0 < startedAt <= s.now
    case DropLock => s.lock.Some?
    case ReadClaim => Inspecting(s, Locked)
    case CheckOwner(_) => Inspecting(s, Read) && s.lock.value.seen.Some?
    case CheckGroup(_) => Inspecting(s, OwnerGone) && s.lock.value.seen.Some?
    case CheckBootstrap => Inspecting(s, GroupGone) && s.lock.value.seen.Some?
    case UnlinkStale => Inspecting(s, Cleared)
    case Replace(h) => Inspecting(s, Cleared) && h !in s.handoffs
  }

  predicate HandEnabled(s: State, h: Id, step: HandStep) {
    && h in s.handoffs
    && var o := s.handoffs[h];
       match step
       case DriverFails => o.stage == Driving && Alive(s, o.driver)
       case StartWrapper(w) => o.stage == Driving && Alive(s, o.driver) && Fresh(s, w)
       case StartEvaluator(w) => o.stage == Wrapping && Alive(s, o.wrapper) && Fresh(s, w)
       case Publish => (o.stage == Evaluating || o.stage == Published) && Alive(s, o.wrapper)
       case Settle(quiesced, recorded, again) =>
         && Alive(s, o.wrapper)
         && (o.stage == Wrapping || o.stage == Evaluating || o.stage == Published)
         && (o.stage == Wrapping ==> quiesced)
         && (o.stage == Published ==> recorded)
         && (again ==> o.stage == Published)
         && (quiesced && o.stage != Wrapping ==> !GroupLive(s, o.group))
       case Rewrite(quiesced) =>
         o.stage == Settled && o.again && Alive(s, o.wrapper) && (quiesced ==> !GroupLive(s, o.group))
  }

  predicate Enabled(s: State, a: Action) {
    match a
    case ByWorld(step) => WorldEnabled(s, step)
    case ByInspection(step) => InspectEnabled(s, step)
    case ByHandoff(h, step) => HandEnabled(s, h, step)
  }

  function SetHandoff(s: State, h: Id, o: Handoff): State {
    s.(handoffs := s.handoffs[h := o])
  }

  function Write(s: State, claim: Option<Claim>): State {
    s.(claim := claim, mtime := s.now)
  }

  function Born(s: State, w: Who): State {
    s.(alive := s.alive[w.pid := w.id], used := s.used + {w.id})
  }

  function Without(m: map<int, Id>, pid: int): map<int, Id> {
    map p | p in m && p != pid :: m[p]
  }

  function WorldApply(s: State, step: WorldStep): State
    requires WorldEnabled(s, step)
  {
    match step
    case Tick(to) => s.(now := to)
    case Spawn(w) => Born(s, w)
    case Die(pid) => s.(alive := Without(s.alive, pid))
    case GroupDies(pgid) => s.(groups := Without(s.groups, pgid))
  }

  /** A check either retains the claim, which ends the inspection, or goes on. */
  function GoOn(s: State, retained: bool, look: Look): State
    requires s.lock.Some?
  {
    if retained then s.(lock := None) else s.(lock := Some(s.lock.value.(look := look)))
  }

  function InspectApply(s: State, step: InspectStep): State
    requires InspectEnabled(s, step)
  {
    match step
    case TakeLock(driver, startedAt) => s.(lock := Some(Inspection(driver, startedAt, Locked, None, s.now)))
    case DropLock => s.(lock := None)
    case ReadClaim =>
      var look := if s.claim.None? then Cleared else Read;
      s.(lock := Some(s.lock.value.(look := look, seen := s.claim, readAt := s.now)))
    case CheckOwner(known) =>
      var c := s.lock.value.seen.value;
      GoOn(s, OwnerIsActive(c, s.mtime, ProbeOf(s, s.alive, c.pid, known), s.now), OwnerGone)
    case CheckGroup(known) =>
      var c := s.lock.value.seen.value;
      GoOn(s, ResidualGroupIsLive(c, s.mtime, ProbeOf(s, s.groups, c.pgid, known), s.now), GroupGone)
    case CheckBootstrap => GoOn(s, IsBootstrapping(s.lock.value.seen.value, s.now), Cleared)
    case UnlinkStale => Write(s, None)
    case Replace(h) =>
      var o := NewHandoff(s.lock.value.driver, s.lock.value.startedAt);
      SetHandoff(Write(s, Some(DriverClaim(h, o))), h, o).(lock := None)
  }

  function HandApply(s: State, h: Id, step: HandStep): State
    requires HandEnabled(s, h, step)
  {
    var o := s.handoffs[h];
    match step
    case DriverFails => Write(SetHandoff(s, h, o.(stage := Abandoned)), None)
    case StartWrapper(w) => SetHandoff(Born(s, w), h, o.(stage := Wrapping, wrapper := w))
    case StartEvaluator(w) =>
      SetHandoff(Born(s, w), h, o.(stage := Evaluating, group := w)).(groups := s.groups[w.pid := w.id])
    case Publish => Write(SetHandoff(s, h, o.(stage := Published)), Some(PublishedClaim(h, o, s.now)))
    case Settle(quiesced, recorded, again) =>
      var keep := recorded && !quiesced;
      Write(
        SetHandoff(s, h, o.(stage := Settled, kept := keep, again := again)),
        Some(FinalClaim(h, o, quiesced, keep, s.now)))
    case Rewrite(quiesced) =>
      Write(
        SetHandoff(s, h, o.(kept := o.kept && !quiesced, again := false)), Some(RewrittenClaim(h, o, quiesced, s.now)))
  }

  function Apply(s: State, a: Action): State
    requires Enabled(s, a)
  {
    match a
    case ByWorld(step) => WorldApply(s, step)
    case ByInspection(step) => InspectApply(s, step)
    case ByHandoff(h, step) => HandApply(s, h, step)
  }

  ghost predicate Init(s: State) {
    && s.now > 0 && s.groups == map[] && s.claim.None? && s.handoffs == map[] && s.lock.None?
    && forall p :: p in s.alive ==> p > 1 && s.alive[p] in s.used
  }

  ghost predicate IsRun(states: seq<State>, actions: seq<Action>) {
    && |states| == |actions| + 1
    && Init(states[0])
    && forall k :: 0 <= k < |actions| ==>
         Enabled(states[k], actions[k]) && states[k + 1] == Apply(states[k], actions[k])
  }

  // ---- What is assumed of a run ----

  /** The wrapper, or an evaluator it started, is there and no claim names it yet. */
  predicate Unpublished(s: State, h: Id) {
    && h in s.handoffs
    && var o := s.handoffs[h];
       || ((o.stage == Wrapping || o.stage == Evaluating) && Alive(s, o.wrapper))
       || (o.stage == Evaluating && GroupLive(s, o.group))
  }

  /** The grace of the handoff is over, and still nothing but its driver's claim stands for it. */
  predicate Late(s: State, h: Id) {
    && Unpublished(s, h)
    && s.claim == Some(DriverClaim(h, s.handoffs[h]))
    && s.handoffs[h].startedAt + GRACE <= s.now
  }

  /** Another driver read the claim of the handoff's driver before the grace was over and is still
    * inspecting, while the handoff is busy beyond its driver. */
  predicate Straddles(s: State, h: Id) {
    && h in s.handoffs && Busy(s, h) && s.handoffs[h].stage != Driving
    && s.lock.Some? && s.lock.value.look in {Read, OwnerGone, GroupGone}
    && s.lock.value.seen == Some(DriverClaim(h, s.handoffs[h]))
    && s.lock.value.readAt < s.handoffs[h].startedAt + GRACE <= s.now
    && Alive(s, s.lock.value.driver) && s.lock.value.driver != s.handoffs[h].driver
  }

  /** Every handoff is published within the grace, and no inspection straddles the end of it. */
  ghost predicate Timely(s: State) {
    forall h :: !Late(s, h) && !Straddles(s, h)
  }

  /** The claim names no owner, and a group number that a group of this handoff has by chance: its leader
    * is gone, so that no probe can tell it from the recorded one, and nothing writes the claim for it. */
  predicate Shields(s: State, c: Claim, o: Handoff) {
    && c.pid == 0 && c.pgid == o.group.pid && c.pgid !in s.alive && GroupLive(s, o.group)
    && (o.stage == Settled || ((o.stage == Evaluating || o.stage == Published) && !Alive(s, o.wrapper)))
  }

  /** No wrapper gives up a live evaluator that its claim never named, and none writes its final claim
    * again while another handoff is busy, unless that claim happens to shield it. */
  ghost predicate Orderly(s: State, a: Action) {
    match a
    case ByHandoff(h, Settle(quiesced, recorded, _)) =>
      quiesced || recorded || (h in s.handoffs ==> !GroupLive(s, s.handoffs[h].group))
    case ByHandoff(h, Rewrite(quiesced)) =>
      h in s.handoffs ==>
        forall g :: Busy(s, g) && g != h ==>
          Shields(s, RewrittenClaim(h, s.handoffs[h], quiesced, s.now), s.handoffs[g])
    case _ => true
  }

  ghost predicate IsTimelyRun(states: seq<State>, actions: seq<Action>) {
    && IsRun(states, actions)
    && (forall k :: 0 <= k < |states| ==> Timely(states[k]))
    && forall k :: 0 <= k < |actions| ==> Orderly(states[k], actions[k])
  }

  // ---- The invariant ----

  /** Something of the handoff can still write the claim, or its evaluator group is live. */
  predicate Busy(s: State, h: Id) {
    && h in s.handoffs
    && var o := s.handoffs[h];
       match o.stage
       case Driving => Alive(s, o.driver)
       case Wrapping => Alive(s, o.wrapper)
       case Evaluating | Published => Alive(s, o.wrapper) || GroupLive(s, o.group)
       case Settled => GroupLive(s, o.group)
       case Abandoned => false
  }

  predicate NamesGroup(c: Claim, o: Handoff) {
    c.pgid == o.group.pid && c.leader == Some(o.group.id)
  }

  predicate NamesWrapper(c: Claim, o: Handoff) {
    c.pid == o.wrapper.pid && c.owner == Some(o.wrapper.id)
  }

  predicate Describes(c: Claim, h: Id, o: Handoff) {
    match o.stage
    case Driving | Wrapping | Evaluating => c == DriverClaim(h, o)
    case Published => c.origin == h && NamesGroup(c, o) && NamesWrapper(c, o)
    case Settled => c.origin == h && NamesGroup(c, o)
    case Abandoned => false
  }

  /** Whatever is busy is what the claim describes or shields. */
  ghost predicate ClaimInv(s: State) {
    forall h :: Busy(s, h) ==>
      s.claim.Some? && (Describes(s.claim.value, h, s.handoffs[h]) || Shields(s, s.claim.value, s.handoffs[h]))
  }

  ghost predicate OneBusy(s: State) {
    forall h, g :: Busy(s, h) && Busy(s, g) ==> h == g
  }

  /** A settled wrapper still names a group that is live. */
  ghost predicate KeptInv(s: State) {
    forall h :: h in s.handoffs && s.handoffs[h].stage == Settled && GroupLive(s, s.handoffs[h].group) ==>
      s.handoffs[h].kept
  }

  predicate KnownWho(s: State, o: Handoff) {
    && o.driver.id in s.used
    && (o.stage != Driving && o.stage != Abandoned ==> o.wrapper.id in s.used)
    && (o.stage == Evaluating || o.stage == Published ==> o.group.id in s.used && o.group.pid > 1)
    && (o.stage == Settled ==> o.group == Who(0, 0) || (o.group.id in s.used && o.group.pid > 1))
    && (o.stage in {Driving, Wrapping, Abandoned} ==> o.group == Who(0, 0))
  }

  predicate KnownClaim(s: State, c: Claim) {
    && (c.pid != 0 ==> c.owner.Some? && c.owner.value in s.used)
    && (c.pgid != 0 ==> c.pgid > 1 && c.leader.Some? && c.leader.value in s.used)
  }

  /** Numbers in use belong to known identities, and nobody takes the number of a live group. */
  ghost predicate NumbersInv(s: State) {
    && (forall p :: p in s.alive ==> p > 1 && s.alive[p] in s.used)
    && (forall p :: p in s.groups ==> p > 1 && s.groups[p] in s.used && (p in s.alive ==> s.alive[p] == s.groups[p]))
  }

  ghost predicate HandoffsInv(s: State) {
    forall h :: h in s.handoffs ==> KnownWho(s, s.handoffs[h]) && 0 < s.handoffs[h].startedAt <= s.now
  }

  ghost predicate RecordsInv(s: State) {
    && (s.claim.Some? ==> KnownClaim(s, s.claim.value))
    && (s.lock.Some? ==>
          var i := s.lock.value;
          && 0 < i.startedAt <= s.now
          && i.driver.id in s.used
          && (i.seen.Some? ==> KnownClaim(s, i.seen.value)))
  }

  ghost predicate PidInv(s: State) {
    NumbersInv(s) && HandoffsInv(s) && RecordsInv(s)
  }

  predicate OwnerAlive(s: State, c: Claim) {
    c.pid != 0 && c.owner.Some? && Alive(s, Who(c.pid, c.owner.value))
  }

  predicate GroupAlive(s: State, c: Claim) {
    c.pgid != 0 && c.leader.Some? && GroupLive(s, Who(c.pgid, c.leader.value))
  }

  /** What the checks of an inspection have established about the processes it read of. */
  predicate CheckedInv(s: State) {
    s.lock.Some? ==>
      var i := s.lock.value;
      && i.readAt <= s.now
      && (i.look in {Read, OwnerGone, GroupGone} ==> i.seen.Some?)
      && (i.look == Locked ==> i.seen.None?)
      && (i.look in {OwnerGone, GroupGone, Cleared} && i.seen.Some? ==> !OwnerAlive(s, i.seen.value))
      && (i.look in {GroupGone, Cleared} && i.seen.Some? ==> !GroupAlive(s, i.seen.value))
  }

  /** How the claim `c` read at `readAt` describes a handoff that is still busy. */
  predicate Saw(c: Claim, readAt: int, h: Id, o: Handoff) {
    || (c == DriverClaim(h, o) && (o.stage == Driving || readAt < o.startedAt + GRACE))
    || (c.origin == h && NamesGroup(c, o) && (o.stage == Settled || (o.stage == Published && NamesWrapper(c, o))))
  }

  ghost predicate InspectionInv(s: State) {
    s.lock.Some? ==>
      var i := s.lock.value;
      && (i.look in {Read, OwnerGone, GroupGone} && i.seen.Some? ==>
            forall h :: Busy(s, h) ==>
              || Saw(i.seen.value, i.readAt, h, s.handoffs[h])
              || (i.look != GroupGone && Shields(s, i.seen.value, s.handoffs[h])))
      && (i.look == Cleared ==> forall h :: !Busy(s, h))
  }

  lemma NumbersKept(s: State, a: Action)
    requires NumbersInv(s) && Enabled(s, a)
    ensures NumbersInv(Apply(s, a))
  {
    hide NumbersInv, WorldEnabled, WorldApply, InspectEnabled, InspectApply, HandEnabled, HandApply;
    match a
    case ByWorld(step) => NumbersKeptByWorld(s, step);
    case ByInspection(step) => NumbersKeptByInspection(s, step);
    case ByHandoff(h, step) => NumbersKeptByHandoff(s, h, step);
  }

  lemma NumbersKeptByWorld(s: State, step: WorldStep)
    requires NumbersInv(s) && WorldEnabled(s, step)
    ensures NumbersInv(WorldApply(s, step))
  {
  }

  lemma NumbersKeptByHandoff(s: State, h: Id, step: HandStep)
    requires NumbersInv(s) && HandEnabled(s, h, step)
    ensures NumbersInv(HandApply(s, h, step))
  {
  }

  lemma NumbersKeptByInspection(s: State, step: InspectStep)
    requires NumbersInv(s) && InspectEnabled(s, step)
    ensures NumbersInv(InspectApply(s, step))
  {
    InspectFrame(s, step);
    hide InspectApply;
  }

  lemma UsedGrows(s: State, a: Action)
    requires Enabled(s, a)
    ensures s.used <= Apply(s, a).used && s.now <= Apply(s, a).now
  {
    hide NumbersInv, WorldEnabled, WorldApply, InspectEnabled, InspectApply, HandEnabled, HandApply;
    match a
    case ByWorld(step) => UsedGrowsByWorld(s, step);
    case ByInspection(step) => InspectFrame(s, step);
    case ByHandoff(h, step) => UsedGrowsByHandoff(s, h, step);
  }

  lemma UsedGrowsByWorld(s: State, step: WorldStep)
    requires WorldEnabled(s, step)
    ensures s.used <= WorldApply(s, step).used && s.now <= WorldApply(s, step).now
  {
  }

  lemma UsedGrowsByHandoff(s: State, h: Id, step: HandStep)
    requires HandEnabled(s, h, step)
    ensures s.used <= HandApply(s, h, step).used && s.now <= HandApply(s, h, step).now
  {
  }

  lemma KeptByWorld(s: State, step: WorldStep)
    requires HandoffsInv(s) && RecordsInv(s) && WorldEnabled(s, step)
    ensures HandoffsInv(WorldApply(s, step)) && RecordsInv(WorldApply(s, step))
  {
  }

  /** Inspections touch only the claim and the lock, until they replace the claim. */
  lemma InspectFrame(s: State, step: InspectStep)
    requires InspectEnabled(s, step)
    ensures InspectApply(s, step).(claim := s.claim, mtime := s.mtime, lock := s.lock, handoffs := s.handoffs) == s
    ensures !step.Replace? ==> InspectApply(s, step).handoffs == s.handoffs
  {
  }

  lemma HandoffsKeptByInspection(s: State, step: InspectStep)
    requires HandoffsInv(s) && RecordsInv(s) && InspectEnabled(s, step)
    ensures HandoffsInv(InspectApply(s, step))
  {
    InspectFrame(s, step);
    if !step.Replace? {
      hide InspectApply, InspectEnabled, RecordsInv;
    }
  }

  lemma HandoffsKeptByHandoff(s: State, h: Id, step: HandStep)
    requires HandoffsInv(s) && HandEnabled(s, h, step)
    ensures HandoffsInv(HandApply(s, h, step))
  {
    var t := HandApply(s, h, step);
    assert KnownWho(s, s.handoffs[h]);
    OwnWhoKnown(s, h, step);
    UsedGrows(s, ByHandoff(h, step));
    HandFrame(s, h, step);
    hide HandApply, HandEnabled, KnownWho;
    forall g | g in t.handoffs ensures KnownWho(t, t.handoffs[g]) && 0 < t.handoffs[g].startedAt <= t.now {
      if g != h {
        StillKnown(s, t, s.handoffs[g]);
      }
    }
  }

  lemma StillKnown(s: State, t: State, o: Handoff)
    requires KnownWho(s, o) && s.used <= t.used
    ensures KnownWho(t, o)
  {
  }

  lemma OwnWhoKnown(s: State, h: Id, step: HandStep)
    requires HandEnabled(s, h, step) && KnownWho(s, s.handoffs[h])
    ensures KnownWho(HandApply(s, h, step), HandApply(s, h, step).handoffs[h])
  {
  }

  /** A step of a handoff leaves the other handoffs, the clock and the inspection alone. */
  lemma HandFrame(s: State, h: Id, step: HandStep)
    requires HandEnabled(s, h, step)
    ensures var t := HandApply(s, h, step);
            && t.now == s.now && t.lock == s.lock && t.handoffs.Keys == s.handoffs.Keys
            && (forall g :: g in s.handoffs && g != h ==> t.handoffs[g] == s.handoffs[g])
            && t.handoffs[h].startedAt == s.handoffs[h].startedAt && t.handoffs[h].driver == s.handoffs[h].driver
  {
  }

  lemma RecordsKeptByInspection(s: State, step: InspectStep)
    requires PidInv(s) && InspectEnabled(s, step)
    ensures RecordsInv(InspectApply(s, step))
  {
  }

  lemma RecordsKeptByHandoff(s: State, h: Id, step: HandStep)
    requires HandoffsInv(s) && RecordsInv(s) && HandEnabled(s, h, step)
    ensures RecordsInv(HandApply(s, h, step))
  {
    assert KnownWho(s, s.handoffs[h]);
    hide HandoffsInv;
  }

  lemma PidKept(s: State, a: Action)
    requires PidInv(s) && Enabled(s, a)
    ensures PidInv(Apply(s, a))
  {
    NumbersKept(s, a);
    hide NumbersInv, HandoffsInv, RecordsInv;
    hide WorldApply, WorldEnabled, InspectApply, InspectEnabled, HandApply, HandEnabled;
    match a
    case ByWorld(step) =>
      KeptByWorld(s, step);
    case ByInspection(step) =>
      HandoffsKeptByInspection(s, step);
      RecordsKeptByInspection(s, step);
    case ByHandoff(h, step) =>
      HandoffsKeptByHandoff(s, h, step);
      RecordsKeptByHandoff(s, h, step);
  }

  /** The dead stay dead. */
  lemma NoRevival(s: State, a: Action, w: Who)
    requires Enabled(s, a) && w.id in s.used
    ensures Alive(Apply(s, a), w) ==> Alive(s, w)
    ensures GroupLive(Apply(s, a), w) ==> GroupLive(s, w)
    ensures w.id in Apply(s, a).used
  {
  }

  lemma CheckedKept(s: State, a: Action)
    requires PidInv(s) && CheckedInv(s) && Enabled(s, a)
    ensures CheckedInv(Apply(s, a))
  {
    if s.lock.Some? && s.lock.value.seen.Some? {
      var c := s.lock.value.seen.value;
      if c.pid != 0 {
        NoRevival(s, a, Who(c.pid, c.owner.value));
      }
      if c.pgid != 0 {
        NoRevival(s, a, Who(c.pgid, c.leader.value));
      }
    }
  }

  lemma BusyKeptByWorld(s: State, step: WorldStep, h: Id)
    requires PidInv(s) && WorldEnabled(s, step) && Busy(WorldApply(s, step), h)
    ensures Busy(s, h)
  {
  }

  lemma BusyKeptByHandoff(s: State, h: Id, step: HandStep, g: Id)
    requires PidInv(s) && HandEnabled(s, h, step) && Busy(HandApply(s, h, step), g)
    ensures Busy(s, g)
  {
  }

  /** A shield lasts as long as the group behind it. */
  lemma ShieldsStay(s: State, a: Action, c: Claim, h: Id)
    requires PidInv(s) && Enabled(s, a) && h in s.handoffs && Shields(s, c, s.handoffs[h])
    requires Busy(Apply(s, a), h)
    ensures Shields(Apply(s, a), c, Apply(s, a).handoffs[h])
  {
    hide PidInv, WorldEnabled, WorldApply, InspectEnabled, InspectApply, HandEnabled, HandApply;
    match a
    case ByWorld(step) => ShieldsStayByWorld(s, step, c, h);
    case ByInspection(step) => ShieldsStayByInspection(s, step, c, h);
    case ByHandoff(g, step) => ShieldsStayByHandoff(s, g, step, c, h);
  }

  lemma ShieldsStayByWorld(s: State, step: WorldStep, c: Claim, h: Id)
    requires PidInv(s) && WorldEnabled(s, step) && h in s.handoffs && Shields(s, c, s.handoffs[h])
    requires Busy(WorldApply(s, step), h)
    ensures Shields(WorldApply(s, step), c, WorldApply(s, step).handoffs[h])
  {
    assert KnownWho(s, s.handoffs[h]);
    hide NumbersInv, HandoffsInv, RecordsInv;
  }

  lemma ShieldsStayByInspection(s: State, step: InspectStep, c: Claim, h: Id)
    requires InspectEnabled(s, step) && h in s.handoffs && Shields(s, c, s.handoffs[h])
    ensures Shields(InspectApply(s, step), c, InspectApply(s, step).handoffs[h])
  {
    InspectFrame(s, step);
    assert InspectApply(s, step).handoffs[h] == s.handoffs[h];
    hide InspectApply;
  }

  lemma ShieldsStayByHandoff(s: State, g: Id, step: HandStep, c: Claim, h: Id)
    requires PidInv(s) && HandEnabled(s, g, step) && h in s.handoffs && Shields(s, c, s.handoffs[h])
    requires Busy(HandApply(s, g, step), h)
    ensures Shields(HandApply(s, g, step), c, HandApply(s, g, step).handoffs[h])
  {
    assert KnownWho(s, s.handoffs[h]);
    hide NumbersInv, HandoffsInv, RecordsInv;
  }

  lemma OneBusyKept(s: State, a: Action)
    requires PidInv(s) && InspectionInv(s) && OneBusy(s) && Enabled(s, a)
    ensures OneBusy(Apply(s, a))
  {
    hide PidInv;
    match a
    case ByWorld(step) =>
      forall h | Busy(Apply(s, a), h) ensures Busy(s, h) {
        BusyKeptByWorld(s, step, h);
      }
      hide Busy;
    case ByInspection(step) =>
      InspectFrame(s, step);
      forall h | Busy(Apply(s, a), h) ensures Busy(s, h) || (step.Replace? && h == step.h) {
      }
      hide Busy;
    case ByHandoff(g, step) =>
      forall h | Busy(Apply(s, a), h) ensures Busy(s, h) {
        BusyKeptByHandoff(s, g, step, h);
      }
      hide Busy;
  }

  lemma KeptKept(s: State, a: Action)
    requires PidInv(s) && KeptInv(s) && Enabled(s, a) && Orderly(s, a)
    ensures KeptInv(Apply(s, a))
  {
    hide PidInv, WorldEnabled, WorldApply, InspectEnabled, InspectApply, HandEnabled, HandApply, Orderly;
    match a
    case ByWorld(step) => KeptKeptByWorld(s, step);
    case ByInspection(step) => KeptKeptByInspection(s, step);
    case ByHandoff(h, step) => KeptKeptByHandoff(s, h, step);
  }

  lemma KeptKeptByWorld(s: State, step: WorldStep)
    requires KeptInv(s) && WorldEnabled(s, step)
    ensures KeptInv(WorldApply(s, step))
  {
  }

  lemma KeptKeptByInspection(s: State, step: InspectStep)
    requires KeptInv(s) && InspectEnabled(s, step)
    ensures KeptInv(InspectApply(s, step))
  {
    InspectFrame(s, step);
  }

  lemma KeptKeptByHandoff(s: State, h: Id, step: HandStep)
    requires PidInv(s) && KeptInv(s) && HandEnabled(s, h, step) && Orderly(s, ByHandoff(h, step))
    ensures KeptInv(HandApply(s, h, step))
  {
    assert forall g :: g in s.handoffs ==> KnownWho(s, s.handoffs[g]);
    hide NumbersInv, HandoffsInv, RecordsInv;
  }

  lemma ClaimKeptByWorld(s: State, step: WorldStep)
    requires PidInv(s) && ClaimInv(s) && WorldEnabled(s, step)
    ensures ClaimInv(WorldApply(s, step))
  {
    forall h | Busy(WorldApply(s, step), h)
      ensures Busy(s, h)
      ensures Shields(s, s.claim.value, s.handoffs[h]) ==>
                Shields(WorldApply(s, step), s.claim.value, s.handoffs[h])
    {
      BusyKeptByWorld(s, step, h);
      if Shields(s, s.claim.value, s.handoffs[h]) {
        ShieldsStay(s, ByWorld(step), s.claim.value, h);
      }
    }
    hide Busy, Describes, Shields;
  }

  lemma ClaimKeptByInspection(s: State, step: InspectStep)
    requires PidInv(s) && ClaimInv(s) && InspectionInv(s) && InspectEnabled(s, step)
    ensures ClaimInv(InspectApply(s, step))
  {
    InspectFrame(s, step);
  }

  /** What a step of the handoff `h` leaves of the claim, for whatever is busy after it. */
  lemma ClaimAfterHandoff(s: State, h: Id, step: HandStep, g: Id)
    requires PidInv(s) && ClaimInv(s) && OneBusy(s) && KeptInv(s)
    requires HandEnabled(s, h, step) && Orderly(s, ByHandoff(h, step))
    requires Busy(s, g) && Busy(HandApply(s, h, step), g)
    ensures var t := HandApply(s, h, step);
            t.claim.Some? && (Describes(t.claim.value, g, t.handoffs[g]) || Shields(t, t.claim.value, t.handoffs[g]))
  {
    if step.Rewrite? && g != h {
      var c := RewrittenClaim(h, s.handoffs[h], step.quiesced, s.now);
      assert Shields(s, c, s.handoffs[g]);
      ShieldsStay(s, ByHandoff(h, step), c, g);
    } else if Shields(s, s.claim.value, s.handoffs[g]) {
      ShieldsStay(s, ByHandoff(h, step), s.claim.value, g);
    }
  }

  lemma ClaimKeptByHandoff(s: State, h: Id, step: HandStep)
    requires PidInv(s) && ClaimInv(s) && OneBusy(s) && KeptInv(s)
    requires HandEnabled(s, h, step) && Orderly(s, ByHandoff(h, step))
    ensures ClaimInv(HandApply(s, h, step))
  {
    var t := HandApply(s, h, step);
    hide HandApply, HandEnabled, PidInv, Orderly, Describes, Shields, OneBusy, KeptInv;
    forall g | Busy(t, g)
      ensures t.claim.Some? && (Describes(t.claim.value, g, t.handoffs[g]) || Shields(t, t.claim.value, t.handoffs[g]))
    {
      BusyKeptByHandoff(s, h, step, g);
      ClaimAfterHandoff(s, h, step, g);
    }
  }

  lemma InspectionKeptByWorld(s: State, step: WorldStep)
    requires PidInv(s) && InspectionInv(s) && WorldEnabled(s, step)
    ensures InspectionInv(WorldApply(s, step))
  {
    forall h | Busy(WorldApply(s, step), h)
      ensures Busy(s, h)
      ensures s.lock.Some? && s.lock.value.seen.Some? && Shields(s, s.lock.value.seen.value, s.handoffs[h]) ==>
                Shields(WorldApply(s, step), s.lock.value.seen.value, s.handoffs[h])
    {
      BusyKeptByWorld(s, step, h);
      if s.lock.Some? && s.lock.value.seen.Some? && Shields(s, s.lock.value.seen.value, s.handoffs[h]) {
        ShieldsStay(s, ByWorld(step), s.lock.value.seen.value, h);
      }
    }
    hide Busy, Saw, Shields;
  }

  /** What is busy while the claim is read shows in what is read. */
  lemma ReadShows(s: State, h: Id)
    requires ClaimInv(s) && Timely(s) && Busy(s, h)
    ensures s.claim.Some? && (Saw(s.claim.value, s.now, h, s.handoffs[h]) || Shields(s, s.claim.value, s.handoffs[h]))
  {
    assert !Late(s, h);
    assert s.handoffs[h].stage in {Wrapping, Evaluating} ==> Unpublished(s, h);
  }

  /** A group number that no probe can tell from the recorded one retains the claim. */
  lemma ShieldRetains(s: State, c: Claim, o: Handoff, known: bool)
    requires Shields(s, c, o) && o.group.pid > 1
    ensures ResidualGroupIsLive(c, s.mtime, ProbeOf(s, s.groups, c.pgid, known), s.now)
  {
  }

  /** An inspection that passes all its checks has nothing busy beside it. */
  lemma ClearedIsQuiet(s: State, h: Id)
    requires InspectionInv(s) && CheckedInv(s) && Timely(s)
    requires s.lock.Some? && s.lock.value.look == GroupGone && s.lock.value.seen.Some?
    requires Alive(s, s.lock.value.driver)
    requires !IsBootstrapping(s.lock.value.seen.value, s.now)
    requires NumbersInv(s) && HandoffsInv(s)
    ensures !Busy(s, h)
  {
    assert !Straddles(s, h);
  }

  /** What the inspection finds busy after a check, it has seen. */
  lemma CheckKeepsSight(s: State, step: InspectStep, h: Id)
    requires PidInv(s) && InspectionInv(s) && InspectEnabled(s, step)
    requires step.CheckOwner? || step.CheckGroup?
    requires InspectApply(s, step).lock.Some? && Busy(s, h)
    ensures var i := InspectApply(s, step).lock.value;
            || Saw(i.seen.value, i.readAt, h, s.handoffs[h])
            || (i.look != GroupGone && Shields(s, i.seen.value, s.handoffs[h]))
  {
    if step.CheckGroup? && Shields(s, s.lock.value.seen.value, s.handoffs[h]) {
      assert NumbersInv(s) && s.handoffs[h].group.pid > 1;
      ShieldRetains(s, s.lock.value.seen.value, s.handoffs[h], step.known);
    }
    hide Saw, Shields, OwnerIsActive, ResidualGroupIsLive, Busy, PidInv;
  }

  /** An inspection changes nothing that it looks at, until it replaces the claim. */
  lemma SameBusy(s: State, step: InspectStep, h: Id, c: Claim)
    requires InspectEnabled(s, step) && !step.Replace?
    ensures InspectApply(s, step).handoffs == s.handoffs
    ensures Busy(InspectApply(s, step), h) == Busy(s, h)
    ensures h in s.handoffs ==> Shields(InspectApply(s, step), c, s.handoffs[h]) == Shields(s, c, s.handoffs[h])
  {
    InspectFrame(s, step);
    hide InspectApply, InspectEnabled;
  }

  lemma InspectionAfterRead(s: State)
    requires ClaimInv(s) && InspectEnabled(s, ReadClaim) && Timely(s)
    ensures InspectionInv(InspectApply(s, ReadClaim))
  {
    var t := InspectApply(s, ReadClaim);
    hide ClaimInv, Timely, Saw, Shields, Busy;
    forall h | Busy(t, h)
      ensures s.claim.Some?
      ensures Saw(s.claim.value, s.now, h, t.handoffs[h]) || Shields(t, s.claim.value, t.handoffs[h])
    {
      SameBusy(s, ReadClaim, h, NO_CLAIM);
      ReadShows(s, h);
      SameBusy(s, ReadClaim, h, s.claim.value);
    }
  }

  const NO_CLAIM := Claim(0, None, Failed, 0, 0, 0, None, 0)

  lemma InspectionAfterCheck(s: State, step: InspectStep)
    requires PidInv(s) && InspectionInv(s) && InspectEnabled(s, step) && (step.CheckOwner? || step.CheckGroup?)
    ensures InspectionInv(InspectApply(s, step))
  {
    var t := InspectApply(s, step);
    if t.lock.Some? {
      var i := t.lock.value;
      assert i.seen.Some? && i.look in {OwnerGone, GroupGone};
      forall h | Busy(t, h) ensures
        || Saw(i.seen.value, i.readAt, h, t.handoffs[h])
        || (i.look != GroupGone && Shields(t, i.seen.value, t.handoffs[h]))
      {
        SameBusy(s, step, h, i.seen.value);
        CheckKeepsSight(s, step, h);
      }
    }
    hide InspectApply, InspectEnabled, Saw, Shields, Busy, PidInv;
  }

  lemma InspectionAfterBootstrap(s: State)
    requires PidInv(s) && CheckedInv(s) && InspectionInv(s) && InspectEnabled(s, CheckBootstrap) && Timely(s)
    ensures InspectionInv(InspectApply(s, CheckBootstrap))
  {
    var t := InspectApply(s, CheckBootstrap);
    if t.lock.Some? {
      hide InspectionInv, CheckedInv, Timely, Busy;
      forall h ensures !Busy(t, h) {
        ClearedIsQuiet(s, h);
        SameBusy(s, CheckBootstrap, h, NO_CLAIM);
      }
      NothingBusy(t);
    }
  }

  lemma NothingBusy(s: State)
    requires s.lock.Some? && s.lock.value.look == Cleared && forall h :: !Busy(s, h)
    ensures InspectionInv(s)
  {
  }

  lemma InspectionAfterRest(s: State, step: InspectStep)
    requires InspectionInv(s) && InspectEnabled(s, step)
    requires step.TakeLock? || step.DropLock? || step.UnlinkStale? || step.Replace?
    ensures InspectionInv(InspectApply(s, step))
  {
    if step.UnlinkStale? {
      forall h ensures !Busy(InspectApply(s, step), h) {
        SameBusy(s, step, h, NO_CLAIM);
      }
    }
    hide Busy, Saw, Shields;
  }

  lemma InspectionKeptByInspection(s: State, step: InspectStep)
    requires PidInv(s) && ClaimInv(s) && CheckedInv(s) && InspectionInv(s) && InspectEnabled(s, step)
    requires Timely(s)
    ensures InspectionInv(InspectApply(s, step))
  {
    hide PidInv, ClaimInv, CheckedInv, InspectionInv, InspectEnabled, InspectApply, Timely;
    match step
    case ReadClaim => InspectionAfterRead(s);
    case CheckBootstrap => InspectionAfterBootstrap(s);
    case CheckOwner(_) => InspectionAfterCheck(s, step);
    case CheckGroup(_) => InspectionAfterCheck(s, step);
    case _ => InspectionAfterRest(s, step);
  }

  /** A busy handoff stays recognisable in a claim read earlier. */
  lemma StillSaw(s: State, h: Id, step: HandStep, c: Claim, readAt: int)
    requires HandoffsInv(s) && ClaimInv(s) && KeptInv(s) && HandEnabled(s, h, step)
    requires Busy(s, h) && Busy(HandApply(s, h, step), h)
    requires Saw(c, readAt, h, s.handoffs[h]) && readAt <= s.now
    requires !Late(HandApply(s, h, step), h)
    ensures Saw(c, readAt, h, HandApply(s, h, step).handoffs[h])
  {
  }

  lemma InspectionKeptByHandoff(s: State, h: Id, step: HandStep)
    requires PidInv(s) && CheckedInv(s) && ClaimInv(s) && KeptInv(s) && InspectionInv(s) && HandEnabled(s, h, step)
    requires Timely(HandApply(s, h, step))
    ensures InspectionInv(HandApply(s, h, step))
  {
    var t := HandApply(s, h, step);
    assert t.lock == s.lock;
    if s.lock.Some? {
      var i := s.lock.value;
      if i.look in {Read, OwnerGone, GroupGone} && i.seen.Some? {
        forall g | Busy(t, g) ensures
          || Saw(i.seen.value, i.readAt, g, t.handoffs[g])
          || (i.look != GroupGone && Shields(t, i.seen.value, t.handoffs[g]))
        {
          BusyKeptByHandoff(s, h, step, g);
          if Shields(s, i.seen.value, s.handoffs[g]) {
            ShieldsStay(s, ByHandoff(h, step), i.seen.value, g);
          }
          if g == h && Saw(i.seen.value, i.readAt, g, s.handoffs[g]) {
            StillSaw(s, h, step, i.seen.value, i.readAt);
          }
        }
      } else if i.look == Cleared {
        forall g ensures !Busy(t, g) {
          if Busy(t, g) {
            BusyKeptByHandoff(s, h, step, g);
          }
        }
      }
    }
    hide PidInv, Timely, Saw, Shields, Busy, HandEnabled, HandApply;
  }

  /** What holds also in the first state that is not timely. */
  ghost predicate BaseInv(s: State) {
    PidInv(s) && CheckedInv(s) && ClaimInv(s) && OneBusy(s) && KeptInv(s)
  }

  ghost predicate Inv(s: State) {
    BaseInv(s) && InspectionInv(s)
  }

  lemma StepKeepsBase(s: State, a: Action)
    requires Inv(s) && Enabled(s, a) && Orderly(s, a)
    ensures BaseInv(Apply(s, a))
  {
    PidKept(s, a);
    CheckedKept(s, a);
    OneBusyKept(s, a);
    KeptKept(s, a);
    hide PidInv, CheckedInv, ClaimInv, InspectionInv, OneBusy, KeptInv, Orderly;
    hide WorldEnabled, WorldApply, InspectEnabled, InspectApply, HandEnabled, HandApply;
    match a
    case ByWorld(step) =>
      ClaimKeptByWorld(s, step);
    case ByInspection(step) =>
      ClaimKeptByInspection(s, step);
    case ByHandoff(h, step) =>
      ClaimKeptByHandoff(s, h, step);
  }

  lemma StepKeepsInv(s: State, a: Action)
    requires Inv(s) && Enabled(s, a) && Orderly(s, a) && Timely(s) && Timely(Apply(s, a))
    ensures Inv(Apply(s, a))
  {
    StepKeepsBase(s, a);
    hide PidInv, CheckedInv, ClaimInv, InspectionInv, OneBusy, KeptInv, Timely, Orderly;
    hide WorldEnabled, WorldApply, InspectEnabled, InspectApply, HandEnabled, HandApply;
    match a
    case ByWorld(step) =>
      InspectionKeptByWorld(s, step);
    case ByInspection(step) =>
      InspectionKeptByInspection(s, step);
    case ByHandoff(h, step) =>
      InspectionKeptByHandoff(s, h, step);
  }

  lemma TimelyStep(states: seq<State>, actions: seq<Action>, k: nat)
    requires IsTimelyRun(states, actions) && 0 < k < |states|
    ensures Enabled(states[k - 1], actions[k - 1]) && states[k] == Apply(states[k - 1], actions[k - 1])
    ensures Orderly(states[k - 1], actions[k - 1]) && Timely(states[k - 1]) && Timely(states[k])
  {
  }

  lemma StartsInv(s: State)
    requires Init(s)
    ensures Inv(s)
  {
  }

  lemma {:induction false} TimelyRunKeepsInv(states: seq<State>, actions: seq<Action>, k: nat)
    requires IsTimelyRun(states, actions) && k < |states|
    ensures Inv(states[k])
  {
    if k == 0 {
      hide Inv, Timely, Enabled, Apply;
      StartsInv(states[0]);
    } else {
      hide *;
      TimelyRunKeepsInv(states, actions, k - 1);
      TimelyStep(states, actions, k);
      StepKeepsInv(states[k - 1], actions[k - 1]);
    }
  }

  lemma {:induction false} RunKeepsChecks(states: seq<State>, actions: seq<Action>, k: nat)
    requires IsRun(states, actions) && k < |states|
    ensures PidInv(states[k]) && CheckedInv(states[k])
  {
    if k == 0 {
    } else {
      RunKeepsChecks(states, actions, k - 1);
      assert Enabled(states[k - 1], actions[k - 1]) && states[k] == Apply(states[k - 1], actions[k - 1]);
      hide IsRun, PidInv, CheckedInv, Enabled, Apply;
      PidKept(states[k - 1], actions[k - 1]);
      CheckedKept(states[k - 1], actions[k - 1]);
    }
  }

  // ---- What the claim protects ----

  predicate EvaluatorLive(s: State, h: Id) {
    h in s.handoffs && s.handoffs[h].stage in {Evaluating, Published, Settled} && GroupLive(s, s.handoffs[h].group)
  }

  /** In every run, timely or not, a driver that unlinks or replaces the claim it read does so
    * after the owner and the group recorded there have ended, even if their numbers are in use
    * again and even if some probes gave no identity. */
  lemma NeverTakenFromTheLiving(states: seq<State>, actions: seq<Action>, k: nat)
    requires IsRun(states, actions) && k < |actions|
    requires actions[k] == ByInspection(UnlinkStale)
             || (actions[k].ByInspection? && actions[k].inspect.Replace?)
    requires states[k].lock.value.seen.Some?
    ensures !OwnerAlive(states[k], states[k].lock.value.seen.value)
    ensures !GroupAlive(states[k], states[k].lock.value.seen.value)
  {
    RunKeepsChecks(states, actions, k);
  }

  /** With timely handoffs and orderly wrappers this holds of the claim on disk too: when a driver
    * unlinks or replaces the claim, whatever has been written meanwhile, nothing is busy at all. */
  lemma NothingIsBusyWhenTaken(states: seq<State>, actions: seq<Action>, k: nat, h: Id)
    requires IsTimelyRun(states, actions) && k < |actions|
    requires actions[k] == ByInspection(UnlinkStale)
             || (actions[k].ByInspection? && actions[k].inspect.Replace?)
    ensures !Busy(states[k], h)
  {
    TimelyRunKeepsInv(states, actions, k);
    assert Enabled(states[k], actions[k]);
  }

  /** With timely handoffs and orderly wrappers, whatever can still write the claim, or evaluates,
    * belongs to one handoff, and that handoff is the one the claim describes or shields. */
  lemma OneHandoffBusy(states: seq<State>, actions: seq<Action>, k: nat, h: Id, g: Id)
    requires IsTimelyRun(states, actions) && k < |states|
    requires Busy(states[k], h) && Busy(states[k], g)
    ensures h == g && states[k].claim.Some?
    ensures Describes(states[k].claim.value, h, states[k].handoffs[h])
            || Shields(states[k], states[k].claim.value, states[k].handoffs[h])
  {
    TimelyRunKeepsInv(states, actions, k);
  }

  /** At most one evaluator group is ever live. */
  lemma OneEvaluatorPerTask(states: seq<State>, actions: seq<Action>, k: nat, h: Id, g: Id)
    requires IsTimelyRun(states, actions) && k < |states|
    requires EvaluatorLive(states[k], h) && EvaluatorLive(states[k], g)
    ensures h == g
  {
    OneHandoffBusy(states, actions, k, h, g);
  }

  // ---- Where the promise ends ----

  ghost predicate Ends(run: (seq<State>, seq<Action>), t: State) {
    IsRun(run.0, run.1) && run.0[|run.1|] == t
  }

  lemma Then(run: (seq<State>, seq<Action>), s: State, a: Action)
    returns (longer: (seq<State>, seq<Action>), t: State)
    requires Ends(run, s) && Enabled(s, a)
    ensures Ends(longer, t) && t == Apply(s, a) && run.0 <= longer.0
  {
    t := Apply(s, a);
    longer := (run.0 + [t], run.1 + [a]);
    forall k | 0 <= k < |longer.1|
      ensures Enabled(longer.0[k], longer.1[k]) && longer.0[k + 1] == Apply(longer.0[k], longer.1[k])
    {
      if k < |run.1| {
        assert longer.0[k] == run.0[k] && longer.0[k + 1] == run.0[k + 1] && longer.1[k] == run.1[k];
      }
    }
  }

  /** A claim that records no process and no group is there for the taking. */
  lemma Acquire(run: (seq<State>, seq<Action>), s: State, driver: Who, h: Id)
    returns (longer: (seq<State>, seq<Action>), t: State)
    requires Ends(run, s) && s.lock.None? && Alive(s, driver) && s.now > 0 && h !in s.handoffs && 0 !in s.alive
    requires s.claim.Some? ==>
               s.claim.value.pid == s.claim.value.pgid == 0 && s.claim.value.status in {Completed, Failed}
    ensures Ends(longer, t) && run.0 <= longer.0
    ensures var o := NewHandoff(driver, s.now);
            t == s.(claim := Some(DriverClaim(h, o)), mtime := s.now, handoffs := s.handoffs[h := o])
  {
    hide Ends;
    longer, t := Then(run, s, ByInspection(TakeLock(driver, s.now)));
    longer, t := Then(longer, t, ByInspection(ReadClaim));
    if s.claim.Some? {
      longer, t := Then(longer, t, ByInspection(CheckOwner(true)));
      longer, t := Then(longer, t, ByInspection(CheckGroup(true)));
      longer, t := Then(longer, t, ByInspection(CheckBootstrap));
    }
    longer, t := Then(longer, t, ByInspection(Replace(h)));
  }

  lemma Start(run: (seq<State>, seq<Action>), s: State, h: Id, wrapper: Who, group: Who)
    returns (longer: (seq<State>, seq<Action>), t: State)
    requires Ends(run, s) && h in s.handoffs && s.handoffs[h].stage == Driving && Alive(s, s.handoffs[h].driver)
    requires Fresh(s, wrapper) && Fresh(s, group) && wrapper.pid != group.pid && wrapper.id != group.id
    ensures Ends(longer, t) && run.0 <= longer.0
    ensures var o := s.handoffs[h].(stage := Evaluating, wrapper := wrapper, group := group);
            && t.claim == s.claim && t.now == s.now && t.lock == s.lock && t.mtime == s.mtime
            && t.handoffs == s.handoffs[h := o]
            && t.alive == s.alive[wrapper.pid := wrapper.id][group.pid := group.id]
            && t.groups == s.groups[group.pid := group.id]
            && t.used == s.used + {wrapper.id, group.id}
  {
    hide Ends;
    longer, t := Then(run, s, ByHandoff(h, StartWrapper(wrapper)));
    longer, t := Then(longer, t, ByHandoff(h, StartEvaluator(group)));
  }

  const QUIET := State(100, map[10 := 1, 20 := 2, 30 := 3], map[], {1, 2, 3}, None, 0, map[], None)

  const FIRST_PUBLISHED :=
    State(100, map[10 := 1, 20 := 2, 30 := 3, 11 := 4, 12 := 5], map[12 := 5],
          {1, 2, 3, 4, 5}, Some(Claim(11, Some(4), Started, 100, 100 + LEASE, 12, Some(5), 0)), 100,
          map[0 := Handoff(Who(10, 1), 100, Published, Who(11, 4), Who(12, 5), false, false)], None)

  const FIRST_SETTLED :=
    State(100, map[10 := 1, 20 := 2, 30 := 3, 11 := 4], map[],
          {1, 2, 3, 4, 5}, Some(Claim(0, None, Completed, 100, 100 + LEASE, 0, None, 0)), 100,
          map[0 := Handoff(Who(10, 1), 100, Settled, Who(11, 4), Who(12, 5), false, true)], None)

  const SECOND_OVERWRITTEN :=
    State(100, map[10 := 1, 20 := 2, 30 := 3, 11 := 4, 21 := 6, 22 := 7], map[22 := 7],
          {1, 2, 3, 4, 5, 6, 7}, Some(Claim(0, None, Completed, 100, 100 + LEASE, 0, None, 0)), 100,
          map[0 := Handoff(Who(10, 1), 100, Settled, Who(11, 4), Who(12, 5), false, false),
              1 := Handoff(Who(20, 2), 100, Published, Who(21, 6), Who(22, 7), false, false)], None)

  predicate Same(s: State, t: State) {
    && s.now == t.now && s.alive == t.alive && s.groups == t.groups && s.used == t.used
    && s.claim == t.claim && s.mtime == t.mtime && s.handoffs == t.handoffs && s.lock == t.lock
  }

  lemma FirstPublishes() returns (run: (seq<State>, seq<Action>))
    ensures Ends(run, FIRST_PUBLISHED)
  {
    var s := QUIET;
    run := ([s], []);
    assert Ends(run, s);
    hide Ends;
    run, s := Acquire(run, s, Who(10, 1), 0);
    run, s := Start(run, s, 0, Who(11, 4), Who(12, 5));
    run, s := Then(run, s, ByHandoff(0, Publish));
    assert Same(s, FIRST_PUBLISHED);
  }

  lemma FirstSettles(before: (seq<State>, seq<Action>)) returns (run: (seq<State>, seq<Action>))
    requires Ends(before, FIRST_PUBLISHED)
    ensures Ends(run, FIRST_SETTLED)
  {
    hide Ends;
    var s;
    run, s := Then(before, FIRST_PUBLISHED, ByWorld(Die(12)));
    run, s := Then(run, s, ByWorld(GroupDies(12)));
    run, s := Then(run, s, ByHandoff(0, Settle(true, true, true)));
    assert Same(s, FIRST_SETTLED);
  }

  lemma SecondIsOverwritten(before: (seq<State>, seq<Action>)) returns (run: (seq<State>, seq<Action>))
    requires Ends(before, FIRST_SETTLED)
    ensures Ends(run, SECOND_OVERWRITTEN)
  {
    hide Ends;
    var s;
    run, s := Acquire(before, FIRST_SETTLED, Who(20, 2), 1);
    run, s := Start(run, s, 1, Who(21, 6), Who(22, 7));
    run, s := Then(run, s, ByHandoff(1, Publish));
    run, s := Then(run, s, ByHandoff(0, Rewrite(true)));
    assert Same(s, SECOND_OVERWRITTEN);
  }

  const THIRD := NewHandoff(Who(30, 3), 100)

  const THIRD_HOLDS :=
    SECOND_OVERWRITTEN.(
      claim := Some(DriverClaim(2, THIRD)), handoffs := SECOND_OVERWRITTEN.handoffs[2 := THIRD])

  lemma ThirdTakesOver(before: (seq<State>, seq<Action>)) returns (run: (seq<State>, seq<Action>))
    requires Ends(before, SECOND_OVERWRITTEN)
    ensures Ends(run, THIRD_HOLDS)
  {
    hide Ends;
    var s;
    run, s := Acquire(before, SECOND_OVERWRITTEN, Who(30, 3), 2);
    assert Same(s, THIRD_HOLDS);
  }

  /** A wrapper whose final claim is out may write it again, when the attempt file cannot be
    * written or a signal arrives; a third driver then finds the second handoff's claim gone. */
  lemma RewriteOverLaterClaim() returns (run: (seq<State>, seq<Action>), s: State)
    ensures Ends(run, s) && EvaluatorLive(s, 1) && EvaluatorLive(s, 2)
  {
    hide Ends;
    run := FirstPublishes();
    run := FirstSettles(run);
    run := SecondIsOverwritten(run);
    run := ThirdTakesOver(run);
    run, s := Start(run, THIRD_HOLDS, 2, Who(31, 8), Who(32, 9));
  }

  const UNRECORDED := Handoff(Who(10, 1), 100, Settled, Who(11, 4), Who(12, 5), false, false)

  const LEFT_UNRECORDED :=
    QUIET.(
      alive := QUIET.alive[11 := 4][12 := 5], groups := map[12 := 5], used := {1, 2, 3, 4, 5},
      claim := Some(Claim(0, None, Failed, 100, 100 + LEASE, 0, None, 0)), mtime := 100,
      handoffs := map[0 := UNRECORDED])

  lemma LeaveUnrecorded() returns (run: (seq<State>, seq<Action>))
    ensures Ends(run, LEFT_UNRECORDED)
  {
    var s := QUIET;
    run := ([s], []);
    assert Ends(run, s);
    hide Ends;
    run, s := Acquire(run, s, Who(10, 1), 0);
    run, s := Start(run, s, 0, Who(11, 4), Who(12, 5));
    run, s := Then(run, s, ByHandoff(0, Settle(false, false, false)));
    assert Same(s, LEFT_UNRECORDED);
  }

  /** A wrapper stopped between the start of its evaluator and the entry of its identity, which
    * then cannot terminate it, writes a final claim that names no group: the claim is free while
    * the evaluator runs. */
  lemma UnrecordedEvaluatorIsForgotten() returns (run: (seq<State>, seq<Action>), s: State)
    ensures Ends(run, s) && EvaluatorLive(s, 0) && EvaluatorLive(s, 1)
  {
    hide Ends;
    run := LeaveUnrecorded();
    run, s := Acquire(run, LEFT_UNRECORDED, Who(20, 2), 1);
    run, s := Start(run, s, 1, Who(21, 6), Who(22, 7));
  }

  const WRAPPER_LEFT :=
    State(100 + GRACE - 1, map[20 := 2, 30 := 3, 11 := 4], map[],
          {1, 2, 3, 4}, Some(Claim(10, Some(1), Claiming, 100, 100 + LEASE, 0, None, 0)), 100,
          map[0 := Handoff(Who(10, 1), 100, Wrapping, Who(11, 4), Who(0, 0), false, false)], None)

  const PUBLISHED_IN_TIME :=
    State(100 + GRACE - 1, map[20 := 2, 30 := 3, 11 := 4, 12 := 5], map[12 := 5],
          {1, 2, 3, 4, 5},
          Some(Claim(11, Some(4), Started, 100, 100 + GRACE - 1 + LEASE, 12, Some(5), 0)), 100 + GRACE - 1,
          map[0 := Handoff(Who(10, 1), 100, Published, Who(11, 4), Who(12, 5), false, false)],
          Some(Inspection(
            Who(20, 2), 100 + GRACE - 1, Read, Some(Claim(10, Some(1), Claiming, 100, 100 + LEASE, 0, None, 0)),
            100 + GRACE - 1)))

  lemma DriverLeaves() returns (run: (seq<State>, seq<Action>))
    ensures Ends(run, WRAPPER_LEFT)
  {
    var s := QUIET;
    run := ([s], []);
    assert Ends(run, s);
    hide Ends;
    run, s := Acquire(run, s, Who(10, 1), 0);
    run, s := Then(run, s, ByHandoff(0, StartWrapper(Who(11, 4))));
    assert Same(s, WRAPPER_STARTED);
    run := DriverDies(run);
  }

  const WRAPPER_STARTED :=
    WRAPPER_LEFT.(now := 100, alive := map[10 := 1, 20 := 2, 30 := 3, 11 := 4])

  lemma DriverDies(before: (seq<State>, seq<Action>)) returns (run: (seq<State>, seq<Action>))
    requires Ends(before, WRAPPER_STARTED)
    ensures Ends(run, WRAPPER_LEFT)
  {
    hide Ends;
    var s;
    run, s := Then(before, WRAPPER_STARTED, ByWorld(Die(10)));
    run, s := Then(run, s, ByWorld(Tick(100 + GRACE - 1)));
    assert Same(s, WRAPPER_LEFT);
  }

  lemma PublishDuringInspection(before: (seq<State>, seq<Action>)) returns (run: (seq<State>, seq<Action>))
    requires Ends(before, WRAPPER_LEFT)
    ensures Ends(run, PUBLISHED_IN_TIME)
  {
    hide Ends;
    var s;
    run, s := Then(before, WRAPPER_LEFT, ByInspection(TakeLock(Who(20, 2), 100 + GRACE - 1)));
    run, s := Then(run, s, ByInspection(ReadClaim));
    run, s := Then(run, s, ByHandoff(0, StartEvaluator(Who(12, 5))));
    run, s := Then(run, s, ByHandoff(0, Publish));
    assert Same(s, PUBLISHED_IN_TIME);
  }

  /** To publish within the grace is not enough: an inspection that read the claim just before
    * and checks the grace just after still replaces it. */
  lemma PublishedInTimeAndStillReplaced() returns (run: (seq<State>, seq<Action>), s: State)
    ensures Ends(run, s) && EvaluatorLive(s, 0) && EvaluatorLive(s, 1)
    ensures PUBLISHED_IN_TIME in run.0
    ensures PUBLISHED_IN_TIME.handoffs[0].stage == Published
    ensures PUBLISHED_IN_TIME.now < PUBLISHED_IN_TIME.handoffs[0].startedAt + GRACE
  {
    run := DriverLeaves();
    run := PublishDuringInspection(run);
    assert PUBLISHED_IN_TIME in run.0;
    run := PassChecks(run);
    run, s := ReplacePublished(run);
  }

  const PASSED_CHECKS :=
    PUBLISHED_IN_TIME.(now := 100 + GRACE, lock := Some(PUBLISHED_IN_TIME.lock.value.(look := Cleared)))

  lemma PassChecks(before: (seq<State>, seq<Action>)) returns (run: (seq<State>, seq<Action>))
    requires Ends(before, PUBLISHED_IN_TIME)
    ensures Ends(run, PASSED_CHECKS) && before.0 <= run.0
  {
    hide Ends;
    var s;
    run, s := Then(before, PUBLISHED_IN_TIME, ByInspection(CheckOwner(true)));
    run, s := Then(run, s, ByInspection(CheckGroup(true)));
    run, s := Then(run, s, ByWorld(Tick(100 + GRACE)));
    run, s := Then(run, s, ByInspection(CheckBootstrap));
    assert Same(s, PASSED_CHECKS);
  }

  lemma ReplacePublished(before: (seq<State>, seq<Action>)) returns (run: (seq<State>, seq<Action>), s: State)
    requires Ends(before, PASSED_CHECKS)
    ensures Ends(run, s) && before.0 <= run.0 && EvaluatorLive(s, 0) && EvaluatorLive(s, 1)
  {
    hide Ends;
    run, s := Then(before, PASSED_CHECKS, ByInspection(Replace(1)));
    run, s := Start(run, s, 1, Who(21, 6), Who(22, 7));
  }
}
