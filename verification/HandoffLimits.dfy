/** What each condition of the claim handoff is worth, exactly: a run that has kept them so far can be
  * continued to two live evaluators, with no condition broken any further, exactly when its last step
  * breaks one. */
module HandoffLimits {
  import opened Wrappers
  import opened EvalClaims
  import opened ClaimHandoff

  // ---- Continuations that break nothing new ----

  /** Whatever is late or straddles the end of a grace in `t` does so in `s` already. */
  ghost predicate NoNewBreach(s: State, t: State) {
    forall h :: (Late(t, h) ==> Late(s, h)) && (Straddles(t, h) ==> Straddles(s, h))
  }

  ghost predicate IsPath(states: seq<State>, actions: seq<Action>) {
    && |states| == |actions| + 1
    && (forall k :: 0 <= k < |states| ==> NoNewBreach(states[0], states[k]))
    && forall k :: 0 <= k < |actions| ==>
         Enabled(states[k], actions[k]) && states[k + 1] == Apply(states[k], actions[k])
         && Orderly(states[k], actions[k])
  }

  ghost predicate Leads(s: State, t: State) {
    exists states, actions :: IsPath(states, actions) && states[0] == s && states[|actions|] == t
  }

  /** Two evaluator groups are live for the one task. */
  ghost predicate TwoEvaluate(s: State) {
    exists x, y :: x != y && EvaluatorLive(s, x) && EvaluatorLive(s, y)
  }

  /** With every further step orderly, and no further handoff late or grace straddled, at most one
    * evaluator is live. */
  ghost predicate Safe(s: State) {
    forall t :: Leads(s, t) ==> !TwoEvaluate(t)
  }

  lemma LeadsNowhere(s: State)
    ensures Leads(s, s)
  {
    assert IsPath([s], []);
  }

  lemma LeadsOn(s: State, t: State, a: Action)
    requires Leads(s, t) && Enabled(t, a) && Orderly(t, a) && NoNewBreach(s, Apply(t, a))
    ensures Leads(s, Apply(t, a))
  {
    var states, actions :| IsPath(states, actions) && states[0] == s && states[|actions|] == t;
    var longer, more := states + [Apply(t, a)], actions + [a];
    hide Enabled, Apply, Orderly, NoNewBreach;
    forall k | 0 <= k < |more|
      ensures Enabled(longer[k], more[k]) && longer[k + 1] == Apply(longer[k], more[k]) && Orderly(longer[k], more[k])
    {
      if k < |actions| {
        assert longer[k] == states[k] && longer[k + 1] == states[k + 1] && more[k] == actions[k];
      }
    }
    forall k | 0 <= k < |longer| ensures NoNewBreach(longer[0], longer[k]) {
      if k < |states| {
        assert longer[k] == states[k];
      }
    }
    assert IsPath(longer, more);
  }

  lemma LeadsUnbroken(s: State, t: State)
    requires Leads(s, t)
    ensures NoNewBreach(s, t)
  {
  }

  // ---- Without a breach ----

  lemma {:induction false} PathKeepsInv(states: seq<State>, actions: seq<Action>, k: nat)
    requires IsPath(states, actions) && k < |states| && Inv(states[0]) && Timely(states[0])
    ensures Inv(states[k]) && Timely(states[k])
  {
    StaysTimely(states[0], states[k]);
    if k > 0 {
      PathKeepsInv(states, actions, k - 1);
      hide Inv, Timely, Enabled, Apply, Orderly;
      StepKeepsInv(states[k - 1], actions[k - 1]);
    }
  }

  lemma StaysTimely(s: State, t: State)
    requires Timely(s) && NoNewBreach(s, t)
    ensures Timely(t)
  {
  }

  /** A state that keeps the conditions stays safe. */
  lemma ConformingIsSafe(s: State)
    requires Inv(s) && Timely(s)
    ensures Safe(s)
  {
    forall t | Leads(s, t) ensures !TwoEvaluate(t) {
      var states, actions :| IsPath(states, actions) && states[0] == s && states[|actions|] == t;
      PathKeepsInv(states, actions, |actions|);
      hide IsPath, Timely;
      OnlyOneEvaluates(t);
    }
  }

  lemma OnlyOneEvaluates(s: State)
    requires Inv(s)
    ensures !TwoEvaluate(s)
  {
    forall x | EvaluatorLive(s, x) ensures Busy(s, x) {
    }
  }

  // ---- States that can be continued ----

  /** A wrapper is not the driver that started it. */
  predicate Apart(o: Handoff) {
    o.stage == Driving || o.stage == Abandoned || o.wrapper.id != o.driver.id
  }

  /** The live group with this number is that of a handoff. */
  ghost predicate Owned(s: State, pid: int) {
    exists h :: EvaluatorLive(s, h) && s.handoffs[h].group.pid == pid
  }

  ghost predicate Sane(s: State) {
    && PidInv(s) && s.now > 0
    && (forall h :: h in s.handoffs ==> Apart(s.handoffs[h]))
    && forall p :: p in s.groups ==> Owned(s, p)
  }

  /** Numbers, identities and handoffs from `n` on are free. */
  ghost predicate Bounded(s: State, n: nat) {
    && n > 1
    && (forall p :: p in s.alive ==> p < n)
    && (forall p :: p in s.groups ==> p < n)
    && (forall i :: i in s.used ==> i < n)
    && (forall h :: h in s.handoffs ==> h < n)
  }

  lemma StepKeepsSane(s: State, a: Action)
    requires Sane(s) && Enabled(s, a)
    ensures Sane(Apply(s, a))
  {
    PidKept(s, a);
    UsedGrows(s, a);
    StaysApart(s, a);
    StaysOwned(s, a);
  }

  lemma StaysApart(s: State, a: Action)
    requires Sane(s) && Enabled(s, a)
    ensures forall h :: h in Apply(s, a).handoffs ==> Apart(Apply(s, a).handoffs[h])
  {
    if a.ByHandoff? {
      assert KnownWho(s, s.handoffs[a.h]) && Apart(s.handoffs[a.h]);
    }
    forall h | h in Apply(s, a).handoffs ensures Apart(Apply(s, a).handoffs[h]) {
      if h in s.handoffs {
        assert Apart(s.handoffs[h]);
      }
    }
  }

  lemma StaysOwned(s: State, a: Action)
    requires Sane(s) && Enabled(s, a)
    ensures forall p :: p in Apply(s, a).groups ==> Owned(Apply(s, a), p)
  {
    var t := Apply(s, a);
    forall p | p in t.groups ensures Owned(t, p) {
      if p in s.groups && t.groups[p] == s.groups[p] {
        assert Owned(s, p);
        var h :| EvaluatorLive(s, h) && s.handoffs[h].group.pid == p;
        StillEvaluates(s, a, h);
      } else {
        assert EvaluatorLive(t, a.h);
      }
    }
  }

  lemma StillEvaluates(s: State, a: Action, h: Id)
    requires Sane(s) && Enabled(s, a) && EvaluatorLive(s, h)
    requires var p := s.handoffs[h].group.pid; p in Apply(s, a).groups && Apply(s, a).groups[p] == s.groups[p]
    ensures EvaluatorLive(Apply(s, a), h) && Apply(s, a).handoffs[h].group == s.handoffs[h].group
  {
    hide Sane;
  }

  lemma {:induction false} RunIsSane(states: seq<State>, actions: seq<Action>, k: nat) returns (n: nat)
    requires IsRun(states, actions) && k < |states|
    ensures Sane(states[k]) && Bounded(states[k], n)
  {
    if k == 0 {
      StartsInv(states[0]);
      n := StartsBounded(states[0]);
    } else {
      n := RunIsSane(states, actions, k - 1);
      assert Enabled(states[k - 1], actions[k - 1]) && states[k] == Apply(states[k - 1], actions[k - 1]);
      hide *;
      StepKeepsSane(states[k - 1], actions[k - 1]);
      n := NewBound(states[k - 1], actions[k - 1], n);
    }
  }

  lemma StartsBounded(s: State) returns (n: nat)
    requires Init(s)
    ensures Bounded(s, n)
  {
    var pids, ids := set p | p in s.alive :: Who(p, 0), set i | i in s.used :: Who(0, i);
    n := BoundOf(pids + ids);
    n := n + 2;
    forall p | p in s.alive ensures p < n {
      assert Who(p, 0) in pids;
    }
    forall i | i in s.used ensures i < n {
      assert Who(0, i) in ids;
    }
  }

  lemma {:induction false} BoundOf(who: set<Who>) returns (n: nat)
    ensures forall w :: w in who ==> w.pid < n && w.id < n
  {
    n := 0;
    if who != {} {
      var last :| last in who;
      n := BoundOf(who - {last});
      n := Beyond(Beyond(n, last.pid), last.id);
    }
  }

  function Beyond(n: nat, x: int): nat {
    if x < n then n else x + 1
  }

  lemma NewBound(s: State, a: Action, m: nat) returns (n: nat)
    requires Enabled(s, a) && Bounded(s, m)
    ensures Bounded(Apply(s, a), n)
  {
    var added := Added(a);
    n := Beyond(Beyond(m, added.pid), added.id);
    hide WorldEnabled, WorldApply, InspectEnabled, InspectApply, HandEnabled, HandApply, Bounded;
    match a
    case ByWorld(step) => BoundByWorld(s, step, m, n);
    case ByInspection(step) => BoundByInspection(s, step, m, n);
    case ByHandoff(h, step) => BoundByHandoff(s, h, step, m, n);
  }

  /** The number, identity or handoff that a step brings in. */
  function Added(a: Action): Who {
    match a
    case ByWorld(Spawn(w)) => w
    case ByHandoff(_, StartWrapper(w)) => w
    case ByHandoff(_, StartEvaluator(w)) => w
    case ByInspection(Replace(h)) => Who(0, h)
    case _ => Who(0, 0)
  }

  lemma BoundByWorld(s: State, step: WorldStep, m: nat, n: nat)
    requires WorldEnabled(s, step) && Bounded(s, m)
    requires m <= n && Added(ByWorld(step)).pid < n && Added(ByWorld(step)).id < n
    ensures Bounded(WorldApply(s, step), n)
  {
  }

  lemma BoundByInspection(s: State, step: InspectStep, m: nat, n: nat)
    requires InspectEnabled(s, step) && Bounded(s, m) && m <= n && Added(ByInspection(step)).id < n
    ensures Bounded(InspectApply(s, step), n)
  {
    InspectFrame(s, step);
  }

  lemma BoundByHandoff(s: State, h: Id, step: HandStep, m: nat, n: nat)
    requires HandEnabled(s, h, step) && Bounded(s, m)
    requires m <= n && Added(ByHandoff(h, step)).pid < n && Added(ByHandoff(h, step)).id < n
    ensures Bounded(HandApply(s, h, step), n)
  {
  }

  /** A state where the work goes on, reached from `o`. */
  ghost predicate Going(o: State, s: State) {
    Leads(o, s) && Sane(s)
  }

  lemma One(o: State, s: State, a: Action) returns (t: State)
    requires Going(o, s) && Enabled(s, a) && Orderly(s, a) && NoNewBreach(o, Apply(s, a))
    ensures t == Apply(s, a) && Going(o, t)
  {
    LeadsOn(o, s, a);
    StepKeepsSane(s, a);
    t := Apply(s, a);
  }

  // ---- Steps that are no breach ----

  /** Nobody inspects, and the claim is no overdue claim of a driver. */
  predicate Calm(s: State) {
    && s.lock.None?
    && (s.claim.Some? && s.claim.value.status == Claiming ==> s.now < s.claim.value.startedAt + GRACE)
  }

  lemma CalmIsTimely(o: State, s: State)
    requires Calm(s)
    ensures NoNewBreach(o, s)
  {
  }

  lemma StepToCalm(o: State, s: State, a: Action) returns (t: State)
    requires Going(o, s) && Enabled(s, a) && Orderly(s, a) && Calm(Apply(s, a))
    ensures t == Apply(s, a) && Going(o, t)
  {
    CalmIsTimely(o, Apply(s, a));
    t := One(o, s, a);
  }

  /** Nothing of what the conditions speak of comes up: processes may go, and new ones come. */
  lemma NothingComesUp(s: State, step: WorldStep, h: Id)
    requires PidInv(s) && WorldEnabled(s, step) && !step.Tick?
    requires s.lock.Some? ==> s.lock.value.driver.id in s.used
    ensures Late(WorldApply(s, step), h) ==> Late(s, h)
    ensures Straddles(WorldApply(s, step), h) ==> Straddles(s, h)
  {
    if Busy(WorldApply(s, step), h) {
      BusyKeptByWorld(s, step, h);
    }
  }

  lemma StepOfWorld(o: State, s: State, step: WorldStep) returns (t: State)
    requires Going(o, s) && WorldEnabled(s, step) && !step.Tick?
    ensures t == WorldApply(s, step) && Going(o, t)
  {
    LeadsUnbroken(o, s);
    assert RecordsInv(s);
    forall h ensures Late(WorldApply(s, step), h) ==> Late(o, h)
             ensures Straddles(WorldApply(s, step), h) ==> Straddles(o, h)
    {
      NothingComesUp(s, step, h);
    }
    t := One(o, s, ByWorld(step));
  }

  /** An inspection that has just begun straddles nothing. */
  lemma FreshLook(o: State, s: State, i: Inspection)
    requires NoNewBreach(o, s) && i.readAt == s.now
    ensures NoNewBreach(o, s.(lock := Some(i)))
  {
    var t := s.(lock := Some(i));
    forall h ensures (Late(t, h) ==> Late(s, h)) && !Straddles(t, h) {
    }
  }

  // ---- A driver takes the claim and starts an evaluator ----

  /** All checks pass on the claim as it is, when identities can be read. */
  predicate Free(s: State) {
    s.claim.Some? ==>
      var c := s.claim.value;
      && !OwnerIsActive(c, s.mtime, ProbeOf(s, s.alive, c.pid, true), s.now)
      && !ResidualGroupIsLive(c, s.mtime, ProbeOf(s, s.groups, c.pgid, true), s.now)
      && !IsBootstrapping(c, s.now)
  }

  lemma StepOfLook(o: State, s: State, base: State, step: InspectStep, i: Inspection) returns (t: State)
    requires Going(o, s) && Going(o, base) && InspectEnabled(s, step)
    requires InspectApply(s, step) == base.(lock := Some(i)) && i.readAt == base.now
    ensures t == InspectApply(s, step) && Going(o, t)
  {
    LeadsUnbroken(o, base);
    FreshLook(o, base, i);
    t := One(o, s, ByInspection(step));
  }

  lemma ReadAndCheck(o: State, s: State, d: Who) returns (t: State)
    requires Going(o, s) && s.now > 0 && s.lock.None? && Alive(s, d) && Free(s)
    ensures Going(o, t)
    ensures t == s.(lock := Some(Inspection(d, s.now, Cleared, s.claim, s.now)))
  {
    hide Going, OwnerIsActive, ResidualGroupIsLive, IsBootstrapping, ProbeOf;
    var first := if s.claim.None? then Cleared else Read;
    t := StepOfLook(o, s, s, TakeLock(d, s.now), Inspection(d, s.now, Locked, None, s.now));
    t := StepOfLook(o, t, s, ReadClaim, Inspection(d, s.now, first, s.claim, s.now));
    if s.claim.Some? {
      SameProbes(s, t);
      t := StepOfLook(o, t, s, CheckOwner(true), Inspection(d, s.now, OwnerGone, s.claim, s.now));
      SameProbes(s, t);
      t := StepOfLook(o, t, s, CheckGroup(true), Inspection(d, s.now, GroupGone, s.claim, s.now));
      t := StepOfLook(o, t, s, CheckBootstrap, Inspection(d, s.now, Cleared, s.claim, s.now));
    }
  }

  lemma SameProbes(s: State, t: State)
    requires s.alive == t.alive
    ensures forall running, pid :: ProbeOf(s, running, pid, true) == ProbeOf(t, running, pid, true)
  {
  }

  /** The handoff `n` of the driver `d` runs an evaluator. */
  function TakenOver(s: State, d: Who, n: nat): State {
    var o := Handoff(d, s.now, Evaluating, Who(n, n), Who(n + 1, n + 1), false, false);
    s.(claim := Some(DriverClaim(n, o)), mtime := s.now, handoffs := s.handoffs[n := o],
       alive := s.alive[n := n][n + 1 := n + 1], groups := s.groups[n + 1 := n + 1], used := s.used + {n, n + 1})
  }

  lemma TakeOver(o: State, s: State, d: Who, n: nat) returns (t: State)
    requires Going(o, s) && s.lock.None? && Alive(s, d) && Free(s) && Bounded(s, n)
    ensures Going(o, t) && t == TakenOver(s, d, n) && Calm(t)
  {
    assert n !in s.handoffs && s.now > 0;
    FreshFrom(s, n);
    hide Going, Free, Bounded;
    t := Inspect(o, s, d, n);
    t := Launch(o, t, n, n);
    assert t.handoffs == TakenOver(s, d, n).handoffs;
  }

  lemma Inspect(o: State, s: State, d: Who, h: Id) returns (t: State)
    requires Going(o, s) && s.now > 0 && s.lock.None? && Alive(s, d) && h !in s.handoffs && Free(s)
    ensures Going(o, t) && Calm(t)
    ensures t == s.(claim := Some(DriverClaim(h, NewHandoff(d, s.now))), mtime := s.now,
                    handoffs := s.handoffs[h := NewHandoff(d, s.now)])
  {
    hide Going, Free;
    t := ReadAndCheck(o, s, d);
    t := StepToCalm(o, t, ByInspection(Replace(h)));
  }

  lemma FreshFrom(s: State, n: nat)
    requires Bounded(s, n)
    ensures Fresh(s, Who(n, n)) && Fresh(s, Who(n + 1, n + 1))
  {
  }

  /** The driver of `h` starts its wrapper, and that its evaluator. */
  lemma Launch(o: State, s: State, h: Id, n: nat) returns (t: State)
    requires Going(o, s) && Calm(s) && Fresh(s, Who(n, n)) && Fresh(s, Who(n + 1, n + 1))
    requires h in s.handoffs && s.handoffs[h].stage == Driving && Alive(s, s.handoffs[h].driver)
    ensures Going(o, t)
    ensures t == s.(
                   handoffs := s.handoffs[h := s.handoffs[h].(
                     stage := Evaluating, wrapper := Who(n, n), group := Who(n + 1, n + 1))],
                   alive := s.alive[n := n][n + 1 := n + 1], groups := s.groups[n + 1 := n + 1],
                   used := s.used + {n, n + 1})
  {
    hide Going;
    t := LaunchWrapper(o, s, h, n);
    t := LaunchEvaluator(o, t, h, n + 1);
    assert t.handoffs == s.handoffs[h := t.handoffs[h]];
    assert t.used == s.used + {n, n + 1};
  }

  lemma LaunchWrapper(o: State, s: State, h: Id, n: nat) returns (t: State)
    requires Going(o, s) && Calm(s) && Fresh(s, Who(n, n))
    requires h in s.handoffs && s.handoffs[h].stage == Driving && Alive(s, s.handoffs[h].driver)
    ensures Going(o, t)
    ensures t == s.(handoffs := s.handoffs[h := s.handoffs[h].(stage := Wrapping, wrapper := Who(n, n))],
                    alive := s.alive[n := n], used := s.used + {n})
  {
    hide Going;
    t := StepToCalm(o, s, ByHandoff(h, StartWrapper(Who(n, n))));
  }

  lemma LaunchEvaluator(o: State, s: State, h: Id, n: nat) returns (t: State)
    requires Going(o, s) && Calm(s) && Fresh(s, Who(n, n))
    requires h in s.handoffs && s.handoffs[h].stage == Wrapping && Alive(s, s.handoffs[h].wrapper)
    ensures Going(o, t)
    ensures t == s.(handoffs := s.handoffs[h := s.handoffs[h].(stage := Evaluating, group := Who(n, n))],
                    alive := s.alive[n := n], groups := s.groups[n := n], used := s.used + {n})
  {
    hide Going;
    t := StepToCalm(o, s, ByHandoff(h, StartEvaluator(Who(n, n))));
  }

  lemma OthersGoOn(s: State, d: Who, n: nat)
    requires Bounded(s, n)
    ensures var t := TakenOver(s, d, n);
            && Bounded(t, n + 2) && EvaluatorLive(t, n)
            && (forall h :: h in s.handoffs && Busy(s, h) ==> Busy(t, h))
            && (forall h :: h in s.handoffs && EvaluatorLive(s, h) ==> EvaluatorLive(t, h))
  {
    var t := TakenOver(s, d, n);
    forall h | h in s.handoffs ensures t.handoffs[h] == s.handoffs[h] {
      assert h < n;
    }
  }

  /** A process to drive comes up. */
  lemma Hire(o: State, s: State, n: nat) returns (t: State)
    requires Going(o, s) && Bounded(s, n)
    ensures Going(o, t) && Bounded(t, n + 1) && Alive(t, Who(n, n))
    ensures t == s.(alive := s.alive[n := n], used := s.used + {n})
    ensures forall h :: Busy(s, h) ==> Busy(t, h)
    ensures forall h :: EvaluatorLive(s, h) <==> EvaluatorLive(t, h)
  {
    t := StepOfWorld(o, s, Spawn(Who(n, n)));
    hide Going;
  }

  /** Nothing on disk holds a driver back. */
  predicate Vacant(s: State) {
    s.claim.Some? ==>
      var c := s.claim.value;
      && c.pid == 0 && c.status in {Completed, Failed}
      && (c.pgid == 0 || c.pgid !in s.groups
          || (c.pgid in s.alive && c.leader.Some? && s.alive[c.pgid] != c.leader.value))
  }

  lemma VacantIsFree(s: State)
    requires Sane(s) && Vacant(s)
    ensures Free(s)
  {
    assert 0 !in s.alive && 0 !in s.groups;
  }

  /** Another driver takes the vacant claim; whatever else is busy or live stays so. */
  lemma Enter(o: State, s: State, n: nat) returns (t: State)
    requires Going(o, s) && Bounded(s, n) && s.lock.None? && Vacant(s)
    ensures Going(o, t) && Calm(t) && Bounded(t, n + 3) && t.now == s.now
    ensures EvaluatorLive(t, n + 1) && n + 1 !in s.handoffs
    ensures forall h :: h in s.handoffs && Busy(s, h) ==> Busy(t, h)
    ensures forall h :: h in s.handoffs && EvaluatorLive(s, h) ==> EvaluatorLive(t, h)
  {
    t := Hire(o, s, n);
    StaysVacant(s, t, n);
    VacantIsFree(t);
    hide Going, Free, Busy, EvaluatorLive;
    OthersGoOn(t, Who(n, n), n + 1);
    t := TakeOver(o, t, Who(n, n), n + 1);
  }

  lemma StaysVacant(s: State, t: State, n: nat)
    requires Vacant(s) && Bounded(s, n) && t == s.(alive := s.alive[n := n], used := s.used + {n})
    ensures Vacant(t)
  {
  }

  // ---- Two busy handoffs become two evaluators ----

  lemma BothEvaluate(o: State, s: State, h: Id, g: Id, n: nat) returns (t: State)
    requires Going(o, s) && Bounded(s, n) && Calm(s)
    requires Busy(s, h) && EvaluatorLive(s, g) && h != g
    ensures Leads(o, t) && TwoEvaluate(t)
  {
    t := s;
    var stage := s.handoffs[h].stage;
    if EvaluatorLive(s, h) {
    } else if stage == Wrapping {
      FreshFrom(s, n);
      t := LaunchEvaluator(o, s, h, n);
      assert EvaluatorLive(t, h) && EvaluatorLive(t, g);
    } else {
      t := GiveUp(o, s, h, g);
      t := Enter(o, t, n);
      assert g != n + 1 && EvaluatorLive(t, g) && EvaluatorLive(t, n + 1);
    }
  }

  /** A driver that cannot start its wrapper, or a wrapper whose evaluator is gone, makes the claim vacant
    * over the evaluator of `g`. */
  lemma GiveUp(o: State, s: State, h: Id, g: Id) returns (t: State)
    requires Going(o, s) && Calm(s) && Busy(s, h) && s.handoffs[h].stage != Wrapping && !EvaluatorLive(s, h)
    requires EvaluatorLive(s, g) && h != g
    ensures Going(o, t) && t.lock.None? && Vacant(t) && EvaluatorLive(t, g)
    ensures forall n :: Bounded(s, n) ==> Bounded(t, n)
  {
    hide Going;
    var step := if s.handoffs[h].stage == Driving then DriverFails else Settle(true, true, false);
    t := StepToCalm(o, s, ByHandoff(h, step));
  }

  lemma Release(o: State, s: State) returns (t: State)
    requires Going(o, s) && (forall h :: Late(s, h) ==> Late(o, h))
    ensures Going(o, t) && t == s.(lock := None)
  {
    t := s;
    if s.lock.Some? {
      forall h ensures !Straddles(s.(lock := None), h) && (Late(s.(lock := None), h) ==> Late(s, h)) {
      }
      t := One(o, s, ByInspection(DropLock));
    }
  }

  // ---- A handoff that is late ----

  /** The driver that the claim names is gone. */
  lemma LoseDriver(o: State, s: State, h: Id) returns (t: State)
    requires Going(o, s) && h in s.handoffs
    ensures Going(o, t) && !Alive(t, s.handoffs[h].driver)
    ensures t == s || t == s.(alive := Without(s.alive, s.handoffs[h].driver.pid))
    ensures s.handoffs[h].stage != Driving && Busy(s, h) ==> Busy(t, h)
    ensures forall w :: Alive(s, w) && w != s.handoffs[h].driver ==> Alive(t, w)
    ensures forall n :: Bounded(s, n) ==> Bounded(t, n)
  {
    t := s;
    var driver := s.handoffs[h].driver;
    assert Apart(s.handoffs[h]);
    if Alive(s, driver) {
      t := StepOfWorld(o, s, Die(driver.pid));
    }
  }

  lemma GoingIsSane(o: State, s: State)
    requires Going(o, s)
    ensures Sane(s)
  {
  }

  lemma OverdueIsFree(s: State, t: State, h: Id, n: nat)
    requires Sane(s) && Bounded(s, n) && h in s.handoffs
    requires s.claim == Some(DriverClaim(h, s.handoffs[h])) && !Alive(s, s.handoffs[h].driver)
    requires s.now >= s.handoffs[h].startedAt + GRACE
    requires t == s.(alive := s.alive[n := n], used := s.used + {n})
    ensures Free(t)
  {
    assert KnownWho(s, s.handoffs[h]);
  }

  /** A late handoff is replaced while it is busy. */
  lemma LateIsUnsafe(s: State, h: Id, n: nat) returns (t: State)
    requires Sane(s) && Bounded(s, n) && Late(s, h)
    ensures Leads(s, t) && TwoEvaluate(t)
  {
    LeadsNowhere(s);
    assert h < n;
    t := Release(s, s);
    assert Busy(t, h) && t.handoffs[h].stage != Driving;
    hide Going, Leads, Bounded;
    t := LoseDriver(s, t, h);
    assert Going(s, t);
    var alone := t;
    GoingIsSane(s, t);
    t := Hire(s, t, n);
    OverdueIsFree(alone, t, h, n);
    OthersGoOn(t, Who(n, n), n + 1);
    t := TakeOver(s, t, Who(n, n), n + 1);
    t := BothEvaluate(s, t, h, n + 1, n + 3);
  }

  // ---- An inspection across the end of a grace ----

  lemma StraddleIsUnsafe(s: State, h: Id, n: nat) returns (t: State)
    requires Sane(s) && Bounded(s, n) && Straddles(s, h)
    ensures Leads(s, t) && TwoEvaluate(t)
  {
    LeadsNowhere(s);
    t := LoseDriver(s, s, h);
    assert Bounded(t, n) && Busy(t, h) && h in t.handoffs && t.handoffs == s.handoffs && t.now == s.now;
    assert t.lock == s.lock && s.lock.Some? && Alive(t, t.lock.value.driver);
    hide *;
    t := PassOverdue(s, t, h);
    assert t.handoffs == s.handoffs;
    t := StepAside(s, t);
    t := EnterBeside(s, t, h, n);
  }

  /** Beside a busy handoff another driver takes the vacant claim, and two evaluators come of it. */
  lemma EnterBeside(o: State, s: State, h: Id, n: nat) returns (t: State)
    requires Going(o, s) && Bounded(s, n) && s.lock.None? && Vacant(s) && Busy(s, h)
    ensures Leads(o, t) && TwoEvaluate(t)
  {
    assert h in s.handoffs;
    hide *;
    t := Enter(o, s, n);
    t := BothEvaluate(o, t, h, n + 1, n + 3);
  }

  lemma Further(o: State, s: State, h: Id, step: InspectStep, look: Look) returns (t: State)
    requires Going(o, s) && InspectEnabled(s, step) && s.lock.Some?
    requires s.lock.value.look in {Read, OwnerGone, GroupGone}
    requires InspectApply(s, step) == s.(lock := Some(s.lock.value.(look := look)))
    ensures t == InspectApply(s, step) && Going(o, t)
  {
    LeadsUnbroken(o, s);
    var next := InspectApply(s, step);
    forall x ensures (Late(next, x) ==> Late(s, x)) && (Straddles(next, x) ==> Straddles(s, x)) {
    }
    t := One(o, s, ByInspection(step));
  }

  lemma PassOverdue(o: State, s: State, h: Id) returns (t: State)
    requires Going(o, s) && h in s.handoffs && !Alive(s, s.handoffs[h].driver)
    requires s.lock.Some? && s.lock.value.look in {Read, OwnerGone, GroupGone} && Alive(s, s.lock.value.driver)
    requires s.lock.value.seen == Some(DriverClaim(h, s.handoffs[h]))
    requires s.now >= s.handoffs[h].startedAt + GRACE
    ensures Going(o, t) && t == s.(lock := Some(s.lock.value.(look := Cleared)))
  {
    hide Going;
    t := s;
    if t.lock.value.look == Read {
      t := Further(o, t, h, CheckOwner(true), OwnerGone);
    }
    if t.lock.value.look == OwnerGone {
      t := Further(o, t, h, CheckGroup(true), GroupGone);
    }
    t := Further(o, t, h, CheckBootstrap, Cleared);
  }

  /** The inspector unlinks what it takes for stale and dies. */
  lemma StepAside(o: State, s: State) returns (t: State)
    requires Going(o, s) && s.lock.Some? && s.lock.value.look == Cleared && Alive(s, s.lock.value.driver)
    ensures Going(o, t) && t == s.(claim := None, mtime := s.now, lock := None)
  {
    var bare := InspectApply(s, UnlinkStale);
    forall x ensures !Late(bare, x) && !Straddles(bare, x) {
    }
    t := One(o, s, ByInspection(UnlinkStale));
    t := StepToCalm(o, t, ByInspection(DropLock));
  }

  // ---- A disorderly final claim ----

  /** A final claim is no driver's claim. */
  lemma FinalIsNotLate(s: State)
    requires s.claim.Some? && s.claim.value.status != Claiming
    ensures forall h :: !Late(s, h)
  {
  }

  lemma SettleIsUnsafe(s: State, h: Id, again: bool, n: nat) returns (t: State)
    requires Sane(s) && Bounded(s, n)
    requires var a := ByHandoff(h, Settle(false, false, again)); Enabled(s, a) && !Orderly(s, a)
    ensures Leads(Apply(s, ByHandoff(h, Settle(false, false, again))), t) && TwoEvaluate(t)
  {
    var a := ByHandoff(h, Settle(false, false, again));
    var o := Apply(s, a);
    StepKeepsSane(s, a);
    assert Bounded(o, n) && EvaluatorLive(o, h) && Vacant(o);
    FinalIsNotLate(o);
    LeadsNowhere(o);
    t := Release(o, o);
    t := Enter(o, t, n);
    assert h != n + 1 && EvaluatorLive(t, h) && EvaluatorLive(t, n + 1);
  }

  /** After a disorderly rewrite the claim is vacant, or becomes so when a group ends that the busy
    * wrapper outlives. */
  lemma RewrittenIsVacant(s: State, h: Id, quiesced: bool, g: Id)
    requires Sane(s) && OneBusy(s) && HandEnabled(s, h, Rewrite(quiesced)) && Busy(s, g) && g != h
    requires !Shields(s, RewrittenClaim(h, s.handoffs[h], quiesced, s.now), s.handoffs[g])
    ensures var o := HandApply(s, h, Rewrite(quiesced));
            var pgid := o.claim.value.pgid;
            Vacant(o) || (pgid in o.groups && pgid !in o.alive
                          && s.handoffs[g].stage in {Evaluating, Published} && Alive(s, s.handoffs[g].wrapper))
  {
    assert GroupLive(s, s.handoffs[h].group) ==> Busy(s, h);
    var n := s.handoffs[h].group.pid;
    if n in s.groups && n !in s.alive {
      assert Owned(s, n);
      var x :| EvaluatorLive(s, x) && s.handoffs[x].group.pid == n;
      assert Busy(s, x);
      assert x == g;
    }
  }

  lemma RewriteIsUnsafe(s: State, h: Id, quiesced: bool, n: nat) returns (t: State)
    requires Sane(s) && OneBusy(s) && Bounded(s, n)
    requires var a := ByHandoff(h, Rewrite(quiesced)); Enabled(s, a) && !Orderly(s, a)
    ensures Leads(Apply(s, ByHandoff(h, Rewrite(quiesced))), t) && TwoEvaluate(t)
  {
    var a := ByHandoff(h, Rewrite(quiesced));
    var o := Apply(s, a);
    var g :| Busy(s, g) && g != h && !Shields(s, RewrittenClaim(h, s.handoffs[h], quiesced, s.now), s.handoffs[g]);
    StepKeepsSane(s, a);
    RewrittenIsVacant(s, h, quiesced, g);
    OthersAfterRewrite(s, h, quiesced, g, n);
    hide Sane, OneBusy, Orderly, Enabled, Apply, Shields, Bounded;
    FinalIsNotLate(o);
    LeadsNowhere(o);
    hide Vacant, Busy, Leads;
    t := Release(o, o);
    if !Vacant(o) {
      t := EndGroup(o, t, g, t.claim.value.pgid);
    }
    t := EnterBeside(o, t, g, n);
  }

  lemma OthersAfterRewrite(s: State, h: Id, quiesced: bool, g: Id, n: nat)
    requires HandEnabled(s, h, Rewrite(quiesced)) && Bounded(s, n) && Busy(s, g) && g != h
    ensures var o := HandApply(s, h, Rewrite(quiesced));
            && Bounded(o, n) && Busy(o, g) && g in o.handoffs && o.handoffs[g] == s.handoffs[g]
            && o.alive == s.alive && o.claim.Some? && o.claim.value.pid == 0
            && o.claim.value.status in {Completed, Failed}
  {
  }

  lemma EndGroup(o: State, s: State, g: Id, pgid: int) returns (t: State)
    requires Going(o, s) && pgid in s.groups && pgid !in s.alive && s.claim.Some?
    requires s.claim.value.pid == 0 && s.claim.value.status in {Completed, Failed} && s.claim.value.pgid == pgid
    requires g in s.handoffs && s.handoffs[g].stage in {Evaluating, Published} && Alive(s, s.handoffs[g].wrapper)
    ensures Going(o, t) && t.lock == s.lock && Vacant(t) && Busy(t, g)
    ensures t.handoffs == s.handoffs && forall n :: Bounded(s, n) ==> Bounded(t, n)
  {
    t := StepOfWorld(o, s, GroupDies(pgid));
    hide Going;
  }

  // ---- The conditions, exactly ----

  /** A run that has kept the conditions up to its last step stays safe, whatever dies and whoever
    * else comes, as long as nothing new is broken, exactly when that step is orderly and leaves no
    * handoff late and no grace straddled. */
  lemma SafeExactly(states: seq<State>, actions: seq<Action>, k: nat)
    requires IsRun(states, actions) && k < |actions|
    requires IsTimelyRun(states[..k + 1], actions[..k])
    ensures Safe(states[k + 1]) <==> Orderly(states[k], actions[k]) && Timely(states[k + 1])
  {
    var s, a, o := states[k], actions[k], states[k + 1];
    TimelyRunKeepsInv(states[..k + 1], actions[..k], k);
    assert states[..k + 1][k] == s && Enabled(s, a) && o == Apply(s, a) && Timely(states[..k + 1][k]);
    var n := RunIsSane(states, actions, k);
    hide IsRun, IsTimelyRun;
    if !Orderly(s, a) {
      DisorderIsUnsafe(s, a, n);
    } else if !Timely(o) {
      StepKeepsSane(s, a);
      var m := NewBound(s, a, n);
      BreachIsUnsafe(o, m);
    } else {
      StepKeepsInv(s, a);
      ConformingIsSafe(o);
    }
  }

  ghost predicate NoneLate(s: State) {
    forall h :: !Late(s, h)
  }

  ghost predicate NoneStraddled(s: State) {
    forall h :: !Straddles(s, h)
  }

  /** The step before was orderly and no grace is straddled: safe exactly when no handoff is late. */
  lemma LateExactly(states: seq<State>, actions: seq<Action>, k: nat)
    requires IsRun(states, actions) && k < |actions|
    requires IsTimelyRun(states[..k + 1], actions[..k]) && Orderly(states[k], actions[k])
    requires NoneStraddled(states[k + 1])
    ensures Safe(states[k + 1]) <==> NoneLate(states[k + 1])
  {
    SafeExactly(states, actions, k);
    hide Safe, Late, Straddles, IsRun, IsTimelyRun, Orderly;
  }

  /** Likewise when no handoff is late: safe exactly when no inspection straddles the end of a grace. */
  lemma StraddleExactly(states: seq<State>, actions: seq<Action>, k: nat)
    requires IsRun(states, actions) && k < |actions|
    requires IsTimelyRun(states[..k + 1], actions[..k]) && Orderly(states[k], actions[k])
    requires NoneLate(states[k + 1])
    ensures Safe(states[k + 1]) <==> NoneStraddled(states[k + 1])
  {
    SafeExactly(states, actions, k);
    hide Safe, Late, Straddles, IsRun, IsTimelyRun, Orderly;
  }

  /** A final claim leaves no handoff late and no new grace straddled. */
  lemma FinalStaysTimely(s: State, h: Id, step: HandStep)
    requires PidInv(s) && Timely(s) && HandEnabled(s, h, step) && (step.Settle? || step.Rewrite?)
    ensures Timely(HandApply(s, h, step))
  {
    var t := HandApply(s, h, step);
    forall x ensures !Late(t, x) && !Straddles(t, x) {
      assert !Straddles(s, x);
      if Busy(t, x) {
        BusyKeptByHandoff(s, h, step, x);
      }
    }
  }

  /** A final claim that never named its evaluator is safe exactly when that evaluator is gone. */
  lemma SettleExactly(states: seq<State>, actions: seq<Action>, k: nat, h: Id, again: bool)
    requires IsRun(states, actions) && k < |actions| && IsTimelyRun(states[..k + 1], actions[..k])
    requires actions[k] == ByHandoff(h, Settle(false, false, again))
    ensures h in states[k].handoffs
    ensures Safe(states[k + 1]) <==> !GroupLive(states[k], states[k].handoffs[h].group)
  {
    SafeExactly(states, actions, k);
    FinalClaimIsTimely(states, actions, k);
    hide Safe, IsRun, IsTimelyRun, Timely, GroupLive;
  }

  lemma FinalClaimIsTimely(states: seq<State>, actions: seq<Action>, k: nat)
    requires IsRun(states, actions) && k < |actions| && IsTimelyRun(states[..k + 1], actions[..k])
    requires actions[k].ByHandoff? && (actions[k].hand.Settle? || actions[k].hand.Rewrite?)
    ensures Enabled(states[k], actions[k]) && states[k + 1] == Apply(states[k], actions[k]) && Timely(states[k + 1])
  {
    TimelyRunKeepsInv(states[..k + 1], actions[..k], k);
    assert states[..k + 1][k] == states[k] && Timely(states[..k + 1][k]);
    assert Enabled(states[k], actions[k]) && states[k + 1] == Apply(states[k], actions[k]);
    hide IsRun, IsTimelyRun, Timely, PidInv;
    FinalStaysTimely(states[k], actions[k].h, actions[k].hand);
  }

  /** A final claim written again is safe exactly when no other handoff is busy, or the claim happens to
    * shield it. */
  lemma RewriteExactly(states: seq<State>, actions: seq<Action>, k: nat, h: Id, quiesced: bool)
    requires IsRun(states, actions) && k < |actions| && IsTimelyRun(states[..k + 1], actions[..k])
    requires actions[k] == ByHandoff(h, Rewrite(quiesced))
    ensures states[k + 1].claim.Some?
    ensures Safe(states[k + 1]) <==>
              forall g :: Busy(states[k], g) && g != h ==>
                Shields(states[k], states[k + 1].claim.value, states[k].handoffs[g])
  {
    SafeExactly(states, actions, k);
    FinalClaimIsTimely(states, actions, k);
    hide Safe, IsRun, IsTimelyRun, Timely, Busy, Shields;
  }

  lemma DisorderIsUnsafe(s: State, a: Action, n: nat)
    requires Sane(s) && Inv(s) && Bounded(s, n) && Enabled(s, a) && !Orderly(s, a)
    ensures !Safe(Apply(s, a))
  {
    var t;
    if a.hand.Settle? {
      t := SettleIsUnsafe(s, a.h, a.hand.again, n);
    } else {
      t := RewriteIsUnsafe(s, a.h, a.hand.quiesced, n);
    }
  }

  lemma BreachIsUnsafe(s: State, n: nat)
    requires Sane(s) && Bounded(s, n) && !Timely(s)
    ensures !Safe(s)
  {
    var h :| Late(s, h) || Straddles(s, h);
    var t;
    if Late(s, h) {
      t := LateIsUnsafe(s, h, n);
    } else {
      t := StraddleIsUnsafe(s, h, n);
    }
  }
}
