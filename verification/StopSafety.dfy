/** When a stop of the container process guard keeps its promise: from which states nothing can be
  * alive once it has returned 0 and no cancel marker is removed any more, exactly. */
module StopSafety {
  import opened Wrappers
  import opened ProcessGuard

  // ---- Continuations without a removal of the cancel marker ----

  ghost predicate IsPath(states: seq<State>, actions: seq<Action>) {
    && |states| == |actions| + 1
    && forall k :: 0 <= k < |actions| ==>
         Enabled(states[k], actions[k]) && states[k + 1] == Apply(states[k], actions[k]) && !Clears(actions[k])
  }

  ghost predicate Leads(s: State, t: State) {
    exists states, actions :: IsPath(states, actions) && states[0] == s && states[|actions|] == t
  }

  lemma LeadsNowhere(s: State)
    ensures Leads(s, s)
  {
    assert IsPath([s], []);
  }

  lemma LeadsOn(s: State, t: State, a: Action)
    requires Leads(s, t) && Enabled(t, a) && !Clears(a)
    ensures Leads(s, Apply(t, a))
  {
    var states, actions :| IsPath(states, actions) && states[0] == s && states[|actions|] == t;
    var longer, more := states + [Apply(t, a)], actions + [a];
    hide Enabled, Apply, Clears;
    forall k | 0 <= k < |more|
      ensures Enabled(longer[k], more[k]) && longer[k + 1] == Apply(longer[k], more[k]) && !Clears(more[k])
    {
      if k < |actions| {
        assert longer[k] == states[k] && longer[k + 1] == states[k + 1] && more[k] == actions[k];
      }
    }
    assert IsPath(longer, more);
  }

  /** Whenever the stop `p` has returned 0, nothing guarded is alive, until some cancel marker is removed. */
  ghost predicate Safe(s: State, p: Id) {
    forall t, c :: Leads(s, t) && CallAt(t, p, Finished) ==> !Live(t, c)
  }

  /** The owner marker is incomplete and its writer is dead: nobody can remove it or run beside it. */
  predicate Stuck(s: State) {
    s.pidfile.Partial? && s.pidfile.child in s.procs && s.procs[s.pidfile.child] == Gone
  }

  /** Calls before or after their locked part do not hold the lock. */
  predicate Unlocked(pc: Pc) {
    pc in {Begin, Creating, Marked, Waiting, Finished} || pc.Relock?
  }

  ghost predicate Sane(s: State) {
    Inv(s) && forall q :: HoldsRightly(s, q)
  }

  predicate HoldsRightly(s: State, q: Id) {
    q in s.lock && q in s.procs && s.procs[q].Call? ==> !Unlocked(s.procs[q].pc)
  }

  lemma StepKeepsSane(s: State, a: Action)
    requires Sane(s) && Enabled(s, a)
    ensures Sane(Apply(s, a))
  {
    StepKeepsInv(s, a);
    LocksStayRight(s, a);
  }

  lemma LocksStayRight(s: State, a: Action)
    requires Sane(s) && Enabled(s, a)
    ensures forall q :: HoldsRightly(Apply(s, a), q)
  {
    assert LockInv(s);
    assert s.lock <= s.procs.Keys;
    hide Inv, LockInv, HoldsRightly, CallEnabled, ChildEnabled, CallApply, ChildApply;
    forall q ensures HoldsRightly(Apply(s, a), q) {
      match a
      case ByCall(p, step) => RightByCall(s, p, step, q);
      case ByChild(c, step) => RightByChild(s, c, step, q);
    }
  }

  lemma RightByCall(s: State, p: Id, step: Step, q: Id)
    requires CallEnabled(s, p, step) && s.lock <= s.procs.Keys && HoldsRightly(s, p) && HoldsRightly(s, q)
    ensures HoldsRightly(CallApply(s, p, step), q)
  {
  }

  lemma RightByChild(s: State, c: Id, step: ChildStep, q: Id)
    requires ChildEnabled(s, c, step) && HoldsRightly(s, q)
    ensures HoldsRightly(ChildApply(s, c, step), q)
  {
  }

  ghost predicate Bounded(s: State, n: Id) {
    forall q :: q in s.procs ==> q < n
  }

  lemma {:induction false} RunIsSane(states: seq<State>, actions: seq<Action>, k: nat) returns (n: Id)
    requires IsRun(states, actions) && k < |states|
    ensures Sane(states[k]) && Bounded(states[k], n)
  {
    if k == 0 {
      n := 0;
    } else {
      var m := RunIsSane(states, actions, k - 1);
      var a := actions[k - 1];
      StepKeepsSane(states[k - 1], a);
      n := NewBound(states[k - 1], a, m);
    }
  }

  lemma NewBound(s: State, a: Action, m: Id) returns (n: Id)
    requires Enabled(s, a) && Bounded(s, m)
    ensures Bounded(Apply(s, a), n)
  {
    var added := if a.ByCall? && a.step.Fork? then a.step.c else if a.ByCall? then a.p else 0;
    n := if added < m then m else added + 1;
  }

  // ---- Safe states ----

  lemma {:induction false} PathKeeps(states: seq<State>, actions: seq<Action>, p: Id, k: nat)
    requires IsPath(states, actions) && k < |states| && Inv(states[0])
    requires states[0].cancel.Some? && Stopping(states[0], p) && IsStop(states[0], p)
    ensures Inv(states[k]) && states[k].cancel.Some? && Stopping(states[k], p) && IsStop(states[k], p)
  {
    if k > 0 {
      PathKeeps(states, actions, p, k - 1);
      hide Inv, Enabled, Apply, Stopping, Clears;
      StepKeepsInv(states[k - 1], actions[k - 1]);
      CancelStays(states[k - 1], actions[k - 1]);
      StepKeepsStopping(states[k - 1], actions[k - 1], p);
      CallComesFrom(states[k - 1], actions[k - 1], p);
    }
  }

  /** The call `p` is a stop, or has ended before it returned. */
  predicate IsStop(s: State, p: Id) {
    p in s.procs && (s.procs[p].Call? ==> s.procs[p].kind == Stop)
  }

  lemma GuardedIsSafe(s: State, p: Id)
    requires Inv(s) && s.cancel.Some? && Stopping(s, p) && IsStop(s, p)
    ensures Safe(s, p)
  {
    forall t, c | Leads(s, t) && CallAt(t, p, Finished) ensures !Live(t, c) {
      var states, actions :| IsPath(states, actions) && states[0] == s && states[|actions|] == t;
      PathKeeps(states, actions, p, |actions|);
    }
  }

  lemma StuckStays(s: State, a: Action)
    requires Inv(s) && Stuck(s) && Enabled(s, a)
    ensures Stuck(Apply(s, a))
  {
    var c := s.pidfile.child;
    assert a.ByCall? ==> Sound(s, a.p);
  }

  lemma {:induction false} PathStaysStuck(states: seq<State>, actions: seq<Action>, k: nat)
    requires IsPath(states, actions) && k < |states| && Inv(states[0]) && Stuck(states[0])
    ensures Inv(states[k]) && Stuck(states[k])
  {
    if k > 0 {
      PathStaysStuck(states, actions, k - 1);
      hide Inv, Enabled, Apply, Stuck;
      StepKeepsInv(states[k - 1], actions[k - 1]);
      StuckStays(states[k - 1], actions[k - 1]);
    }
  }

  lemma LiveIsRecorded(s: State, c: Id)
    requires Inv(s) && Live(s, c)
    ensures s.pidfile == Full(c)
  {
  }

  lemma StuckIsSafe(s: State, p: Id)
    requires Inv(s) && Stuck(s)
    ensures Safe(s, p)
  {
    forall t, c | Leads(s, t) && CallAt(t, p, Finished) ensures !Live(t, c) {
      var states, actions :| IsPath(states, actions) && states[0] == s && states[|actions|] == t;
      PathStaysStuck(states, actions, |actions|);
      if Live(t, c) {
        LiveIsRecorded(t, c);
      }
    }
  }

  // ---- Ending everything else ----

  /** Nothing of `q` moves any more. */
  predicate Over(s: State, q: Id) {
    (q in s.procs ==> s.procs[q] == Gone || (s.procs[q].Call? && s.procs[q].pc == Finished)) && q !in s.others
  }

  /** From `s` to `t` only `q` has changed; an incomplete owner marker of it is complete now. */
  ghost predicate OnlyChanges(s: State, t: State, q: Id) {
    && t.procs.Keys == s.procs.Keys
    && (forall r :: r != q && r in s.procs ==> t.procs[r] == s.procs[r])
    && (forall r :: r != q ==> (r in t.others <==> r in s.others))
    && (forall r :: r != q ==> (r in t.lock <==> r in s.lock))
    && t.cancel == s.cancel
    && (t.pidfile == s.pidfile || (s.pidfile == Partial(q) && t.pidfile == Full(q)))
  }

  lemma EndProcess(o: State, s: State, q: Id) returns (t: State)
    requires Leads(o, s) && Sane(s) && !Stuck(s) && q in s.procs
    ensures Leads(o, t) && Sane(t) && !Stuck(t) && OnlyChanges(s, t, q)
    ensures t.procs[q] == Gone || (t.procs[q].Call? && t.procs[q].pc == Finished)
  {
    t := s;
    if s.procs[q].Call? && s.procs[q].pc != Finished {
      t := One(o, s, ByCall(q, End));
    } else if s.procs[q].Child? {
      if s.procs[q].at == Writing {
        t := One(o, s, ByChild(q, FillRecord));
      }
      NotMidWrite(t, q);
      t := One(o, t, ByChild(q, Die));
    }
  }

  lemma NotMidWrite(s: State, q: Id)
    requires Inv(s) && q in s.procs && s.procs[q].Child? && s.procs[q].at != Writing
    ensures s.pidfile != Partial(q)
  {
  }

  lemma One(o: State, s: State, a: Action) returns (t: State)
    requires Leads(o, s) && Sane(s) && Enabled(s, a) && !Clears(a)
    ensures t == Apply(s, a) && Leads(o, t) && Sane(t)
  {
    LeadsOn(o, s, a);
    StepKeepsSane(s, a);
    t := Apply(s, a);
  }

  lemma Quieten(o: State, s: State, q: Id) returns (t: State)
    requires Leads(o, s) && Sane(s) && !Stuck(s) && q in s.procs
    ensures Leads(o, t) && Sane(t) && !Stuck(t) && OnlyChanges(s, t, q) && Over(t, q)
  {
    t := EndProcess(o, s, q);
    if q in t.others {
      t := One(o, t, ByChild(q, MembersDie));
    }
  }

  /** The processes that are left are `p`, the session `d` if there is one, and ended ones. */
  ghost predicate QuietBelow(s: State, p: Id, d: Option<Id>, k: Id) {
    forall q :: q < k && q in s.procs && q != p && Some(q) != d ==> Over(s, q)
  }

  /** What the quiet leaves as it was. */
  ghost predicate Kept(s: State, t: State, p: Id, d: Option<Id>) {
    && t.procs.Keys == s.procs.Keys
    && p in s.procs && t.procs[p] == s.procs[p] && (p in t.lock <==> p in s.lock)
    && t.cancel == s.cancel
    && (d.Some? ==>
          && d.value in s.procs && t.procs[d.value] == s.procs[d.value]
          && (d.value in t.others <==> d.value in s.others))
    && (s.pidfile.Partial? ==> t.pidfile in {s.pidfile, Full(s.pidfile.child)})
    && (!s.pidfile.Partial? ==> t.pidfile == s.pidfile)
  }

  lemma {:induction false} Quiesce(o: State, s: State, p: Id, d: Option<Id>, k: Id) returns (t: State)
    requires Leads(o, s) && Sane(s) && !Stuck(s) && p in s.procs && (d.Some? ==> d.value in s.procs)
    ensures Leads(o, t) && Sane(t) && !Stuck(t) && QuietBelow(t, p, d, k) && Kept(s, t, p, d)
  {
    if k == 0 {
      t := s;
    } else {
      var q := k - 1;
      t := Quiesce(o, s, p, d, q);
      hide *;
      if q in t.procs && q != p && Some(q) != d {
        var before := t;
        t := Quieten(o, before, q);
        QuietGrows(s, before, t, p, d, q);
      } else {
        NothingAdded(t, p, d, q);
      }
    }
  }

  lemma QuietGrows(s: State, before: State, t: State, p: Id, d: Option<Id>, q: Id)
    requires QuietBelow(before, p, d, q) && Kept(s, before, p, d)
    requires OnlyChanges(before, t, q) && Over(t, q) && q != p && Some(q) != d
    ensures QuietBelow(t, p, d, q + 1) && Kept(s, t, p, d)
  {
    forall r | r < q + 1 && r in t.procs && r != p && Some(r) != d ensures Over(t, r) {
      if r != q {
        assert Over(before, r);
      }
    }
  }

  lemma NothingAdded(s: State, p: Id, d: Option<Id>, q: Id)
    requires QuietBelow(s, p, d, q) && (q !in s.procs || q == p || Some(q) == d)
    ensures QuietBelow(s, p, d, q + 1)
  {
  }

  /** Nothing moves but the call `p` and, if there is one, the live session `d`. */
  ghost predicate Calm(s: State, p: Id, d: Option<Id>) {
    && Sane(s)
    && (forall q :: q in s.procs && q != p && Some(q) != d ==> Over(s, q))
    && p in s.procs && s.procs[p].Call? && s.lock <= {p}
    && !s.pidfile.Partial?
    && (d.Some? ==> Live(s, d.value))
  }

  lemma BecomesCalm(o: State, s: State, p: Id, d: Option<Id>, n: Id) returns (t: State)
    requires Leads(o, s) && Sane(s) && !Stuck(s) && Bounded(s, n)
    requires p in s.procs && s.procs[p].Call? && (d.Some? ==> Live(s, d.value))
    ensures Leads(o, t) && Calm(t, p, d) && Kept(s, t, p, d)
  {
    if d.Some? {
      LiveIsKnown(s, d.value);
    }
    t := Quiesce(o, s, p, d, n);
    QuietIsCalm(s, t, p, d, n);
  }

  lemma LiveIsKnown(s: State, c: Id)
    requires Inv(s) && Live(s, c)
    ensures c in s.procs && !s.procs[c].Call? && s.procs[c] != Child(Forked)
  {
  }

  lemma QuietIsCalm(s: State, t: State, p: Id, d: Option<Id>, n: Id)
    requires Sane(t) && !Stuck(t) && Bounded(s, n) && QuietBelow(t, p, d, n) && Kept(s, t, p, d)
    requires s.procs[p].Call? && (d.Some? ==> Live(s, d.value))
    ensures Calm(t, p, d)
  {
    if d.Some? {
      LiveIsKnown(t, d.value);
      LiveIsRecorded(t, d.value);
    }
    forall q | q in t.lock ensures q == p {
      InLock(t, q);
    }
    if t.pidfile.Partial? {
      PartialIsWriting(t);
    }
  }

  lemma InLock(s: State, q: Id)
    requires Sane(s) && q in s.lock
    ensures q in s.procs && !Over(s, q) && (s.procs[q].Call? || s.procs[q] == Child(Forked))
  {
    assert HoldsRightly(s, q);
  }

  lemma PartialIsWriting(s: State)
    requires Inv(s) && !Stuck(s) && s.pidfile.Partial?
    ensures s.pidfile.child in s.procs && s.procs[s.pidfile.child] == Child(Writing)
  {
  }

  // ---- A stop that nobody disturbs returns 0 ----

  function Rank(pc: Pc): nat {
    match pc
    case Creating => 9
    case Marked => 8
    case Locked => 7
    case Waiting => 7
    case Terminating(_) => 6
    case Relock(_) => 5
    case Recheck(_) => 4
    case Removing(_) => 3
    case Unlinking(_) => 2
    case Returning => 1
    case _ => 0
  }

  function NextStep(pc: Pc): Step {
    match pc
    case Creating => CancelWritten
    case Marked => TryLock
    case Locked => Look
    case Waiting => Look
    case Terminating(_) => Scan
    case Relock(_) => TryLock
    case Recheck(_) => LookAgain
    case Removing(_) => LookAgain
    case Unlinking(_) => Unlink
    case _ => Close
  }

  /** Nothing stands in the way of the stop `p`. */
  ghost predicate Clear(s: State, p: Id, d: Option<Id>)
    requires p in s.procs && s.procs[p].Call?
  {
    var pc := s.procs[p].pc;
    && s.procs[p].kind == Stop && pc != Begin
    && (pc == Waiting ==> s.pidfile.Full?)
    && (d.Some? ==> Quiet(pc) || (pc.Terminating? && pc.record != d.value))
  }

  lemma StepOn(s: State, p: Id, d: Option<Id>)
    requires Calm(s, p, d) && Clear(s, p, d) && s.procs[p].pc != Finished
    ensures var a := ByCall(p, NextStep(s.procs[p].pc));
            && Enabled(s, a) && !Clears(a)
            && OnlyMoves(s, Apply(s, a), p)
            && Rank(Apply(s, a).procs[p].pc) < Rank(s.procs[p].pc)
            && !Apply(s, a).pidfile.Partial? && Apply(s, a).lock <= {p}
            && Clear(Apply(s, a), p, d)
  {
    CallFacts(s, p);
    if s.procs[p].pc.Terminating? {
      RecordIsOver(s, p, d);
    }
    if d.Some? {
      LiveIsRecorded(s, d.value);
      LiveIsKnown(s, d.value);
    }
    assert Unlocked(s.procs[p].pc) ==> s.lock == {};
    hide Calm, Live, Sane;
    MoveOn(s, p);
  }

  lemma CallFacts(s: State, p: Id)
    requires Sane(s) && p in s.procs && s.procs[p].Call?
    ensures CallInv(s, p) && HoldsRightly(s, p)
  {
    assert Sound(s, p);
  }

  lemma MoveOn(s: State, p: Id)
    requires p in s.procs && s.procs[p].Call? && s.procs[p].kind == Stop
    requires s.procs[p].pc != Begin && s.procs[p].pc != Finished
    requires CallInv(s, p) && !s.pidfile.Partial? && s.lock <= {p}
    requires Unlocked(s.procs[p].pc) ==> s.lock == {}
    requires s.procs[p].pc == Waiting ==> s.pidfile.Full?
    requires s.procs[p].pc.Terminating? ==> SessionEmpty(s, s.procs[p].pc.record)
    ensures var step := NextStep(s.procs[p].pc);
            && CallEnabled(s, p, step) && step != ClearCancel && step != CancelFails
            && var t := CallApply(s, p, step);
               && OnlyMoves(s, t, p) && t.procs[p].kind == Stop
               && Rank(t.procs[p].pc) < Rank(s.procs[p].pc)
               && !t.pidfile.Partial? && t.lock <= {p}
               && t.procs[p].pc != Begin && t.procs[p].pc != Waiting
               && (Quiet(s.procs[p].pc) || s.procs[p].pc.Terminating? ==> Quiet(t.procs[p].pc))
  {
    hide CallInv, SessionEmpty;
    if Opening(s.procs[p].pc) {
      MoveOnAtFirst(s, p);
    } else {
      MoveOnAtLast(s, p);
    }
  }

  predicate Opening(pc: Pc) {
    pc == Creating || pc == Marked || pc == Locked || pc == Waiting
  }

  lemma MoveOnAtFirst(s: State, p: Id)
    requires p in s.procs && s.procs[p].Call? && s.procs[p].kind == Stop
    requires Opening(s.procs[p].pc)
    requires s.procs[p].pc != Begin && s.procs[p].pc != Finished
    requires CallInv(s, p) && !s.pidfile.Partial? && s.lock <= {p}
    requires Unlocked(s.procs[p].pc) ==> s.lock == {}
    requires s.procs[p].pc == Waiting ==> s.pidfile.Full?
    requires s.procs[p].pc.Terminating? ==> SessionEmpty(s, s.procs[p].pc.record)
    ensures var step := NextStep(s.procs[p].pc);
            && CallEnabled(s, p, step) && step != ClearCancel && step != CancelFails
            && var t := CallApply(s, p, step);
               && OnlyMoves(s, t, p) && t.procs[p].kind == Stop
               && Rank(t.procs[p].pc) < Rank(s.procs[p].pc)
               && !t.pidfile.Partial? && t.lock <= {p}
               && t.procs[p].pc != Begin && t.procs[p].pc != Waiting
               && (Quiet(s.procs[p].pc) || s.procs[p].pc.Terminating? ==> Quiet(t.procs[p].pc))
  {
    hide SessionEmpty, Dead;
  }

  lemma MoveOnAtLast(s: State, p: Id)
    requires p in s.procs && s.procs[p].Call? && s.procs[p].kind == Stop
    requires !Opening(s.procs[p].pc)
    requires s.procs[p].pc != Begin && s.procs[p].pc != Finished
    requires CallInv(s, p) && !s.pidfile.Partial? && s.lock <= {p}
    requires Unlocked(s.procs[p].pc) ==> s.lock == {}
    requires s.procs[p].pc == Waiting ==> s.pidfile.Full?
    requires s.procs[p].pc.Terminating? ==> SessionEmpty(s, s.procs[p].pc.record)
    ensures var step := NextStep(s.procs[p].pc);
            && CallEnabled(s, p, step) && step != ClearCancel && step != CancelFails
            && var t := CallApply(s, p, step);
               && OnlyMoves(s, t, p) && t.procs[p].kind == Stop
               && Rank(t.procs[p].pc) < Rank(s.procs[p].pc)
               && !t.pidfile.Partial? && t.lock <= {p}
               && t.procs[p].pc != Begin && t.procs[p].pc != Waiting
               && (Quiet(s.procs[p].pc) || s.procs[p].pc.Terminating? ==> Quiet(t.procs[p].pc))
  {
    hide Dead;
  }

  /** `p` has moved, and nothing else but the owner marker has changed. */
  ghost predicate OnlyMoves(s: State, t: State, p: Id) {
    && t.procs.Keys == s.procs.Keys && p in s.procs && t.procs[p].Call?
    && (forall r :: r != p && r in s.procs ==> t.procs[r] == s.procs[r])
    && t.others == s.others && t.cancel == s.cancel
  }

  lemma RecordIsOver(s: State, p: Id, d: Option<Id>)
    requires Calm(s, p, d) && s.procs[p].pc.Terminating?
    requires d.Some? ==> s.procs[p].pc.record != d.value
    ensures SessionEmpty(s, s.procs[p].pc.record)
  {
    assert Sound(s, p);
    var r := s.procs[p].pc.record;
    assert Over(s, r);
  }

  lemma {:induction false} FinishStop(o: State, s: State, p: Id, d: Option<Id>) returns (t: State)
    requires Leads(o, s) && Calm(s, p, d) && Clear(s, p, d)
    ensures Leads(o, t) && Calm(t, p, d) && CallAt(t, p, Finished)
    ensures t.cancel == s.cancel && t.procs.Keys == s.procs.Keys
    decreases Rank(s.procs[p].pc)
  {
    if s.procs[p].pc == Finished {
      t := s;
    } else {
      var a := ByCall(p, NextStep(s.procs[p].pc));
      StepOn(s, p, d);
      t := One(o, s, a);
      StaysCalm(s, t, p, d);
      t := FinishStop(o, t, p, d);
    }
  }

  lemma StaysCalm(s: State, t: State, p: Id, d: Option<Id>)
    requires Calm(s, p, d) && Sane(t) && OnlyMoves(s, t, p) && !t.pidfile.Partial? && t.lock <= {p}
    ensures Calm(t, p, d)
  {
    hide Sane;
  }

  // ---- A command starts ----

  /** A run `r` with its child `c`, up to the complete owner marker. */
  function Spawned(s: State, r: Id, c: Id): State {
    s.(procs := s.procs[r := Call(Run, Supervising(c, false))][c := Child(Written)], lock := {r}, pidfile := Full(c))
  }

  lemma Spawn(o: State, s: State, r: Id, c: Id) returns (t: State)
    requires Leads(o, s) && Sane(s) && r !in s.procs && c !in s.procs && r != c
    requires s.lock == {} && s.pidfile == Absent && s.cancel == None
    ensures Leads(o, t) && Sane(t) && t == Spawned(s, r, c)
  {
    t := SpawnGuard(o, s, r);
    t := SpawnChild(o, t, r, c);
    assert t.procs == Spawned(s, r, c).procs;
  }

  lemma SpawnGuard(o: State, s: State, r: Id) returns (t: State)
    requires Leads(o, s) && Sane(s) && r !in s.procs && s.lock == {} && s.pidfile == Absent && s.cancel == None
    ensures Leads(o, t) && Sane(t) && t == s.(procs := s.procs[r := Call(Run, NoCancel)], lock := {r})
  {
    hide Sane, Leads;
    t := One(o, s, ByCall(r, Launch(Run)));
    t := One(o, t, ByCall(r, TryLock));
    t := One(o, t, ByCall(r, Look));
    t := One(o, t, ByCall(r, LookCancel));
    assert t.procs == s.procs[r := Call(Run, NoCancel)];
  }

  lemma SpawnChild(o: State, s: State, r: Id, c: Id) returns (t: State)
    requires Leads(o, s) && Sane(s) && CallAt(s, r, NoCancel) && s.procs[r].kind == Run && c !in s.procs
    requires s.lock == {r} && s.pidfile == Absent
    ensures Leads(o, t) && Sane(t)
    ensures t == s.(procs := s.procs[r := Call(Run, Supervising(c, false))][c := Child(Written)], pidfile := Full(c))
  {
    hide Sane, Leads;
    t := One(o, s, ByCall(r, Fork(c)));
    t := One(o, t, ByChild(c, CloseLock));
    t := One(o, t, ByChild(c, SetSession));
    t := One(o, t, ByChild(c, OpenRecord));
    t := One(o, t, ByChild(c, FillRecord));
    assert t.procs == s.procs[r := Call(Run, Supervising(c, false))][c := Child(Written)];
    assert t.lock == s.lock;
  }

  /** A prepare `q` that is killed before it removes the cancel marker takes a dead owner marker away. */
  lemma RemoveDead(o: State, s: State, q: Id) returns (t: State)
    requires Leads(o, s) && Sane(s) && q !in s.procs && s.lock == {} && s.pidfile.Full?
    requires SessionEmpty(s, s.pidfile.child)
    ensures Leads(o, t) && Sane(t) && t == s.(procs := s.procs[q := Gone], pidfile := Absent)
  {
    hide Sane, Leads;
    t := One(o, s, ByCall(q, Launch(Prepare)));
    t := One(o, t, ByCall(q, TryLock));
    t := One(o, t, ByCall(q, Look));
    t := One(o, t, ByCall(q, Scan));
    t := One(o, t, ByCall(q, LookAgain));
    t := RemoveAndDie(o, t, q);
    assert t.procs == s.procs[q := Gone];
  }

  lemma RemoveAndDie(o: State, s: State, q: Id) returns (t: State)
    requires Leads(o, s) && Sane(s) && q in s.procs && s.procs[q].Call? && s.procs[q].kind == Prepare
    requires s.procs[q].pc.Unlinking? && s.lock == {q}
    ensures Leads(o, t) && Sane(t) && t == s.(procs := s.procs[q := Gone], lock := {}, pidfile := Absent)
  {
    hide Sane, Leads;
    t := One(o, s, ByCall(q, Unlink));
    t := One(o, t, ByCall(q, End));
    assert t.procs == s.procs[q := Gone];
  }

  /** After a stop has returned, without a cancel marker, a command can run. */
  lemma StartCommand(o: State, s: State, p: Id, n: Id) returns (t: State, c: Id)
    requires Leads(o, s) && Calm(s, p, None) && CallAt(s, p, Finished) && s.cancel == None && Bounded(s, n)
    ensures Leads(o, t) && CallAt(t, p, Finished) && ChildAt(t, c, Running)
  {
    t := TakeMarkerAway(o, s, p, n);
    c := n + 2;
    hide Sane, Leads;
    t := Spawn(o, t, n + 1, c);
    t := RunChild(o, t, c);
  }

  /** With nothing else moving, a dead owner marker can be taken away. */
  lemma TakeMarkerAway(o: State, s: State, p: Id, n: Id) returns (t: State)
    requires Leads(o, s) && Calm(s, p, None) && CallAt(s, p, Finished) && Bounded(s, n)
    ensures Leads(o, t) && Sane(t) && CallAt(t, p, Finished)
    ensures t.lock == {} && t.pidfile == Absent && t.cancel == s.cancel && n + 1 !in t.procs && n + 2 !in t.procs
  {
    t := s;
    NoLockHeld(s, p);
    assert n !in s.procs;
    if s.pidfile.Full? {
      MarkerIsOver(s, p);
      hide Sane, Leads;
      t := RemoveDead(o, s, n);
    }
  }

  lemma NoLockHeld(s: State, p: Id)
    requires Calm(s, p, None) && Unlocked(s.procs[p].pc)
    ensures s.lock == {} && Sane(s)
  {
    CallFacts(s, p);
  }

  lemma MarkerIsOver(s: State, p: Id)
    requires Calm(s, p, None) && s.pidfile.Full?
    ensures SessionEmpty(s, s.pidfile.child)
  {
    MarkerIsKnown(s);
    assert Over(s, s.pidfile.child);
  }

  lemma RunChild(o: State, s: State, c: Id) returns (t: State)
    requires Leads(o, s) && Sane(s) && ChildAt(s, c, Written) && s.cancel == None
    ensures Leads(o, t) && t == s.(procs := s.procs[c := Child(Running)])
  {
    hide Sane, Leads;
    t := One(o, s, ByChild(c, RecordDone));
    t := One(o, t, ByChild(c, ReadCancel));
    t := One(o, t, ByChild(c, Exec));
    assert t.procs == s.procs[c := Child(Running)];
  }

  // ---- Unsafe states ----

  /** A stop that waits for an owner marker gets one. */
  lemma FeedWaiting(o: State, s: State, p: Id, n: Id) returns (t: State)
    requires Leads(o, s) && Calm(s, p, None) && CallAt(s, p, Waiting) && s.procs[p].kind == Stop
    requires s.cancel == None && s.pidfile == Absent && Bounded(s, n)
    ensures Leads(o, t) && Sane(t) && !Stuck(t) && Bounded(t, n + 2) && t.cancel == None
    ensures p in t.procs && t.procs[p].Call? && t.procs[p].kind == Stop && t.procs[p].pc.Terminating?
  {
    NoLockHeld(s, p);
    hide Sane, Calm;
    t := Spawn(o, s, n, n + 1);
    t := One(o, t, ByCall(p, Look));
  }

  /** The stop has begun and neither ended before its return nor is still without its marker. */
  predicate UnderWay(s: State, p: Id) {
    p in s.procs && s.procs[p].Call? && s.procs[p].kind == Stop && s.procs[p].pc != Begin
  }

  /** Without a cancel marker, a stop on its way can return 0 before a command runs. */
  lemma UnmarkedIsUnsafe(s: State, p: Id, n: Id) returns (t: State, c: Id)
    requires Sane(s) && Bounded(s, n) && UnderWay(s, p) && s.cancel == None && !Stuck(s)
    ensures Leads(s, t) && CallAt(t, p, Finished) && ChildAt(t, c, Running)
  {
    LeadsNowhere(s);
    t := BecomesCalm(s, s, p, None, n);
    var m := n;
    if t.procs[p].pc == Waiting && t.pidfile == Absent {
      t := FeedWaiting(s, t, p, n);
      m := n + 2;
      t := BecomesCalm(s, t, p, None, m);
    }
    t := FinishStop(s, t, p, None);
    t, c := StartCommand(s, t, p, m);
  }

  /** With a command alive that the stop has not seen, it can return 0 beside it. */
  lemma OverlookedIsUnsafe(s: State, p: Id, n: Id, d: Id) returns (t: State)
    requires Sane(s) && Bounded(s, n) && UnderWay(s, p) && Live(s, d)
    requires Quiet(s.procs[p].pc) || (s.procs[p].pc.Terminating? && s.procs[p].pc.record != d)
    ensures Leads(s, t) && CallAt(t, p, Finished) && Live(t, d)
  {
    LeadsNowhere(s);
    LiveIsRecorded(s, d);
    t := BecomesCalm(s, s, p, Some(d), n);
    t := FinishStop(s, t, p, Some(d));
  }

  /** The promise of a stop, exactly. From a reachable state in which the stop is on its way or has
    * returned, it is kept whatever is killed and whoever else runs, for as long as no cancel marker is
    * removed any more, exactly when there is a cancel marker and no command alive that the stop has
    * overlooked; or when an incomplete owner marker of a dead child keeps every guard away. */
  lemma StopIsSafeExactly(states: seq<State>, actions: seq<Action>, k: nat, p: Id)
    requires IsRun(states, actions) && k < |states| && UnderWay(states[k], p)
    ensures Safe(states[k], p) <==>
              Stuck(states[k]) || (states[k].cancel.Some? && Stopping(states[k], p))
  {
    var s := states[k];
    var n := RunIsSane(states, actions, k);
    if Stuck(s) {
      StuckIsSafe(s, p);
    } else if s.cancel.None? {
      var t, c := UnmarkedIsUnsafe(s, p, n);
      assert Live(t, c);
    } else if Stopping(s, p) {
      GuardedIsSafe(s, p);
    } else {
      var d :| Live(s, d) && (Quiet(s.procs[p].pc) || (s.procs[p].pc.Terminating? && s.procs[p].pc.record != d));
      var t := OverlookedIsUnsafe(s, p, n, d);
    }
  }

  /** In particular, as long as the stop has not looked under the lock, or read a marker, it is safe
    * exactly while there is a cancel marker; so every removal before that look undoes it, unless the
    * owner marker is stuck. */
  lemma EarlyClearUndoesStop(states: seq<State>, actions: seq<Action>, k: nat, p: Id)
    requires IsRun(states, actions) && k < |actions| && Clears(actions[k])
    requires UnderWay(states[k + 1], p) && states[k + 1].cancel.None? && !Stuck(states[k + 1])
    ensures !Safe(states[k + 1], p)
    ensures UnderWay(states[k], p) && states[k].procs[p].pc in {Creating, Marked, Waiting, Locked} &&
            states[k].cancel.Some? ==>
              Safe(states[k], p)
  {
    StopIsSafeExactly(states, actions, k + 1, p);
    if UnderWay(states[k], p) {
      StopIsSafeExactly(states, actions, k, p);
    }
  }
}
