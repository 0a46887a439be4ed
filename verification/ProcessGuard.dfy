/** The container process guard: `prepare`, `run` with its forked child, and `stop`.
  *
  * Every call is a process that moves one step at a time, steps of different processes
  * interleave freely, and any process can end at any step, by an exception or by being killed.
  * The owner lock is the set of processes that hold its open descriptor, so it dies with its
  * holders. A scan of a session is one step. */
module ProcessGuard {
  import opened Wrappers

  type Id = nat

  /** The owner marker (pidfile). */
  datatype Marker = Absent | Partial(child: Id) | Full(child: Id)

  datatype Kind = Run | Prepare | Stop

  datatype Pc =
    | Begin
    | Creating                              // stop: cancel marker opened, payload not yet safe
    | Marked                                // stop: a cancel marker is in place
    | Locked
    | NoRecord                              // run: saw no owner marker
    | NoCancel                              // run: saw no cancel marker either
    | Supervising(child: Id, seen: bool)    // run: child forked, own record read or not
    | Reaped(child: Id, seen: bool)         // run: child waited for
    | Waiting                               // stop: lock busy, polls for an owner marker
    | Terminating(record: Id)               // signals the recorded session and scans it
    | Relock(record: Id)                    // stop: session empty, polls for the lock
    | Recheck(record: Id)                   // stop: lock taken at last
    | Removing(record: Id)                  // session empty, lock held
    | Unlinking(record: Id)                 // owner marker read again, it is the record's
    | Clearing                              // prepare: about to unlink the cancel marker
    | Returning
    | Finished

  datatype ChildPc = Forked | Closed | Leader | Writing | Written | Recorded | Armed | Running

  datatype Proc = Call(kind: Kind, pc: Pc) | Child(at: ChildPc) | Gone

  /** `cancel` names the stop that created the marker; `others` are the sessions with live
    * members besides their leader. */
  datatype State = State(
    procs: map<Id, Proc>, lock: set<Id>, pidfile: Marker, cancel: Option<Id>, others: set<Id>)

  /** The steps of a call of `prepare`, `run` or `stop`. */
  datatype Step =
    | Launch(kind: Kind)
    | End                   // an exception, or a kill at any point
    | CreateCancel
    | CancelWritten
    | CancelFails
    | TryLock
    | Look
    | LookCancel
    | Fork(c: Id)
    | Poll
    | Reap
    | Settle
    | Scan
    | LookAgain
    | Unlink
    | ClearCancel
    | Close

  /** The steps of a forked child and of its session. */
  datatype ChildStep =
    | CloseLock
    | SetSession
    | OpenRecord
    | FillRecord
    | RecordFails
    | RecordDone
    | ReadCancel
    | Exec
    | Die
    | SpawnMember
    | MembersDie

  datatype Action = ByCall(p: Id, step: Step) | ByChild(p: Id, childStep: ChildStep)

  predicate CallAt(s: State, p: Id, pc: Pc) {
    p in s.procs && s.procs[p].Call? && s.procs[p].pc == pc
  }

  predicate ChildAt(s: State, c: Id, at: ChildPc) {
    c in s.procs && s.procs[c] == Child(at)
  }

  /** What a scan of session `c` finds: its leader once it has its own session, and others. */
  predicate SessionEmpty(s: State, c: Id) {
    && c !in s.others
    && (c in s.procs && s.procs[c].Child? ==> s.procs[c].at in {Forked, Closed})
  }

  function Become(s: State, p: Id, pc: Pc): State
    requires p in s.procs && s.procs[p].Call?
  {
    s.(procs := s.procs[p := s.procs[p].(pc := pc)])
  }

  function Leave(s: State, p: Id): State {
    s.(procs := s.procs[p := Gone], lock := s.lock - {p})
  }

  function Advance(s: State, c: Id, at: ChildPc): State {
    s.(procs := s.procs[c := Child(at)])
  }

  /** What a call does after the removal of the owner marker is settled. */
  function AfterRemoval(kind: Kind): Pc {
    if kind == Prepare then Clearing else Returning
  }

  predicate CallEnabled(s: State, p: Id, step: Step) {
    if step.Launch? then p !in s.procs
    else
      && p in s.procs
      && s.procs[p].Call?
      && var Call(kind, pc) := s.procs[p];
      match step
      case Launch(_) => false
      case End => pc != Finished
      case CreateCancel => pc == Begin && kind == Stop
      case CancelWritten => pc == Creating
      case CancelFails => pc == Creating
      case TryLock => (pc == Begin && kind != Stop) || pc == Marked || pc.Relock?
      case Look => pc == Locked || pc == Waiting
      case LookCancel => pc == NoRecord
      case Fork(c) => pc == NoCancel && c !in s.procs
      case Poll => pc.Supervising?
      case Reap => pc.Supervising? && pc.child in s.procs && s.procs[pc.child] == Gone
      case Settle => pc.Reaped?
      case Scan => pc.Terminating? && SessionEmpty(s, pc.record)
      case LookAgain => pc.Removing? || pc.Recheck?
      case Unlink => pc.Unlinking?
      case ClearCancel => pc == Clearing
      case Close => pc == Returning
  }

  predicate ChildEnabled(s: State, c: Id, step: ChildStep) {
    match step
    case CloseLock => ChildAt(s, c, Forked)
    case SetSession => ChildAt(s, c, Closed)
    case OpenRecord => ChildAt(s, c, Leader)
    case FillRecord => ChildAt(s, c, Writing)
    case RecordFails => ChildAt(s, c, Writing) || ChildAt(s, c, Written)
    case RecordDone => ChildAt(s, c, Written)
    case ReadCancel => ChildAt(s, c, Recorded)
    case Exec => ChildAt(s, c, Armed)
    case Die => c in s.procs && s.procs[c].Child?
    case SpawnMember => ChildAt(s, c, Running) || c in s.others
    case MembersDie => c in s.others
  }

  predicate Enabled(s: State, a: Action) {
    match a
    case ByCall(p, step) => CallEnabled(s, p, step)
    case ByChild(c, step) => ChildEnabled(s, c, step)
  }

  function TakeLock(s: State, p: Id): State
    requires CallEnabled(s, p, TryLock)
  {
    var proc := s.procs[p];
    if s.lock == {} then
      Become(s, p, if proc.pc.Relock? then Recheck(proc.pc.record) else Locked).(lock := {p})
    else if proc.kind != Stop then Leave(s, p)                      // another guard owns this marker
    else if proc.pc == Marked then Become(s, p, Waiting)
    else s
  }

  function LookAt(s: State, p: Id): State
    requires CallEnabled(s, p, Look)
  {
    var proc := s.procs[p];
    if proc.kind == Run && s.pidfile == Absent then Become(s, p, NoRecord)
    else if proc.kind == Run then Leave(s, p)                       // owner marker already exists
    else if s.pidfile.Full? then Become(s, p, Terminating(s.pidfile.child))
    else if proc.pc == Waiting then s
    else if s.pidfile == Absent then Become(s, p, AfterRemoval(proc.kind))
    else Leave(s, p)                                                // unreadable marker
  }

  function LookOnceMore(s: State, p: Id): State
    requires CallEnabled(s, p, LookAgain)
  {
    var proc := s.procs[p];
    if s.pidfile == Absent then Become(s, p, AfterRemoval(proc.kind))
    else if s.pidfile.Partial? then s                               // raises, or finds it gone later
    else if s.pidfile.child != proc.pc.record then Become(s, p, AfterRemoval(proc.kind))
    else if proc.pc.Recheck? then Become(s, p, Removing(proc.pc.record))
    else Become(s, p, Unlinking(proc.pc.record))
  }

  function CallApply(s: State, p: Id, step: Step): State
    requires CallEnabled(s, p, step)
  {
    match step
    case Launch(kind) => s.(procs := s.procs[p := Call(kind, Begin)])
    case End => Leave(s, p)
    case CreateCancel =>
      if s.cancel.None? then Become(s, p, Creating).(cancel := Some(p)) else Become(s, p, Marked)
    case CancelWritten => Become(s, p, Marked)
    case CancelFails => Leave(s, p).(cancel := if s.cancel == Some(p) then None else s.cancel)
    case TryLock => TakeLock(s, p)
    case Look => LookAt(s, p)
    case LookCancel => Become(s, p, if s.cancel.Some? then Returning else NoCancel)
    case Fork(c) =>
      var forked := Become(s, p, Supervising(c, false));
      forked.(procs := forked.procs[c := Child(Forked)], lock := if p in s.lock then s.lock + {c} else s.lock)
    case Poll =>
      var c := s.procs[p].pc.child;
      if s.pidfile == Full(c) then Become(s, p, Supervising(c, true)) else s
    case Reap => Become(s, p, Reaped(s.procs[p].pc.child, s.procs[p].pc.seen))
    case Settle =>
      var c := s.procs[p].pc.child;
      if !s.procs[p].pc.seen && s.pidfile.Full? && s.pidfile.child != c then Leave(s, p)
      else Become(s, p, Terminating(c))
    case Scan =>
      var r := s.procs[p].pc.record;
      Become(s, p, if p in s.lock then Removing(r) else Relock(r))
    case LookAgain => LookOnceMore(s, p)
    case Unlink => Become(s, p, AfterRemoval(s.procs[p].kind)).(pidfile := Absent)
    case ClearCancel => Become(s, p, Returning).(cancel := None)
    case Close => Become(s, p, Finished).(lock := s.lock - {p})
  }

  function ChildApply(s: State, c: Id, step: ChildStep): State
    requires ChildEnabled(s, c, step)
  {
    match step
    case CloseLock => Advance(s, c, Closed).(lock := s.lock - {c})
    case SetSession => Advance(s, c, Leader)
    case OpenRecord =>
      if s.pidfile == Absent then Advance(s, c, Writing).(pidfile := Partial(c)) else Leave(s, c)
    case FillRecord => Advance(s, c, Written).(pidfile := Full(c))
    case RecordFails => Leave(s, c).(pidfile := Absent)
    case RecordDone => Advance(s, c, Recorded)
    case ReadCancel => if s.cancel.Some? then Leave(s, c) else Advance(s, c, Armed)
    case Exec => Advance(s, c, Running)
    case Die => Leave(s, c)
    case SpawnMember => s.(others := s.others + {c})
    case MembersDie => s.(others := s.others - {c})
  }

  function Apply(s: State, a: Action): State
    requires Enabled(s, a)
  {
    match a
    case ByCall(p, step) => CallApply(s, p, step)
    case ByChild(c, step) => ChildApply(s, c, step)
  }

  const INITIAL := State(map[], {}, Absent, None, {})

  /** `states[k + 1]` comes from `states[k]` by `actions[k]`. */
  ghost predicate IsRun(states: seq<State>, actions: seq<Action>) {
    && |states| == |actions| + 1
    && states[0] == INITIAL
    && forall k :: 0 <= k < |actions| ==>
         Enabled(states[k], actions[k]) && states[k + 1] == Apply(states[k], actions[k])
  }

  // ---- The invariant ----

  /** The guarded command of `c` has passed its last check of the cancel marker and something of
    * its session is alive. */
  predicate Live(s: State, c: Id) {
    ChildAt(s, c, Armed) || ChildAt(s, c, Running) || c in s.others
  }

  predicate Dead(s: State, c: Id) {
    c in s.procs && s.procs[c] == Gone && c !in s.others
  }

  /** At most one process in the lock is anything but a child that has not yet closed it. */
  ghost predicate LockInv(s: State) {
    && s.lock <= s.procs.Keys
    && (forall p :: p in s.lock ==> s.procs[p].Call? || s.procs[p] == Child(Forked))
    && forall p, q :: p in s.lock && q in s.lock && s.procs[p].Call? && s.procs[q].Call? ==> p == q
  }

  predicate HoldsLock(kind: Kind, pc: Pc) {
    match pc
    case Begin | Creating | Marked | Waiting | Relock(_) | Finished => false
    case Terminating(_) => kind != Stop
    case _ => true
  }

  /** A child that has started its record and may not have finished. */
  predicate Owns(s: State, c: Id) {
    c in s.procs && s.procs[c].Child? && s.procs[c].at !in {Forked, Closed, Leader}
  }

  /** Whoever has started a record owns the marker, complete from the end of its write on. */
  ghost predicate MarkerInv(s: State) {
    && (s.pidfile != Absent ==> RecordKnown(s, s.pidfile.child))
    && (forall c :: Owns(s, c) ==> s.pidfile == if s.procs[c].at == Writing then Partial(c) else Full(c))
    && (forall c :: c in s.others ==> s.pidfile == Full(c) && c in s.procs)
    && (forall c :: c in s.others ==> s.procs[c] == Gone || s.procs[c] == Child(Running))
  }

  predicate RecordKnown(s: State, c: Id) {
    c in s.procs && (s.procs[c] == Gone || Owns(s, c))
  }

  predicate PcOf(kind: Kind, pc: Pc) {
    match pc
    case Creating | Marked | Waiting | Relock(_) | Recheck(_) => kind == Stop
    case NoRecord | NoCancel | Supervising(_, _) | Reaped(_, _) => kind == Run
    case Clearing => kind == Prepare
    case _ => true
  }

  ghost predicate CallInv(s: State, p: Id)
    requires p in s.procs && s.procs[p].Call?
  {
    var pc := s.procs[p].pc;
    && (HoldsLock(s.procs[p].kind, pc) ==> p in s.lock)
    && (pc.Terminating? ==> RecordKnown(s, pc.record))
    && (pc.Reaped? ==> RecordKnown(s, pc.child) && s.procs[pc.child] == Gone)
    && (pc.Relock? || pc.Recheck? || pc.Removing? || pc.Unlinking? ==> Dead(s, pc.record))
    && (pc.Unlinking? ==> s.pidfile == Full(pc.record))
    && PcOf(s.procs[p].kind, pc)
  }

  ghost predicate Inv(s: State) {
    && LockInv(s)
    && MarkerInv(s)
    && forall p :: Sound(s, p)
  }

  ghost predicate Sound(s: State, p: Id) {
    p in s.procs && s.procs[p].Call? ==> CallInv(s, p)
  }

  lemma LockKeptByCall(s: State, p: Id, step: Step)
    requires LockInv(s) && CallEnabled(s, p, step)
    ensures LockInv(CallApply(s, p, step))
  {
  }

  lemma LockKeptByChild(s: State, c: Id, step: ChildStep)
    requires LockInv(s) && ChildEnabled(s, c, step)
    ensures LockInv(ChildApply(s, c, step))
  {
  }

  /** A call leaves children alone, except for the one it forks, and removes a marker only when
    * the recorded session is dead. */
  ghost predicate ChildrenStay(s: State, t: State, p: Id) {
    && t.others == s.others
    && (t.pidfile == s.pidfile || (t.pidfile == Absent && s.pidfile.Full? && Dead(s, s.pidfile.child)))
    && (p in s.procs ==> s.procs[p].Call?)
    && p in t.procs && !t.procs[p].Child?
    && forall c :: c != p ==>
         if c in s.procs then c in t.procs && t.procs[c] == s.procs[c]
         else c in t.procs ==> t.procs[c] == Child(Forked)
  }

  lemma CallLeavesChildren(s: State, p: Id, step: Step)
    requires CallEnabled(s, p, step) && Sound(s, p)
    ensures ChildrenStay(s, CallApply(s, p, step), p)
  {
  }

  lemma MarkerKeptByCall(s: State, t: State, p: Id)
    requires MarkerInv(s) && ChildrenStay(s, t, p)
    ensures MarkerInv(t)
  {
  }

  lemma MarkerKeptByChild(s: State, c: Id, step: ChildStep)
    requires MarkerInv(s) && ChildEnabled(s, c, step)
    ensures MarkerInv(ChildApply(s, c, step))
  {
  }

  lemma MarkerIsKnown(s: State)
    requires MarkerInv(s)
    ensures s.pidfile.Full? ==> RecordKnown(s, s.pidfile.child)
  {
  }

  lemma ActorKept(s: State, p: Id, step: Step)
    requires s.pidfile.Full? ==> RecordKnown(s, s.pidfile.child)
    requires CallEnabled(s, p, step) && Sound(s, p)
    ensures Sound(CallApply(s, p, step), p)
  {
  }

  /** What a call has found out stays true whatever the others do. */
  ghost predicate FactsStay(s: State, t: State, q: Id, c: Id) {
    && q in s.procs && q in t.procs && t.procs[q] == s.procs[q]
    && (q in s.lock ==> q in t.lock)
    && (RecordKnown(s, c) ==> RecordKnown(t, c))
    && (c in s.procs && s.procs[c] == Gone ==> c in t.procs && t.procs[c] == Gone)
    && (Dead(s, c) ==> Dead(t, c))
  }

  lemma FactsStayByCall(s: State, p: Id, step: Step, q: Id, c: Id)
    requires LockInv(s) && CallEnabled(s, p, step) && q != p && q in s.procs && s.procs[q].Call?
    requires Sound(s, p)
    ensures FactsStay(s, CallApply(s, p, step), q, c)
    ensures s.pidfile == Full(c) && (p in s.lock ==> q !in s.lock) && q in s.lock ==>
      CallApply(s, p, step).pidfile == Full(c)
  {
  }

  lemma FactsStayByChild(s: State, p: Id, step: ChildStep, q: Id, c: Id)
    requires MarkerInv(s) && ChildEnabled(s, p, step) && q in s.procs && s.procs[q].Call?
    ensures FactsStay(s, ChildApply(s, p, step), q, c)
    ensures s.pidfile == Full(c) && Dead(s, c) ==> ChildApply(s, p, step).pidfile == Full(c)
  {
  }

  function KnownBy(pc: Pc): Id {
    match pc
    case Terminating(r) => r
    case Relock(r) => r
    case Recheck(r) => r
    case Removing(r) => r
    case Unlinking(r) => r
    case Reaped(c, _) => c
    case _ => 0
  }

  lemma OtherKept(s: State, t: State, q: Id)
    requires q in s.procs && s.procs[q].Call? && CallInv(s, q)
    requires FactsStay(s, t, q, KnownBy(s.procs[q].pc))
    requires s.procs[q].pc.Unlinking? ==> t.pidfile == s.pidfile
    ensures Sound(t, q)
  {
    hide Dead;
  }

  lemma OneLockedCall(s: State, p: Id, q: Id)
    requires LockInv(s) && p in s.lock && q in s.lock && p != q
    requires p in s.procs && s.procs[p].Call?
    ensures q in s.procs && !s.procs[q].Call?
  {
  }

  lemma OtherKeptByCall(s: State, p: Id, step: Step, q: Id)
    requires LockInv(s) && CallEnabled(s, p, step) && Sound(s, p) && Sound(s, q) && q != p
    ensures Sound(CallApply(s, p, step), q)
  {
    if q in s.procs && s.procs[q].Call? {
      FactsStayByCall(s, p, step, q, KnownBy(s.procs[q].pc));
      if s.procs[q].pc.Unlinking? && p in s.lock && step != Launch(Run) {
        OneLockedCall(s, q, p);
      }
      OtherKept(s, CallApply(s, p, step), q);
    }
  }

  lemma OtherKeptByChild(s: State, c: Id, step: ChildStep, q: Id)
    requires MarkerInv(s) && ChildEnabled(s, c, step) && Sound(s, q)
    ensures Sound(ChildApply(s, c, step), q)
  {
    if q in s.procs && s.procs[q].Call? {
      FactsStayByChild(s, c, step, q, KnownBy(s.procs[q].pc));
      hide ChildEnabled, ChildApply, MarkerInv;
      OtherKept(s, ChildApply(s, c, step), q);
    }
  }

  lemma StepKeepsInv(s: State, a: Action)
    requires Inv(s) && Enabled(s, a)
    ensures Inv(Apply(s, a))
  {
    hide LockInv, MarkerInv, Sound, ChildrenStay, CallEnabled, ChildEnabled, CallApply, ChildApply;
    match a
    case ByCall(p, step) =>
      LockKeptByCall(s, p, step);
      CallLeavesChildren(s, p, step);
      MarkerKeptByCall(s, CallApply(s, p, step), p);
      assert s.pidfile.Full? ==> RecordKnown(s, s.pidfile.child) by { MarkerIsKnown(s); }
      ActorKept(s, p, step);
      forall q | q != p ensures Sound(CallApply(s, p, step), q) {
        OtherKeptByCall(s, p, step, q);
      }
    case ByChild(c, step) =>
      LockKeptByChild(s, c, step);
      MarkerKeptByChild(s, c, step);
      forall q ensures Sound(ChildApply(s, c, step), q) {
        OtherKeptByChild(s, c, step, q);
      }
  }

  lemma {:induction false} RunKeepsInv(states: seq<State>, actions: seq<Action>, k: nat)
    requires IsRun(states, actions) && k < |states|
    ensures Inv(states[k])
  {
    if k == 0 {
    } else {
      RunKeepsInv(states, actions, k - 1);
      StepKeepsInv(states[k - 1], actions[k - 1]);
    }
  }

  // ---- What the guard promises ----

  /** Nobody else runs: two guarded commands past their last check are the same one, the owner
    * marker names it in full, and it is in nobody's way that its guard may be dead. */
  lemma OneCommandAtATime(states: seq<State>, actions: seq<Action>, k: nat, c: Id, d: Id)
    requires IsRun(states, actions) && k < |states|
    requires Live(states[k], c) && Live(states[k], d)
    ensures c == d && states[k].pidfile == Full(c)
  {
    RunKeepsInv(states, actions, k);
  }

  /** An owner marker that disappears was written by a process that is dead with its session, or
    * by a child whose own write failed. */
  lemma MarkerIsRemovedWhenDead(states: seq<State>, actions: seq<Action>, k: nat)
    requires IsRun(states, actions) && k < |actions|
    requires states[k].pidfile != Absent && states[k + 1].pidfile == Absent
    ensures Dead(states[k + 1], states[k].pidfile.child)
  {
    RunKeepsInv(states, actions, k);
    RemovalStep(states[k], actions[k]);
  }

  lemma RemovalStep(s: State, a: Action)
    requires Inv(s) && Enabled(s, a) && s.pidfile != Absent && Apply(s, a).pidfile == Absent
    ensures Dead(Apply(s, a), s.pidfile.child)
  {
    assert Sound(s, a.p);
  }

  predicate Clears(a: Action) {
    a.ByCall? && (a.step == ClearCancel || a.step == CancelFails)
  }

  /** The cancel marker goes away only by a `prepare` that has the lock, or with the failed write
    * of the very `stop` that created it. */
  lemma OnlyClearsRemoveCancel(states: seq<State>, actions: seq<Action>, k: nat)
    requires IsRun(states, actions) && k < |actions|
    requires states[k].cancel.Some? && states[k + 1].cancel.None?
    ensures Clears(actions[k])
    ensures actions[k].step == ClearCancel ==> actions[k].p in states[k].lock
    ensures actions[k].step == CancelFails ==> states[k].cancel == Some(actions[k].p)
  {
    RunKeepsInv(states, actions, k);
    ClearStep(states[k], actions[k]);
  }

  lemma ClearStep(s: State, a: Action)
    requires Inv(s) && Enabled(s, a) && s.cancel.Some? && Apply(s, a).cancel.None?
    ensures Clears(a)
    ensures a.step == ClearCancel ==> a.p in s.lock
    ensures a.step == CancelFails ==> s.cancel == Some(a.p)
  {
    assert Sound(s, a.p);
  }

  /** While a cancel marker is in place, no further command gets past its check. */
  lemma NoNewLive(s: State, a: Action, c: Id)
    requires Enabled(s, a) && s.cancel.Some? && Live(Apply(s, a), c)
    ensures Live(s, c)
  {
  }

  /** How far the stop `p` has come, as long as its cancel marker stays. */
  ghost predicate Stopping(s: State, p: Id) {
    p in s.procs && s.procs[p].Call? && s.procs[p].kind == Stop ==>
      var pc := s.procs[p].pc;
      && (pc.Terminating? ==> forall c :: Live(s, c) ==> c == pc.record)
      && (Quiet(pc) ==> forall c :: !Live(s, c))
  }

  predicate Quiet(pc: Pc) {
    pc.Relock? || pc.Recheck? || pc.Removing? || pc.Unlinking? || pc == Returning || pc == Finished
  }

  lemma NoLive(s: State, p: Id)
    requires Inv(s) && Stopping(s, p) && p in s.procs && s.procs[p].Call? && s.procs[p].kind == Stop
    ensures s.pidfile == Absent ==> forall c :: !Live(s, c)
    ensures s.pidfile.Full? ==> forall c :: Live(s, c) ==> c == s.pidfile.child
    ensures s.procs[p].pc.Terminating? && SessionEmpty(s, s.procs[p].pc.record) ==> forall c :: !Live(s, c)
  {
  }

  lemma CallKeepsStopping(s: State, p: Id, step: Step)
    requires Inv(s) && CallEnabled(s, p, step) && Stopping(s, p) && s.cancel.Some?
    ensures Stopping(CallApply(s, p, step), p)
  {
    forall c | Live(CallApply(s, p, step), c) ensures Live(s, c) {
      NoNewLive(s, ByCall(p, step), c);
    }
    if p in s.procs && s.procs[p].kind == Stop {
      NoLive(s, p);
      assert Sound(s, p);
    }
    hide Inv, Live;
  }

  lemma StepKeepsStopping(s: State, a: Action, p: Id)
    requires Inv(s) && Enabled(s, a) && Stopping(s, p) && s.cancel.Some?
    ensures Stopping(Apply(s, a), p)
  {
    if a.ByCall? && a.p == p {
      CallKeepsStopping(s, p, a.step);
    } else {
      forall c | Live(Apply(s, a), c) ensures Live(s, c) {
        NoNewLive(s, a, c);
      }
      SameCall(s, a, p);
      hide Inv, Apply, Enabled, Live;
    }
  }

  lemma SameCall(s: State, a: Action, p: Id)
    requires Enabled(s, a) && !(a.ByCall? && a.p == p)
    ensures p in Apply(s, a).procs && Apply(s, a).procs[p].Call? ==> p in s.procs && s.procs[p] == Apply(s, a).procs[p]
  {
  }

  /** The stop `p` placed or found its cancel marker by state `from`, and no cancel marker was
    * removed from then to `to`. */
  ghost predicate KeepsCancel(states: seq<State>, actions: seq<Action>, from: nat, to: nat, p: Id) {
    && from <= to < |states| == |actions| + 1
    && (CallAt(states[from], p, Creating) || CallAt(states[from], p, Marked))
    && states[from].cancel.Some?
    && forall k :: from <= k < to ==> !Clears(actions[k])
  }

  lemma {:induction false} StopProgress(states: seq<State>, actions: seq<Action>, from: nat, p: Id, k: nat)
    requires IsRun(states, actions) && KeepsCancel(states, actions, from, k, p)
    ensures states[k].cancel.Some? && Stopping(states[k], p)
  {
    if k > from {
      StopProgress(states, actions, from, p, k - 1);
      RunKeepsInv(states, actions, k - 1);
      hide Inv, Enabled, Apply, Stopping, Clears, CallAt;
      CancelStays(states[k - 1], actions[k - 1]);
      StepKeepsStopping(states[k - 1], actions[k - 1], p);
    }
  }

  lemma CancelStays(s: State, a: Action)
    requires Inv(s) && Enabled(s, a) && s.cancel.Some? && !Clears(a)
    ensures Apply(s, a).cancel.Some?
  {
    if Apply(s, a).cancel.None? {
      ClearStep(s, a);
    }
  }

  /** When a stop returns 0 and no cancel marker was removed since its own was in place, no guarded
    * command is alive, whichever processes were killed at whichever step; and one that comes to life
    * later owes it to a cancel marker removed after the return. */
  lemma StopMeansStopped(
    states: seq<State>, actions: seq<Action>, from: nat, done: nat, p: Id, k: nat, c: Id)
    requires IsRun(states, actions) && KeepsCancel(states, actions, from, done, p)
    requires CallAt(states[done], p, Finished) && done <= k < |states|
    ensures !Live(states[done], c) && states[done].cancel.Some?
    ensures Live(states[k], c) ==> exists j :: done <= j < k && Clears(actions[j])
  {
    StopProgress(states, actions, from, p, done);
    StaysStop(states, actions, from, p, done);
    if !(exists j :: done <= j < k && Clears(actions[j])) {
      StopProgress(states, actions, from, p, k);
      StaysStop(states, actions, from, p, k);
      StaysFinished(states, actions, done, p, k);
    }
  }

  lemma {:induction false} StaysFinished(states: seq<State>, actions: seq<Action>, done: nat, p: Id, k: nat)
    requires IsRun(states, actions) && done <= k < |states| && CallAt(states[done], p, Finished)
    ensures CallAt(states[k], p, Finished)
  {
    if k > done {
      StaysFinished(states, actions, done, p, k - 1);
      FinishedStays(states[k - 1], actions[k - 1], p);
    }
  }

  lemma FinishedStays(s: State, a: Action, p: Id)
    requires Enabled(s, a) && CallAt(s, p, Finished)
    ensures CallAt(Apply(s, a), p, Finished)
  {
  }

  lemma {:induction false} StaysStop(states: seq<State>, actions: seq<Action>, from: nat, p: Id, k: nat)
    requires IsRun(states, actions) && from <= k < |states|
    requires CallAt(states[from], p, Creating) || CallAt(states[from], p, Marked)
    ensures p in states[k].procs && (states[k].procs[p].Call? ==> states[k].procs[p].kind == Stop)
  {
    if k == from {
      RunKeepsInv(states, actions, k);
      assert Sound(states[k], p);
    } else {
      StaysStop(states, actions, from, p, k - 1);
      CallComesFrom(states[k - 1], actions[k - 1], p);
    }
  }

  lemma CallComesFrom(s: State, a: Action, p: Id)
    requires Enabled(s, a) && p in s.procs
    ensures p in Apply(s, a).procs
    ensures Apply(s, a).procs[p].Call? ==> s.procs[p].Call? && s.procs[p].kind == Apply(s, a).procs[p].kind
  {
  }

  // ---- A prepare inside a stop ----

  predicate Same(s: State, t: State) {
    s.procs == t.procs && s.lock == t.lock && s.pidfile == t.pidfile && s.cancel == t.cancel && s.others == t.others
  }

  /** A run that ends in `t`. */
  ghost predicate Ends(run: (seq<State>, seq<Action>), t: State) {
    IsRun(run.0, run.1) && run.0[|run.1|] == t
  }

  /** Extends a run by one step to a given state. */
  lemma Then(run: (seq<State>, seq<Action>), s: State, a: Action, t: State) returns (longer: (seq<State>, seq<Action>))
    requires Ends(run, s) && Enabled(s, a) && Same(Apply(s, a), t)
    ensures Ends(longer, t) && longer == (run.0 + [t], run.1 + [a])
  {
    longer := (run.0 + [t], run.1 + [a]);
    forall k | 0 <= k < |longer.1|
      ensures Enabled(longer.0[k], longer.1[k]) && longer.0[k + 1] == Apply(longer.0[k], longer.1[k])
    {
      if k < |run.1| {
        assert longer.0[k] == run.0[k] && longer.0[k + 1] == run.0[k + 1] && longer.1[k] == run.1[k];
      }
    }
  }

  /** A run that was in state `at` after `mark` steps, clears no cancel marker since, and ends in `t`. */
  ghost predicate EndsQuietly(run: (seq<State>, seq<Action>), mark: nat, at: State, t: State) {
    && Ends(run, t)
    && mark < |run.0| && run.0[mark] == at
    && forall k :: mark <= k < |run.1| ==> !Clears(run.1[k])
  }

  lemma ThenQuietly(run: (seq<State>, seq<Action>), mark: nat, at: State, s: State, a: Action, t: State)
    returns (longer: (seq<State>, seq<Action>))
    requires EndsQuietly(run, mark, at, s) && Enabled(s, a) && Same(Apply(s, a), t) && !Clears(a)
    ensures EndsQuietly(longer, mark, at, t)
  {
    longer := Then(run, s, a, t);
  }

  const AFTER_PREPARE := State(map[1 := Call(Stop, Marked), 2 := Call(Prepare, Finished)], {}, Absent, None, {})
  const AFTER_CHECKS :=
    State(map[1 := Call(Stop, Marked), 2 := Call(Prepare, Finished), 3 := Call(Run, NoCancel)], {3}, Absent, None, {})
  const AFTER_FORK :=
    State(map[1 := Call(Stop, Marked), 2 := Call(Prepare, Finished), 3 := Gone,
              4 := Child(Closed)], {}, Absent, None, {})
  const AFTER_STOP :=
    State(map[1 := Call(Stop, Finished), 2 := Call(Prepare, Finished), 3 := Gone,
              4 := Child(Closed)], {}, Absent, None, {})
  const AFTER_EXEC :=
    State(map[1 := Call(Stop, Finished), 2 := Call(Prepare, Finished), 3 := Gone,
              4 := Child(Running)], {}, Full(4), None, {})

  lemma StopThenPrepare(before: (seq<State>, seq<Action>)) returns (run: (seq<State>, seq<Action>))
    requires Ends(before, INITIAL)
    ensures Ends(run, AFTER_PREPARE)
  {
    hide Ends;
    run := before;
    var s1 := State(map[1 := Call(Stop, Begin)], {}, Absent, None, {});
    run := Then(run, INITIAL, ByCall(1, Launch(Stop)), s1);
    var s2 := State(map[1 := Call(Stop, Creating)], {}, Absent, Some(1), {});
    run := Then(run, s1, ByCall(1, CreateCancel), s2);
    var s3 := State(map[1 := Call(Stop, Marked)], {}, Absent, Some(1), {});
    run := Then(run, s2, ByCall(1, CancelWritten), s3);
    var s4 := State(map[1 := Call(Stop, Marked), 2 := Call(Prepare, Begin)], {}, Absent, Some(1), {});
    run := Then(run, s3, ByCall(2, Launch(Prepare)), s4);
    var s5 := State(map[1 := Call(Stop, Marked), 2 := Call(Prepare, Locked)], {2}, Absent, Some(1), {});
    run := Then(run, s4, ByCall(2, TryLock), s5);
    var s6 := State(map[1 := Call(Stop, Marked), 2 := Call(Prepare, Clearing)], {2}, Absent, Some(1), {});
    run := Then(run, s5, ByCall(2, Look), s6);
    var s7 := State(map[1 := Call(Stop, Marked), 2 := Call(Prepare, Returning)], {2}, Absent, None, {});
    run := Then(run, s6, ByCall(2, ClearCancel), s7);
    run := Then(run, s7, ByCall(2, Close), AFTER_PREPARE);
  }

  lemma RunChecks(before: (seq<State>, seq<Action>)) returns (run: (seq<State>, seq<Action>))
    requires Ends(before, AFTER_PREPARE)
    ensures Ends(run, AFTER_CHECKS)
  {
    hide Ends;
    run := before;
    var s1 :=
      State(map[1 := Call(Stop, Marked), 2 := Call(Prepare, Finished), 3 := Call(Run, Begin)], {}, Absent, None, {});
    run := Then(run, AFTER_PREPARE, ByCall(3, Launch(Run)), s1);
    var s2 :=
      State(map[1 := Call(Stop, Marked), 2 := Call(Prepare, Finished),
                3 := Call(Run, Locked)], {3}, Absent, None, {});
    run := Then(run, s1, ByCall(3, TryLock), s2);
    var s3 :=
      State(map[1 := Call(Stop, Marked), 2 := Call(Prepare, Finished),
                3 := Call(Run, NoRecord)], {3}, Absent, None, {});
    run := Then(run, s2, ByCall(3, Look), s3);
    run := Then(run, s3, ByCall(3, LookCancel), AFTER_CHECKS);
  }

  lemma RunForks(before: (seq<State>, seq<Action>)) returns (run: (seq<State>, seq<Action>))
    requires Ends(before, AFTER_CHECKS)
    ensures Ends(run, AFTER_FORK)
  {
    hide Ends;
    run := before;
    var s1 :=
      State(map[1 := Call(Stop, Marked), 2 := Call(Prepare, Finished), 3 := Call(Run, Supervising(4, false)),
                4 := Child(Forked)], {3, 4}, Absent, None, {});
    run := Then(run, AFTER_CHECKS, ByCall(3, Fork(4)), s1);
    var s2 :=
      State(map[1 := Call(Stop, Marked), 2 := Call(Prepare, Finished), 3 := Call(Run, Supervising(4, false)),
                4 := Child(Closed)], {3}, Absent, None, {});
    run := Then(run, s1, ByChild(4, CloseLock), s2);
    run := Then(run, s2, ByCall(3, End), AFTER_FORK);
  }

  lemma StopReturns(before: (seq<State>, seq<Action>)) returns (run: (seq<State>, seq<Action>))
    requires Ends(before, AFTER_FORK)
    ensures Ends(run, AFTER_STOP)
  {
    hide Ends;
    run := before;
    var s1 :=
      State(map[1 := Call(Stop, Locked), 2 := Call(Prepare, Finished), 3 := Gone,
                4 := Child(Closed)], {1}, Absent, None, {});
    run := Then(run, AFTER_FORK, ByCall(1, TryLock), s1);
    var s2 :=
      State(map[1 := Call(Stop, Returning), 2 := Call(Prepare, Finished), 3 := Gone,
                4 := Child(Closed)], {1}, Absent, None, {});
    run := Then(run, s1, ByCall(1, Look), s2);
    run := Then(run, s2, ByCall(1, Close), AFTER_STOP);
  }

  lemma ChildExecs(before: (seq<State>, seq<Action>), mark: nat) returns (run: (seq<State>, seq<Action>))
    requires EndsQuietly(before, mark, AFTER_STOP, AFTER_STOP)
    ensures EndsQuietly(run, mark, AFTER_STOP, AFTER_EXEC)
  {
    hide EndsQuietly;
    run := before;
    var s1 :=
      State(map[1 := Call(Stop, Finished), 2 := Call(Prepare, Finished), 3 := Gone,
                4 := Child(Leader)], {}, Absent, None, {});
    run := ThenQuietly(run, mark, AFTER_STOP, AFTER_STOP, ByChild(4, SetSession), s1);
    var s2 :=
      State(map[1 := Call(Stop, Finished), 2 := Call(Prepare, Finished), 3 := Gone,
                4 := Child(Writing)], {}, Partial(4), None, {});
    run := ThenQuietly(run, mark, AFTER_STOP, s1, ByChild(4, OpenRecord), s2);
    var s3 :=
      State(map[1 := Call(Stop, Finished), 2 := Call(Prepare, Finished), 3 := Gone,
                4 := Child(Written)], {}, Full(4), None, {});
    run := ThenQuietly(run, mark, AFTER_STOP, s2, ByChild(4, FillRecord), s3);
    var s4 :=
      State(map[1 := Call(Stop, Finished), 2 := Call(Prepare, Finished), 3 := Gone,
                4 := Child(Recorded)], {}, Full(4), None, {});
    run := ThenQuietly(run, mark, AFTER_STOP, s3, ByChild(4, RecordDone), s4);
    var s5 :=
      State(map[1 := Call(Stop, Finished), 2 := Call(Prepare, Finished), 3 := Gone,
                4 := Child(Armed)], {}, Full(4), None, {});
    run := ThenQuietly(run, mark, AFTER_STOP, s4, ByChild(4, ReadCancel), s5);
    run := ThenQuietly(run, mark, AFTER_STOP, s5, ByChild(4, Exec), AFTER_EXEC);
  }

  /** Without that proviso it fails: when a prepare removes the cancel marker while the stop is
    * still on its way to the lock, and a guard is killed right after its fork, the stop finds the
    * lock free and no owner marker and returns 0, and the orphan runs its command afterwards with
    * no further prepare. */
  lemma PrepareInsideStop() returns (states: seq<State>, actions: seq<Action>, stopped: nat)
    ensures IsRun(states, actions) && stopped < |states|
    ensures CallAt(states[stopped], 1, Finished) && states[stopped].procs[1].kind == Stop
    ensures forall k :: stopped <= k < |actions| ==> !Clears(actions[k])
    ensures ChildAt(states[|actions|], 4, Running)
  {
    var run := ([INITIAL], []);
    assert Ends(run, INITIAL);
    run := StopThenPrepare(run);
    run := RunChecks(run);
    run := RunForks(run);
    run := StopReturns(run);
    stopped := |run.1|;
    run := ChildExecs(run, stopped);
    states, actions := run.0, run.1;
  }
}
