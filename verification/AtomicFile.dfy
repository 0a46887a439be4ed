/** Atomic writes of one target in a directory: any number of writers, replacing or creating
  * exclusively, interleave step by step, and any of them can fail or be killed at any point. */
module AtomicFile {
  import opened Wrappers

  type Id = nat
  type Inode = nat

  /** Temporary names are never shared. */
  datatype Name = Target | Temp(w: Id)

  datatype Phase =
    | Begun
    | Writing(written: nat)     // the temporary holds this much of the payload
    | Synced
    | Committed                 // linked, or replaced
    | Cleaned                   // the temporary name is gone
    | Returned
    | Raised
    | Killed

  datatype Writer = Writer(payload: string, limit: nat, exclusive: bool, inode: Inode, phase: Phase)

  datatype State = State(names: map<Name, Inode>, data: map<Inode, string>, writers: map<Id, Writer>)

  datatype Step =
    | Begin(payload: string, limit: nat, exclusive: bool)
    | OpenTemp(inode: Inode)
    | WriteMore(upTo: nat)
    | Sync
    | Commit
    | UnlinkTemp
    | Return
    | Fail                      // an error: the temporary name is removed on the way out
    | Kill

  datatype Action = Action(w: Id, step: Step)

  predicate In(s: State, w: Id, phase: Phase) {
    w in s.writers && s.writers[w].phase == phase
  }

  predicate Running(phase: Phase) {
    phase != Returned && phase != Raised && phase != Killed
  }

  predicate Enabled(s: State, a: Action) {
    match a.step
    case Begin(_, _, _) => a.w !in s.writers
    case OpenTemp(inode) =>
      In(s, a.w, Begun) && inode !in s.data && !(s.writers[a.w].exclusive && Target in s.names)
    case WriteMore(upTo) =>
      a.w in s.writers && s.writers[a.w].phase.Writing?
      && s.writers[a.w].phase.written < upTo <= |s.writers[a.w].payload|
    case Sync =>
      && In(s, a.w, Writing(if a.w in s.writers then |s.writers[a.w].payload| else 0))
      && |s.writers[a.w].payload| <= s.writers[a.w].limit
    case Commit => In(s, a.w, Synced) && Temp(a.w) in s.names && !(s.writers[a.w].exclusive && Target in s.names)
    case UnlinkTemp => In(s, a.w, Committed)
    case Return => In(s, a.w, Cleaned)
    case Fail => a.w in s.writers && Running(s.writers[a.w].phase)
    case Kill => a.w in s.writers && Running(s.writers[a.w].phase)
  }

  function SetPhase(s: State, w: Id, phase: Phase): State
    requires w in s.writers
  {
    s.(writers := s.writers[w := s.writers[w].(phase := phase)])
  }

  function Apply(s: State, a: Action): State
    requires Enabled(s, a)
  {
    match a.step
    case Begin(payload, limit, exclusive) =>
      s.(writers := s.writers[a.w := Writer(payload, limit, exclusive, 0, Begun)])
    case OpenTemp(inode) =>
      State(s.names[Temp(a.w) := inode], s.data[inode := ""],
            s.writers[a.w := s.writers[a.w].(inode := inode, phase := Writing(0))])
    case WriteMore(upTo) =>
      SetPhase(s, a.w, Writing(upTo)).(data := s.data[s.writers[a.w].inode := s.writers[a.w].payload[..upTo]])
    case Sync => SetPhase(s, a.w, Synced)
    case Commit =>
      if s.writers[a.w].exclusive then                    // link: both names, fails on an existing target
        SetPhase(s, a.w, Committed).(names := s.names[Target := s.names[Temp(a.w)]])
      else                                                // replace: the temporary name moves
        SetPhase(s, a.w, Committed).(names := (s.names - {Temp(a.w)})[Target := s.names[Temp(a.w)]])
    case UnlinkTemp => SetPhase(s, a.w, Cleaned).(names := s.names - {Temp(a.w)})
    case Return => SetPhase(s, a.w, Returned)
    case Fail => SetPhase(s, a.w, Raised).(names := s.names - {Temp(a.w)})
    case Kill => SetPhase(s, a.w, Killed)
  }

  function TargetContent(s: State): Option<string> {
    if Target in s.names && s.names[Target] in s.data then Some(s.data[s.names[Target]]) else None
  }

  /** Only the target is there, or nothing. */
  ghost predicate Init(s: State) {
    && s.writers == map[]
    && (forall n :: n in s.names ==> n == Target && s.names[n] in s.data)
  }

  ghost predicate IsRun(states: seq<State>, actions: seq<Action>) {
    && |states| == |actions| + 1
    && Init(states[0])
    && forall k :: 0 <= k < |actions| ==>
         Enabled(states[k], actions[k]) && states[k + 1] == Apply(states[k], actions[k])
  }

  // ---- The invariant ----

  predicate HasInode(phase: Phase) {
    phase.Writing? || phase == Synced || phase == Committed || phase == Cleaned || phase == Returned
  }

  predicate IsComplete(phase: Phase) {
    phase == Synced || phase == Committed || phase == Cleaned || phase == Returned
  }

  /** What a writer's own file holds. */
  ghost predicate WriterInv(s: State, w: Id)
    requires w in s.writers
  {
    var x := s.writers[w];
    && (HasInode(x.phase) ==> x.inode in s.data)
    && (x.phase.Writing? ==> x.phase.written <= |x.payload| && s.data[x.inode] == x.payload[..x.phase.written])
    && (IsComplete(x.phase) ==> s.data[x.inode] == x.payload)
    && (x.phase == Begun ==> Temp(w) !in s.names)
    && (Temp(w) in s.names && HasInode(x.phase) ==> s.names[Temp(w)] == x.inode)
  }

  ghost predicate NamesInv(s: State) {
    forall n :: n in s.names ==> s.names[n] in s.data && (n.Temp? ==> n.w in s.writers)
  }

  predicate SameFile(s: State, v: Id, w: Id) {
    && v in s.writers && w in s.writers
    && HasInode(s.writers[v].phase) && HasInode(s.writers[w].phase)
    && s.writers[v].inode == s.writers[w].inode
  }

  ghost predicate NoSharing(s: State) {
    forall v, w :: SameFile(s, v, w) ==> v == w
  }

  predicate WritesTarget(s: State, w: Id) {
    Target in s.names && w in s.writers && s.writers[w].phase.Writing? && s.writers[w].inode == s.names[Target]
  }

  /** No two writers share a file, and nobody is still writing the file that the target names. */
  ghost predicate Inv(s: State) {
    && NamesInv(s)
    && NoSharing(s)
    && (forall w :: !WritesTarget(s, w))
    && (forall w :: w in s.writers ==> WriterInv(s, w))
  }

  lemma NamesKept(s: State, a: Action)
    requires NamesInv(s) && Enabled(s, a) && (a.w in s.writers ==> WriterInv(s, a.w))
    ensures NamesInv(Apply(s, a))
  {
  }

  lemma SharingKept(s: State, a: Action, v: Id, w: Id)
    requires NoSharing(s) && Enabled(s, a)
    requires v in s.writers ==> WriterInv(s, v)
    requires w in s.writers ==> WriterInv(s, w)
    requires SameFile(Apply(s, a), v, w)
    ensures v == w
  {
    assert SameFile(s, v, w) ==> v == w;
  }

  lemma TargetKept(s: State, a: Action, w: Id)
    requires NamesInv(s) && NoSharing(s) && Enabled(s, a) && !WritesTarget(s, w)
    requires w in s.writers ==> WriterInv(s, w)
    requires a.w in s.writers ==> WriterInv(s, a.w)
    ensures !WritesTarget(Apply(s, a), w)
  {
    assert SameFile(s, a.w, w) ==> a.w == w;
  }

  lemma ActorKept(s: State, a: Action)
    requires NamesInv(s) && Enabled(s, a) && a.w in Apply(s, a).writers
    requires a.w in s.writers ==> WriterInv(s, a.w)
    ensures WriterInv(Apply(s, a), a.w)
  {
  }

  lemma OtherKept(s: State, a: Action, w: Id)
    requires NoSharing(s) && Enabled(s, a) && w in s.writers && w != a.w
    requires WriterInv(s, w)
    requires a.w in s.writers ==> WriterInv(s, a.w)
    ensures w in Apply(s, a).writers && WriterInv(Apply(s, a), w)
  {
    assert !SameFile(s, a.w, w);
  }

  lemma WriterKept(s: State, a: Action, w: Id)
    requires NamesInv(s) && NoSharing(s) && Enabled(s, a) && w in Apply(s, a).writers
    requires w in s.writers ==> WriterInv(s, w)
    requires a.w in s.writers ==> WriterInv(s, a.w)
    ensures WriterInv(Apply(s, a), w)
  {
    if w == a.w {
      ActorKept(s, a);
    } else {
      assert w in s.writers;
      OtherKept(s, a, w);
    }
    hide Apply, Enabled, WriterInv, NamesInv, NoSharing;
  }

  lemma StepKeepsInv(s: State, a: Action)
    requires Inv(s) && Enabled(s, a)
    ensures Inv(Apply(s, a))
  {
    hide NamesInv, NoSharing, WritesTarget, WriterInv, Enabled, Apply;
    NamesKept(s, a);
    forall w ensures !WritesTarget(Apply(s, a), w) {
      TargetKept(s, a, w);
    }
    forall w | w in Apply(s, a).writers ensures WriterInv(Apply(s, a), w) {
      WriterKept(s, a, w);
    }
    PairsKept(s, a);
  }

  lemma PairsKept(s: State, a: Action)
    requires Inv(s) && Enabled(s, a)
    ensures NoSharing(Apply(s, a))
  {
    hide NamesInv, WritesTarget, WriterInv, Enabled, Apply;
    forall v, w | SameFile(Apply(s, a), v, w) ensures v == w {
      SharingKept(s, a, v, w);
    }
  }

  lemma {:induction false} RunKeepsInv(states: seq<State>, actions: seq<Action>, k: nat)
    requires IsRun(states, actions) && k < |states|
    ensures Inv(states[k])
  {
    if k == 0 {
    } else {
      RunKeepsInv(states, actions, k - 1);
      assert Enabled(states[k - 1], actions[k - 1]) && states[k] == Apply(states[k - 1], actions[k - 1]);
      hide IsRun, Inv, Enabled, Apply;
      StepKeepsInv(states[k - 1], actions[k - 1]);
    }
  }

  // ---- What a reader of the target can find ----

  /** A step either leaves the content of the target alone, or commits one complete payload. */
  lemma OnlyCommitsChangeTarget(s: State, a: Action)
    requires Inv(s) && Enabled(s, a)
    ensures a.step != Commit ==> TargetContent(Apply(s, a)) == TargetContent(s)
    ensures a.step == Commit ==> TargetContent(Apply(s, a)) == Some(s.writers[a.w].payload)
  {
    assert !WritesTarget(s, a.w);
    assert a.w in s.writers ==> WriterInv(s, a.w);
  }

  /** At every point of every run, whoever was killed or failed wherever, the target is as it was
    * at the start or holds the complete payload of a writer that committed. */
  lemma {:induction false} TargetIsOldOrComplete(states: seq<State>, actions: seq<Action>, k: nat)
    requires IsRun(states, actions) && k < |states|
    ensures TargetContent(states[k]) == TargetContent(states[0]) || exists j: nat ::
              j < k && actions[j].step == Commit && actions[j].w in states[j].writers
              && TargetContent(states[k]) == Some(states[j].writers[actions[j].w].payload)
  {
    if k > 0 {
      TargetIsOldOrComplete(states, actions, k - 1);
      RunKeepsInv(states, actions, k - 1);
      assert Enabled(states[k - 1], actions[k - 1]) && states[k] == Apply(states[k - 1], actions[k - 1]);
      OnlyCommitsChangeTarget(states[k - 1], actions[k - 1]);
    }
  }

  // ---- Exclusive creation ----

  /** The writer has put its file under the target name. */
  predicate Past(s: State, w: Id) {
    w in s.writers && s.writers[w].phase in {Committed, Cleaned, Returned}
  }

  predicate Creator(s: State, w: Id) {
    Past(s, w) && s.writers[w].exclusive
  }

  ghost predicate CreatorInv(s: State) {
    && (forall w :: Past(s, w) ==> Target in s.names)
    && (forall v, w :: Creator(s, v) && Creator(s, w) ==> v == w)
    && ((forall w :: w in s.writers ==> s.writers[w].exclusive) ==>
          forall w :: Past(s, w) ==> s.names[Target] == s.writers[w].inode)
  }

  lemma PastComesFrom(s: State, a: Action, w: Id)
    requires Enabled(s, a) && Past(Apply(s, a), w)
    ensures Past(s, w) || (a.step == Commit && a.w == w)
    ensures w in s.writers && Apply(s, a).writers[w].exclusive == s.writers[w].exclusive
    ensures Apply(s, a).writers[w].inode == s.writers[w].inode
  {
  }

  lemma TargetStays(s: State, a: Action)
    requires Enabled(s, a) && Target in s.names
    ensures Target in Apply(s, a).names
    ensures Apply(s, a).names[Target] == s.names[Target] || (a.step == Commit && !s.writers[a.w].exclusive)
  {
  }

  lemma WritersStay(s: State, a: Action, w: Id)
    requires Enabled(s, a) && w in s.writers
    ensures w in Apply(s, a).writers && Apply(s, a).writers[w].exclusive == s.writers[w].exclusive
  {
  }

  lemma CreatorKept(s: State, a: Action)
    requires Inv(s) && CreatorInv(s) && Enabled(s, a)
    ensures CreatorInv(Apply(s, a))
  {
    var t := Apply(s, a);
    forall w | Past(t, w) ensures Target in t.names {
      PastComesFrom(s, a, w);
      if Past(s, w) {
        TargetStays(s, a);
      }
    }
    forall v, w | Creator(t, v) && Creator(t, w) ensures v == w {
      PastComesFrom(s, a, v);
      PastComesFrom(s, a, w);
      assert Creator(s, v) || (a.step == Commit && a.w == v);
      assert Creator(s, w) || (a.step == Commit && a.w == w);
    }
    if forall w :: w in t.writers ==> t.writers[w].exclusive {
      forall w | w in s.writers ensures s.writers[w].exclusive {
        WritersStay(s, a, w);
      }
      forall w | Past(t, w) ensures t.names[Target] == t.writers[w].inode {
        PastComesFrom(s, a, w);
        if Past(s, w) {
          TargetStays(s, a);
        } else {
          assert WriterInv(s, w);
        }
      }
    }
  }

  lemma {:induction false} RunKeepsCreators(states: seq<State>, actions: seq<Action>, k: nat)
    requires IsRun(states, actions) && k < |states|
    ensures CreatorInv(states[k])
  {
    if k == 0 {
    } else {
      RunKeepsCreators(states, actions, k - 1);
      RunKeepsInv(states, actions, k - 1);
      assert Enabled(states[k - 1], actions[k - 1]) && states[k] == Apply(states[k - 1], actions[k - 1]);
      hide IsRun, Inv, CreatorInv, Enabled, Apply;
      CreatorKept(states[k - 1], actions[k - 1]);
    }
  }

  /** Of any number of exclusive creators at most one returns, even beside replacing writers. */
  lemma OneCreatorReturns(states: seq<State>, actions: seq<Action>, k: nat, v: Id, w: Id)
    requires IsRun(states, actions) && k < |states|
    requires In(states[k], v, Returned) && states[k].writers[v].exclusive
    requires In(states[k], w, Returned) && states[k].writers[w].exclusive
    ensures v == w
  {
    RunKeepsCreators(states, actions, k);
    assert Creator(states[k], v) && Creator(states[k], w);
  }

  /** Among exclusive creators only, the one that returned has its payload in the file. */
  lemma CreatorsPayloadIsThere(states: seq<State>, actions: seq<Action>, k: nat, w: Id)
    requires IsRun(states, actions) && k < |states| && In(states[k], w, Returned)
    requires forall v :: v in states[k].writers ==> states[k].writers[v].exclusive
    ensures TargetContent(states[k]) == Some(states[k].writers[w].payload)
  {
    RunKeepsCreators(states, actions, k);
    RunKeepsInv(states, actions, k);
    assert Past(states[k], w) && WriterInv(states[k], w);
  }
}
