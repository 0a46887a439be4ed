/** The technical recovery tail after the primary queue: rounds of task-level reruns. */
module RecoveryTail {
  import opened Wrappers
  import opened Scheduler

  datatype Mode = Generation | EvalOnly

  /** `evalLimit` is the number of official evaluations the rerun may have started in all. */
  datatype Attempt = Attempt(index: int, ordinal: nat, mode: Mode, evalLimit: nat)

  /** Whether a result shows a non-empty candidate, and whether its identity is proven. */
  datatype Candidate = NoTrace | Unproven | Proven

  /** `outage` is a shared outage that a direct probe confirmed, `resource` any other reason that
    * blames the machinery and not the task. */
  datatype Report = Report(
    technical: bool, outage: bool, image: bool, resource: bool, candidate: Candidate, evalAttempts: nat)

  /** An attempt made and whether its result was technical again. */
  datatype Made = Made(attempt: Attempt, technical: bool)

  /** The selected result of one task, with the attempts that led to it. */
  datatype Selected = Selected(report: Report, attempts: seq<Made>)

  predicate Systemic(r: Report) {
    r.outage || r.resource
  }

  /** The result must not be recovered automatically. */
  predicate Blocked(r: Report) {
    !r.technical || r.outage || r.image || r.candidate == Unproven
  }

  function Plan(index: int, ordinal: nat, r: Report): Option<Attempt> {
    if Blocked(r) then None
    else if r.candidate == Proven then
      Some(Attempt(index, ordinal, EvalOnly, if r.evalAttempts + 1 < 2 then r.evalAttempts + 1 else 2))
    else Some(Attempt(index, ordinal, Generation, 1))
  }

  function Select(previous: Selected, attempt: Attempt, report: Report): Selected {
    Selected(report, previous.attempts + [Made(attempt, report.technical)])
  }

  // ---- What may have happened to one task ----

  /** `trail` are the reports the task went through, from the primary one to the selected one. Every
    * report but the last was open to recovery and planned the attempt that replaced it, with ordinals
    * counting from 1; no report but the first and the last was systemic; all attempts are on record. */
  ghost predicate IsTrail(index: int, initial: Selected, trail: seq<Report>, now: Selected) {
    && |trail| >= 1 && trail[0] == initial.report && trail[|trail| - 1] == now.report
    && |now.attempts| == |initial.attempts| + |trail| - 1
    && initial.attempts <= now.attempts
    && forall j: nat {:trigger Rerun(index, initial, trail, now, j)} :: j < |trail| - 1 ==>
         Rerun(index, initial, trail, now, j)
  }

  ghost predicate Rerun(index: int, initial: Selected, trail: seq<Report>, now: Selected, j: nat)
    requires j < |trail| - 1 && |now.attempts| == |initial.attempts| + |trail| - 1
  {
    var made := now.attempts[|initial.attempts| + j];
    && Plan(index, j + 1, trail[j]) == Some(made.attempt)
    && made.technical == trail[j + 1].technical
    && (j > 0 ==> !Systemic(trail[j]))
  }

  /** No rerun gave a systemic result. */
  predicate Calm(trail: seq<Report>) {
    forall j :: 1 <= j < |trail| ==> !Systemic(trail[j])
  }

  lemma TrailGrows(index: int, initial: Selected, trail: seq<Report>, now: Selected, attempt: Attempt, report: Report)
    requires IsTrail(index, initial, trail, now) && Calm(trail)
    requires Plan(index, |trail|, now.report) == Some(attempt)
    ensures IsTrail(index, initial, trail + [report], Select(now, attempt, report))
    ensures !Systemic(report) ==> Calm(trail + [report])
  {
    var longer, next := trail + [report], Select(now, attempt, report);
    forall j: nat {:trigger Rerun(index, initial, longer, next, j)} | j < |longer| - 1
      ensures Rerun(index, initial, longer, next, j)
    {
      if j < |trail| - 1 {
        assert Rerun(index, initial, trail, now, j);
      }
    }
  }

  lemma FirstIsPlanned(index: int, initial: Selected, trail: seq<Report>, now: Selected)
    requires IsTrail(index, initial, trail, now) && |trail| > 1
    ensures Plan(index, 1, initial.report).Some?
  {
    assert Rerun(index, initial, trail, now, 0);
  }

  /** A result that may not be recovered, such as any verdict, is never touched. */
  lemma SettledStays(index: int, initial: Selected, trail: seq<Report>, now: Selected)
    requires IsTrail(index, initial, trail, now) && Blocked(initial.report)
    ensures now == initial && |trail| == 1
  {
    if |trail| > 1 {
      FirstIsPlanned(index, initial, trail, now);
      assert false;
    }
  }

  /** Reruns go on from technical results only, whatever came of them stands, a proven candidate is
    * evaluated and never generated again, and nothing is generated while there is a candidate. */
  lemma RerunsAreJustified(index: int, initial: Selected, trail: seq<Report>, now: Selected, k: nat)
    requires IsTrail(index, initial, trail, now) && |initial.attempts| <= k < |now.attempts|
    ensures var made, before := now.attempts[k], trail[k - |initial.attempts|];
            && before.technical && !before.outage && !before.image
            && made.attempt.index == index && made.attempt.ordinal == k - |initial.attempts| + 1
            && (made.attempt.mode == EvalOnly <==> before.candidate == Proven)
            && (made.attempt.mode == Generation <==> before.candidate == NoTrace)
            && 1 <= made.attempt.evalLimit <= 2
            && (made.attempt.evalLimit == 2 <==> before.candidate == Proven && before.evalAttempts > 0)
    ensures k + 1 < |now.attempts| ==> now.attempts[k].technical
  {
    var j := k - |initial.attempts|;
    assert Rerun(index, initial, trail, now, j);
    if k + 1 < |now.attempts| {
      assert Rerun(index, initial, trail, now, j + 1);
    }
  }

  /** No two reruns share task and ordinal, so their run names and directories differ. */
  lemma RerunsAreDistinct(
    index: int, initial: Selected, trail: seq<Report>, now: Selected, other: int, initial': Selected,
    trail': seq<Report>, now': Selected, k: nat, m: nat)
    requires IsTrail(index, initial, trail, now) && |initial.attempts| <= k < |now.attempts|
    requires IsTrail(other, initial', trail', now') && |initial'.attempts| <= m < |now'.attempts|
    requires index == other ==> initial == initial'
    requires (index, k) != (other, m)
    ensures var a, b := now.attempts[k].attempt, now'.attempts[m].attempt;
            (a.index, a.ordinal) != (b.index, b.ordinal)
  {
    RerunsAreJustified(index, initial, trail, now, k);
    RerunsAreJustified(other, initial', trail', now', m);
  }

  // ---- Where one task stands in a round ----

  /** A task with an open attempt has gone through every round before this one; another one has gone
    * through this round too, or may not be recovered. */
  ghost predicate Stands(
    index: int, initial: Selected, trail: seq<Report>, now: Selected, ordinal: nat, open: Option<Attempt>)
  {
    && IsTrail(index, initial, trail, now)
    && if open.Some? then |trail| == ordinal && Plan(index, ordinal, now.report) == open && Calm(trail)
       else |trail| == ordinal + 1 || (|trail| <= ordinal && Blocked(now.report))
  }

  function OpenAt(open: map<int, Attempt>, index: int): Option<Attempt> {
    if index in open then Some(open[index]) else None
  }

  /** All tasks, at the given round. */
  ghost predicate AllStand(
    initial: map<int, Selected>, trails: map<int, seq<Report>>, selected: map<int, Selected>, ordinal: nat,
    open: map<int, Attempt>)
  {
    && initial.Keys == trails.Keys == selected.Keys && open.Keys <= initial.Keys
    && forall i :: i in initial ==> Stands(i, initial[i], trails[i], selected[i], ordinal, OpenAt(open, i))
  }

  /** Every task has a result, and went from its first one to it in at most `limit` reruns. */
  ghost predicate AllTrails(
    initial: map<int, Selected>, trails: map<int, seq<Report>>, selected: map<int, Selected>, limit: nat)
  {
    && initial.Keys == trails.Keys == selected.Keys
    && forall i :: i in initial ==>
         IsTrail(i, initial[i], trails[i], selected[i]) && |trails[i]| <= limit + 1
  }

  ghost predicate AllCalm(trails: map<int, seq<Report>>) {
    forall i :: i in trails ==> Calm(trails[i])
  }

  /** The open attempts are those waiting and those in flight, one a task. */
  ghost predicate Splits(open: map<int, Attempt>, pending: seq<Attempt>, futures: set<Attempt>) {
    && NoDuplicates(pending)
    && (forall a :: a in pending ==> a !in futures)
    && (forall a :: a in pending || a in futures ==> a.index in open && open[a.index] == a)
    && (forall i :: i in open ==> open[i].index == i && (open[i] in pending || open[i] in futures))
  }

  /** The attempts of a round, in configured order. */
  function Planned(indices: seq<int>, ordinal: nat, selected: map<int, Selected>): seq<Attempt>
    requires forall i :: i in indices ==> i in selected
  {
    if indices == [] then []
    else
      var rest, last := indices[..|indices| - 1], indices[|indices| - 1];
      var plan := Plan(last, ordinal, selected[last].report);
      Planned(rest, ordinal, selected) + if plan.Some? then [plan.value] else []
  }

  lemma {:induction false} PlannedAre(indices: seq<int>, ordinal: nat, selected: map<int, Selected>)
    requires NoDuplicates(indices) && forall i :: i in indices ==> i in selected
    ensures NoDuplicates(Planned(indices, ordinal, selected))
    ensures forall a :: a in Planned(indices, ordinal, selected) <==>
              a.index in indices && Plan(a.index, ordinal, selected[a.index].report) == Some(a)
  {
    if indices != [] {
      var rest, last := indices[..|indices| - 1], indices[|indices| - 1];
      PlannedAre(rest, ordinal, selected);
      assert indices == rest + [last] && last !in rest;
      assert forall i :: i in indices <==> i in rest || i == last;
    }
  }

  lemma NextRound(
    indices: seq<int>, initial: map<int, Selected>, trails: map<int, seq<Report>>, selected: map<int, Selected>,
    ordinal: nat, attempts: seq<Attempt>, open: map<int, Attempt>)
    requires AllStand(initial, trails, selected, ordinal, map[]) && AllCalm(trails)
    requires NoDuplicates(indices) && forall i :: i in indices <==> i in initial
    requires attempts == Planned(indices, ordinal + 1, selected)
    requires open == map i | i in initial && !Blocked(selected[i].report) ::
                       Plan(i, ordinal + 1, selected[i].report).value
    ensures AllStand(initial, trails, selected, ordinal + 1, open)
    ensures Splits(open, attempts, {})
  {
    PlannedAre(indices, ordinal + 1, selected);
    forall i | i in initial ensures Stands(i, initial[i], trails[i], selected[i], ordinal + 1, OpenAt(open, i)) {
      assert Stands(i, initial[i], trails[i], selected[i], ordinal, OpenAt(map[], i));
    }
  }

  lemma StepTask(
    initial: map<int, Selected>, trails: map<int, seq<Report>>, selected: map<int, Selected>, ordinal: nat,
    open: map<int, Attempt>, a: Attempt, report: Report)
    requires AllStand(initial, trails, selected, ordinal, open) && a.index in open && open[a.index] == a
    ensures var trails', selected' :=
              trails[a.index := trails[a.index] + [report]],
              selected[a.index := Select(selected[a.index], a, report)];
            && AllStand(initial, trails', selected', ordinal, open - {a.index})
            && (AllCalm(trails) && !Systemic(report) ==> AllCalm(trails'))
  {
    var i := a.index;
    assert Stands(i, initial[i], trails[i], selected[i], ordinal, OpenAt(open, i));
    TrailGrows(i, initial[i], trails[i], selected[i], a, report);
    var trails', selected' := trails[i := trails[i] + [report]], selected[i := Select(selected[i], a, report)];
    hide IsTrail, Calm, Plan;
    forall k | k in initial
      ensures Stands(k, initial[k], trails'[k], selected'[k], ordinal, OpenAt(open - {i}, k))
    {
      assert Stands(k, initial[k], trails[k], selected[k], ordinal, OpenAt(open, k));
    }
  }

  function Indexes(attempts: seq<Attempt>): seq<int> {
    seq(|attempts|, k requires 0 <= k < |attempts| => attempts[k].index)
  }

  ghost predicate Sound(
    initial: map<int, Selected>, trails: map<int, seq<Report>>, selected: map<int, Selected>, ordinal: nat,
    open: map<int, Attempt>, pending: seq<Attempt>, futures: set<Attempt>, halted: bool)
  {
    && AllStand(initial, trails, selected, ordinal, open)
    && Splits(open, pending, futures)
    && (!halted ==> AllCalm(trails))
  }

  lemma FinishKeepsSound(
    initial: map<int, Selected>, trails: map<int, seq<Report>>, selected: map<int, Selected>, ordinal: nat,
    open: map<int, Attempt>, pending: seq<Attempt>, futures: set<Attempt>, halted: bool, a: Attempt, report: Report)
    requires Sound(initial, trails, selected, ordinal, open, pending, futures, halted) && a in futures
    ensures a.index in trails && a.index in selected
    ensures Sound(
      initial, trails[a.index := trails[a.index] + [report]],
      selected[a.index := Select(selected[a.index], a, report)], ordinal, open - {a.index}, pending, futures - {a},
      halted || Systemic(report))
  {
    hide AllStand, AllCalm, Splits, Select, Systemic;
    EndAttempt(open, pending, futures, a);
    KeysFit(initial, trails, selected, ordinal, open);
    StepTask(initial, trails, selected, ordinal, open, a, report);
  }

  // ---- The tail ----

  class Tail {
    const config: Config
    const limit: nat
    ghost const initial: map<int, Selected>
    var selected: map<int, Selected>
    var listed: seq<int>               // the order in which results are reported
    var pending: seq<Attempt>
    var futures: set<Attempt>
    var pace: Pace
    var halted: bool
    var notStarted: seq<int>
    var ordinal: nat
    ghost var trails: map<int, seq<Report>>
    ghost var open: map<int, Attempt>

    ghost predicate Valid()
      reads this
    {
      && ValidConfig(config) && InRange(config, pace)
      && |futures| <= config.maxWorkers
      && ordinal <= limit
      && (forall i :: i in config.indices <==> i in initial)
      && Sound(initial, trails, selected, ordinal, open, pending, futures, halted)
      && (halted ==> notStarted == Indexes(pending))
    }

    /** The primary queue has ended without a halt, so that every configured task has a result; after
      * a halt there is no tail. */
    constructor (config: Config, limit: nat, results: map<int, Selected>, finished: seq<int>, pace: Pace)
      requires ValidConfig(config) && InRange(config, pace)
      requires forall i :: i in config.indices <==> i in results
      ensures Valid() && this.config == config && this.limit == limit && initial == results && selected == results
      ensures !halted && ordinal == 0 && pending == [] && futures == {} && listed == finished
    {
      listed := finished;
      this.config, this.limit, this.pace := config, limit, pace;
      initial, selected := results, results;
      pending, futures, halted, notStarted := [], {}, false, [];
      ordinal, open := 0, map[];
      trails := map i | i in results :: [results[i].report];
    }

    /** Plans one attempt for every task that may be recovered. */
    method PlanRound()
      requires Valid() && !halted && pending == [] && futures == {} && ordinal < limit
      modifies this`pending, this`ordinal, this`open
      ensures Valid() && ordinal == old(ordinal) + 1
      ensures pending == Planned(config.indices, ordinal, selected)
    {
      hide ValidConfig, InRange, AllStand, AllCalm, Splits, Blocked;
      KeysFit(initial, trails, selected, ordinal, open);
      NoneOpen(open);
      var attempts := PlanAll(config.indices, ordinal + 1, selected);
      ghost var next := map i | i in initial && !Blocked(selected[i].report) ::
                          Plan(i, ordinal + 1, selected[i].report).value;
      DistinctIndices(config);
      NextRound(config.indices, initial, trails, selected, ordinal, attempts, next);
      ordinal, open, pending := ordinal + 1, next, attempts;
    }

    method SubmitReady(reading: Option<int>)
      requires Valid()
      modifies this`pending, this`futures, this`pace
      ensures Valid() && pace == Control(config, old(pace), reading)
      ensures halted ==> pending == old(pending) && futures == old(futures)
      ensures !halted ==> pending == [] || (futures != {} && |futures| >= pace.workers)
      ensures old(futures) <= futures
    {
      hide ValidConfig, Control, AllStand, AllCalm, Splits;
      PaceStaysInRange(config, pace, false, reading);
      pace := Control(config, pace, reading);
      while pending != [] && !halted && |futures| < pace.workers
        invariant Valid() && pace == Control(config, old(pace), reading)
        invariant halted ==> pending == old(pending) && futures == old(futures)
        invariant old(futures) <= futures
        decreases |pending|
      {
        var attempt := pending[0];
        StartAttempt(open, pending, futures);
        pending := pending[1..];
        futures := futures + {attempt};
      }
    }

    /** The result of one attempt replaces the selected one. A systemic result halts the tail. */
    method Finish(attempt: Attempt, report: Report)
      requires Valid() && attempt in futures
      modifies this`selected, this`futures, this`pace, this`halted, this`notStarted, this`trails, this`open
      ensures Valid() && futures == old(futures) - {attempt}
      ensures selected ==
              old(selected)[attempt.index := Select(old(selected)[attempt.index], attempt, report)]
      ensures pace == Update(config, old(pace), Systemic(report))
      ensures halted == (old(halted) || Systemic(report))
    {
      hide ValidConfig, InRange, Update, Sound, Select, Systemic, Indexes;
      FinishKeepsSound(initial, trails, selected, ordinal, open, pending, futures, halted, attempt, report);
      PaceStaysInRange(config, pace, Systemic(report), None);
      futures := futures - {attempt};
      selected := selected[attempt.index := Select(selected[attempt.index], attempt, report)];
      trails := trails[attempt.index := trails[attempt.index] + [report]];
      open := open - {attempt.index};
      pace := Update(config, pace, Systemic(report));
      if Systemic(report) && !halted {
        halted := true;
        notStarted := Indexes(pending);
      }
    }

    /** The results of one wait, each followed by new starts. */
    method TakeDone(done: seq<Attempt>)
      requires Valid() && done != [] && NoDuplicates(done) && forall a :: a in done ==> a in futures
      modifies this`selected, this`pending, this`futures, this`pace, this`halted, this`notStarted, this`trails,
               this`open
      ensures Valid() && (old(halted) ==> halted)
      ensures futures != {} || halted || pending == []
    {
      hide *;
      for k := 0 to |done|
        invariant Valid() && (old(halted) ==> halted)
        invariant forall j :: k <= j < |done| ==> done[j] in futures
        invariant k > 0 ==> futures != {} || halted || pending == []
      {
        var report: Report := *;
        OthersRemain(done, k);
        Finish(done[k], report);
        var reading: Option<int> := *;
        SubmitReady(reading);
      }
    }

    /** One planned round, for at most `patience` waits. Left alone it ends with nothing in flight, and
      * with nothing waiting unless it was halted. */
    method RunRound(patience: nat) returns (ended: bool)
      requires Valid() && !halted
      modifies this`selected, this`pending, this`futures, this`pace, this`halted, this`notStarted, this`trails,
               this`open
      ensures Valid()
      ensures ended ==> futures == {} && (!halted ==> pending == [])
    {
      var reading: Option<int> := *;
      SubmitReady(reading);
      var waits := 0;
      while futures != {}
        invariant Valid() && waits <= patience
        invariant futures == {} && !halted ==> pending == []
        decreases patience - waits
      {
        if waits == patience {
          return false;
        }
        waits := waits + 1;
        var done := Finished(futures);
        if done == [] {
          reading := *;
          SubmitReady(reading);
        } else {
          TakeDone(done);
        }
      }
      return true;
    }

    /** The whole tail. Every task keeps one result, reached by a trail of justified reruns; without a
      * halt, each ends settled or with all its recoveries used, and those are the exhausted ones. */
    method Recover(patience: nat) returns (ended: bool, exhausted: seq<int>)
      requires Valid() && !halted && ordinal == 0 && pending == [] && futures == {} && selected == initial
      modifies this
      ensures Valid()
      ensures AllTrails(initial, trails, selected, limit)
      ensures ended ==> futures == {} && (halted || pending == [])
      ensures limit == 0 ==> ended && selected == initial && listed == old(listed) && exhausted == []
      ensures ended && limit > 0 ==> listed == config.indices
      ensures ended && !halted && limit > 0 ==> forall i :: i in initial ==>
                if i in exhausted then |trails[i]| == limit + 1 && !Blocked(selected[i].report)
                else Blocked(selected[i].report)
      ensures ended && halted ==> exhausted == []
    {
      TrailsOf(initial, trails, selected, ordinal, open, limit);
      if limit == 0 {
        return true, [];
      }
      hide ValidConfig, InRange, AllStand, AllCalm, Splits, Planned, AllTrails;
      var round := 0;
      while round < limit
        invariant Valid() && !halted && ordinal == round && pending == [] && futures == {}
        decreases limit - round
      {
        round := round + 1;
        PlanRound();
        if pending == [] {
          NothingPlanned(config.indices, ordinal, selected);
          break;
        }
        ended := RunRound(patience);
        if !ended {
          TrailsOf(initial, trails, selected, ordinal, open, limit);
          return false, [];
        }
        if halted {
          break;
        }
      }
      KeysFit(initial, trails, selected, ordinal, open);
      TrailsOf(initial, trails, selected, ordinal, open, limit);
      exhausted := [];
      if !halted {
        exhausted := StillOpen(config.indices, selected);
        NoneOpen(open);
        AllSettled(initial, trails, selected, ordinal, open);
      }
      listed := config.indices;
      ended := true;
    }
  }

  method PlanAll(indices: seq<int>, ordinal: nat, selected: map<int, Selected>) returns (attempts: seq<Attempt>)
    requires forall i :: i in indices ==> i in selected
    ensures attempts == Planned(indices, ordinal, selected)
  {
    attempts := [];
    for k := 0 to |indices|
      invariant attempts == Planned(indices[..k], ordinal, selected)
    {
      assert indices[..k + 1] == indices[..k] + [indices[k]];
      var plan := Plan(indices[k], ordinal, selected[indices[k]].report);
      if plan.Some? {
        attempts := attempts + [plan.value];
      }
    }
    assert indices[..|indices|] == indices;
  }

  lemma DistinctIndices(c: Config)
    requires ValidConfig(c)
    ensures NoDuplicates(c.indices)
  {
  }

  lemma StartAttempt(open: map<int, Attempt>, pending: seq<Attempt>, futures: set<Attempt>)
    requires Splits(open, pending, futures) && pending != []
    ensures Splits(open, pending[1..], futures + {pending[0]}) && pending[0] !in futures
  {
    assert pending == [pending[0]] + pending[1..];
  }

  lemma EndAttempt(open: map<int, Attempt>, pending: seq<Attempt>, futures: set<Attempt>, attempt: Attempt)
    requires Splits(open, pending, futures) && attempt in futures
    ensures Splits(open - {attempt.index}, pending, futures - {attempt})
    ensures attempt.index in open && open[attempt.index] == attempt
  {
  }

  lemma OthersRemain(done: seq<Attempt>, k: nat)
    requires NoDuplicates(done) && k < |done|
    ensures forall j :: k < j < |done| ==> done[j] != done[k]
  {
  }

  lemma NoneOpen(open: map<int, Attempt>)
    requires Splits(open, [], {})
    ensures open == map[]
  {
    forall i ensures i !in open.Keys {
    }
  }

  lemma KeysFit(
    initial: map<int, Selected>, trails: map<int, seq<Report>>, selected: map<int, Selected>, ordinal: nat,
    open: map<int, Attempt>)
    requires AllStand(initial, trails, selected, ordinal, open)
    ensures initial.Keys == trails.Keys == selected.Keys && open.Keys <= initial.Keys
  {
  }

  lemma {:induction false} NothingPlanned(indices: seq<int>, ordinal: nat, selected: map<int, Selected>)
    requires forall i :: i in indices ==> i in selected
    requires Planned(indices, ordinal, selected) == []
    ensures forall i :: i in indices ==> Blocked(selected[i].report)
  {
    if indices != [] {
      var rest, last := indices[..|indices| - 1], indices[|indices| - 1];
      NothingPlanned(rest, ordinal, selected);
      assert indices == rest + [last];
    }
  }

  lemma TrailsOf(
    initial: map<int, Selected>, trails: map<int, seq<Report>>, selected: map<int, Selected>, ordinal: nat,
    open: map<int, Attempt>, limit: nat)
    requires AllStand(initial, trails, selected, ordinal, open) && ordinal <= limit
    ensures AllTrails(initial, trails, selected, limit)
  {
    forall i | i in initial
      ensures IsTrail(i, initial[i], trails[i], selected[i]) && |trails[i]| <= limit + 1
    {
      assert Stands(i, initial[i], trails[i], selected[i], ordinal, OpenAt(open, i));
    }
  }

  lemma AllSettled(
    initial: map<int, Selected>, trails: map<int, seq<Report>>, selected: map<int, Selected>, ordinal: nat,
    open: map<int, Attempt>)
    requires AllStand(initial, trails, selected, ordinal, open) && open == map[]
    ensures forall i :: i in initial ==> |trails[i]| == ordinal + 1 || Blocked(selected[i].report)
  {
    forall i | i in initial ensures |trails[i]| == ordinal + 1 || Blocked(selected[i].report) {
      assert Stands(i, initial[i], trails[i], selected[i], ordinal, OpenAt(open, i));
    }
  }

  /** Any of the attempts in flight, in any order. */
  method Finished(futures: set<Attempt>) returns (done: seq<Attempt>)
    ensures NoDuplicates(done) && forall a :: a in done ==> a in futures
  {
    var left := futures;
    done := [];
    while left != {}
      invariant left <= futures && NoDuplicates(done)
      invariant forall a :: a in done ==> a in futures && a !in left
    {
      var a :| a in left;
      var finished: bool := *;
      left := left - {a};
      if finished {
        done := done + [a];
      }
    }
  }

  /** The tasks that are still technical and open to recovery. */
  method StillOpen(indices: seq<int>, selected: map<int, Selected>) returns (found: seq<int>)
    requires forall i :: i in indices ==> i in selected
    ensures forall i :: i in found <==> i in indices && !Blocked(selected[i].report)
  {
    found := [];
    for k := 0 to |indices|
      invariant forall i :: i in found <==> i in indices[..k] && !Blocked(selected[i].report)
    {
      var index := indices[k];
      assert indices[..k + 1] == indices[..k] + [index];
      assert index in indices;
      if !Blocked(selected[index].report) {
        found := found + [index];
      }
    }
    assert indices[..|indices|] == indices;
  }
}
