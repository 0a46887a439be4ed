/** The primary queue of the parallel runner: adaptive workers, halting, and the main loop. */
module Scheduler {
  import opened Wrappers

  datatype Config = Config(
    indices: seq<int>, maxWorkers: nat, minWorkers: nat, adaptive: bool, recoveryTasks: nat)

  /** What configuration guarantees. */
  ghost predicate ValidConfig(c: Config) {
    1 <= c.minWorkers <= c.maxWorkers && 1 <= c.recoveryTasks && NoDuplicates(c.indices)
  }

  /** The adaptive state. */
  datatype Pace = Pace(workers: nat, streak: nat)

  /** The effect of one finished task; `failed` says that it gave a resource reason. */
  function Update(c: Config, p: Pace, failed: bool): Pace {
    if !c.adaptive then p
    else if failed then Pace(if p.workers > c.minWorkers then p.workers - 1 else c.minWorkers, 0)
    else if p.workers < c.maxWorkers && p.streak + 1 >= c.recoveryTasks then Pace(p.workers + 1, 0)
    else Pace(p.workers, p.streak + 1)
  }

  /** The capacity control file, when it is configured and says something usable. */
  function Control(c: Config, p: Pace, reading: Option<int>): Pace {
    if reading.Some? && reading.value >= 1 then
      Pace(if reading.value < c.maxWorkers then reading.value else c.maxWorkers, p.streak)
    else p
  }

  predicate InRange(c: Config, p: Pace) {
    1 <= p.workers <= c.maxWorkers
  }

  lemma PaceStaysInRange(c: Config, p: Pace, failed: bool, reading: Option<int>)
    requires ValidConfig(c) && InRange(c, p)
    ensures InRange(c, Update(c, p, failed)) && InRange(c, Control(c, p, reading))
  {
  }

  // ---- How fast workers come back ----

  function AfterClean(c: Config, p: Pace, n: nat): Pace {
    if n == 0 then p else Update(c, AfterClean(c, p, n - 1), false)
  }

  /** Below the maximum the streak has not yet earned a worker. */
  predicate Earned(c: Config, p: Pace) {
    p.workers < c.maxWorkers ==> p.streak < c.recoveryTasks
  }

  function ClosedForm(c: Config, p: Pace, n: nat): nat
    requires c.recoveryTasks >= 1
  {
    var workers := p.workers + (p.streak + n) / c.recoveryTasks;
    if workers < c.maxWorkers then workers else c.maxWorkers
  }

  lemma MulAtLeast(a: int, b: int, r: int)
    requires a <= b && 0 <= r
    ensures a * r <= b * r
  {
  }

  lemma MulOneMore(a: int, r: int)
    ensures (a + 1) * r == a * r + r
  {
  }

  lemma QuotientAtLeast(total: int, q: int, r: int)
    requires r >= 1 && total >= q * r
    ensures total / r >= q
  {
    var d := total / r;
    assert total < d * r + r;
    if d < q {
      MulAtLeast(d + 1, q, r);
      MulOneMore(d, r);
    }
  }

  lemma QuotientAtMost(total: int, q: int, r: int)
    requires r >= 1 && total < q * r + r
    ensures total / r <= q
  {
    var d := total / r;
    assert d * r <= total;
    if d > q {
      MulAtLeast(q + 1, d, r);
      MulOneMore(q, r);
    }
  }

  /** Clean results are either still in the streak or have become workers, up to the maximum. */
  lemma {:induction false} CleanResultsAddUp(c: Config, p: Pace, n: nat)
    requires ValidConfig(c) && c.adaptive && InRange(c, p) && Earned(c, p)
    ensures var q := AfterClean(c, p, n);
            && InRange(c, q) && p.workers <= q.workers
            && (q.workers < c.maxWorkers ==>
                  (q.workers - p.workers) * c.recoveryTasks + q.streak == p.streak + n && q.streak < c.recoveryTasks)
            && (q.workers == c.maxWorkers ==> (q.workers - p.workers) * c.recoveryTasks <= p.streak + n)
  {
    if n > 0 {
      CleanResultsAddUp(c, p, n - 1);
      MulOneMore(AfterClean(c, p, n - 1).workers - p.workers, c.recoveryTasks);
    }
  }

  lemma CleanResultsFormula(c: Config, p: Pace, n: nat)
    requires ValidConfig(c) && c.adaptive && InRange(c, p) && Earned(c, p)
    ensures AfterClean(c, p, n).workers == ClosedForm(c, p, n)
  {
    CleanResultsAddUp(c, p, n);
    var q := AfterClean(c, p, n);
    if q.workers < c.maxWorkers {
      QuotientAtLeast(p.streak + n, q.workers - p.workers, c.recoveryTasks);
      QuotientAtMost(p.streak + n, q.workers - p.workers, c.recoveryTasks);
    } else {
      QuotientAtLeast(p.streak + n, q.workers - p.workers, c.recoveryTasks);
    }
  }

  /** The closed form min(max, c + (s + n) / R) holds after every number of clean results exactly
    * when the streak has not yet earned a worker, which a lowering control file can break. */
  lemma ClosedFormExactly(c: Config, p: Pace)
    requires ValidConfig(c) && c.adaptive && InRange(c, p)
    ensures Earned(c, p) <==> forall n: nat :: AfterClean(c, p, n).workers == ClosedForm(c, p, n)
  {
    if Earned(c, p) {
      forall n: nat ensures AfterClean(c, p, n).workers == ClosedForm(c, p, n) {
        CleanResultsFormula(c, p, n);
      }
    } else {
      QuotientAtLeast(p.streak + 0, 1, c.recoveryTasks);
      assert AfterClean(c, p, 0).workers != ClosedForm(c, p, 0);
    }
  }

  /** A control file takes the condition away exactly when it lowers the workers below the maximum after
    * a streak that has already earned one. */
  lemma ControlKeepsEarnedExactly(c: Config, p: Pace, reading: Option<int>)
    requires ValidConfig(c) && c.adaptive && InRange(c, p) && Earned(c, p)
    ensures Earned(c, Control(c, p, reading)) <==>
              !(reading.Some? && 1 <= reading.value < c.maxWorkers && p.streak >= c.recoveryTasks)
  {
  }

  lemma {:induction false} CleanAtMaximum(c: Config, n: nat)
    requires ValidConfig(c) && c.adaptive
    ensures AfterClean(c, Pace(c.maxWorkers, 0), n) == Pace(c.maxWorkers, n)
  {
    if n > 0 {
      CleanAtMaximum(c, n - 1);
    }
  }

  /** It does happen, wherever there is more than one worker: after enough clean results at the maximum
    * a control file asks for a single worker, and from there the closed form is wrong. */
  lemma ControlBreaksClosedForm(c: Config)
    requires ValidConfig(c) && c.adaptive && c.maxWorkers >= 2
    ensures var p := AfterClean(c, Pace(c.maxWorkers, 0), c.recoveryTasks);
            var q := Control(c, p, Some(1));
            && Earned(c, p) && InRange(c, q) && !Earned(c, q)
            && exists n: nat :: AfterClean(c, q, n).workers != ClosedForm(c, q, n)
  {
    CleanAtMaximum(c, c.recoveryTasks);
    var q := Control(c, AfterClean(c, Pace(c.maxWorkers, 0), c.recoveryTasks), Some(1));
    ClosedFormExactly(c, q);
  }

  function AfterResults(c: Config, p: Pace, failures: seq<bool>): Pace {
    if failures == [] then p else Update(c, AfterResults(c, p, failures[..|failures| - 1]), failures[|failures| - 1])
  }

  /** Without a control file the closed form is always available: whatever results came before. */
  lemma {:induction false} ResultsKeepEarned(c: Config, p: Pace, failures: seq<bool>)
    requires ValidConfig(c) && c.adaptive && InRange(c, p) && Earned(c, p)
    ensures InRange(c, AfterResults(c, p, failures)) && Earned(c, AfterResults(c, p, failures))
  {
    if failures != [] {
      ResultsKeepEarned(c, p, failures[..|failures| - 1]);
    }
  }

  // ---- The main loop ----

  datatype Outcome = Outcome(index: int, failed: bool)

  function IndicesOf(results: seq<Outcome>): set<int> {
    set r | r in results :: r.index
  }

  class Run {
    const config: Config
    var pending: seq<int>
    var futures: set<int>
    var results: seq<Outcome>
    var pace: Pace
    var halted: bool
    var notStarted: seq<int>
    ghost var started: nat     // how many of the configured indices have left `pending`

    ghost predicate Valid()
      reads this
    {
      && ValidConfig(config)
      && InRange(config, pace)
      && |futures| <= config.maxWorkers
      && started <= |config.indices|
      && pending == config.indices[started..]
      && Partition(config.indices[..started], futures, results)
      && (halted ==> pending == notStarted && pending != [])
    }

    constructor (config: Config, controlled: bool, reading: Option<int>)
      requires ValidConfig(config)
      ensures Valid() && this.config == config && pending == config.indices && futures == {} && results == []
      ensures !halted
    {
      this.config := config;
      pending, futures, results := config.indices, {}, [];
      var least := if config.minWorkers < config.maxWorkers then config.minWorkers else config.maxWorkers;
      var workers := if controlled then least else config.maxWorkers;
      pace := Control(config, Pace(workers, 0), if controlled then reading else None);
      halted, notStarted, started := false, [], 0;
    }

    /** Tasks are started in order, as long as there is room and no halt. */
    method SubmitReady(reading: Option<int>)
      requires Valid()
      modifies this
      ensures Valid() && results == old(results) && halted == old(halted) && notStarted == old(notStarted)
      ensures pace == Control(config, old(pace), reading)
      ensures old(halted) ==> pending == old(pending) && futures == old(futures)
      ensures !old(halted) ==> pending == [] || |futures| >= pace.workers
      ensures old(futures) <= futures && (pending == old(pending) || futures != {})
      ensures |futures| <= |old(futures)| || |futures| <= pace.workers
    {
      PaceStaysInRange(config, pace, false, reading);
      pace := Control(config, pace, reading);
      while pending != [] && !halted && |futures| < pace.workers
        invariant Valid() && results == old(results) && halted == old(halted) && notStarted == old(notStarted)
        invariant pace == Control(config, old(pace), reading)
        invariant old(halted) ==> pending == old(pending) && futures == old(futures)
        invariant old(futures) <= futures && (pending == old(pending) || futures != {})
        invariant |futures| <= |old(futures)| || |futures| <= pace.workers
        decreases |pending|
      {
        var index := pending[0];
        hide ValidConfig, Partition, InRange, Control;
        StartOne(config, started, futures, results);
        pending := pending[1..];
        futures := futures + {index};
        started := started + 1;
      }
    }

    /** The result of one finished task. A failure halts the run while tasks are still waiting. */
    method Record(index: int, failed: bool)
      requires Valid() && index in futures
      modifies this
      ensures Valid() && pending == old(pending) && futures == old(futures) - {index}
      ensures results == old(results) + [Outcome(index, failed)]
      ensures pace == Update(config, old(pace), failed)
      ensures halted == (old(halted) || (failed && pending != []))
      ensures old(halted) ==> notStarted == old(notStarted)
    {
      FinishOne(config.indices[..started], futures, results, Outcome(index, failed));
      PaceStaysInRange(config, pace, failed, None);
      futures := futures - {index};
      results := results + [Outcome(index, failed)];
      pace := Update(config, pace, failed);
      if failed && pending != [] && !halted {
        halted := true;
        notStarted := pending;
      }
    }

    /** One finished batch, in the order in which its results are taken. */
    method Complete(batch: seq<Outcome>)
      requires Valid() && IsBatch(batch, futures)
      modifies this
      ensures Valid() && pending == old(pending)
      ensures results == old(results) + batch && futures == old(futures) - IndicesOf(batch)
      ensures halted == (old(halted) || (AnyFailed(batch) && pending != []))
      ensures old(halted) ==> notStarted == old(notStarted)
    {
      NothingTaken(batch);
      hide *;
      for k := 0 to |batch|
        invariant Valid() && pending == old(pending)
        invariant results == old(results) + batch[..k] && futures == old(futures) - IndicesOf(batch[..k])
        invariant halted == (old(halted) || (AnyFailed(batch[..k]) && pending != []))
        invariant old(halted) ==> notStarted == old(notStarted)
      {
        TakeOne(batch, old(futures), k);
        Record(batch[k].index, batch[k].failed);
      }
      assert batch[..|batch|] == batch;
    }

    /** The loop, for at most `patience` waits; the environment decides what finishes, what fails
      * and what the control file says. It ends only with every index finished, or halted with
      * nothing in flight and the waiting indices reported as not started. */
    method Loop(patience: nat) returns (ended: bool)
      requires Valid() && !halted
      modifies this
      ensures Valid()
      ensures ended ==> futures == {} && (pending == [] || (halted && pending == notStarted))
      ensures ended ==> forall i :: i in IndicesOf(results) <==> i in config.indices && i !in pending
    {
      var reading: Option<int> := *;
      SubmitReady(reading);
      var waits := 0;
      while futures != {} || pending != []
        invariant Valid() && waits <= patience
        decreases patience - waits, futures == {}
      {
        if futures == {} {
          if halted {
            break;
          }
          reading := *;
          SubmitReady(reading);
          continue;
        }
        if waits == patience {
          return false;
        }
        waits := waits + 1;
        var batch := Wait(config.indices, futures);
        Complete(batch);
        reading := *;
        SubmitReady(reading);
      }
      PrefixOrPending(config, started);
      return true;
    }
  }

  /** Results of different tasks in flight. */
  ghost predicate IsBatch(batch: seq<Outcome>, futures: set<int>) {
    && (forall r :: r in batch ==> r.index in futures)
    && forall j, k :: 0 <= j < k < |batch| ==> batch[j].index != batch[k].index
  }

  predicate AnyFailed(batch: seq<Outcome>) {
    exists r :: r in batch && r.failed
  }

  /** Any of the tasks in flight may have finished, in any order, with or without a failure. */
  method Wait(indices: seq<int>, futures: set<int>) returns (batch: seq<Outcome>)
    requires NoDuplicates(indices)
    ensures IsBatch(batch, futures)
  {
    batch := [];
    for k := 0 to |indices|
      invariant IsBatch(batch, futures)
      invariant forall r :: r in batch ==> r.index in indices[..k]
    {
      var finished: bool := *;
      var failed: bool := *;
      var at: int := *;
      if finished && indices[k] in futures && 0 <= at <= |batch| {
        InsertIntoBatch(batch, futures, at, Outcome(indices[k], failed));
        batch := batch[..at] + [Outcome(indices[k], failed)] + batch[at..];
      }
    }
  }

  lemma InsertIntoBatch(batch: seq<Outcome>, futures: set<int>, at: nat, r: Outcome)
    requires IsBatch(batch, futures) && at <= |batch| && r.index in futures
    requires forall other :: other in batch ==> other.index != r.index
    ensures IsBatch(batch[..at] + [r] + batch[at..], futures)
    ensures forall other :: other in batch[..at] + [r] + batch[at..] ==> other in batch || other == r
  {
    var longer := batch[..at] + [r] + batch[at..];
    forall j | 0 <= j < |longer|
      ensures longer[j] == if j < at then batch[j] else if j == at then r else batch[j - 1]
    {
    }
  }

  lemma NothingTaken(batch: seq<Outcome>)
    ensures IndicesOf(batch[..0]) == {} && !AnyFailed(batch[..0])
  {
  }

  lemma TakeOne(batch: seq<Outcome>, futures: set<int>, k: nat)
    requires IsBatch(batch, futures) && k < |batch|
    ensures batch[..k + 1] == batch[..k] + [batch[k]]
    ensures batch[k].index in futures - IndicesOf(batch[..k])
    ensures IndicesOf(batch[..k + 1]) == IndicesOf(batch[..k]) + {batch[k].index}
    ensures AnyFailed(batch[..k + 1]) <==> AnyFailed(batch[..k]) || batch[k].failed
  {
    assert batch[k] in batch;
    assert batch[..k + 1] == batch[..k] + [batch[k]];
    forall r ensures r in batch[..k + 1] <==> r in batch[..k] || r == batch[k] {
    }
    forall r | r in batch[..k] ensures r.index != batch[k].index {
    }
  }

  lemma PrefixOrPending(c: Config, started: nat)
    requires ValidConfig(c) && started <= |c.indices|
    ensures forall i :: i in c.indices[..started] <==> i in c.indices && i !in c.indices[started..]
  {
    assert c.indices == c.indices[..started] + c.indices[started..];
    forall i | i in c.indices[..started] ensures i !in c.indices[started..] {
    }
  }

  /** Every index that has left the queue is in flight or has exactly one result. */
  ghost predicate Partition(started: seq<int>, futures: set<int>, results: seq<Outcome>) {
    && (forall i :: i in started <==> i in futures || i in IndicesOf(results))
    && futures !! IndicesOf(results)
    && (forall j, k :: 0 <= j < k < |results| ==> results[j].index != results[k].index)
  }

  lemma StartOne(c: Config, started: nat, futures: set<int>, results: seq<Outcome>)
    requires ValidConfig(c) && started < |c.indices|
    requires Partition(c.indices[..started], futures, results)
    ensures Partition(c.indices[..started + 1], futures + {c.indices[started]}, results)
    ensures c.indices[started] !in futures
    ensures c.indices[started..] == [c.indices[started]] + c.indices[started + 1..]
  {
    var index := c.indices[started];
    assert c.indices[..started + 1] == c.indices[..started] + [index];
    assert index !in c.indices[..started];
  }

  lemma FinishOne(started: seq<int>, futures: set<int>, results: seq<Outcome>, outcome: Outcome)
    requires Partition(started, futures, results) && outcome.index in futures
    ensures Partition(started, futures - {outcome.index}, results + [outcome])
    ensures IndicesOf(results + [outcome]) == IndicesOf(results) + {outcome.index}
  {
    var longer := results + [outcome];
    forall i ensures i in IndicesOf(longer) <==> i in IndicesOf(results) + {outcome.index} {
      if i in IndicesOf(results) {
        var r :| r in results && r.index == i;
        assert r in longer;
      }
      assert outcome in longer;
    }
    forall k | 0 <= k < |results| ensures results[k].index != outcome.index {
      assert results[k].index in IndicesOf(results);
    }
  }
}
