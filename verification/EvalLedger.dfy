/** Official-evaluation starts, counted once across cumulative candidate ledgers.
  *
  * Every attempt repeats the running count of its ledger, so a count only adds what exceeds the
  * highest count seen for that ledger before. */
module EvalLedger {
  import opened Wrappers

  type Task = string

  /** A ledger belongs to one task; `root` is the candidate directory, log or report it is in. */
  datatype Ledger = Ledger(task: Task, root: string)

  datatype Counted = Counted(ledger: Ledger, count: nat)

  // ---- Increments ----

  function Max(a: nat, b: nat): nat {
    if a < b then b else a
  }

  /** The highest count that `s` records for the ledger. */
  function Highest(s: seq<Counted>, ledger: Ledger): (m: nat)
    ensures forall i :: 0 <= i < |s| && s[i].ledger == ledger ==> s[i].count <= m
    ensures m == 0 || exists i :: 0 <= i < |s| && s[i] == Counted(ledger, m)
  {
    if s == [] then 0
    else
      var last := s[|s| - 1];
      var before := Highest(s[..|s| - 1], ledger);
      assert forall i :: 0 <= i < |s| - 1 ==> s[..|s| - 1][i] == s[i];
      if last.ledger == ledger then Max(before, last.count) else before
  }

  function Over(count: nat, previous: nat): nat {
    if count > previous then count - previous else 0
  }

  /** What each attempt adds. */
  function Increments(s: seq<Counted>): (r: seq<nat>)
    ensures |r| == |s|
  {
    if s == [] then []
    else
      var rest, a := s[..|s| - 1], s[|s| - 1];
      Increments(rest) + [Over(a.count, Highest(rest, a.ledger))]
  }

  function Sum(xs: seq<nat>): nat {
    if xs == [] then 0 else Sum(xs[..|xs| - 1]) + xs[|xs| - 1]
  }

  function Total(s: seq<Counted>): nat {
    Sum(Increments(s))
  }

  ghost predicate Observes(observed: map<Ledger, nat>, s: seq<Counted>) {
    forall ledger :: (if ledger in observed then observed[ledger] else 0) == Highest(s, ledger)
  }

  lemma ObserveOne(observed: map<Ledger, nat>, s: seq<Counted>, a: Counted)
    requires Observes(observed, s)
    ensures Observes(observed[a.ledger := Max(Highest(s, a.ledger), a.count)], s + [a])
  {
    forall ledger ensures Highest(s + [a], ledger) ==
                          if a.ledger == ledger then Max(Highest(s, ledger), a.count) else Highest(s, ledger)
    {
      HighestOfLonger(s, a, ledger);
    }
    hide Highest;
  }

  lemma IncrementsOfLonger(s: seq<Counted>, a: Counted)
    ensures Increments(s + [a]) == Increments(s) + [Over(a.count, Highest(s, a.ledger))]
  {
    assert (s + [a])[..|s|] == s;
  }

  /** The loop over the attempts, with the highest count observed so far per ledger. */
  method EvalAttemptIncrements(s: seq<Counted>) returns (increments: seq<nat>)
    ensures increments == Increments(s)
  {
    var observed: map<Ledger, nat> := map[];
    increments := [];
    for k := 0 to |s|
      invariant increments == Increments(s[..k]) && Observes(observed, s[..k])
    {
      var a := s[k];
      var previous := if a.ledger in observed then observed[a.ledger] else 0;
      assert previous == Highest(s[..k], a.ledger);
      ObserveOne(observed, s[..k], a);
      IncrementsOfLonger(s[..k], a);
      assert s[..k + 1] == s[..k] + [a];
      hide Observes, Highest, Increments;
      increments := increments + [Over(a.count, previous)];
      observed := observed[a.ledger := Max(previous, a.count)];
    }
    assert s[..|s|] == s;
  }

  // ---- The total is the sum over ledgers of the highest count ----

  function SumHighest(s: seq<Counted>, ledgers: seq<Ledger>): nat {
    if ledgers == [] then 0 else Highest(s, ledgers[0]) + SumHighest(s, ledgers[1..])
  }

  lemma TotalOfLonger(s: seq<Counted>, a: Counted)
    ensures Total(s + [a]) == Total(s) + Over(a.count, Highest(s, a.ledger))
  {
    IncrementsOfLonger(s, a);
    assert (Increments(s) + [Over(a.count, Highest(s, a.ledger))])[..|s|] == Increments(s);
  }

  lemma {:induction false} HighestOfLonger(s: seq<Counted>, a: Counted, ledger: Ledger)
    ensures Highest(s + [a], ledger) ==
            if a.ledger == ledger then Max(Highest(s, ledger), a.count) else Highest(s, ledger)
  {
    assert (s + [a])[..|s|] == s;
  }

  lemma {:induction false} SumHighestOfLonger(s: seq<Counted>, a: Counted, ledgers: seq<Ledger>)
    requires NoDuplicates(ledgers)
    ensures SumHighest(s + [a], ledgers) ==
            SumHighest(s, ledgers) + if a.ledger in ledgers then Over(a.count, Highest(s, a.ledger)) else 0
  {
    if ledgers != [] {
      HighestOfLonger(s, a, ledgers[0]);
      SumHighestOfLonger(s, a, ledgers[1..]);
      assert ledgers == [ledgers[0]] + ledgers[1..];
    }
  }

  lemma {:induction false} NothingHighest(ledgers: seq<Ledger>)
    ensures SumHighest([], ledgers) == 0
  {
    if ledgers != [] {
      NothingHighest(ledgers[1..]);
    }
  }

  /** The increments add up to the highest count of each ledger, for any list of the ledgers. */
  lemma {:induction false} TotalIsSumOfHighest(s: seq<Counted>, ledgers: seq<Ledger>)
    requires NoDuplicates(ledgers) && forall a :: a in s ==> a.ledger in ledgers
    ensures Total(s) == SumHighest(s, ledgers)
  {
    if s == [] {
      NothingHighest(ledgers);
    } else {
      var rest, a := s[..|s| - 1], s[|s| - 1];
      assert s == rest + [a];
      TotalIsSumOfHighest(rest, ledgers);
      TotalOfLonger(rest, a);
      SumHighestOfLonger(rest, a, ledgers);
    }
  }

  lemma {:induction false} SameHighestSameSum(s: seq<Counted>, t: seq<Counted>, ledgers: seq<Ledger>)
    requires forall ledger :: Highest(s, ledger) == Highest(t, ledger)
    ensures SumHighest(s, ledgers) == SumHighest(t, ledgers)
  {
    if ledgers != [] {
      SameHighestSameSum(s, t, ledgers[1..]);
    }
  }

  lemma {:induction false} LedgersOf(s: seq<Counted>) returns (ledgers: seq<Ledger>)
    ensures NoDuplicates(ledgers) && forall a :: a in s ==> a.ledger in ledgers
  {
    if s == [] {
      ledgers := [];
    } else {
      ledgers := LedgersOf(s[1..]);
      if s[0].ledger !in ledgers {
        ledgers := ledgers + [s[0].ledger];
      }
      assert s == [s[0]] + s[1..];
    }
  }

  lemma HighestDependsOnContents(s: seq<Counted>, t: seq<Counted>, ledger: Ledger)
    requires forall a :: a in s <==> a in t
    ensures Highest(s, ledger) == Highest(t, ledger)
  {
    HighestAtMost(s, t, ledger);
    HighestAtMost(t, s, ledger);
  }

  lemma HighestAtMost(s: seq<Counted>, t: seq<Counted>, ledger: Ledger)
    requires forall a :: a in s ==> a in t
    ensures Highest(s, ledger) <= Highest(t, ledger)
  {
    var m := Highest(s, ledger);
    if m > 0 {
      var i :| 0 <= i < |s| && s[i] == Counted(ledger, m);
      assert s[i] in s;
      var j :| 0 <= j < |t| && t[j] == s[i];
    }
  }

  /** The total depends only on which counts occur: neither on the order of the attempts nor on
    * how often one is repeated. */
  lemma TotalIgnoresOrderAndRepeats(s: seq<Counted>, t: seq<Counted>)
    requires forall a :: a in s <==> a in t
    ensures Total(s) == Total(t)
  {
    var ledgers := LedgersOf(s + t);
    assert forall a :: a in s ==> a in s + t;
    assert forall a :: a in t ==> a in s + t;
    TotalIsSumOfHighest(s, ledgers);
    TotalIsSumOfHighest(t, ledgers);
    forall ledger ensures Highest(s, ledger) == Highest(t, ledger) {
      HighestDependsOnContents(s, t, ledger);
    }
    SameHighestSameSum(s, t, ledgers);
  }

  // ---- The tasks of one list ----

  function OfTask(s: seq<Counted>, task: Task): seq<Counted> {
    if s == [] then []
    else
      var rest := OfTask(s[..|s| - 1], task);
      if s[|s| - 1].ledger.task == task then rest + [s[|s| - 1]] else rest
  }

  lemma {:induction false} HighestOfTask(s: seq<Counted>, ledger: Ledger)
    ensures Highest(OfTask(s, ledger.task), ledger) == Highest(s, ledger)
  {
    if s != [] {
      var rest, a := s[..|s| - 1], s[|s| - 1];
      assert s == rest + [a];
      HighestOfTask(rest, ledger);
      HighestOfLonger(rest, a, ledger);
      HighestOfLonger(OfTask(rest, ledger.task), a, ledger);
    }
  }

  /** The increments of the attempts of `task` marked in `chosen`. */
  function Share(s: seq<Counted>, chosen: seq<bool>, task: Task): nat
    requires |chosen| == |s|
  {
    if s == [] then 0
    else
      var last := |s| - 1;
      Share(s[..last], chosen[..last], task)
      + if chosen[last] && s[last].ledger.task == task then Increments(s)[last] else 0
  }

  lemma ShareOfLonger(s: seq<Counted>, chosen: seq<bool>, a: Counted, choice: bool, task: Task)
    requires |chosen| == |s|
    ensures Share(s + [a], chosen + [choice], task) ==
            Share(s, chosen, task)
            + if choice && a.ledger.task == task then Over(a.count, Highest(s, a.ledger)) else 0
  {
    assert (s + [a])[..|s|] == s && (chosen + [choice])[..|s|] == chosen;
    IncrementsOfLonger(s, a);
  }

  function All(n: nat): seq<bool> {
    seq(n, _ => true)
  }

  /** Counting a task inside the whole list or alone comes to the same. */
  lemma {:induction false} ShareIsTotalOfTask(s: seq<Counted>, task: Task)
    ensures Share(s, All(|s|), task) == Total(OfTask(s, task))
  {
    if s != [] {
      var rest, a := s[..|s| - 1], s[|s| - 1];
      ShareIsTotalOfTask(rest, task);
      assert s == rest + [a] && All(|s|) == All(|rest|) + [true];
      ShareOfLonger(rest, All(|rest|), a, true, task);
      if a.ledger.task == task {
        TotalOfLonger(OfTask(rest, task), a);
        HighestOfTask(rest, a.ledger);
      }
    }
  }

  lemma {:induction false} SharesSplit(s: seq<Counted>, chosen: seq<bool>, others: seq<bool>, task: Task)
    requires |chosen| == |others| == |s|
    requires forall i :: 0 <= i < |s| ==> others[i] == !chosen[i]
    ensures Share(s, chosen, task) + Share(s, others, task) == Share(s, All(|s|), task)
  {
    if s != [] {
      var last := |s| - 1;
      SharesSplit(s[..last], chosen[..last], others[..last], task);
      assert All(|s|)[..last] == All(last);
    }
  }

  // ---- The budget ----

  /** The rule for the attempt at `i`: one of a task over budget is accepted exactly when its
    * increment keeps its task's accepted increments within the budget, one of another task
    * exactly when its round is within the limit. */
  ghost predicate RightlyChosen(
    s: seq<Counted>, rounds: seq<nat>, accepted: seq<bool>, exhausted: set<Task>, budget: nat, maxRounds: nat, i: nat)
    requires |s| == |rounds| && |accepted| <= |s| && i < |accepted|
  {
    accepted[i] <==>
      if s[i].ledger.task !in exhausted then rounds[i] <= maxRounds
      else Share(s[..i], accepted[..i], s[i].ledger.task) + Over(s[i].count, Highest(s[..i], s[i].ledger)) <= budget
  }

  ghost predicate Chosen(
    s: seq<Counted>, rounds: seq<nat>, accepted: seq<bool>, exhausted: set<Task>, budget: nat, maxRounds: nat)
    requires |s| == |rounds| && |accepted| <= |s|
  {
    && (forall i :: 0 <= i < |accepted| ==> RightlyChosen(s, rounds, accepted, exhausted, budget, maxRounds, i))
    && (forall task :: task in exhausted ==> Share(s[..|accepted|], accepted, task) <= budget)
  }

  /** The increments of the rejected attempts of exhausted tasks. */
  function RejectedTotal(s: seq<Counted>, accepted: seq<bool>, exhausted: set<Task>): nat
    requires |accepted| == |s|
  {
    if s == [] then 0
    else
      var last := |s| - 1;
      RejectedTotal(s[..last], accepted[..last], exhausted)
      + if !accepted[last] && s[last].ledger.task in exhausted then Increments(s)[last] else 0
  }

  lemma RejectedOfLonger(s: seq<Counted>, accepted: seq<bool>, exhausted: set<Task>, a: Counted, accept: bool)
    requires |accepted| == |s|
    ensures RejectedTotal(s + [a], accepted + [accept], exhausted) ==
            RejectedTotal(s, accepted, exhausted)
            + if !accept && a.ledger.task in exhausted then Over(a.count, Highest(s, a.ledger)) else 0
  {
    assert (s + [a])[..|s|] == s && (accepted + [accept])[..|s|] == accepted;
    IncrementsOfLonger(s, a);
  }

  lemma ChooseOne(
    s: seq<Counted>, rounds: seq<nat>, accepted: seq<bool>, exhausted: set<Task>, budget: nat, maxRounds: nat,
    accept: bool)
    requires |s| == |rounds| && |accepted| < |s|
    requires Chosen(s, rounds, accepted, exhausted, budget, maxRounds)
    requires accept <==>
               var a := s[|accepted|];
               if a.ledger.task !in exhausted then rounds[|accepted|] <= maxRounds
               else Share(s[..|accepted|], accepted, a.ledger.task)
                    + Over(a.count, Highest(s[..|accepted|], a.ledger)) <= budget
    ensures Chosen(s, rounds, accepted + [accept], exhausted, budget, maxRounds)
  {
    hide Share, Highest, Over;
    var k, longer := |accepted|, accepted + [accept];
    forall i: nat | i <= k ensures RightlyChosen(s, rounds, longer, exhausted, budget, maxRounds, i) {
      assert longer[..i] == accepted[..i];
      if i < k {
        assert RightlyChosen(s, rounds, accepted, exhausted, budget, maxRounds, i);
      } else {
        assert accepted[..k] == accepted;
      }
    }
    assert s[..k + 1] == s[..k] + [s[k]];
    forall task | task in exhausted ensures Share(s[..k + 1], longer, task) <= budget {
      ShareOfLonger(s[..k], accepted, s[k], accept, task);
    }
  }

  ghost predicate Tracks(counts: map<Task, nat>, s: seq<Counted>, accepted: seq<bool>, exhausted: set<Task>)
    requires |accepted| == |s|
  {
    forall task :: task in exhausted ==>
      (if task in counts then counts[task] else 0) == Share(s, accepted, task)
  }

  lemma TrackOne(
    counts: map<Task, nat>, s: seq<Counted>, accepted: seq<bool>, exhausted: set<Task>, a: Counted, accept: bool)
    requires |accepted| == |s| && Tracks(counts, s, accepted, exhausted)
    ensures Tracks(
      if a.ledger.task in exhausted && accept
      then counts[a.ledger.task := Share(s, accepted, a.ledger.task) + Over(a.count, Highest(s, a.ledger))]
      else counts,
      s + [a], accepted + [accept], exhausted)
  {
    hide Share, Highest, Over;
    forall task | task in exhausted
      ensures Share(s + [a], accepted + [accept], task) ==
              Share(s, accepted, task)
              + if accept && a.ledger.task == task then Over(a.count, Highest(s, a.ledger)) else 0
    {
      ShareOfLonger(s, accepted, a, accept, task);
    }
  }

  lemma TrackedCount(counts: map<Task, nat>, s: seq<Counted>, accepted: seq<bool>, exhausted: set<Task>, task: Task)
    requires |accepted| == |s| && Tracks(counts, s, accepted, exhausted) && task in exhausted
    ensures (if task in counts then counts[task] else 0) == Share(s, accepted, task)
  {
  }

  /** The loop of the acceptance after `|accepted|` attempts. */
  ghost predicate Accepting(
    s: seq<Counted>, rounds: seq<nat>, accepted: seq<bool>, exhausted: set<Task>, budget: nat, maxRounds: nat,
    counts: map<Task, nat>, overBudget: nat)
    requires |s| == |rounds| && |accepted| <= |s|
  {
    && Chosen(s, rounds, accepted, exhausted, budget, maxRounds)
    && Tracks(counts, s[..|accepted|], accepted, exhausted)
    && overBudget == RejectedTotal(s[..|accepted|], accepted, exhausted)
  }

  lemma TracksNext(
    counts: map<Task, nat>, after: map<Task, nat>, s: seq<Counted>, accepted: seq<bool>, exhausted: set<Task>,
    a: Counted, accept: bool, next: nat)
    requires |accepted| == |s| && Tracks(counts, s, accepted, exhausted)
    requires next == (if a.ledger.task in counts then counts[a.ledger.task] else 0)
                     + Over(a.count, Highest(s, a.ledger))
    requires after == if a.ledger.task in exhausted && accept then counts[a.ledger.task := next] else counts
    ensures Tracks(after, s + [a], accepted + [accept], exhausted)
  {
    TrackOne(counts, s, accepted, exhausted, a, accept);
    if a.ledger.task in exhausted {
      TrackedCount(counts, s, accepted, exhausted, a.ledger.task);
    }
    hide Tracks, Share, Highest, Over;
  }

  lemma ChooseNext(
    s: seq<Counted>, rounds: seq<nat>, accepted: seq<bool>, exhausted: set<Task>, budget: nat, maxRounds: nat,
    counts: map<Task, nat>, next: nat, accept: bool)
    requires |s| == |rounds| && |accepted| < |s|
    requires Chosen(s, rounds, accepted, exhausted, budget, maxRounds)
    requires Tracks(counts, s[..|accepted|], accepted, exhausted)
    requires var a := s[|accepted|];
             next == (if a.ledger.task in counts then counts[a.ledger.task] else 0)
                     + Over(a.count, Highest(s[..|accepted|], a.ledger))
    requires accept ==
             if s[|accepted|].ledger.task !in exhausted then rounds[|accepted|] <= maxRounds else next <= budget
    ensures Chosen(s, rounds, accepted + [accept], exhausted, budget, maxRounds)
  {
    var task := s[|accepted|].ledger.task;
    if task in exhausted {
      TrackedCount(counts, s[..|accepted|], accepted, exhausted, task);
    }
    hide Chosen, Tracks, Share, Highest, Over;
    ChooseOne(s, rounds, accepted, exhausted, budget, maxRounds, accept);
  }

  lemma AcceptOne(
    s: seq<Counted>, rounds: seq<nat>, accepted: seq<bool>, exhausted: set<Task>, budget: nat, maxRounds: nat,
    counts: map<Task, nat>, overBudget: nat, next: nat, accept: bool, after: map<Task, nat>, rejected: nat)
    requires |s| == |rounds| && |accepted| < |s|
    requires Accepting(s, rounds, accepted, exhausted, budget, maxRounds, counts, overBudget)
    requires var a := s[|accepted|];
             next == (if a.ledger.task in counts then counts[a.ledger.task] else 0)
                     + Over(a.count, Highest(s[..|accepted|], a.ledger))
    requires accept ==
             if s[|accepted|].ledger.task !in exhausted then rounds[|accepted|] <= maxRounds else next <= budget
    requires var a := s[|accepted|];
             && after == (if a.ledger.task in exhausted && accept then counts[a.ledger.task := next] else counts)
             && rejected == overBudget + if a.ledger.task in exhausted && !accept
                                         then Over(a.count, Highest(s[..|accepted|], a.ledger)) else 0
    ensures Accepting(s, rounds, accepted + [accept], exhausted, budget, maxRounds, after, rejected)
  {
    var k := |accepted|;
    hide Chosen, Tracks, Share, Highest, Over, RejectedTotal;
    ChooseNext(s, rounds, accepted, exhausted, budget, maxRounds, counts, next, accept);
    TracksNext(counts, after, s[..k], accepted, exhausted, s[k], accept, next);
    RejectedOfLonger(s[..k], accepted, exhausted, s[k], accept);
    assert s[..k + 1] == s[..k] + [s[k]];
  }

  /** What is accepted once some tasks are over budget, and the increments that are not. */
  method AcceptWithinBudget(s: seq<Counted>, rounds: seq<nat>, exhausted: set<Task>, budget: nat, maxRounds: nat)
    returns (accepted: seq<bool>, overBudget: nat)
    requires |rounds| == |s|
    ensures |accepted| == |s| && Chosen(s, rounds, accepted, exhausted, budget, maxRounds)
    ensures overBudget == RejectedTotal(s, accepted, exhausted)
  {
    var counts: map<Task, nat> := map[];
    var increments := EvalAttemptIncrements(s);
    accepted, overBudget := [], 0;
    assert Tracks(counts, s[..0], accepted, exhausted) && RejectedTotal(s[..0], accepted, exhausted) == 0;
    assert Chosen(s, rounds, accepted, exhausted, budget, maxRounds);
    hide Increments, Share, Highest, Over, Chosen, Tracks, RejectedTotal;
    for k := 0 to |s|
      invariant |accepted| == k
      invariant Accepting(s, rounds, accepted, exhausted, budget, maxRounds, counts, overBudget)
    {
      hide Accepting;
      var task := s[k].ledger.task;
      IncrementAt(s, k);
      var next := (if task in counts then counts[task] else 0) + increments[k];
      var accept := if task !in exhausted then rounds[k] <= maxRounds else next <= budget;
      ghost var before := (counts, overBudget);
      if task in exhausted {
        if accept {
          counts := counts[task := next];
        } else {
          overBudget := overBudget + increments[k];
        }
      }
      AcceptOne(
        s, rounds, accepted, exhausted, budget, maxRounds, before.0, before.1, next, accept, counts, overBudget);
      accepted := accepted + [accept];
    }
    assert s[..|s|] == s;
  }

  lemma {:induction false} IncrementAt(s: seq<Counted>, k: nat)
    requires k < |s|
    ensures Increments(s)[k] == Over(s[k].count, Highest(s[..k], s[k].ledger))
  {
    var last := |s| - 1;
    if k < last {
      IncrementAt(s[..last], k);
      assert s[..last][..k] == s[..k];
    }
  }

  function Rejected(accepted: seq<bool>): seq<bool> {
    seq(|accepted|, i requires 0 <= i < |accepted| => !accepted[i])
  }

  /** For a task over budget, the accepted increments stay within the budget, and accepted and
    * rejected increments add up to what its ledgers hold. */
  lemma BudgetConserves(
    s: seq<Counted>, rounds: seq<nat>, accepted: seq<bool>, exhausted: set<Task>, budget: nat, maxRounds: nat,
    task: Task)
    requires |accepted| == |s| == |rounds| && Chosen(s, rounds, accepted, exhausted, budget, maxRounds)
    requires task in exhausted
    ensures Share(s, accepted, task) <= budget
    ensures Share(s, accepted, task) + Share(s, Rejected(accepted), task) == Total(OfTask(s, task))
  {
    assert s[..|s|] == s;
    SharesSplit(s, accepted, Rejected(accepted), task);
    ShareIsTotalOfTask(s, task);
  }

  /** An attempt that repeats a count its ledger already has is accepted even after a rejection. */
  lemma RepeatsAreAccepted(
    s: seq<Counted>, rounds: seq<nat>, accepted: seq<bool>, exhausted: set<Task>, budget: nat, maxRounds: nat, i: nat)
    requires |accepted| == |s| == |rounds| && Chosen(s, rounds, accepted, exhausted, budget, maxRounds)
    requires i < |s| && s[i].ledger.task in exhausted && s[i].count <= Highest(s[..i], s[i].ledger)
    ensures accepted[i]
  {
    assert RightlyChosen(s, rounds, accepted, exhausted, budget, maxRounds, i);
    PrefixChosen(s, rounds, accepted, exhausted, budget, maxRounds, i, s[i].ledger.task);
  }

  lemma {:induction false} ShareGrows(s: seq<Counted>, accepted: seq<bool>, task: Task, i: nat)
    requires |accepted| == |s| && i <= |s|
    ensures Share(s[..i], accepted[..i], task) <= Share(s, accepted, task)
  {
    if i == |s| {
      assert s[..i] == s && accepted[..i] == accepted;
    } else {
      var last := |s| - 1;
      ShareGrows(s[..last], accepted[..last], task, i);
      assert s[..last][..i] == s[..i] && accepted[..last][..i] == accepted[..i];
    }
  }

  lemma PrefixChosen(
    s: seq<Counted>, rounds: seq<nat>, accepted: seq<bool>, exhausted: set<Task>, budget: nat, maxRounds: nat, i: nat,
    task: Task)
    requires |accepted| == |s| == |rounds| && Chosen(s, rounds, accepted, exhausted, budget, maxRounds)
    requires i <= |s| && task in exhausted
    ensures Share(s[..i], accepted[..i], task) <= budget
  {
    ShareGrows(s, accepted, task, i);
    assert s[..|s|] == s;
  }
}
