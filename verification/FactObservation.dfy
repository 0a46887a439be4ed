/** From the admitted rows of the source reports to the observed attempts: rounds, repeated rows,
  * rejudgements without an attempt, and tasks and indices that do not map one to one. */
module FactObservation {
  import opened Wrappers
  import opened EvalLedger
  import opened FactIdentity
  import opened FactReport
  import opened FactRows
  import FactCensus

  /** What a row says of a verdict that was derived from stored evidence: nothing, that it is one without
    * naming its attempt, or the identity and count of the attempt it rejudges. */
  datatype Derivation = Evaluated | Unbound | Rejudges(key: string)

  /** One admitted row of the report at `path`; `key` is its own identity and count, if it has them. */
  datatype Listed = Listed(path: string, row: Row, root: string, key: Option<string>, derivation: Derivation)

  // ---- Rounds ----

  predicate Matches(l: Listed, task: Task, key: string) {
    l.row.task == task && l.key == Some(key)
  }

  /** The highest round of the listed attempts that a rejudgement can mean. */
  function MatchingRound(rows: seq<Listed>, task: Task, key: string): Option<nat>
    decreases |rows|, 0
  {
    if rows == [] then None
    else
      var rest, last := rows[..|rows| - 1], rows[|rows| - 1];
      var before := MatchingRound(rest, task, key);
      if Matches(last, task, key) then Some(Max(RoundFor(rest, last), Or(before, 0))) else before
  }

  function Or(a: Option<nat>, b: nat): nat {
    if a.Some? then a.value else b
  }

  /** The round of the attempt that a listed row stands for, if it is a rejudgement of a known one. */
  function SourceRound(rows: seq<Listed>, l: Listed): Option<nat>
    decreases |rows|, 1
  {
    if l.derivation.Rejudges? then MatchingRound(rows, l.row.task, l.derivation.key) else None
  }

  /** How many attempts of the task opened a round of their own. */
  function Opened(rows: seq<Listed>, task: Task): nat
    decreases |rows|, 2
  {
    if rows == [] then 0
    else
      var rest, last := rows[..|rows| - 1], rows[|rows| - 1];
      Opened(rest, task) + if last.row.task == task && SourceRound(rest, last).None? then 1 else 0
  }

  function RoundFor(rows: seq<Listed>, l: Listed): nat
    decreases |rows|, 3
  {
    var source := SourceRound(rows, l);
    if source.Some? then source.value else Opened(rows, l.row.task) + 1
  }

  /** Rows without a task are no attempts. */
  function Observed(rows: seq<Listed>): seq<Attempt> {
    if rows == [] then []
    else
      var rest, last := rows[..|rows| - 1], rows[|rows| - 1];
      Observed(rest) + if last.row.task == "" then [] else [Attempt(RoundFor(rest, last), last.row, last.root)]
  }

  /** The rows that open a round of the task number its rounds from 1 on without a gap. */
  lemma {:induction false} RoundsCountUp(rows: seq<Listed>, task: Task, r: nat) returns (k: nat)
    requires 1 <= r <= Opened(rows, task)
    ensures k < |rows| && rows[k].row.task == task && SourceRound(rows[..k], rows[k]).None?
    ensures RoundFor(rows[..k], rows[k]) == r
  {
    var rest, last := rows[..|rows| - 1], rows[|rows| - 1];
    if r <= Opened(rest, task) {
      k := RoundsCountUp(rest, task, r);
      assert rest[..k] == rows[..k];
    } else {
      k := |rows| - 1;
    }
  }

  lemma {:induction false} OpenedGrows(rows: seq<Listed>, task: Task, k: nat)
    requires k <= |rows|
    ensures Opened(rows[..k], task) <= Opened(rows, task)
  {
    if k == |rows| {
      assert rows[..k] == rows;
    } else {
      OpenedGrows(rows[..|rows| - 1], task, k);
      assert rows[..|rows| - 1][..k] == rows[..k];
    }
  }

  /** No two rows open the same round of a task. */
  lemma RoundsAreOpenedOnce(rows: seq<Listed>, i: nat, j: nat)
    requires i < j < |rows| && rows[i].row.task == rows[j].row.task
    requires SourceRound(rows[..i], rows[i]).None? && SourceRound(rows[..j], rows[j]).None?
    ensures RoundFor(rows[..i], rows[i]) < RoundFor(rows[..j], rows[j])
  {
    var upTo := rows[..j][..i + 1];
    OpenedGrows(rows[..j], rows[i].row.task, i + 1);
    assert upTo[..i] == rows[..i] && upTo[i] == rows[i] && |upTo| == i + 1;
  }

  /** A rejudgement takes the round of an attempt it matches, the highest one. */
  lemma {:induction false} RejudgesAnAttempt(rows: seq<Listed>, task: Task, key: string)
    ensures var r := MatchingRound(rows, task, key);
            && (r.Some? <==> exists k :: 0 <= k < |rows| && Matches(rows[k], task, key))
            && (r.Some? ==> exists k :: 0 <= k < |rows| && Matches(rows[k], task, key)
                                        && RoundFor(rows[..k], rows[k]) == r.value)
            && (r.Some? ==> forall k :: 0 <= k < |rows| && Matches(rows[k], task, key) ==>
                              RoundFor(rows[..k], rows[k]) <= r.value)
  {
    if rows != [] {
      var rest, last := rows[..|rows| - 1], |rows| - 1;
      RejudgesAnAttempt(rest, task, key);
      assert rows[..last] == rest;
      forall k | 0 <= k < last ensures rest[k] == rows[k] && rest[..k] == rows[..k] {
      }
      if Matches(rows[last], task, key) {
        assert RoundFor(rows[..last], rows[last]) == RoundFor(rest, rows[last]);
      }
    }
  }

  // ---- The loop over the rows ----

  /** The row repeats an earlier one: same report, same index, same task. */
  predicate Repeated(rows: seq<Listed>, l: Listed) {
    exists k :: 0 <= k < |rows| && Key(rows[k]) == Key(l)
  }

  function Key(l: Listed): (string, Option<int>, Task) {
    (l.path, l.row.index, l.row.task)
  }

  /** A rejudgement of no known attempt. */
  predicate Orphan(rows: seq<Listed>, l: Listed) {
    !l.derivation.Evaluated? && SourceRound(rows, l).None?
  }

  predicate Odd(rows: seq<Listed>, l: Listed) {
    l.row.task != "" && (Repeated(rows, l) || Orphan(rows, l))
  }

  /** Some row of the task is repeated or an orphan. */
  ghost predicate OddTask(rows: seq<Listed>, task: Task) {
    exists k :: 0 <= k < |rows| && rows[k].row.task == task && Odd(rows[..k], rows[k])
  }

  lemma OddOneMore(rows: seq<Listed>, l: Listed, task: Task)
    ensures OddTask(rows + [l], task) <==> OddTask(rows, task) || (l.row.task == task && Odd(rows, l))
  {
    var longer := rows + [l];
    hide Odd;
    assert longer[..|rows|] == rows;
    forall k | 0 <= k < |rows| ensures longer[k] == rows[k] && longer[..k] == rows[..k] {
    }
    if OddTask(rows, task) {
      var k :| 0 <= k < |rows| && rows[k].row.task == task && Odd(rows[..k], rows[k]);
      assert longer[k].row.task == task && Odd(longer[..k], longer[k]);
    }
    if l.row.task == task && Odd(rows, l) {
      assert longer[|rows|] == l && Odd(longer[..|rows|], longer[|rows|]);
    }
  }

  /** The highest round among the attempts so far that a rejudgement can mean. */
  function Latest(observed: seq<Attempt>, keys: seq<Option<string>>, task: Task, key: string): Option<nat>
    requires |keys| == |observed|
  {
    if observed == [] then None
    else
      var k := |observed| - 1;
      var before := Latest(observed[..k], keys[..k], task, key);
      if observed[k].row.task == task && keys[k] == Some(key) then Some(Max(observed[k].round, Or(before, 0)))
      else before
  }

  /** What the loop knows of the rows so far. */
  ghost predicate Knows(
    rows: seq<Listed>, observed: seq<Attempt>, keys: seq<Option<string>>, rounds: map<Task, nat>)
  {
    && observed == Observed(rows) && |keys| == |observed|
    && (forall task, key :: task != "" ==> Latest(observed, keys, task, key) == MatchingRound(rows, task, key))
    && forall task :: task != "" ==> (if task in rounds then rounds[task] else 0) == Opened(rows, task)
  }

  lemma SkipOne(
    rows: seq<Listed>, l: Listed, observed: seq<Attempt>, keys: seq<Option<string>>, rounds: map<Task, nat>)
    requires Knows(rows, observed, keys, rounds) && l.row.task == ""
    ensures Knows(rows + [l], observed, keys, rounds)
  {
    assert (rows + [l])[..|rows|] == rows;
    forall task, key | task != ""
      ensures MatchingRound(rows + [l], task, key) == MatchingRound(rows, task, key)
    {
    }
  }

  lemma KnowOne(
    rows: seq<Listed>, l: Listed, observed: seq<Attempt>, keys: seq<Option<string>>, rounds: map<Task, nat>,
    after: map<Task, nat>)
    requires Knows(rows, observed, keys, rounds) && l.row.task != ""
    requires after == if SourceRound(rows, l).Some? then rounds else rounds[l.row.task := Opened(rows, l.row.task) + 1]
    ensures Knows(rows + [l], observed + [Attempt(RoundFor(rows, l), l.row, l.root)], keys + [l.key], after)
  {
    var a := Attempt(RoundFor(rows, l), l.row, l.root);
    var longer, more := observed + [a], keys + [l.key];
    assert (rows + [l])[..|rows|] == rows;
    assert longer[..|observed|] == observed && more[..|observed|] == keys;
    forall task, key | task != "" ensures Latest(longer, more, task, key) == MatchingRound(rows + [l], task, key) {
      assert Latest(observed, keys, task, key) == MatchingRound(rows, task, key);
      assert Matches(l, task, key) <==> a.row.task == task && l.key == Some(key);
    }
    forall task | task != "" ensures (if task in after then after[task] else 0) == Opened(rows + [l], task) {
      assert Opened(rows + [l], task) ==
             Opened(rows, task) + if l.row.task == task && SourceRound(rows, l).None? then 1 else 0;
    }
  }

  /** The search through the attempts so far. */
  method FindSource(observed: seq<Attempt>, keys: seq<Option<string>>, task: Task, key: string)
    returns (round: Option<nat>)
    requires |keys| == |observed|
    ensures round == Latest(observed, keys, task, key)
  {
    round := None;
    for k := 0 to |observed|
      invariant round == Latest(observed[..k], keys[..k], task, key)
    {
      assert observed[..k + 1][..k] == observed[..k] && keys[..k + 1][..k] == keys[..k];
      if observed[k].row.task == task && keys[k] == Some(key) {
        round := Some(Max(observed[k].round, Or(round, 0)));
      }
    }
    assert observed[..|observed|] == observed && keys[..|observed|] == keys;
  }

  /** The loop: every named row becomes an attempt with its round, and a task gets an issue exactly when
    * one of its rows is repeated or an orphan. */
  method Observe(rows: seq<Listed>) returns (observed: seq<Attempt>, issues: Issues)
    ensures observed == Observed(rows)
    ensures forall task :: task in issues <==> OddTask(rows, task)
  {
    var keys: seq<Option<string>> := [];
    var rounds: map<Task, nat> := map[];
    var seen: set<(string, Option<int>, Task)> := {};
    observed, issues := [], map[];
    NothingKnown();
    assert rows[..0] == [];
    hide *;
    for k := 0 to |rows|
      invariant Knows(rows[..k], observed, keys, rounds) && Seen(seen, rows[..k])
      invariant forall task :: task in issues <==> OddTask(rows[..k], task)
    {
      var l := rows[k];
      assert rows[..k + 1] == rows[..k] + [l];
      var source := SourceOf(rows[..k], l, observed, keys, rounds);
      ghost var before := issues;
      issues := NoteRow(rows[..k], l, seen, source, issues);
      IssuesOneMore(rows[..k], l, before, issues);
      observed, keys, rounds := AddRow(rows[..k], l, source, observed, keys, rounds);
      SeeOne(seen, rows[..k], l);
      if l.row.task != "" {
        seen := seen + {Key(l)};
      }
    }
    assert rows[..|rows|] == rows;
    FinallyObserved(rows, observed, keys, rounds);
  }

  lemma FinallyObserved(
    rows: seq<Listed>, observed: seq<Attempt>, keys: seq<Option<string>>, rounds: map<Task, nat>)
    requires Knows(rows, observed, keys, rounds)
    ensures observed == Observed(rows)
  {
  }

  lemma NothingKnown()
    ensures Knows([], [], [], map[]) && Seen({}, []) && forall task :: !OddTask([], task)
  {
  }

  /** The keys of the named rows so far. */
  ghost predicate Seen(seen: set<(string, Option<int>, Task)>, rows: seq<Listed>) {
    forall l: Listed :: l.row.task != "" ==> (Key(l) in seen <==> Repeated(rows, l))
  }

  lemma SeeOne(seen: set<(string, Option<int>, Task)>, rows: seq<Listed>, l: Listed)
    requires Seen(seen, rows)
    ensures Seen(if l.row.task != "" then seen + {Key(l)} else seen, rows + [l])
  {
    var longer := rows + [l];
    forall m: Listed | m.row.task != ""
      ensures Repeated(longer, m) <==> Repeated(rows, m) || Key(l) == Key(m)
    {
      if Repeated(rows, m) {
        var k :| 0 <= k < |rows| && Key(rows[k]) == Key(m);
        assert longer[k] == rows[k];
      }
      assert longer[|rows|] == l;
    }
  }

  /** What a row may add to the issues of its task. */
  method NoteRow(
    ghost rows: seq<Listed>, l: Listed, seen: set<(string, Option<int>, Task)>, source: Option<nat>, before: Issues)
    returns (issues: Issues)
    requires Seen(seen, rows) && (l.row.task != "" ==> source == SourceRound(rows, l))
    ensures issues.Keys == before.Keys + if Odd(rows, l) then {l.row.task} else {}
  {
    issues := before;
    assert l.row.task != "" ==> (Key(l) in seen <==> Repeated(rows, l));
    hide Seen, SourceRound, Repeated, AppendIssue;
    if l.row.task != "" && Key(l) in seen {
      IssueAppended(issues, l.row.task, "duplicate_task_row");
      issues := AppendIssue(issues, l.row.task, "duplicate_task_row");
    }
    if l.row.task != "" && !l.derivation.Evaluated? && source.None? {
      IssueAppended(issues, l.row.task, "orphan_evidence_only_rejudgement");
      issues := AppendIssue(issues, l.row.task, "orphan_evidence_only_rejudgement");
    }
  }

  lemma IssuesOneMore(rows: seq<Listed>, l: Listed, before: Issues, issues: Issues)
    requires forall task :: task in before <==> OddTask(rows, task)
    requires issues.Keys == before.Keys + if Odd(rows, l) then {l.row.task} else {}
    ensures forall task :: task in issues <==> OddTask(rows + [l], task)
  {
    forall task ensures OddTask(rows + [l], task) <==> task in issues.Keys {
      OddOneMore(rows, l, task);
    }
  }

  /** The round of the attempt that a row rejudges, if it does and the attempt is known. */
  method SourceOf(
    ghost rows: seq<Listed>, l: Listed, observed: seq<Attempt>, keys: seq<Option<string>>,
    ghost rounds: map<Task, nat>)
    returns (source: Option<nat>)
    requires Knows(rows, observed, keys, rounds)
    ensures l.row.task != "" ==> source == SourceRound(rows, l)
  {
    source := None;
    if l.derivation.Rejudges? {
      source := FindSource(observed, keys, l.row.task, l.derivation.key);
    }
  }

  method AddRow(
    ghost rows: seq<Listed>, l: Listed, source: Option<nat>, before: seq<Attempt>, keysBefore: seq<Option<string>>,
    roundsBefore: map<Task, nat>)
    returns (observed: seq<Attempt>, keys: seq<Option<string>>, rounds: map<Task, nat>)
    requires Knows(rows, before, keysBefore, roundsBefore)
    requires l.row.task != "" ==> source == SourceRound(rows, l)
    ensures Knows(rows + [l], observed, keys, rounds)
  {
    if l.row.task == "" {
      SkipOne(rows, l, before, keysBefore, roundsBefore);
      return before, keysBefore, roundsBefore;
    }
    rounds := roundsBefore;
    var round: nat;
    if source.Some? {
      round := source.value;
    } else {
      round := (if l.row.task in rounds then rounds[l.row.task] else 0) + 1;
      rounds := rounds[l.row.task := round];
    }
    KnowOne(rows, l, before, keysBefore, roundsBefore, rounds);
    observed, keys := before + [Attempt(round, l.row, l.root)], keysBefore + [l.key];
  }

  // ---- Tasks and indices ----

  function IndicesOf(s: seq<Attempt>, task: Task): set<Option<int>> {
    set a | a in s && a.row.task == task && a.row.index.Some? :: a.row.index
  }

  function TasksAt(s: seq<Attempt>, index: Option<int>): set<Task> {
    set a | a in s && index.Some? && a.row.index == index :: a.row.task
  }

  /** Two attempts of the task name different indices. */
  ghost predicate TwoIndices(s: seq<Attempt>, task: Task) {
    exists i, j :: i in IndicesOf(s, task) && j in IndicesOf(s, task) && i != j
  }

  /** Attempts of two tasks name the index. */
  ghost predicate TwoTasks(s: seq<Attempt>, index: Option<int>) {
    exists t, u :: t in TasksAt(s, index) && u in TasksAt(s, index) && t != u
  }

  ghost predicate Torn(s: seq<Attempt>, a: Attempt) {
    a.row.index.Some? && (TwoIndices(s, a.row.task) || TwoTasks(s, a.row.index))
  }

  /** The task does not map one to one to its index. */
  ghost predicate Mismapped(s: seq<Attempt>, task: Task) {
    exists k :: 0 <= k < |s| && s[k].row.task == task && Torn(s, s[k])
  }

  function Entry<K, V>(m: map<K, set<V>>, k: K): set<V> {
    if k in m then m[k] else {}
  }

  ghost predicate Mapped(s: seq<Attempt>, indices: map<Task, set<Option<int>>>, tasks: map<Option<int>, set<Task>>) {
    && (forall task :: Entry(indices, task) == IndicesOf(s, task))
    && (forall index :: Entry(tasks, index) == TasksAt(s, index))
  }

  lemma MapOne(s: seq<Attempt>, a: Attempt, task: Task, index: Option<int>)
    ensures IndicesOf(s + [a], task) ==
            IndicesOf(s, task) + if a.row.task == task && a.row.index.Some? then {a.row.index} else {}
    ensures TasksAt(s + [a], index) ==
            TasksAt(s, index) + if index.Some? && a.row.index == index then {a.row.task} else {}
  {
    var longer := s + [a];
    forall b ensures b in longer <==> b in s || b == a {
    }
  }

  /** The two dictionaries. */
  method Mappings(observed: seq<Attempt>)
    returns (indices: map<Task, set<Option<int>>>, tasks: map<Option<int>, set<Task>>)
    ensures Mapped(observed, indices, tasks)
  {
    indices, tasks := map[], map[];
    for k := 0 to |observed|
      invariant Mapped(observed[..k], indices, tasks)
    {
      var a := observed[k];
      assert observed[..k + 1] == observed[..k] + [a];
      MapMore(observed[..k], a, indices, tasks);
      hide Mapped;
      if a.row.index.Some? {
        indices := indices[a.row.task := Entry(indices, a.row.task) + {a.row.index}];
        tasks := tasks[a.row.index := Entry(tasks, a.row.index) + {a.row.task}];
      }
    }
    assert observed[..|observed|] == observed;
  }

  lemma MapMore(
    s: seq<Attempt>, a: Attempt, indices: map<Task, set<Option<int>>>, tasks: map<Option<int>, set<Task>>)
    requires Mapped(s, indices, tasks)
    ensures a.row.index.None? ==> Mapped(s + [a], indices, tasks)
    ensures a.row.index.Some? ==>
              Mapped(
                s + [a], indices[a.row.task := Entry(indices, a.row.task) + {a.row.index}],
                tasks[a.row.index := Entry(tasks, a.row.index) + {a.row.task}])
  {
    forall task ensures IndicesOf(s + [a], task) ==
                        IndicesOf(s, task) + if a.row.task == task && a.row.index.Some? then {a.row.index} else {}
    {
      MapOne(s, a, task, None);
    }
    MapTasks(s, a, indices, tasks);
    hide IndicesOf, TasksAt;
  }

  lemma MapTasks(
    s: seq<Attempt>, a: Attempt, indices: map<Task, set<Option<int>>>, tasks: map<Option<int>, set<Task>>)
    requires Mapped(s, indices, tasks)
    ensures a.row.index.None? ==> forall index :: Entry(tasks, index) == TasksAt(s + [a], index)
    ensures a.row.index.Some? ==>
              var after := tasks[a.row.index := Entry(tasks, a.row.index) + {a.row.task}];
              forall index :: Entry(after, index) == TasksAt(s + [a], index)
  {
    forall index ensures TasksAt(s + [a], index) ==
                         TasksAt(s, index) + if index.Some? && a.row.index == index then {a.row.task} else {}
    {
      MapOne(s, a, a.row.task, index);
    }
    hide IndicesOf, TasksAt;
  }

  lemma MoreThanOne<T>(s: set<T>)
    ensures |s| > 1 <==> exists x, y :: x in s && y in s && x != y
  {
    if |s| > 1 {
      var x :| x in s;
      assert s - {x} != {} by {
        assert |s - {x}| == |s| - 1;
      }
      var y :| y in s - {x};
    }
    if x, y :| x in s && y in s && x != y {
      assert {x, y} <= s;
      assert |s - {x, y}| == |s| - 2;
    }
  }

  ghost predicate TornBefore(s: seq<Attempt>, k: nat, task: Task)
    requires k <= |s|
  {
    exists i :: 0 <= i < k && s[i].row.task == task && Torn(s, s[i])
  }

  /** An issue for exactly the tasks that do not map one to one to their index. */
  method FlagMappings(observed: seq<Attempt>, before: Issues) returns (issues: Issues)
    ensures forall task :: task in issues <==> task in before || Mismapped(observed, task)
  {
    var indices, tasks := Mappings(observed);
    issues := before;
    for k := 0 to |observed|
      invariant forall task :: task in issues <==> task in before || TornBefore(observed, k, task)
    {
      var a := observed[k];
      assert Entry(indices, a.row.task) == IndicesOf(observed, a.row.task);
      assert Entry(tasks, a.row.index) == TasksAt(observed, a.row.index);
      MoreThanOne(IndicesOf(observed, a.row.task));
      MoreThanOne(TasksAt(observed, a.row.index));
      TornNow(observed, k);
      ghost var was := issues;
      hide *;
      if a.row.index.Some? {
        if |Entry(indices, a.row.task)| > 1 {
          IssueAppended(issues, a.row.task, "task_index_mapping_conflict");
          issues := AppendIssue(issues, a.row.task, "task_index_mapping_conflict");
        }
        if |Entry(tasks, a.row.index)| > 1 {
          IssueAppended(issues, a.row.task, "index_task_mapping_conflict");
          issues := AppendIssue(issues, a.row.task, "index_task_mapping_conflict");
        }
      }
      TornMore(observed, k, before, was, issues);
    }
    TornAll(observed);
  }

  lemma TornNow(s: seq<Attempt>, k: nat)
    requires k < |s|
    ensures var a := s[k];
            Torn(s, a) <==> a.row.index.Some? && (TwoIndices(s, a.row.task) || TwoTasks(s, a.row.index))
  {
  }

  lemma TornMore(s: seq<Attempt>, k: nat, before: Issues, was: Issues, issues: Issues)
    requires k < |s|
    requires forall task :: task in was <==> task in before || TornBefore(s, k, task)
    requires issues.Keys == was.Keys + if Torn(s, s[k]) then {s[k].row.task} else {}
    ensures forall task :: task in issues <==> task in before || TornBefore(s, k + 1, task)
  {
    hide Torn;
    forall task
      ensures TornBefore(s, k + 1, task) <==> TornBefore(s, k, task) || (s[k].row.task == task && Torn(s, s[k]))
    {
    }
    forall task ensures task in issues <==> task in issues.Keys {
    }
  }

  lemma TornAll(s: seq<Attempt>)
    ensures forall task :: TornBefore(s, |s|, task) <==> Mismapped(s, task)
  {
  }

  // ---- The report from the rows ----

  /** Exactly the tasks with an odd row, or without a one to one index, are under suspicion. */
  ghost predicate Suspects(rows: seq<Listed>, earlier: Issues) {
    forall task :: task in earlier <==> OddTask(rows, task) || Mismapped(Observed(rows), task)
  }

  /** The report over the admitted rows of all source reports. `indexIssues` are what the reports and
    * their rows say against single indices. */
  method ReportFromRows(
    rows: seq<Listed>, maxRounds: nat, maxEvalAttempts: nat, allowOverBudget: bool,
    expected: seq<int>, indexIssues: FactCensus.IndexIssues, globalIssues: seq<string>, names: int -> string)
    returns (r: Result<FactCensus.Report, set<Task>>)
    ensures r.Failure? <==> !allowOverBudget && Exhausted(Observed(rows), maxEvalAttempts) != {}
    ensures r.Success? ==>
              && (expected != [] ==> FactCensus.Censused(r.value.tasks, expected))
              && r.value.counts == FactCensus.CountsOf(r.value.tasks)
              && exists earlier ::
                   && Suspects(rows, earlier)
                   && ReportFits(
                        Observed(rows), maxRounds, maxEvalAttempts, earlier, expected, indexIssues, globalIssues,
                        r.value.tasks)
  {
    var observed, issues := Observe(rows);
    issues := FlagMappings(observed, issues);
    assert Suspects(rows, issues);
    hide *;
    r := BuildReport(
      observed, maxRounds, maxEvalAttempts, allowOverBudget, issues, expected, indexIssues, globalIssues, names);
  }
}
