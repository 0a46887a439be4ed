/** The census of a fact report, its counts, and the checks of the independent consumer. */
module FactCensus {
  import opened FactRows
  import opened TextOrder
  import opened Wrappers

  type IndexIssues = map<int, seq<string>>

  /** The rows that claim an index, in report order. */
  function At(rows: seq<TaskRow>, index: int): (r: seq<TaskRow>)
    ensures forall row :: row in r <==> row in rows && row.index == Some(index)
  {
    if rows == [] then []
    else
      assert rows == [rows[0]] + rows[1..];
      (if rows[0].index == Some(index) then [rows[0]] else []) + At(rows[1..], index)
  }

  /** The first row of the least task name. */
  method FirstByTask(candidates: seq<TaskRow>) returns (first: TaskRow)
    requires candidates != []
    ensures first in candidates
    ensures forall row :: row in candidates ==> !TextLess(row.task, first.task)
  {
    first := candidates[0];
    TextLessTotal(first.task, first.task);
    for k := 1 to |candidates|
      invariant first in candidates
      invariant forall i :: 0 <= i < k ==> !TextLess(candidates[i].task, first.task)
    {
      if TextLess(candidates[k].task, first.task) {
        forall i | 0 <= i < k ensures !TextLess(candidates[i].task, candidates[k].task) {
          if TextLess(candidates[i].task, candidates[k].task) {
            TextLessTransitive(candidates[i].task, candidates[k].task, first.task);
          }
        }
        first := candidates[k];
        TextLessTotal(first.task, first.task);
      }
    }
  }

  const MISSING_GENERATION := "missing_generation"

  function MissingTask(index: int, name: string, reasons: seq<string>): TaskRow {
    MarkTechnical(
      TaskRow(name, Some(index), MISSING_GENERATION, "", false, false, None, true, [], None, 0),
      ["missing_expected_task"] + reasons)
  }

  /** What the census makes of one expected index. */
  ghost predicate RightRow(rows: seq<TaskRow>, index: int, reasons: seq<string>, row: TaskRow) {
    && row.index == Some(index)
    && (|At(rows, index)| == 1 && reasons == [] ==> row == At(rows, index)[0])
    && (!(|At(rows, index)| == 1 && reasons == []) ==>
          row.technicalFailed && !row.evalSuccess && row.resolved == None && row.evalStatus == INCONSISTENT)
    && (At(rows, index) != [] ==>
          exists selected :: selected in At(rows, index) && row.task == selected.task
                             && row.generationStatus == selected.generationStatus
                             && row.evalAttempts == selected.evalAttempts
                             && forall other :: other in At(rows, index) ==> !TextLess(other.task, selected.task))
  }

  function ReasonsAgainst(index: int, issues: IndexIssues, global: seq<string>): seq<string> {
    global + if index in issues then issues[index] else []
  }

  /** `row` is the result for one index: the selected candidate, marked when anything is wrong. */
  lemma SelectedIsRight(rows: seq<TaskRow>, index: int, reasons: seq<string>, first: TaskRow)
    requires first in At(rows, index)
    requires forall other :: other in At(rows, index) ==> !TextLess(other.task, first.task)
    ensures |At(rows, index)| > 1 ==>
              RightRow(rows, index, reasons, MarkTechnical(first, reasons + ["index_task_mapping_conflict"]))
    ensures |At(rows, index)| == 1 && reasons != [] ==> RightRow(rows, index, reasons, MarkTechnical(first, reasons))
    ensures |At(rows, index)| == 1 && reasons == [] ==> RightRow(rows, index, reasons, first)
  {
  }

  lemma MissingIsRight(rows: seq<TaskRow>, index: int, reasons: seq<string>, name: string)
    requires At(rows, index) == []
    ensures RightRow(rows, index, reasons, MissingTask(index, name, reasons))
  {
  }

  predicate HasUnexpected(rows: seq<TaskRow>, expected: seq<int>) {
    exists row :: row in rows && row.index.Some? && row.index.value !in expected
  }

  /** Exactly one row per expected index, in order, failed closed on any reason against it; without
    * expected indices the rows as they are. `names` spells an index in the placeholder of a missing task. */
  method ApplyExpectedCensus(
    rows: seq<TaskRow>, expected: seq<int>, issues: IndexIssues, globalIssues: seq<string>, names: int -> string)
    returns (result: seq<TaskRow>, global: seq<string>)
    ensures expected == [] ==> result == rows && global == globalIssues
    ensures expected != [] ==>
              && global == (if HasUnexpected(rows, expected) && "unexpected_task_index" !in globalIssues
                            then globalIssues + ["unexpected_task_index"] else globalIssues)
              && |result| == |expected|
              && forall k :: 0 <= k < |expected| ==>
                   RightRow(rows, expected[k], ReasonsAgainst(expected[k], issues, global), result[k])
  {
    if expected == [] {
      return rows, globalIssues;
    }
    global := if HasUnexpected(rows, expected) && "unexpected_task_index" !in globalIssues
              then globalIssues + ["unexpected_task_index"] else globalIssues;
    hide *;
    result := CensusRows(rows, expected, issues, global, names);
  }

  method CensusRows(
    rows: seq<TaskRow>, expected: seq<int>, issues: IndexIssues, global: seq<string>, names: int -> string)
    returns (result: seq<TaskRow>)
    ensures |result| == |expected|
    ensures forall k :: 0 <= k < |expected| ==>
              RightRow(rows, expected[k], ReasonsAgainst(expected[k], issues, global), result[k])
  {
    result := [];
    hide *;
    for k := 0 to |expected|
      invariant |result| == k
      invariant forall i :: 0 <= i < k ==>
                  RightRow(rows, expected[i], ReasonsAgainst(expected[i], issues, global), result[i])
    {
      var index := expected[k];
      var candidates := At(rows, index);
      var reasons := ReasonsAgainst(index, issues, global);
      var row;
      if candidates == [] {
        MissingIsRight(rows, index, reasons, "expected-index-" + names(index));
        row := MissingTask(index, "expected-index-" + names(index), reasons);
      } else {
        row := FirstByTask(candidates);
        SelectedIsRight(rows, index, reasons, row);
        if |candidates| > 1 {
          row := MarkTechnical(row, reasons + ["index_task_mapping_conflict"]);
        } else if reasons != [] {
          row := MarkTechnical(row, reasons);
        }
      }
      result := result + [row];
    }
  }

  // ---- Counts ----

  function Count(rows: seq<TaskRow>, p: TaskRow -> bool): nat {
    if rows == [] then 0 else (if p(rows[0]) then 1 else 0) + Count(rows[1..], p)
  }

  function SumAttempts(rows: seq<TaskRow>): nat {
    if rows == [] then 0 else rows[0].evalAttempts + SumAttempts(rows[1..])
  }

  datatype Counts = Counts(
    tasks: nat, evalAttempts: nat, evalRetryTasks: nat, evalSuccess: nat, emptyPatch: nat, evalPending: nat,
    resolved: nat, unresolved: nat, technicalFailed: nat)

  const RETRIED := (row: TaskRow) => row.evalAttempts > 1
  const SUCCESS := (row: TaskRow) => row.evalSuccess
  const EMPTY := (row: TaskRow) => row.generationStatus == "empty_patch"
  const PENDING := (row: TaskRow) => row.evalPending
  const RESOLVED := (row: TaskRow) => row.resolved == Some(true)
  const UNRESOLVED := (row: TaskRow) => row.resolved == Some(false)
  const TECHNICAL := (row: TaskRow) => row.technicalFailed

  function CountsOf(rows: seq<TaskRow>): Counts {
    Counts(
      |rows|, SumAttempts(rows), Count(rows, RETRIED), Count(rows, SUCCESS), Count(rows, EMPTY), Count(rows, PENDING),
      Count(rows, RESOLVED), Count(rows, UNRESOLVED), Count(rows, TECHNICAL))
  }

  function One(condition: bool): nat {
    if condition then 1 else 0
  }

  /** The builder's own counting, row after row; the consumer counts again, field by field. */
  method Tally(rows: seq<TaskRow>) returns (counts: Counts)
    ensures counts == CountsOf(rows)
  {
    counts := Counts(0, 0, 0, 0, 0, 0, 0, 0, 0);
    for k := 0 to |rows|
      invariant counts == CountsOf(rows[..k])
    {
      var row := rows[k];
      assert rows[..k + 1] == rows[..k] + [row];
      TallyOne(rows[..k], row);
      counts := Tallied(counts, row);
    }
    assert rows[..|rows|] == rows;
  }

  function Tallied(c: Counts, row: TaskRow): Counts {
    Counts(
      c.tasks + 1, c.evalAttempts + row.evalAttempts, c.evalRetryTasks + One(row.evalAttempts > 1),
      c.evalSuccess + One(row.evalSuccess), c.emptyPatch + One(row.generationStatus == "empty_patch"),
      c.evalPending + One(row.evalPending), c.resolved + One(row.resolved == Some(true)),
      c.unresolved + One(row.resolved == Some(false)), c.technicalFailed + One(row.technicalFailed))
  }

  lemma TallyOne(rows: seq<TaskRow>, row: TaskRow)
    ensures CountsOf(rows + [row]) == Tallied(CountsOf(rows), row)
  {
    AttemptsOfLonger(rows, row);
    CountOfLonger(rows, row, RETRIED);
    CountOfLonger(rows, row, SUCCESS);
    CountOfLonger(rows, row, EMPTY);
    CountOfLonger(rows, row, PENDING);
    CountOfLonger(rows, row, RESOLVED);
    CountOfLonger(rows, row, UNRESOLVED);
    CountOfLonger(rows, row, TECHNICAL);
  }

  lemma {:induction false} AttemptsOfLonger(rows: seq<TaskRow>, row: TaskRow)
    ensures SumAttempts(rows + [row]) == SumAttempts(rows) + row.evalAttempts
  {
    if rows != [] {
      AttemptsOfLonger(rows[1..], row);
      assert (rows + [row])[1..] == rows[1..] + [row];
    }
  }

  lemma {:induction false} CountOfLonger(rows: seq<TaskRow>, row: TaskRow, p: TaskRow -> bool)
    ensures Count(rows + [row], p) == Count(rows, p) + One(p(row))
  {
    if rows != [] {
      CountOfLonger(rows[1..], row, p);
      assert (rows + [row])[1..] == rows[1..] + [row];
    }
  }

  datatype Report = Report(expected: seq<int>, counts: Counts, tasks: seq<TaskRow>)

  // ---- The consumer ----

  function IndicesOf(rows: seq<TaskRow>): seq<Option<int>> {
    seq(|rows|, i requires 0 <= i < |rows| => rows[i].index)
  }

  function Somes(indices: seq<int>): seq<Option<int>> {
    seq(|indices|, i requires 0 <= i < |indices| => Some(indices[i]))
  }

  function Mismatches(counts: Counts, rows: seq<TaskRow>): seq<string> {
    var derived := CountsOf(rows);
    When(counts.evalAttempts != derived.evalAttempts, "fact_report_count_row_mismatch:eval_attempts")
    + When(counts.evalRetryTasks != derived.evalRetryTasks, "fact_report_count_row_mismatch:eval_retry_tasks")
    + When(counts.evalSuccess != derived.evalSuccess, "fact_report_count_row_mismatch:eval_success")
    + When(counts.emptyPatch != derived.emptyPatch, "fact_report_count_row_mismatch:empty_patch")
    + When(counts.evalPending != derived.evalPending, "fact_report_count_row_mismatch:eval_pending")
    + When(counts.resolved != derived.resolved, "fact_report_count_row_mismatch:resolved")
    + When(counts.unresolved != derived.unresolved, "fact_report_count_row_mismatch:unresolved")
    + When(counts.technicalFailed != derived.technicalFailed, "fact_report_count_row_mismatch:technical_failed_final")
  }

  function ValidateFactReport(report: Report, indices: seq<int>): seq<string> {
    var c := report.counts;
    When(report.expected != indices, "fact_report_expected_census_mismatch")
    + When(c.tasks != |indices| || |report.tasks| != |indices|, "fact_report_task_census_mismatch")
    + When(IndicesOf(report.tasks) != Somes(indices), "fact_report_task_index_mismatch")
    + Mismatches(c, report.tasks)
    + When(c.evalPending != 0, "fact_report_has_pending_tasks")
    + When(c.resolved + c.unresolved != c.evalSuccess, "fact_report_verdict_count_conflict")
    + When(c.technicalFailed == 0 && c.evalSuccess + c.emptyPatch != c.tasks, "fact_report_clean_completion_conflict")
  }

  /** The rows come from the census over the configured indices and are consistent. */
  ghost predicate Censused(rows: seq<TaskRow>, indices: seq<int>) {
    && |rows| == |indices|
    && forall k :: 0 <= k < |rows| ==> rows[k].index == Some(indices[k]) && Consistent(rows[k])
  }

  lemma {:induction false} VerdictsAddUp(rows: seq<TaskRow>)
    requires forall row :: row in rows ==> Consistent(row)
    ensures Count(rows, RESOLVED) + Count(rows, UNRESOLVED) == Count(rows, SUCCESS)
  {
    if rows != [] {
      assert rows == [rows[0]] + rows[1..];
      assert Consistent(rows[0]);
      assert SUCCESS(rows[0]) <==> RESOLVED(rows[0]) || UNRESOLVED(rows[0]) by {
        if rows[0].resolved.Some? && rows[0].resolved.value {
        } else {
        }
      }
      VerdictsAddUp(rows[1..]);
    }
  }

  /** The consumer has nothing against a report over censused rows, except rows still pending, or
    * rows without technical failure that are neither evaluated nor empty. */
  lemma BuiltReportIsAccepted(rows: seq<TaskRow>, indices: seq<int>, reason: string)
    requires Censused(rows, indices)
    requires reason in ValidateFactReport(Report(indices, CountsOf(rows), rows), indices)
    ensures reason in {"fact_report_has_pending_tasks", "fact_report_clean_completion_conflict"}
    ensures reason == "fact_report_has_pending_tasks" ==> exists row :: row in rows && row.evalPending
  {
    VerdictsAddUp(rows);
    assert IndicesOf(rows) == Somes(indices);
    if forall row :: row in rows ==> !row.evalPending {
      NoneCounted(rows, PENDING);
    }
  }

  lemma {:induction false} NoneCounted(rows: seq<TaskRow>, p: TaskRow -> bool)
    ensures Count(rows, p) == 0 <==> forall row :: row in rows ==> !p(row)
  {
    if rows != [] {
      assert rows == [rows[0]] + rows[1..];
      NoneCounted(rows[1..], p);
    }
  }

  lemma {:induction false} SuccessOrEmpty(rows: seq<TaskRow>)
    requires forall row :: row in rows ==> Consistent(row)
    ensures Count(rows, SUCCESS) + Count(rows, EMPTY) <= |rows|
    ensures Count(rows, SUCCESS) + Count(rows, EMPTY) == |rows| ==>
              forall row :: row in rows ==> row.evalSuccess || row.generationStatus == "empty_patch"
  {
    if rows != [] {
      assert rows == [rows[0]] + rows[1..];
      assert Consistent(rows[0]);
      SuccessOrEmpty(rows[1..]);
    }
  }

  /** A report accepted without technical failures has a verdict or an empty patch in every row. */
  lemma CleanReportIsComplete(rows: seq<TaskRow>, indices: seq<int>)
    requires Censused(rows, indices)
    requires ValidateFactReport(Report(indices, CountsOf(rows), rows), indices) == []
    requires CountsOf(rows).technicalFailed == 0
    ensures forall row :: row in rows ==>
              !row.technicalFailed && !row.evalPending
              && (row.evalSuccess || row.generationStatus == "empty_patch")
  {
    NoneCounted(rows, TECHNICAL);
    NoneCounted(rows, PENDING);
    SuccessOrEmpty(rows);
  }

  /** The census of consistent rows is consistent, and its verdicts are those of single rows. */
  lemma CensusKeepsVerdicts(
    rows: seq<TaskRow>, expected: seq<int>, reasons: seq<seq<string>>, result: seq<TaskRow>)
    requires |result| == |reasons| == |expected|
    requires forall row :: row in rows ==> Consistent(row)
    requires forall k :: 0 <= k < |expected| ==> RightRow(rows, expected[k], reasons[k], result[k])
    ensures Censused(result, expected)
    ensures forall k :: 0 <= k < |expected| && result[k].evalSuccess ==> At(rows, expected[k]) == [result[k]]
  {
    forall k | 0 <= k < |expected|
      ensures Consistent(result[k]) && (result[k].evalSuccess ==> At(rows, expected[k]) == [result[k]])
    {
      assert RightRow(rows, expected[k], reasons[k], result[k]);
      var at := At(rows, expected[k]);
      if |at| == 1 && reasons[k] == [] {
        assert at[0] in at;
        assert at == [at[0]];
      }
    }
  }
}
