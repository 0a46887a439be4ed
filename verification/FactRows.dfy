/** The task rows of a fact report, and how a row becomes a technical result. */
module FactRows {
  import opened Wrappers

  /** `accepted` keeps the status and verdict that a fail-closed row would have had. */
  datatype TaskRow = TaskRow(
    task: string, index: Option<int>, generationStatus: string, evalStatus: string, evalSuccess: bool,
    evalPending: bool, resolved: Option<bool>, technicalFailed: bool, reasons: seq<string>,
    accepted: Option<(string, Option<bool>)>, evalAttempts: nat)

  const INCONSISTENT := "technical_report_inconsistency"

  function AppendOnce(reasons: seq<string>, more: seq<string>): (r: seq<string>)
    ensures forall reason :: reason in r <==> reason in reasons || reason in more
  {
    if more == [] then reasons
    else
      var so := AppendOnce(reasons, more[..|more| - 1]);
      assert more == more[..|more| - 1] + [more[|more| - 1]];
      if more[|more| - 1] in so then so else so + [more[|more| - 1]]
  }

  /** One selected row becomes a fail-closed technical result. */
  function MarkTechnical(row: TaskRow, reasons: seq<string>): TaskRow {
    row.(
      reasons := AppendOnce(row.reasons, reasons),
      accepted := if row.evalStatus != INCONSISTENT then Some((row.evalStatus, row.resolved)) else row.accepted,
      evalStatus := INCONSISTENT, evalSuccess := false, evalPending := false, resolved := None, technicalFailed := true)
  }

  /** The row of a task whose attempts went over the budget. */
  function OverBudget(row: TaskRow): TaskRow {
    row.(
      accepted := Some((row.evalStatus, row.resolved)), evalStatus := "over_budget_evidence", evalSuccess := false,
      evalPending := false, resolved := None, technicalFailed := true, reasons := ["eval_attempt_budget_exceeded"])
  }

  /** A verdict goes with a successful evaluation, which needs a finished generation and excludes
    * a technical failure. */
  predicate Consistent(row: TaskRow) {
    && (row.evalSuccess <==> row.resolved.Some?)
    && (row.evalSuccess ==> row.generationStatus == "generation_done" && !row.technicalFailed && !row.evalPending)
  }

  lemma MarkedIsConsistent(row: TaskRow, reasons: seq<string>)
    ensures Consistent(MarkTechnical(row, reasons)) && Consistent(OverBudget(row))
    ensures !MarkTechnical(row, reasons).evalSuccess && !OverBudget(row).evalSuccess
  {
  }
}
