/** Identity and execution evidence of one report row, and the attempt state drawn from it. */
module FactIdentity {
  import opened Wrappers

  /** Digests are full lower-case digests or "" for anything else; `rawPatch` is the text as it
    * stands. `proven` is the verdict of the generation proof check. */
  datatype Generation = Generation(
    status: string, task: string, recordId: string, patch: string, rawPatch: string, emptyPatch: bool,
    proven: bool, evalPatch: string, filtered: Option<seq<string>>)

  /** `proof` is the verdict of the direct execution proof check. */
  datatype Summary = Summary(
    present: bool, task: string, recordId: string, patch: string, rawPatch: string, evalPatch: string,
    filtered: Option<seq<string>>, resolved: Option<bool>, proof: bool)

  datatype Evaluation = Evaluation(present: bool, status: string, task: string, summary: Summary, count: nat)

  /** `emptyReasons` are the findings of the empty-patch checks other than the one on the
    * evaluation status. */
  datatype Row = Row(
    task: string, index: Option<int>, generation: Generation, evaluation: Evaluation, emptyReasons: seq<string>)

  datatype Integrity = Integrity(
    recordId: string, patch: string, evalPatch: string, filtered: seq<string>, proven: bool, reasons: seq<string>)

  function Or(a: string, b: string): string {
    if a != "" then a else b
  }

  function OrPaths(a: Option<seq<string>>, b: Option<seq<string>>): seq<string> {
    if a.Some? && a.value != [] then a.value else if b.Some? then b.value else []
  }

  function EmptyPatchReasons(row: Row): seq<string> {
    row.emptyReasons + When(row.evaluation.status != "skipped_empty_patch", "empty_patch_eval_status_invalid")
  }

  predicate ClaimsEmpty(row: Row) {
    row.generation.status == "empty_patch" || row.evaluation.status == "skipped_empty_patch"
  }

  predicate DeclaredEmpty(row: Row) {
    ClaimsEmpty(row) && EmptyPatchReasons(row) == []
  }

  predicate DryRun(row: Row) {
    row.generation.status == "would_generate" && row.evaluation.status == "would_eval"
  }

  predicate Recorded(e: Evaluation) {
    || e.summary.present
    || e.status in {"eval_done", "technical_eval_failed", "empty_eval_patch_invalid", "blocked_missing_eval_spec"}
  }

  function GenerationReasons(row: Row): seq<string> {
    var g := row.generation;
    When(g.status == "", "missing_generation_status")
    + When(g.status != "" && g.status != "generation_done", "unexpected_generation_status:" + g.status)
    + When(g.task != row.task, "generation_task_mismatch")
    + When(g.recordId == "", "missing_generation_record_id")
    + When(g.patch == "", "invalid_generation_patch_sha256")
    + When(g.emptyPatch, "undeclared_empty_patch")
    + When(!g.proven, "missing_trusted_generation_proof")
    + When(row.evaluation.present && row.evaluation.task != row.task, "evaluation_task_mismatch")
  }

  function RecordedReasons(row: Row): seq<string> {
    var g, u := row.generation, row.evaluation.summary;
    When(u.task != row.task, "eval_summary_task_mismatch")
    + When(u.recordId == "", "missing_eval_record_id")
    + When(u.recordId != "" && g.recordId != "" && u.recordId != g.recordId, "eval_record_id_mismatch")
    + When(u.patch == "", "invalid_eval_source_patch_sha256")
    + When(u.patch != "" && g.patch != "" && u.patch != g.patch, "eval_source_patch_sha256_mismatch")
    + When(g.evalPatch == "", "invalid_generation_eval_patch_sha256")
    + When(u.evalPatch == "", "invalid_eval_patch_sha256")
    + When(u.evalPatch != "" && g.evalPatch != "" && u.evalPatch != g.evalPatch, "eval_patch_sha256_mismatch")
    + When(g.filtered.None?, "invalid_generation_filtered_patch_paths")
    + When(u.filtered.None?, "invalid_eval_filtered_patch_paths")
    + When(u.filtered.Some? && g.filtered.Some? && u.filtered != g.filtered, "filtered_patch_paths_mismatch")
  }

  function ExecutionReasons(row: Row): seq<string> {
    var e := row.evaluation;
    When(e.status == "eval_done" && !e.summary.proof, "missing_direct_execution_proof")
    + When(e.status == "technical_eval_failed" && e.summary.resolved == Some(true), "technical_resolved_conflict")
  }

  function AttemptIntegrity(row: Row): Integrity {
    var g, e := row.generation, row.evaluation;
    if DryRun(row) then Integrity("", "", "", [], false, [])
    else if ClaimsEmpty(row) then Integrity(g.recordId, g.patch, "", [], false, EmptyPatchReasons(row))
    else
      Integrity(
        g.recordId, Or(g.patch, e.summary.patch), Or(g.evalPatch, e.summary.evalPatch),
        OrPaths(g.filtered, e.summary.filtered), e.status == "eval_done" && e.summary.proof,
        GenerationReasons(row) + (if Recorded(e) then RecordedReasons(row) else []) + ExecutionReasons(row))
  }

  // ---- The attempt state ----

  predicate EvalSuccess(row: Row) {
    && row.evaluation.status == "eval_done"
    && row.evaluation.summary.resolved.Some?
    && AttemptIntegrity(row).reasons == []
  }

  function Resolved(row: Row): Option<bool> {
    if EvalSuccess(row) then row.evaluation.summary.resolved else None
  }

  function Patch(row: Row): string {
    Or(AttemptIntegrity(row).patch, Or(row.generation.rawPatch, row.evaluation.summary.rawPatch))
  }

  function EvalStatus(row: Row): string {
    if AttemptIntegrity(row).reasons != [] then "technical_identity_failure" else row.evaluation.status
  }

  predicate EvalPending(row: Row) {
    row.evaluation.status == "would_eval" && AttemptIntegrity(row).reasons == []
  }

  predicate TechnicalFailed(row: Row) {
    AttemptIntegrity(row).reasons != [] || row.evaluation.status !in {"eval_done", "skipped_empty_patch", "would_eval"}
  }

  predicate PendingDryRun(row: Row) {
    row.generation.status == "would_generate" && EvalStatus(row) == "would_eval"
  }

  /** An attempt that counts for the identity of its task. */
  predicate Substantial(row: Row) {
    !DeclaredEmpty(row) && !PendingDryRun(row)
  }

  function Projection(row: Row): (string, seq<string>) {
    (AttemptIntegrity(row).evalPatch, AttemptIntegrity(row).filtered)
  }

  /** A successful evaluation carries a full identity: record, source patch and evaluated patch
    * are all there and agree with what was generated, and the execution is proven. */
  lemma SuccessIsIdentified(row: Row)
    requires EvalSuccess(row)
    ensures Substantial(row) && Resolved(row).Some?
    ensures Patch(row) != "" && Patch(row) == row.generation.patch == row.evaluation.summary.patch
    ensures Projection(row).0 != "" && Projection(row).0 == row.generation.evalPatch == row.evaluation.summary.evalPatch
    ensures AttemptIntegrity(row).recordId != ""
    ensures row.generation.recordId == row.evaluation.summary.recordId
    ensures row.generation.status == "generation_done" && row.generation.proven && AttemptIntegrity(row).proven
  {
    assert Recorded(row.evaluation);
    EmptyClaimIsNotEvaluated(row);
    assert GenerationReasons(row) == [] && RecordedReasons(row) == [] && ExecutionReasons(row) == [];
    NothingWrongWithGeneration(row);
    NothingWrongWithRecord(row);
  }

  lemma EmptyClaimIsNotEvaluated(row: Row)
    ensures ClaimsEmpty(row) && row.evaluation.status == "eval_done" ==> AttemptIntegrity(row).reasons != []
  {
  }

  lemma NothingWrongWithGeneration(row: Row)
    requires GenerationReasons(row) == []
    ensures row.generation.status == "generation_done" && row.generation.recordId != "" && row.generation.patch != ""
    ensures row.generation.proven && !row.generation.emptyPatch
  {
  }

  lemma NothingWrongWithRecord(row: Row)
    requires RecordedReasons(row) == []
    ensures var g, u := row.generation, row.evaluation.summary;
            && u.recordId != "" && (g.recordId != "" ==> u.recordId == g.recordId)
            && u.patch != "" && (g.patch != "" ==> u.patch == g.patch)
            && g.evalPatch != "" && u.evalPatch == g.evalPatch
            && g.filtered.Some? && u.filtered == g.filtered
  {
  }
}
