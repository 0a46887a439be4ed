# Models of the paid evaluation protocols

This project models the parts of the repository that keep paid, crash-prone evaluation runs
apart, and proves what they keep over every run. Each module is one component; processes that
share files, locks and process tables are state machines whose steps interleave freely, objects
and loops of one process are classes and methods.

- **Batch records**: `CellFamily`, `ModelIdentities`, `BatchRecords`, `BatchSafety`: batches linked by
  `retry_of` and `replaces`, planned, preflighted and launched by many processes under one records
  lock. `RetryOrder`, `Replacement` and `CellRows` are the reading side, `ReplacementPlanning` what the
  protocol is worth to it.
- **Container process guard**: `ProcessGuard`: `prepare`, `run` with its forked child, and `stop`;
  `StopSafety`: from which states a stop keeps its promise.
- **Evaluation claims**: `EvalClaims` (the evidence), `ClaimHandoff` (drivers, wrappers, reused process
  numbers, the clock), `HandoffLimits` (its conditions are exact), `EvaluatorRelease`
  (who may give a claim back).
- **Provider slots**: `ProviderSlots` (the cross-process semaphore), `ProviderLease` (one granted slot).
- **Fact report**: `FactObservation`, `EvalLedger`, `FactIdentity`, `FactRows`, `FactReport`, `FactCensus`.
- **Scheduler, publication, files, texts**: `Scheduler`, `RecoveryTail`, `Publication` with
  `PublicationRuns` and `PublicationOutcomes`, `AtomicFile`, `IndexRanges`, `ChatEvents`, `ChatStream`,
  `ChatPipeline`. `TextOrder`, `Texts` and `Wrappers` are shared helpers.

`dafny verify dfyconfig.toml` checks the whole project.

## What the code does not promise

Where the code falls short of its documented aim, a lemma gives a concrete run or state, and the
theorem beside it carries the condition under which the aim is met.

- The guard's `stop` can return 0 and a guarded command run afterwards when its cancel marker is
  removed before it returns, as in `PrepareInsideStop`. `StopIsSafeExactly` says for every reachable
  state whether that can still happen: it cannot exactly while a cancel marker is in place and no live
  command was overlooked, or while the owner marker is stuck.
- An evaluation claim published within the construction grace can still be replaced by an inspection
  that read it earlier (`PublishedInTimeAndStillReplaced`); a wrapper may write its final claim again
  over a later claim (`RewriteOverLaterClaim`); a wrapper stopped before it enters the evaluator's
  identity frees the claim of a live evaluator (`UnrecordedEvaluatorIsForgotten`). `Timely` and
  `Orderly` exclude these, and `OneEvaluatorPerTask` holds under them. They are exact: a run that has
  kept them stays at one evaluator exactly when its next step keeps them too (`SafeExactly`), where the
  continuations that count break nothing new.
- A publication whose rollback meets a failing status query raises that error with targets still
  moved away (`AbortedRollbackLosesTarget`). That is the only way: publishing outputs that are news, the
  promise is kept exactly when no status query fails inside the rollback (`PromiseKeptExactly`).
- The closed form of the worker count fails once a control file has lowered the workers below an
  already earned streak (`ClosedFormExactly` says exactly when it holds, `ControlBreaksClosedForm` that
  it happens).
- All leading spaces of a `data:` line are dropped, while section 9.2.6 of the WHATWG HTML standard
  drops one (`LineSurvives` says exactly which lines survive).

## Model

| member | source | states |
|---|---|---|
| CellFamily.CellModelFamily | src/opencollab_eval/commands/batch_state.py:85-164 | Succeeds exactly when every connected batch reads and no parent chain of one revisits a batch; then it lists exactly the weakly connected component, each batch once; the failure is a cycle exactly when all members read and some chain revisits |
| CellFamily.IndexChildren | src/opencollab_eval/commands/batch_state.py:128-135 | The child index holds a child under a parent exactly when the child's readable relation cites that parent |
| CellFamily.CollectMembers | src/opencollab_eval/commands/batch_state.py:137-152 | The work list reads exactly the connected members, each once, or fails with the error of a connected member that cannot be read |
| CellFamily.FollowChain | src/opencollab_eval/commands/batch_state.py:156-162 | Following one parent chain either finds that the chain of this batch revisits one, or clears a set of batches whose chains all end |
| CellFamily.CheckChains | src/opencollab_eval/commands/batch_state.py:154-164 | Accepts a readable, parent-closed family exactly when no member's parent chain revisits a batch |
| CellFamily.EndingChainsNeverRevisit | src/opencollab_eval/commands/batch_state.py:155-163 | A chain that comes to its end never meets a batch twice, at any two distances |
| CellFamily.CellIsRootClass | src/opencollab_eval/commands/batch_state.py:85-164 | In a store that grew by attaching leaves, being connected is the same as having the same root, so cells are the classes of the root |
| CellFamily.ForestNeverFails | src/opencollab_eval/commands/batch_state.py:85-164 | In such a store no connected member is missing or unreadable and no chain revisits: the family can always be computed |
| ModelIdentities.ModelIdentityIdempotent | src/opencollab_eval/commands/batch_state.py:76-82 | Normalising a recorded model identity again changes nothing, so comparing a recorded with a fresh identity compares normal forms |
| BatchRecords.TransactionKeepsStoreInv | src/opencollab_eval/commands/batch_state.py:55-66 | One allowed write keeps every store invariant: the forest of relations, one agreed identity per cell, incomplete claims never advanced, dispatched launches recorded as started or unknown, relations still matching, replacements distinct |
| BatchRecords.LeafKeepsForest | src/opencollab_eval/commands/batch_state.py:85-164 | Writing a batch whose parent is already recorded keeps the relation a forest in which parents are older than children |
| BatchRecords.PairStaysConsistent | src/opencollab_eval/commands/batch_state.py:167-191 | After an allowed write, two claiming launches of one cell still agree on the model, and on a complete one when they are two |
| BatchRecords.DispatchKeepsInv | src/opencollab_eval/commands/batch.py:585-604 | Sending the start script happens only for a launch already recorded as `start_unknown`, with a complete identity, owned by that process |
| BatchRecords.StepKeepsInv | src/opencollab_eval/commands/batch.py:552-604 | Every step of every process, crashes included, keeps the invariant over store, lock, program counters and dispatched launches |
| BatchSafety.OnePaidIdentityPerCell | src/opencollab_eval/commands/batch_state.py:167-191 | In every reachable state, under any interleaving and crash, two launches of one retry/replacement family that claim a model have the same model identity, complete when there are two |
| BatchSafety.DispatchedIsPaid | src/opencollab_eval/commands/batch_state.py:262-269 | A dispatched launch is never recorded as `not_started`; it keeps its place, its claim and a complete identity |
| BatchSafety.IncompleteClaimFreezesCell | src/opencollab_eval/commands/batch_state.py:167-191 | A launch prepared with an incomplete identity stays `preparing`, is never dispatched, stays the only claim of its cell, and blocks every later preflight, launch and state update of its batch |
| BatchSafety.CellsAreAlwaysFound | src/opencollab_eval/commands/batch_state.py:85-164 | On every store the protocol can reach, the cell of a recorded batch is found: no member is missing, unreadable or cyclic |
| BatchSafety.CellSharesConditions | src/opencollab_eval/commands/batch.py:234-338 | All batches of a cell were planned under the same paid conditions on the same machine |
| BatchSafety.ReplacementsNeverCollide | src/opencollab_eval/commands/batch.py:273-338 | In every reachable store no instance of a batch is replaced twice and none stands in twice, replaced instances are of the parent's slice and stand-ins are not |
| BatchSafety.ProgressIsAlwaysRecordable | src/opencollab_eval/commands/batch_state.py:262-269 | A process under the lock that records how its launch went is accepted exactly when the identity it prepared was complete, whatever others planned meanwhile |
| BatchSafety.RelationStillAccepted | src/opencollab_eval/commands/batch.py:234-338 | A recorded relation passes the retry and replacement checks again for ever after |
| BatchSafety.ScanLaunches | src/opencollab_eval/commands/batch_state.py:178-191 | The loop over one record's launches answers whether every claiming launch has exactly the current complete identity |
| BatchSafety.ScanCell | src/opencollab_eval/commands/batch_state.py:167-191 | The scan over the computed family and all launches accepts exactly when no claim anywhere in the cell differs from the current identity |
| RetryOrder.CycleCheck.Check | src/opencollab_eval/commands/batch_reporting.py:64-73 | The depth-first search answers false only when a walk of retries from the root comes back to a batch it passed; otherwise the cleared batches are closed under retries, children first |
| RetryOrder.RetryBatches | src/opencollab_eval/commands/batch_reporting.py:49-83 | Rejects exactly when some chain of retries from the batch comes back on itself; otherwise returns the retry order: each attempt available in its turn, none of the others available then earlier by launch time and name, nothing available left out |
| RetryOrder.IndexChildren | src/opencollab_eval/commands/batch_reporting.py:55-59 | The index lists under each name exactly the records that retry it, each once |
| RetryOrder.RetryOrderUnique | src/opencollab_eval/commands/batch_reporting.py:76-83 | There is only one such order |
| RetryOrder.RetryOrderIsComplete | src/opencollab_eval/commands/batch_reporting.py:76-83 | The order lists exactly the strict descendants, each once, every parent before its children |
| RetryOrder.ClearedRootReachesNoCycle | src/opencollab_eval/commands/batch_reporting.py:64-75 | When the search has cleared the root, no walk of retries from it revisits a batch |
| TextOrder.TextLessTotal | src/opencollab_eval/commands/batch_reporting.py:79 | The order of texts used for launch times and names is total and strict |
| ProcessGuard.StepKeepsInv | src/opencollab_eval/commands/container_process_guard.py:592-752 | Every step of every guard, child and stop keeps the invariant: one locked call, a marker owned by whoever wrote it, removers holding the lock over a dead session |
| ProcessGuard.OneCommandAtATime | src/opencollab_eval/commands/container_process_guard.py:638-655 | In every reachable state at most one guarded command is past its last cancel check with a live session, and the owner marker names it in full, even when its guard was killed |
| ProcessGuard.MarkerIsRemovedWhenDead | src/opencollab_eval/commands/container_process_guard.py:401-424 | An owner marker disappears only when its process and its session are dead, or by the writer's own failed write |
| ProcessGuard.OnlyClearsRemoveCancel | src/opencollab_eval/commands/container_process_guard.py:592-604 | A cancel marker goes away only by a `prepare` holding the lock or with the failed write of the stop that created it |
| ProcessGuard.StopMeansStopped | src/opencollab_eval/commands/container_process_guard.py:607-635 | When a stop returns 0 and no cancel marker was removed between its own marker and its return, no guarded command is alive, whoever was killed at whichever step; one that comes to life later owes it to a removal after the return |
| StopSafety.StopIsSafeExactly | src/opencollab_eval/commands/container_process_guard.py:592-752 | From any reachable state with a stop on its way or returned: whatever is killed and whoever runs, nothing is alive once it has returned 0, for as long as no cancel marker is removed any more, exactly when there is a cancel marker and no live command that the stop has overlooked, or an incomplete owner marker of a dead child keeps every guard away |
| StopSafety.UnmarkedIsUnsafe | src/opencollab_eval/commands/container_process_guard.py:592-752 | From every sane state in which the cancel marker of a stop on its way is gone, and no owner marker is stuck, there is a continuation without any further removal in which the stop returns 0 and then a command runs |
| StopSafety.OverlookedIsUnsafe | src/opencollab_eval/commands/container_process_guard.py:607-635 | A stop that is already past its look, or terminates another session, can return 0 beside a live command |
| StopSafety.EarlyClearUndoesStop | src/opencollab_eval/commands/container_process_guard.py:592-635 | Every removal of the cancel marker before the look of the stop turns a safe stop into an unsafe one, unless the owner marker is stuck |
| ProcessGuard.PrepareInsideStop | src/opencollab_eval/commands/container_process_guard.py:592-635 | A concrete run in which a prepare clears the cancel marker before the stop has the lock and an orphaned child executes after the stop returned 0, with no later prepare: one instance of the construction that shows the proviso to be needed |
| EvalClaims.ReplacedOnEvidence | src/opencollab_eval/commands/swe_auto_eval_claims.py:92-167 | All checks pass exactly when owner and group were each found gone or positively identified as another process, or have no recorded identity and an expired lease, and the construction grace is over |
| EvalClaims.UnknownRetains | src/opencollab_eval/commands/swe_auto_eval_claims.py:104-160 | An identity that cannot be read retains the claim, whatever the lease says |
| ClaimHandoff.NeverTakenFromTheLiving | src/opencollab_eval/commands/swe_auto_eval_claims.py:322-381 | In every run, with deaths, reused process numbers and unknown probes, a driver that unlinks or replaces the claim it read does so only after the recorded owner and group have ended |
| ClaimHandoff.NothingIsBusyWhenTaken | src/opencollab_eval/commands/swe_auto_eval_claims.py:322-381 | With timely handoffs and orderly wrappers, when a driver unlinks or replaces the claim on disk, whatever was written since its read, no handoff is busy at all |
| ClaimHandoff.OneHandoffBusy | src/opencollab_eval/commands/swe_auto_eval_driver.py:229-302 | With timely handoffs and orderly wrappers, whatever can still write the claim or evaluates belongs to one handoff, and the claim describes or shields that one |
| ClaimHandoff.OneEvaluatorPerTask | src/opencollab_eval/commands/swe_auto_eval_driver.py:229-302 | Under the same conditions at most one evaluator group of one instance is ever live |
| ClaimHandoff.ClearedIsQuiet | src/opencollab_eval/commands/swe_auto_eval_claims.py:309-319 | In a timely state an inspection that passes owner, group and grace checks has no busy handoff beside it |
| ClaimHandoff.PublishedInTimeAndStillReplaced | src/opencollab_eval/commands/swe_auto_eval_claims.py:322-381 | A concrete run where the wrapper publishes inside the grace and is still replaced, because the inspection read the claim before and checks the grace after: the grace must exceed the handoff by the length of an inspection |
| ClaimHandoff.RewriteOverLaterClaim | src/opencollab_eval/commands/swe_auto_eval_claim_runner.py:120-154 | A concrete run where a wrapper writes its final claim a second time over the claim of the next handoff, and two evaluators run |
| ClaimHandoff.UnrecordedEvaluatorIsForgotten | src/opencollab_eval/commands/swe_auto_eval_claim_runner.py:84-145 | A concrete run where a wrapper stopped before it entered the evaluator's identity frees the claim of a live evaluator |
| HandoffLimits.SafeExactly | src/opencollab_eval/commands/swe_auto_eval_driver.py:229-302 | A run that has kept the conditions up to its last step stays at one evaluator, whatever dies and whoever else comes, as long as nothing new is broken, exactly when that step is orderly and leaves no handoff late and no grace straddled |
| HandoffLimits.LateExactly | src/opencollab_eval/commands/swe_auto_eval_claims.py:309-319 | With the other conditions kept: exactly when no handoff has outlived its construction grace with nothing but its driver's claim |
| HandoffLimits.StraddleExactly | src/opencollab_eval/commands/swe_auto_eval_claims.py:322-381 | With the other conditions kept: exactly when no other driver's inspection that read the driver's claim of a busy handoff within its grace is still open after it |
| HandoffLimits.SettleExactly | src/opencollab_eval/commands/swe_auto_eval_claim_runner.py:84-145 | After a final claim that never named its evaluator: exactly when that evaluator group is gone |
| HandoffLimits.RewriteExactly | src/opencollab_eval/commands/swe_auto_eval_claim_runner.py:120-154 | After a final claim written again: exactly when no other handoff is busy, or the group number it keeps happens to shield that one |
| ProviderSlots.GrantWithinLimit | src/opencollab_eval/commands/provider_limits.py:126-148 | Every grant brings the live leases to at most the limit minus the reserve that this attempt read, on a slot no live lease has, in every interleaving with releases, deaths and configuration changes |
| ProviderSlots.NeverMoreThanRoom | src/opencollab_eval/commands/provider_limits.py:109-154 | If no attempt of a run read more room than a bound, the live leases never exceed the bound |
| ProviderSlots.NothingLeaks | src/opencollab_eval/commands/provider_limits.py:82-107 | With the allocation lock free, the locked slots are exactly those of live leases: failed scans, refused attempts, failed metadata writes and deaths leave none behind |
| ProviderSlots.OneMoreSlot | src/opencollab_eval/commands/provider_limits.py:86-102 | Passing one more slot in a scan adds at most the one lease on it, because live leases are on different slots |
| ProviderSlots.StepKeepsInv | src/opencollab_eval/commands/provider_limits.py:82-154 | Every step keeps: one scanner, leases on distinct locked slots, no leaked slot, and a scan count that covers every lease still live |
| ProviderLease.Lease.Close | src/opencollab_eval/commands/provider_limits.py:23-32 | The first close closes the descriptor; later ones change nothing, even when the number is in use again |
| ProviderLease.CloseTwice | src/opencollab_eval/commands/provider_limits.py:28-32 | Closed twice with its number taken by somebody else in between, a lease closes one descriptor only |
| ProviderLease.LeasedResponse.Close | src/opencollab_eval/commands/provider_limits.py:202-206 | The response is closed first; then the slot is given back, once, also when that close raised |
| ProviderLease.OpenLimited | src/opencollab_eval/commands/provider_limits.py:218-231 | After a grant, whatever the wrapped opener does: either its response owns the open slot, or the slot is closed after it raised and the error goes on |
| EvalLedger.EvalAttemptIncrements | src/opencollab_eval/commands/_swe_eval_layer_integrity.py:391-403 | The loop with its observed-counts map gives each attempt what it adds over the highest count of its ledger before it |
| EvalLedger.TotalIsSumOfHighest | src/opencollab_eval/commands/_swe_eval_layer_integrity.py:391-408 | The increments add up to the highest count of each ledger |
| EvalLedger.TotalIgnoresOrderAndRepeats | src/opencollab_eval/commands/_swe_eval_layer_integrity.py:406-408 | The total depends only on which counts occur, not on order or repetition |
| EvalLedger.ShareIsTotalOfTask | src/opencollab_eval/commands/swe_eval_layer_report.py:506-509 | Counting one evaluated instance inside the whole list or alone gives the same total |
| EvalLedger.AcceptWithinBudget | src/opencollab_eval/commands/swe_eval_layer_report.py:563-579 | Over budget, an attempt is accepted exactly when its increment keeps the accepted increments of its instance within the budget; the rejected increments are what is reported |
| EvalLedger.BudgetConserves | src/opencollab_eval/commands/swe_eval_layer_report.py:563-579 | Accepted increments stay within the budget, and accepted plus rejected increments equal what the ledgers hold |
| EvalLedger.RepeatsAreAccepted | src/opencollab_eval/commands/swe_eval_layer_report.py:563-579 | An attempt repeating a count its ledger already has is accepted even after a rejection, so the budget bounds increments and not accepted rows |
| FactIdentity.SuccessIsIdentified | src/opencollab_eval/commands/_swe_eval_layer_integrity.py:139-234 | A successful evaluation carries record, source patch and evaluated patch, equal on both sides, with generation and execution proven |
| FactIdentity.EmptyClaimIsNotEvaluated | src/opencollab_eval/commands/_swe_eval_layer_integrity.py:64-125 | A row that claims an empty patch and an official evaluation always has a reason against it |
| FactReport.CheckIdentities | src/opencollab_eval/commands/swe_eval_layer_report.py:469-505 | An evaluated instance gets an issue exactly when one of its attempts is out of order and not recovered, or two of them name different records, source patches or projections |
| FactReport.CollectVerdicts | src/opencollab_eval/commands/swe_eval_layer_report.py:534-546 | The verdict map holds a verdict for a candidate exactly when a successful attempt of that candidate gave it |
| FactReport.FlagConflicts | src/opencollab_eval/commands/swe_eval_layer_report.py:534-549 | Issues are added to exactly the instances of which one candidate was judged both ways |
| FactReport.FinalByTask | src/opencollab_eval/commands/swe_eval_layer_report.py:582-589 | The final attempt is the last one with the highest score, for every named instance with an accepted attempt |
| FactReport.BuildRows | src/opencollab_eval/commands/swe_eval_layer_report.py:591-650 | Exactly one row for every named instance with an accepted attempt; it is that of the final attempt, closed exactly when the instance is over budget or has an issue |
| FactReport.BuildTasks | src/opencollab_eval/commands/swe_eval_layer_report.py:469-650 | Refuses exactly when some instance is over budget and such evidence is not allowed, naming those; otherwise the rows rest on exactly the attempts that budget and round limit let through, and are sound |
| FactReport.VerdictKeptExactly | src/opencollab_eval/commands/swe_eval_layer_report.py:591-645 | Fail closed in both directions: a row carries a verdict exactly when its final attempt succeeded, its instance is within the budget and nothing stands against it |
| FactReport.VerdictIsUnanimous | src/opencollab_eval/commands/swe_eval_layer_report.py:469-645 | A row that keeps its verdict: all substantial attempts share one source patch and every successful evaluation came to this verdict |
| FactReport.OrderDoesNotMatter | src/opencollab_eval/commands/swe_eval_layer_report.py:469-645 | Two reports over the same rows in any order that both keep a verdict keep the same one |
| FactReport.BuildReport | src/opencollab_eval/commands/swe_eval_layer_report.py:373-693 | Refused exactly when over budget evidence is not allowed and there is some; otherwise the report is the census over those rows: with a census it has one row per expected index, its counts are those of its rows, verdicts are trustworthy, and its consumer can object only to pending rows or an incomplete clean run |
| FactObservation.Observe | src/opencollab_eval/commands/swe_eval_layer_report.py:406-455 | Every named row becomes an attempt with its round, and an instance gets an issue exactly when one of its rows repeats an earlier one or is a derived verdict without a known attempt |
| FactObservation.RoundsCountUp | src/opencollab_eval/commands/swe_eval_layer_report.py:427-445 | The attempts of an instance that are no rejudgements number its rounds from 1 on without a gap |
| FactObservation.RoundsAreOpenedOnce | src/opencollab_eval/commands/swe_eval_layer_report.py:427-445 | No two of them have the same round |
| FactObservation.RejudgesAnAttempt | src/opencollab_eval/commands/_swe_eval_layer_integrity.py:353-371 | A rejudgement takes the highest round of the attempts of its instance with the identity and count it names, exactly if there is one |
| FactObservation.FlagMappings | src/opencollab_eval/commands/swe_eval_layer_report.py:470-519 | An instance gets an issue exactly when it does not map one to one to an index |
| FactObservation.ReportFromRows | src/opencollab_eval/commands/swe_eval_layer_report.py:373-693 | From the admitted rows: refused exactly when over budget evidence is not allowed and there is some; otherwise the report fits the observed attempts, with exactly the odd and the mismapped instances under suspicion |
| FactRows.MarkedIsConsistent | src/opencollab_eval/commands/_swe_eval_layer_integrity.py:508-528 | Marking technical or over budget closes a row: no success, no verdict |
| FactCensus.FirstByTask | src/opencollab_eval/commands/_swe_eval_layer_integrity.py:576-590 | The candidate selected for an index is one of least name |
| FactCensus.ApplyExpectedCensus | src/opencollab_eval/commands/_swe_eval_layer_integrity.py:557-590 | Exactly one row per expected index in order; it is the unmarked candidate exactly when there is one candidate and no reason, else failed closed; without expected indices the rows stay as they are |
| FactCensus.CensusKeepsVerdicts | src/opencollab_eval/commands/_swe_eval_layer_integrity.py:557-590 | A verdict that survives the census is that of the only row of its index |
| FactCensus.Tally | src/opencollab_eval/commands/swe_eval_layer_report.py:659-679 | The counts the builder accumulates row after row are those the consumer derives field by field |
| FactCensus.BuiltReportIsAccepted | src/opencollab_eval/commands/_swe_g11_reports.py:135-188 | The consumer raises no census, index, count-row or verdict-count reason against a censused report |
| FactCensus.CleanReportIsComplete | src/opencollab_eval/commands/_swe_g11_reports.py:135-188 | A report accepted without technical failures has a verdict or an empty patch in every row |
| FactCensus.VerdictsAddUp | src/opencollab_eval/commands/_swe_g11_reports.py:178-179 | Resolved plus unresolved rows are the successful ones |
| Scheduler.ClosedFormExactly | src/opencollab_eval/commands/_swe_g11_config.py:666-700 | After every number n of clean results the workers are min(max, c + (s + n) / R) exactly when the streak has not already earned a worker |
| Scheduler.ControlKeepsEarnedExactly | src/opencollab_eval/commands/swe_g11_capacity_control.py:15-43 | A control file reading takes that condition away exactly when it lowers the workers below the maximum after a streak that has earned one |
| Scheduler.ControlBreaksClosedForm | src/opencollab_eval/commands/swe_g11_capacity_control.py:15-43 | With more than one worker it does happen: after enough clean results at the maximum a reading of 1 leads to a state from which the closed form is wrong |
| Scheduler.ResultsKeepEarned | src/opencollab_eval/commands/_swe_g11_config.py:666-700 | Without a control file every sequence of results keeps that condition and the range of workers |
| Scheduler.CleanResultsAddUp | src/opencollab_eval/commands/_swe_g11_config.py:686-700 | Clean results are conserved: each is in the streak or part of a regained worker, up to the maximum |
| Scheduler.PaceStaysInRange | src/opencollab_eval/commands/swe_g11_capacity_control.py:15-43 | Results and control file readings keep the workers between 1 and the maximum |
| Scheduler.Run.SubmitReady | src/opencollab_eval/commands/swe_g11_parallel_runner.py:486-490 | Starts pending indices in order while there is room and no halt; never more in flight than the workers allow, and no free worker beside a pending index |
| Scheduler.Run.Record | src/opencollab_eval/commands/swe_g11_parallel_runner.py:526-543 | A failed result halts the run exactly while indices are pending, and keeps those as not started |
| Scheduler.Run.Complete | src/opencollab_eval/commands/swe_g11_parallel_runner.py:506-543 | A finished batch moves from in flight to results, each once, with pending untouched |
| Scheduler.Run.Loop | src/opencollab_eval/commands/swe_g11_parallel_runner.py:492-544 | The loop ends only with nothing in flight and every index finished, or halted with pending equal to not started; finished and pending indices partition the configured ones throughout |
| RecoveryTail.Tail.Recover | src/opencollab_eval/commands/swe_g11_parallel_runner.py:250-442 | Every configured task keeps exactly one result, reached from its primary one by at most the configured number of justified reruns; without a halt each ends settled or with all its recoveries used, and the exhausted list names exactly the latter |
| RecoveryTail.Tail.RunRound | src/opencollab_eval/commands/swe_g11_parallel_runner.py:348-431 | A round never stalls: it ends with nothing in flight, and with nothing waiting unless it was halted |
| RecoveryTail.Tail.Finish | src/opencollab_eval/commands/swe_g11_parallel_runner.py:357-417 | A finished rerun replaces the selected result of its own task only, keeping all earlier attempts; a systemic result halts the tail with the waiting tasks as not started |
| RecoveryTail.Tail.PlanRound | src/opencollab_eval/commands/swe_g11_parallel_runner.py:261-322 | A round plans one attempt for exactly the tasks open to recovery, in configured order, with the next ordinal |
| RecoveryTail.TrailGrows | src/opencollab_eval/commands/swe_g11_technical_queue.py:356-386 | A rerun planned on the selected report extends the trail of its task: ordinals go on from 1, every attempt stays on record, and no rerun follows a systemic rerun |
| RecoveryTail.SettledStays | src/opencollab_eval/commands/swe_g11_technical_queue.py:167-180 | A result that may not be recovered, such as any verdict, a shared outage or an unproven candidate, is never rerun or replaced |
| RecoveryTail.RerunsAreJustified | src/opencollab_eval/commands/swe_g11_technical_queue.py:225-259 | Every recorded rerun started from a technical, unblocked result; it evaluates exactly proven candidates and generates only where there is no candidate; its evaluation limit is 1 or 2, and 2 exactly after an earlier evaluation; a rerun that was not technical is the last |
| RecoveryTail.RerunsAreDistinct | src/opencollab_eval/commands/swe_g11_technical_queue.py:47-80 | No two reruns of a run share task and ordinal, which their names and directories are made of |
| Publication.PublishTransaction | src/opencollab_eval/commands/swe_final_report.py:79-144 | For every schedule of faults the files, the operations tried and the outcome are those of the transaction function, of which the following rows speak |
| Publication.RollBack | src/opencollab_eval/commands/swe_final_report.py:114-144 | Likewise for the two reverse loops of the rollback |
| PublicationRuns.ForwardRuns | src/opencollab_eval/commands/swe_final_report.py:90-112 | The forward half goes through exactly without a fault and with every output staged with the content its digest stands for; otherwise the targets moved away and placed so far are known |
| PublicationRuns.RollBackReports | src/opencollab_eval/commands/swe_final_report.py:114-144 | A rollback is aborted exactly by a failing status query in it; it restores everything exactly when nothing in it fails and no placed output is irregular |
| PublicationOutcomes.ReturnsExactly | src/opencollab_eval/commands/swe_final_report.py:79-113 | It returns exactly without a fault, over regular or missing targets and outputs staged right; then all four targets hold their staged content and the final manifest is written |
| PublicationOutcomes.AbortsExactly | src/opencollab_eval/commands/swe_final_report.py:116-135 | The rollback is aborted exactly by a status query that fails inside it |
| PublicationOutcomes.BlamesRollbackExactly | src/opencollab_eval/commands/swe_final_report.py:114-143 | The explicit rollback error is raised exactly when another operation fails inside the rollback, or it must take back an output that is no regular file, and no status query fails inside it |
| PublicationOutcomes.CleanRollbackRestores | src/opencollab_eval/commands/swe_final_report.py:114-144 | When nothing fails inside the rollback, a publication that does not return leaves every target and the manifest as before |
| PublicationOutcomes.OneFaultIsUndone | src/opencollab_eval/commands/swe_final_report.py:79-144 | A single fault, at any operation, is undone completely |
| PublicationOutcomes.PromiseKeptExactly | src/opencollab_eval/commands/swe_final_report.py:79-144 | Published in full, or raised with everything as before, or the explicit rollback error: kept exactly when no status query fails inside the rollback |
| PublicationOutcomes.PromiseKeptOrUntouched | src/opencollab_eval/commands/swe_final_report.py:79-144 | For any outputs, equal ones included: kept exactly when no status query fails inside the rollback, or everything is as before all the same |
| PublicationOutcomes.AbortedRollbackLosesTarget | src/opencollab_eval/commands/swe_final_report.py:117-133 | A run of the transaction with two failing status queries that ends with a previous target moved away |
| AtomicFile.OnlyCommitsChangeTarget | src/opencollab_eval/safe_files.py:405-416 | A step changes the content of the target only by committing one complete payload |
| AtomicFile.TargetIsOldOrComplete | src/opencollab_eval/safe_files.py:354-435 | At every point of every run, whoever failed or was killed, the target is as at the start or holds the complete payload of a writer that committed |
| AtomicFile.OneCreatorReturns | src/opencollab_eval/safe_files.py:469-485 | Of any number of interleaved exclusive creators at most one returns, even beside replacing writers |
| AtomicFile.CreatorsPayloadIsThere | src/opencollab_eval/safe_files.py:469-485 | Among exclusive creators, the one that returned has its payload in the file |
| IndexRanges.RangeLabel | src/opencollab_eval/commands/_swe_g11_config.py:154-166 | The printed label spells the indices as maximal runs, in order |
| IndexRanges.ParseIndices | src/opencollab_eval/commands/_swe_g11_config.py:128-148 | The loop parses the items in order, fails on the first bad one, and returns the distinct values increasing |
| IndexRanges.LabelParsesBack | src/opencollab_eval/commands/_swe_g11_config.py:128-166 | Parsing the label of a non-empty strictly increasing sequence of non-negative indices gives the sequence back |
| IndexRanges.RoundTrip | src/opencollab_eval/commands/_swe_g11_config.py:128-166 | Printing and then parsing returns the same indices |
| IndexRanges.SplitOfJoin | src/opencollab_eval/commands/_swe_g11_config.py:131 | Splitting at commas inverts joining with commas |
| ChatEvents.Events | src/opencollab_eval/commands/llm_api_stream.py:180-208 | Hands out the events of the lines up to the one that exceeds the byte limit, and all of them exactly when the stream is not longer: comments skipped, data parts joined, a last event without a blank line delivered |
| ChatEvents.LineSurvives | src/opencollab_eval/commands/llm_api_stream.py:207-208 | A framed line comes back exactly when it does not begin with a space, since all leading spaces are dropped and not only one |
| ChatEvents.EventsInvertFraming | src/opencollab_eval/commands/llm_api_stream.py:180-208 | Reading inverts `data:` framing for payload lines without leading spaces and line breaks |
| ChatPipeline.AggregateStream | src/opencollab_eval/commands/llm_api_stream.py:180-285 | From the text of the stream: delivered exactly when the events handed out within the byte limit come to the end marker with only proper chunks before it, and then with what those chunks say |
| ChatPipeline.FramedChunksAreRead | src/opencollab_eval/commands/llm_api_stream.py:180-285 | An upstream that frames its chunks and the end marker is understood: exactly those chunks are aggregated, whatever follows, within the limit |
| ChatStream.Aggregate | src/opencollab_eval/commands/llm_api_stream.py:211-285 | Delivers exactly the streams that come to the end marker with only proper chunks, one matching identity and every choice finished |
| ChatStream.FoldConcatenates | src/opencollab_eval/commands/llm_api_stream.py:109-140 | A choice holds the contents, and each tool call the arguments, of its own deltas in stream order |
| ChatStream.ContentIsConcatenation | src/opencollab_eval/commands/llm_api_stream.py:211-285 | The delivered content and arguments are those concatenations |
| ChatStream.SplitContentKeepsMessages | src/opencollab_eval/commands/llm_api_stream.py:109-122 | Splitting the content of one delta changes no message |
| ChatStream.SplitArgumentsKeepsMessages | src/opencollab_eval/commands/llm_api_stream.py:68-98 | Splitting the arguments of one tool call changes no message |
| ChatStream.SplitKeepsCompletion | src/opencollab_eval/commands/llm_api_stream.py:211-285 | Splitting a content delta changes neither whether a stream is delivered nor what |
| ChatStream.SplitArgumentsKeepsCompletion | src/opencollab_eval/commands/llm_api_stream.py:211-285 | Splitting the arguments of one tool call changes neither whether a stream is delivered nor what |
| ChatStream.CutKeepsCompletion | src/opencollab_eval/commands/llm_api_stream.py:211-285 | Cutting a chunk in two between its deltas changes neither whether a stream is delivered nor what |
| ChatStream.SplitOverChunksKeepsCompletion | src/opencollab_eval/commands/llm_api_stream.py:211-285 | The second half of a content may come in a chunk of its own |
| ChatStream.SplitArgumentsOverChunksKeepsCompletion | src/opencollab_eval/commands/llm_api_stream.py:211-285 | The second half of the arguments of a tool call may come in a chunk of its own |
| ChatStream.SwapKeepsCompletion | src/opencollab_eval/commands/llm_api_stream.py:211-285 | Swapping adjacent usage-free chunks of different choices changes neither whether a stream is delivered nor what |
| Replacement.ReplacementBatches | src/opencollab_eval/commands/batch_reporting.py:86-123 | Fails exactly when two records claim one instance or two stand-ins run one instance; otherwise lists the readable one-instance stand-ins in order |
| Replacement.MergeStandIns | src/opencollab_eval/commands/batch_reporting.py:188-205 | Accepts exactly when every stand-in has no observation or one of its own instance, and merges the observed ones |
| Replacement.SelectCellRows | src/opencollab_eval/commands/batch_reporting.py:181-244 | Succeeds exactly when every stand-in is as expected, every withdrawal names a merged one and no selected instance repeats; the result follows the withdrawal and replacement rules over the observed stand-in rows |
| Replacement.NothingIsLost | src/opencollab_eval/commands/batch_reporting.py:206-234 | Every base row and merged stand-in is either selected or excluded, none twice and none in both |
| Replacement.WithdrawingAllRestores | src/opencollab_eval/commands/batch_reporting.py:206-241 | Withdrawing every replacement gives the base rows and the slice back and excludes all stand-ins |
| Replacement.WantedKeepsSize | src/opencollab_eval/commands/batch_reporting.py:241 | The wanted set keeps the size of the slice exactly when no remaining stand-in runs an instance the slice still has |
| ReplacementPlanning.ReachableIsWellPlanned | src/opencollab_eval/commands/batch_reporting.py:86-123 | On every store the batch protocol can reach, no instance of a batch is claimed twice, no stand-in comes twice, replaced instances are of the slice and stand-ins are not: the merge cannot fail |
| ReplacementPlanning.CellKeepsItsSize | src/opencollab_eval/commands/batch_reporting.py:181-244 | On every such store, whatever is observed and withdrawn, the cell wants as many instances as the slice of its batch has |
| CellRows.WantedAreAccountedFor | src/opencollab_eval/experiment/cell_report_statistics.py:96-107 | Ordering by the suite and filtering loses and doubles nothing: each wanted instance is either shown by its one row or listed as missing, and the numbers add up |
| CellRows.SuiteOrderIsKept | src/opencollab_eval/experiment/cell_report_statistics.py:96-107 | The rows of the suite come in the order of the suite |
| CellRows.SelectedCellIsReported | src/opencollab_eval/commands/batch_reporting.py:236-244 | A selected cell is reported in full: what is wanted is exactly what is shown or missing |
| EvaluatorRelease.Supervisor.RunEvaluator | src/opencollab_eval/commands/run_swebench_eval_per_instance.py:397-543 | A claim is given back only when the last report was that the group is terminated or quiet and the group was not seen alive since; in any other case it stays, on every exit; an exit code 0 although a stop was requested before the wait was over comes with a look that did not find the group, or with the claim held |
| EvaluatorRelease.Supervisor.Wait | src/opencollab_eval/commands/run_swebench_eval_per_instance.py:458-486 | The wait block goes on only when its last report was of success or with the claim retained |
| EvaluatorRelease.Supervisor.TerminateEvaluator | src/opencollab_eval/commands/run_swebench_eval_per_instance.py:399-403 | A termination that does not report success retains the claim before anything else can fail |
| EvaluatorRelease.Wrapper.RunEvaluator | src/opencollab_eval/commands/swe_auto_eval_claim_runner.py:84-159 | Every claim written with a cleared evaluator group was written after the group was found gone or its termination reported success, on the main and on the exception path |

## Left out

- BatchSafety.OnePaidIdentityPerCell: the launch lock, the refusal of derived slices and the digest check of the instances file are not modelled, which only allows more interleavings and more writes.
- BatchRecords.StepKeepsInv: host files and suite files are fixed during a run, and a spec's remaining paid fields are one opaque value.
- ModelIdentities.ModelIdentityIdempotent: stripping and lower-casing cover ASCII, not Unicode.
- RetryOrder.RetryBatches: record files are given as a list of records with distinct names; reading them from disk is not part of this model.
- ProcessGuard.StopMeansStopped: process and session numbers are never reused, a session scan is one step, descendants that open their own session are not followed.
- ProcessGuard.StepKeepsInv: signals appear only as deaths that can happen at any step, so that refusals to signal a reused number are not shown.
- ClaimHandoff.OneEvaluatorPerTask: needs the conditions `Timely` and `Orderly`, without which it is false, as HandoffLimits.SafeExactly shows; recorded start identities are non-empty and a process has one identity, although the probe has a `proc:` and a `ps:` form; malformed and oversized claim files are not modelled; the clock never goes back.
- ClaimHandoff.NeverTakenFromTheLiving: speaks of the claim the inspection read, since wrappers write without the claim lock; for the claim on disk see ClaimHandoff.NothingIsBusyWhenTaken, which needs the conditions.
- ProviderSlots.GrantWithinLimit: the reserve is the number read in the attempt; how legacy services are probed is not modelled.
- FactReport.BuildReport: the observed attempts and the issues from before the identity checks are parameters, which FactObservation.ReportFromRows supplies.
- FactObservation.ReportFromRows: which rows are admitted, and what the reports, repeated rows and mapping conflicts say against single indices, come in as parameters; token costs are left out; with an empty census the order of rows is not stated.
- FactIdentity.SuccessIsIdentified: the generation proof, the execution proof and all but one of the empty-patch checks are verdicts given with the row.
- FactCensus.ApplyExpectedCensus: an index is spelled by a parameter in the placeholder of a missing row.
- Scheduler.Run.Loop: the loop is shown for any number of waits, not for its end in time.
- RecoveryTail.Tail.Recover: how a result's candidate is proven comes with the result; decision files, the ledger of recovery events and a failure to write them are not modelled.
- PublicationOutcomes.PromiseKeptExactly: digests are as good as contents, the manifest write is all or nothing, and no other process touches the paths, which the publication lock sees to; outputs equal to the targets they replace are the subject of PublicationOutcomes.PromiseKeptOrUntouched.
- PublicationOutcomes.AbortsExactly: interrupts other than errors are not modelled.
- AtomicFile.TargetIsOldOrComplete: durability across power loss, parent directory checks and expected target identities are not modelled.
- IndexRanges.ParseIndices: the pair of start and end options, underscores and non-ASCII digits are left out.
- ChatEvents.Events: text is already decoded with one byte per character, and the read deadline is left out.
- ChatStream.Aggregate: JSON parsing and encoding, the size limit of the encoded response and the choice buffers as shared objects are left out; buffers are values, so aliasing and update in place are not captured.
- Replacement.SelectCellRows: folding retries into one row per instance is given; the order of the selected rows is the subject of CellRows.
- CellRows.WantedAreAccountedFor: the suite file names no instance twice.
- EvaluatorRelease.Supervisor.RunEvaluator: every call may fail or raise, but an interrupt between two calls is not modelled.
- Remote shells, relays, launch agents, health probes, Markdown and TeX rendering, command lines, price reports: plumbing and presentation without a decidable core.
- Configuration field checks, patch block filtering, streaming request rewriting: only easy members.
