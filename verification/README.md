# Verified models of the appraisal review service

Dafny models of the application layer of the appraisal review service: its protocols, its
bounded workflow, its local privacy and restoration reviews, its document storage, and its
evaluation and budget code. The statements are about every input, every interleaving or every
reachable state, not about examples.

| component | modules |
|---|---|
| durable jobs | `JobState`, `JobStore`, `JobLifecycle`, `JobEffects`, `JobPasses`, `WorkerReport` |
| bounded controlled workflow | `ActionPolicy`, `ControlledWorkflow`, `DecisionMeaning`, `BoundedWorkflow`, `TripMeaning`, `WorkflowVerdict`, `WorkflowExample` |
| local privacy review | `PrivacyReview` |
| restoration review | `RefillPartition`, `RefillReview` |
| document transfer | `DocumentTransfer`, `DocumentProtocol`, `DocumentOrigin` |
| extraction evaluation | `ExtractionMatch`, `ExtractionScore`, `ExtractionLaws`, `ExtractionScorer`, `ExtractionMeaning`, `EvaluationRun` |
| extraction budget | `ExtractionLedger` |
| revision lineage | `Revisions` |
| shared model dispatch | `ModelDispatch` |

`dafny verify dfyconfig.toml` checks everything.

How the models are built:

- Code that updates objects or loops over them is a class or a method with loop invariants, tied
  to a function of the old value; the lemmas are about those functions. Pure code is functions.
- A protocol is a step function over its whole state. Each lock-protected section and each store
  write is one step, so a sequence of steps is an interleaving and a process may stop (crash)
  between any two of its steps. A run theorem quantifies over all step sequences.
- A digest is the digested value, so equal digests mean equal values. Identities are numbers;
  object identity is a stamp that is never reused.
- What the environment answers (clock, authorization, signature check, OCR, renderer, model
  provider, queue, human) is an argument of the step that asks.

Assumptions taken from ports: a store write is atomic and conditional, as the local adapters
implement it; generated identifiers are new; validated records satisfy their own validators.

Where the code does not do what its documentation promises, the model follows the code, shows the
failing case and states exactly when the promise holds:

- A result body left behind by an attempt that died before committing it blocks its run, because
  the local result store keys bodies by run and version and a body names its attempt; the design
  calls such an orphan harmless (`JobLifecycle.PublishableExactlyWhenBodySlotFree`,
  `JobLifecycle.OrphanBodyBlocksItsRun`, `JobLifecycle.OrphanBodyHappens`).
- One failing round can end a dispatch pass, which its comments rule out: deferring a refused
  round that someone else has settled raises a lost condition nobody catches, as does any error of
  the sender but the transient one (`JobPasses.PassEndsEarlyExactly`,
  `JobPasses.OneRoundEndsThePass`).
- A worker reports waiting for a human although a recorded cancel turned the parking into a
  cancellation (`WorkerReport.ReportIsHonestExactly`, `WorkerReport.WaitingReportOfACancelledJob`).
- A worker reports itself superseded although nobody took its lease, when it has recorded its own
  retryable failure and the job moves on before it schedules the retry, or when its execution
  raises a lost condition of its own, and then the lease stays until it expires
  (`WorkerReport.ReportIsHonestExactly`, `WorkerReport.SupersededByACancel`).
- The action policy cannot derive actions for a revision without rules when a human or review rule
  applies, though a valid registry allows such rules (`ActionPolicy.DeriveFailsExactlyWithoutRules`,
  `ActionPolicy.EarlyQuestionIsRefused`).
- A bounded run can end as waiting for a human right after a failed event when the case moves while
  a throttled selection waits; had the case become verified, or a proposal named another run, the
  result's own validator raises and the run is abandoned instead of handed off
  (`WorkflowVerdict.WaitsAfterFailureExactly`, `WorkflowVerdict.ResultRefusedExactly`,
  `WorkflowExample.FailedRunsDoClose`).

## Model

| member | source | states |
|---|---|---|
| `JobState.BackoffBounds` | src/appraisal_review/application/job_state.py:92-101 | backoff stays between base and cap and never shrinks as attempts grow |
| `JobState.BackoffDoubles` | src/appraisal_review/application/job_state.py:92-101 | the delay starts at the base, doubles with every attempt until it meets the cap, and stays from the 33rd attempt on |
| `JobLifecycle.NextKeepsInv` | src/appraisal_review/application/job_state.py:146-282 | every store write, message and body upload, by anyone at any time, keeps the lease, token, claim, round, status and result invariants |
| `JobEffects.AcceptedExactly` | src/appraisal_review/adapters/local/job_store.py:282-601 | for each of the ten writes: the states of a job in which it succeeds, said by the attempt log, the counters and the open tasks, and the one error it is refused with otherwise |
| `JobEffects.WritesExactly` | src/appraisal_review/adapters/local/job_store.py:282-601 | field by field what any accepted write changes: who can end a job cancelled or failed and with which problem, what puts it back into the queue with one round for its current run, who moves each counter, the lease and token, tasks, log, results and times; everything else stays |
| `JobLifecycle.NoJobStranded` | src/appraisal_review/application/job_state.py:146-282 | in every reachable state a queued or dispatched job has a pending or sent round for its current run, a running one a lease, a waiting one an open task, and a retryable one is selected by every stranded scan whose cutoff is not before its last write |
| `JobLifecycle.StrandedUntilItLeaves` | src/appraisal_review/application/review_jobs.py:319-332 | a scan that selects a stranded retry selects it again after any steps until it was claimed, rescheduled or cancelled; only marking a leftover round sent after the cutoff can hide it |
| `JobLifecycle.DeliveryRecovers` | src/appraisal_review/adapters/local/job_store.py:282-325 | a delivered message can always claim a queued, dispatched or retryable job, and a stranded retry can always be queued with a fresh round |
| `JobLifecycle.ReclaimRecovers` | src/appraisal_review/adapters/local/job_store.py:431-461 | an expired lease can always be reclaimed, into a fresh round for the same run or a finished job |
| `JobLifecycle.LeaseLastsExactly` | src/appraisal_review/adapters/local/job_store.py:282-353 | exactly when a claim and a heartbeat succeed; the lease they grant can be taken back from exactly the lease time later on, and a claim raises the fencing token by one |
| `JobLifecycle.ResponseRecovers` | src/appraisal_review/adapters/local/job_store.py:529-560 | a committed human response always resumes a parked job on its new run with a fresh round |
| `JobLifecycle.ClaimAccounting` | src/appraisal_review/application/job_state.py:185-244 | claims = attempts + takeovers + parkings + (1 if running) in every live state; in every run claims never exceed the two ceilings - 1 + parkings |
| `JobLifecycle.RetryDelayIsDefined` | src/appraisal_review/application/review_jobs.py:345-351 | rescheduling a retryable job never asks for the backoff of attempt zero |
| `JobLifecycle.TerminalIsFinal` | src/appraisal_review/application/job_state.py:151-184 | no sequence of steps changes a finished job's status, runs, claims, results or adds a round |
| `JobLifecycle.RecordedCancelBindsTheFuture` | src/appraisal_review/application/job_state.py:132-143 | after a cancel is recorded on a running job every later state is that attempt still running or terminal: no new claim, run or round, and success only by that attempt's own publication |
| `JobLifecycle.StaleAttemptLoses` | src/appraisal_review/adapters/local/job_store.py:327-339 | any attempt but the newest is refused by heartbeat and every finishing event |
| `JobLifecycle.ResultsAreAppendOnly` | src/appraisal_review/adapters/local/job_store.py:399-415 | a committed result is never replaced and a job commits at most one |
| `JobLifecycle.StatusAndResultAreHonest` | src/appraisal_review/application/review_jobs.py:77-175 | every reachable job passes the status view's own validation, and a verified result is served exactly when the job succeeded |
| `JobLifecycle.PublishableExactlyWhenBodySlotFree` | src/appraisal_review/application/review_jobs.py:214-235 | whatever others do between the upload and the commit, the owning attempt publishes if and only if no other attempt's body holds its version and it still has its lease at the commit; the published body is then served |
| `JobLifecycle.OrphanBodyBlocksItsRun` | src/appraisal_review/adapters/local/job_store.py:132-156 | once a dead attempt's body holds a run's first version no later attempt of that run ever succeeds |
| `JobLifecycle.OrphanBodyHappens` | src/appraisal_review/application/review_jobs.py:214-235 | every queued job with a takeover left can reach that state |
| `JobLifecycle.RunsNeverReturn` | src/appraisal_review/adapters/local/job_store.py:529-560 | a superseded run never becomes current again |
| `JobPasses.PassEndsEarlyExactly` | src/appraisal_review/application/outbox.py:71-95 | under any interference a dispatch pass ends early if and only if some send fails with an error other than the transient one or some round is refused by the queue after someone else settled it; otherwise the four counters add up to the candidates |
| `JobPasses.TallyExactly` | src/appraisal_review/application/outbox.py:71-95 | under any interference each counter is the number of candidates that came to that end: an accepted send counts as sent or superseded, a refused one as deferred or abandoned, by the state it then finds |
| `JobPasses.OneRoundEndsThePass` | src/appraisal_review/application/outbox.py:74-84 | for any two pending rounds of different jobs, another dispatcher's mark plus a refused send ends the pass with the second round untried |
| `JobPasses.QuietPassCompletes` | src/appraisal_review/application/outbox.py:71-95 | without interference, and with a queue that at most refuses, every candidate is sent, deferred or abandoned and none superseded |
| `JobPasses.ReclaimLeavesNone` | src/appraisal_review/application/review_jobs.py:307-317 | a job whose expired lease is anywhere in the list is no longer running after the pass, whatever else the list holds; a job is left unchanged or taken out of running |
| `JobPasses.RecoverLeavesNone` | src/appraisal_review/application/review_jobs.py:319-343 | exactly the named retryable jobs are queued again, each with a fresh round |
| `JobPasses.JobsAreIndependent` | src/appraisal_review/application/review_jobs.py:307-343 | a pass over many jobs acts on each as if it were alone |
| `JobPasses.ReconcileRepairs` | src/appraisal_review/application/outbox.py:114-125 | reclaim, then recover, then dispatch, with nobody interfering: no found lease stays expired, no found retry stays stranded, every due round is sent, deferred to its new time or abandoned |
| `JobPasses.RepairedAtItsTurn` | src/appraisal_review/application/review_jobs.py:307-343 | among any writes of anyone, right after a pass's own write the lease it found is not an expired one of that token, and the retry it found not stranded |
| `JobPasses.HandledAtItsTurn` | src/appraisal_review/application/outbox.py:71-95 | under any interference each round a pass gets past is sent or settled by others if the queue took it, and deferred to its new time or abandoned if not |
| `JobPasses.Reconciler.Dispatch` | src/appraisal_review/application/outbox.py:71-95 | the loop leaves exactly the board, counters and early end of the specification |
| `JobPasses.Reconciler.WriteEach` | src/appraisal_review/application/review_jobs.py:307-332 | the scan loops apply every write whose condition holds, skip the others and count the successes |
| `WorkerReport.ReportIsHonestExactly` | src/appraisal_review/application/runtime_worker.py:110-154 | with others writing also between upload and commit and between failing and rescheduling, an owning attempt answers superseded if and only if its execution raised a lost condition, it lost its lease during the upload, or it closed itself as retryable and the job left that status before its own retry; in the first case nothing changed, and unless it lost the lease it has otherwise closed its attempt; its report matches the stored status if and only if it did not park after a cancel was recorded |
| `WorkerReport.ReviewIsPublishedExactly` | src/appraisal_review/application/runtime_worker.py:108-116 | a finished review of an owning attempt's run is published, the job succeeded and that very body served, if and only if no other body holds its slot and the lease outlives the gap between upload and commit |
| `WorkerReport.EndsAsExecuted` | src/appraisal_review/application/runtime_worker.py:108-146 | an attempt that owns its lease when it ends is recorded by the event its execution asks for: publication, waiting for exactly the named tasks, a permanent or a retryable failure, with the status, report and retry round that belong to it |
| `WorkerReport.CourseDecidedAt` | src/appraisal_review/application/runtime_worker.py:87-107 | the first eventful heartbeat decides the loop by what it finds: deadline passed before or after, lease gone, cancel seen, execution over; without one, time runs out |
| `WorkerReport.QuietCourseIsOver` | src/appraisal_review/application/runtime_worker.py:87-108 | an execution over at its first undisturbed heartbeat is handed on |
| `WorkerReport.SupersededByACancel` | src/appraisal_review/application/review_jobs.py:251-269 | the second kind of superseded occurs for every owning attempt with a retry left: a cancel between the two writes of a failure |
| `WorkerReport.WaitingReportOfACancelledJob` | src/appraisal_review/application/runtime_worker.py:117-118 | the mismatch occurs for every owning attempt of a job with a recorded cancel |
| `WorkerReport.AttemptEndsOnce` | src/appraisal_review/adapters/local/job_store.py:426-429 | the event that finished an attempt is never replaced in any later state |
| `WorkerReport.CancelSticks` | src/appraisal_review/adapters/local/job_store.py:465-481 | a recorded cancel is never withdrawn by any later step |
| `WorkerReport.Process` | src/appraisal_review/application/runtime_worker.py:47-146 | whatever others do between any two store accesses of claim, heartbeats, upload, finish and retry: the attempt is closed by the event its course and its execution ask for, or has lost its lease; a superseded report means no authority left or an execution that raised a lost condition; any other describes the state left, up to the one exception; every invariant holds afterwards |
| `ActionPolicy.ValidateRegistry` | src/appraisal_review/application/action_policy.py:142-181 | the validation loop accepts exactly the registries whose rules are well formed and whose registrations are pairwise distinct |
| `ActionPolicy.RuleOf` | src/appraisal_review/application/action_policy.py:182-234 | every derived action comes from a rule that applies in the snapshot |
| `ActionPolicy.ActionIsDerived` | src/appraisal_review/application/action_policy.py:182-234 | every rule that applies is derived |
| `ActionPolicy.DerivedAreUnambiguous` | src/appraisal_review/application/action_policy.py:182-199 | for every valid registry and snapshot derived actions have unique identifiers and at most one per kind |
| `ActionPolicy.DeriveFailsExactlyWithoutRules` | src/appraisal_review/application/action_policy.py:201-234 | derivation fails on valid inputs if and only if the revision has no rules and a human or review rule applies |
| `ActionPolicy.EarlyQuestionIsRefused` | src/appraisal_review/application/action_policy.py:201-234 | it does fail: a valid one-rule registry and a valid snapshot in preparation for which nothing can be derived |
| `ActionPolicy.DefaultRegistryAlwaysDerives` | src/appraisal_review/application/action_policy.py:27-123 | the built-in registry is valid and derives for every valid snapshot |
| `ActionPolicy.DerivedIsAdmissible` | src/appraisal_review/application/service_guards.py:74-161 | whatever policy derives passes the state, prerequisite and budget checks when proposed with one attempt |
| `ActionPolicy.AdmittedTracesToOneRule` | src/appraisal_review/application/service_guards.py:74-161 | whatever is admitted comes from exactly one rule whose conditions hold, and never reads a template |
| `ActionPolicy.AdmittedArguments` | src/appraisal_review/application/service_guards.py:132-161 | an admitted request for a human is about exactly one open blocker and shows only that blocker's evidence from the revision's documents; an admitted review is of the current revision and rules; an admitted reading of a listed document of an allowed purpose |
| `DecisionMeaning.OffersExactly` | src/appraisal_review/application/action_policy.py:182-234 | what is offered comes from an open rule and every open rule is offered: its state, prerequisites, blockers, budget and available purposes, with the cost, revision and executor offered |
| `DecisionMeaning.AdmissionExactly` | src/appraisal_review/application/service_guards.py:74-161 | a proposal is admitted out of a derived set if and only if its proposer made it, it is bound to snapshot and policy, an open rule has its identifier and kind, the budget pays for the attempts it took and its arguments fit; each refusal with its code |
| `ControlledWorkflow.EveryDecisionAccounted` | src/appraisal_review/application/controlled_workflow.py:149-389 | for every configuration and surroundings no decision underflows the budget or is refused by the ledger, every event and failure charges exactly what it records, and only a tool that ran spends a step |
| `ControlledWorkflow.ProviderFailureIsRaised` | src/appraisal_review/application/controlled_workflow.py:181-265 | a selection failure with a provider's code was raised by the selector itself |
| `DecisionMeaning.DecisionExactly` | src/appraisal_review/application/controlled_workflow.py:149-389 | for every configuration, budget and surroundings: exactly when a decision aborts, fails its selection, rejects or calls the tool, with code, disposition, reason, problem, charge and whether the run is quarantined |
| `DecisionMeaning.ExecutedExactly` | src/appraisal_review/application/controlled_workflow.py:181-389 | a tool counts as executed if and only if a valid proposal was judged and admitted in time, its source is current, its retries are paid for, and its answer came in time, without a problem, and fits what is current; and it then is what an open rule of the second snapshot allows |
| `BoundedWorkflow.Run` | src/appraisal_review/application/bounded_workflow.py:163-358 | the loop terminates after at most steps + retries + 1 decisions for every history, budget and surroundings; its outcome is that many trips of the loop body, each end passed through the result's validator, and satisfies the runner's invariant |
| `BoundedWorkflow.RunAndComplete` | src/appraisal_review/application/bounded_workflow.py:133-161 | the invocation around the loop: its result is validated again with the traced selection failures, and the ledger never refuses it |
| `BoundedWorkflow.TripKeeps` | src/appraisal_review/application/bounded_workflow.py:210-358 | each trip ends the run or strictly decreases steps + retries, keeping conservation and freshness |
| `BoundedWorkflow.RunGuarantees` | src/appraisal_review/application/bounded_workflow.py:172-374 | for every history, budget, opening and surroundings: after more than steps + retries trips the run is over, and the ledger never refuses it; initial minus final budget equals event, failure, retry and backoff charges; no failed event but the last repeats a fingerprint; rejected events only last; every event of a returned result is about the run; a verified result never follows a failed event |
| `TripMeaning.TripEndsExactly` | src/appraisal_review/application/bounded_workflow.py:210-358 | for any decision made in it, when a trip goes on, with which budget, retry charge and fingerprints and after which doubled pause cut to the time left, and with which verdict, category, reason and fingerprint it ends otherwise |
| `TripMeaning.BeginsExactly` | src/appraisal_review/application/bounded_workflow.py:170-208 | how a run begins with its recorded history: which failures it remembers, when it is handed off at once, and after which pause it goes on |
| `TripMeaning.RetryableExactly` | src/appraisal_review/application/bounded_workflow.py:36-66 | a failed decision may be repeated if and only if its tool was called, answered in time with a receipt that was kept, and the answer was a plain execution failure |
| `WorkflowVerdict.WaitsAfterFailureExactly` | src/appraisal_review/application/bounded_workflow.py:210-358 | over whole runs: a run returns waiting for a human with a failed last event if and only if its history is its own and some earlier decision, after a failed event in a live state, was a throttled or failed model call that the budget let it repeat, during which the case moved to waiting |
| `WorkflowVerdict.ResultRefusedExactly` | src/appraisal_review/domain/service_contracts.py:945-963 | over whole runs: a run over its own history raises instead of returning its result if and only if the case moved to verified in that way, a proposal for another run was decided, or the run ended and a selection failure of another run is traced under its identifier |
| `WorkflowVerdict.RepeatedExactly` | src/appraisal_review/application/bounded_workflow.py:232-266 | a trip repeats its selection if and only if the selector was asked, failed for its provider with known attempts, and calls, retries and time remain |
| `WorkflowVerdict.SteadyRunsAreHonest` | src/appraisal_review/application/bounded_workflow.py:210-358 | where no model failure coincides with the case leaving its live states, no run waits on a failed event |
| `WorkflowExample.FailedRunsDoClose` | src/appraisal_review/application/bounded_workflow.py:232-283 | both cases occur with the built-in rules: a concrete run of three trips, tool failure then throttled model, ends waiting on the failed event, and the same run with the case verified meanwhile raises |
| `PrivacyReview.PermitsExactlyWhatWasGranted` | src/appraisal_review/application/privacy_review.py:124-163 | in every interleaving of all operations and of overlapping two-phase rescans and confirms, permits is true if and only if the newest prompt showed this very command, nothing changed since, its answer is this very receipt, and both clocks are in its window |
| `PrivacyReview.GrantedWasReviewed` | src/appraisal_review/application/privacy_review.py:212-350 | a granted command had every page delivered since the last scan start, add, edit or remove; decides every detected candidate exactly once; carries no evidence from another region; and every region lies on its page |
| `PrivacyReview.ConfirmSucceedsExactly` | src/appraisal_review/application/privacy_review.py:353-390 | the second half of a confirm succeeds if and only if its prompt is the newest and undisturbed, refuses without effect otherwise, and then is permitted for fifteen minutes |
| `PrivacyReview.EditRedecides` | src/appraisal_review/application/privacy_review.py:270-296 | a successful edit redacts its candidate with the requested region, category and entity, keeps evidence exactly while the region is unchanged, touches no other decision, and clears reviewed pages, previews and approval |
| `PrivacyReview.AdditionRedacts` | src/appraisal_review/application/privacy_review.py:238-262 | an addition succeeds if and only if it names the current version, a region on its page and a new id, with room left; then every earlier decision stays in place and one redaction of just that region, category, id and crop is appended, without evidence, under the new entity, in a new revision without reviewed pages, previews or approval |
| `PrivacyReview.ChangesSucceedExactly` | src/appraisal_review/application/privacy_review.py:271-350 | exactly when an edit, a removal and a page review succeed, and the new revision each leaves |
| `PrivacyReview.RescanRedactsAll` | src/appraisal_review/application/privacy_review.py:146-163 | a report is taken if and only if it is about the scanned source, its ids differ, its regions lie on their pages and the command that asked for it is still current; every candidate is then redacted with the detector's own evidence |
| `PrivacyReview.FirstHalvesSucceedExactly` | src/appraisal_review/application/privacy_review.py:124-145 | exactly when a rescan starts, a page is delivered and the human is asked, and what each leaves; a rescan drops every authority even when it fails |
| `PrivacyReview.RemoveRedecides` | src/appraisal_review/application/privacy_review.py:298-312 | a successful removal dismisses its candidate with the reason, retains the detection and its evidence, and clears the same |
| `PrivacyReview.OnlyAnIdClashIsRefused` | src/appraisal_review/domain/privacy_models.py:188-199 | a refused edit, removal or page review leaves every reachable review as it was, because the rebuilt command always passes its identifier, page and region checks; an addition is refused with a revision spent if and only if all its guards passed and its new identifier is taken |
| `PrivacyReview.NextKeeps` | src/appraisal_review/application/privacy_review.py:100-390 | every critical section keeps the identity, authority and content invariants |
| `PrivacyReview.Service.FindSelection` | src/appraisal_review/application/privacy_review.py:264-268 | the lookup loop finds the first selection of a candidate, or none exists |
| `PrivacyReview.Service.ReplaceSelection` | src/appraisal_review/application/privacy_review.py:314-332 | the rebuilding loop replaces exactly that candidate's selections |
| `PrivacyReview.Service.ApplyChange` | src/appraisal_review/application/privacy_review.py:212-235 | the object's new state is the specified change of its old state |
| `PrivacyReview.Service.BeginConfirm` | src/appraisal_review/application/privacy_review.py:353-365 | the first half ends earlier approvals and attempts and takes a new one |
| `PrivacyReview.Service.FinishConfirm` | src/appraisal_review/application/privacy_review.py:371-390 | the second half issues a receipt exactly under the specified conditions |
| `PrivacyReview.Service.BeginRescan` | src/appraisal_review/application/privacy_review.py:124-147 | a rescan drops all authority before it can fail |
| `PrivacyReview.Service.IsPermitted` | src/appraisal_review/application/privacy_review.py:392-413 | the check answers the specified condition |
| `DocumentProtocol.OneExportOneDocument` | src/appraisal_review/application/document_transfer.py:177-248 | under any interleaving, crash and retry two successful ingests have the same export id if and only if they return the same metadata, and the same reference if and only if they do |
| `DocumentProtocol.RetryConverges` | src/appraisal_review/application/document_transfer.py:177-248 | whatever crashed before, an undisturbed ingest succeeds if and only if its signature verified, its caller is granted that case and purpose and is the one attested, its content is the attested PDF within the limit, its predecessor is catalogued and readable, and its export id was not given to another attestation; it returns what every earlier success returned |
| `DocumentOrigin.EverythingStems` | src/appraisal_review/application/document_transfer.py:177-248 | over every run: every call past its admission, every ingested document and every stored allocation, content and catalogue record stems from an ingest of that run that was vetted when it began, with ids and time supplied by one of its writes; every returned snapshot from a snapshot call over the run's own valid revision |
| `DocumentOrigin.ReadSucceedsExactly` | src/appraisal_review/application/document_transfer.py:262-306 | in every reachable storage a document is read if and only if the caller is granted its case and purpose and it is catalogued; then as the bytes its reference names |
| `DocumentOrigin.SnapshotReadSucceedsExactly` | src/appraisal_review/application/document_transfer.py:369-394 | through a run's snapshot exactly the documents it lists can be read, by who is granted them |
| `DocumentOrigin.SnapshotSucceedsExactly` | src/appraisal_review/application/document_transfer.py:308-367 | an undisturbed snapshot call succeeds if and only if the revision is the run's own and valid, has at most a hundred documents, all catalogued and granted, and the run's slot is free or holds the same; it pins each document as catalogued |
| `DocumentOrigin.SnapshotListsTheRevision` | src/appraisal_review/application/document_transfer.py:308-367 | a returned snapshot lists every document of the revision it was asked for and nothing else, once each, by document id |
| `DocumentProtocol.IngestedIsReadable` | src/appraisal_review/application/document_transfer.py:262-293 | what was ingested reads back as the attested bytes in every later state; its metadata binds the attestation, and a successor keeps its predecessor's document id |
| `DocumentProtocol.PinnedForEver` | src/appraisal_review/application/document_transfer.py:308-394 | every document of a returned snapshot can be read through it in every later state, always with the bytes its reference names |
| `DocumentProtocol.SnapshotReadsNeverChange` | src/appraisal_review/application/document_transfer.py:369-394 | a snapshot read that succeeded returns the same bytes however the storage grows |
| `DocumentProtocol.OneSnapshotPerRun` | src/appraisal_review/application/document_transfer.py:342-367 | all successful snapshot calls of a run return the same snapshot |
| `DocumentProtocol.OrderDoesNotMatter` | src/appraisal_review/application/document_transfer.py:324-325 | the order in which a revision lists its documents does not reach the snapshot |
| `DocumentProtocol.StorageOnlyGrows` | src/appraisal_review/adapters/local/document_storage.py:49-66 | no stored object is ever changed or removed |
| `DocumentProtocol.NextKeeps` | src/appraisal_review/application/document_transfer.py:166-248 | every write of every call keeps the storage invariant tying content and catalogue to the signed attestation |
| `DocumentTransfer.Service.WriteAll` | src/appraisal_review/application/document_transfer.py:203-248 | the three conditional writes in sequence have the specified effect and result |
| `DocumentTransfer.Service.Ingest` | src/appraisal_review/application/document_transfer.py:177-248 | a failed audit record turns the result into unavailable but undoes no write; what is not vetted is refused and writes nothing, and a success names the attested content and principal |
| `DocumentTransfer.AdmittedExactly` | src/appraisal_review/application/document_transfer.py:185-202 | the admission checks pass if and only if the signature verified, case and purpose are granted, the content is within the limit, exactly as attested and a PDF by header and end marker, and a named predecessor is catalogued and granted |
| `DocumentTransfer.Service.PinDocuments` | src/appraisal_review/application/document_transfer.py:324-341 | the loop pins every document or stops at the first that cannot be pinned |
| `DocumentTransfer.Service.FindPinned` | src/appraisal_review/application/document_transfer.py:369-394 | the read takes the specified branch for every storage, run and reference |
| `ExtractionMatch.IouMeasuresOverlap` | src/appraisal_review/application/extraction_evaluation.py:353-364 | intersection over union is symmetric, in [0, 1], positive exactly for overlapping boxes and one exactly for equal ones |
| `ExtractionMatch.IouIsTheShare` | src/appraisal_review/application/extraction_evaluation.py:353-364 | for boxes that overlap it is the area they share over the area they cover together |
| `ExtractionLaws.RepeatObeysLaws` | src/appraisal_review/application/extraction_evaluation.py:527-668 | for one repeat: matched + unknown + duplicate = predictions, matched + missing = expected, each verdict's right and wrong add up, correct ≤ typed and valued ≤ right state, each confusion row sums to its expected state, page and case counts balance |
| `ExtractionScorer.ScoreObeysLaws` | src/appraisal_review/application/extraction_evaluation.py:510-700 | the same laws for every selection of repeats |
| `ExtractionScorer.ScoreEvaluation` | src/appraisal_review/application/extraction_evaluation.py:510-700 | counters that run on across repeats equal the sum of the repeats scored alone |
| `ExtractionScorer.FirstPredictionDecides` | src/appraisal_review/application/extraction_evaluation.py:593-645 | a field is matched if and only if some page predicts it, and correct if and only if its first prediction in page order is right |
| `ExtractionScorer.UnflaggedCaseIsCorrect` | src/appraisal_review/application/extraction_evaluation.py:653-668 | a case not sent to review is fully correct or has no expected field |
| `ExtractionMeaning.RightExactly` | src/appraisal_review/application/extraction_evaluation.py:367-427 | an answer is right if and only if its slot is declared once with the expected shape, units agree or convert, its text equals the grade or its number is within tolerance in the expected unit, all its evidence is of the cited place, and, where measured, every box overlaps the cited one enough |
| `ExtractionMeaning.FieldCountersExactly` | src/appraisal_review/application/extraction_evaluation.py:593-645 | each prediction counter is the number of predictions of the repeat that earn it: verdicts by the first prediction of a golden field, duplicates by later ones, unknown by the rest |
| `ExtractionMeaning.PageCountersExactly` | src/appraisal_review/application/extraction_evaluation.py:527-589 | each page counter is the number of scheduled pages whose record earns it: observed, candidate, failed, refused, handed off, in need of review, or lost to a runner error |
| `ExtractionMeaning.CaseCountersExactly` | src/appraisal_review/application/extraction_evaluation.py:536-670 | each case counter is the number of scheduled cases that earn it; a fully correct case has fields, each answered right first, and a candidate on every page |
| `ExtractionMeaning.ReviewedExactly` | src/appraisal_review/application/extraction_evaluation.py:536-670 | a case is sent to review if and only if a page of it is missing or unsure, or a field of it is not answered right by its first prediction |
| `ExtractionMeaning.TotalsExactly` | src/appraisal_review/application/extraction_evaluation.py:646-654 | each total is the number of golden fields that earn it: correct, without prediction, cited, by state |
| `ExtractionScorer.MetricsAreProper` | src/appraisal_review/application/extraction_evaluation.py:700-731 | no metric's numerator exceeds its denominator |
| `ExtractionScorer.JudgePage` | src/appraisal_review/application/extraction_evaluation.py:593-645 | the innermost loop computes the specified marks and sets |
| `EvaluationRun.ReservationCovers` | src/appraisal_review/application/extraction_evaluation.py:916-941 | under the worst-case reservation a page exceeds the budget if and only if its provider broke the per-page limits |
| `EvaluationRun.OverBudgetOnlyByBrokenLimits` | src/appraisal_review/application/extraction_evaluation.py:926-1010 | in every run a recorded page is over budget exactly when its provider broke the page limits; after such a page, or an uncertain one, no call is issued: none is recorded and none raised |
| `EvaluationRun.RecordsAreAnswers` | src/appraisal_review/application/extraction_evaluation.py:926-1000 | every recorded page was called in time under a fitting reservation and holds the provider's own answer checked at the usage before it; a run that did not stop recorded every page |
| `EvaluationRun.RunStopsExactly` | src/appraisal_review/application/extraction_evaluation.py:926-1010 | for every schedule and world: a page is missing if and only if it or an earlier one met the deadline, the worst-case reservation or an error, or an earlier one was over its page limits or uncertain; the run has stopped if and only if some page did; a page is listed as failed if and only if its call was made and raised |
| `EvaluationRun.HonestRunFitsBudget` | src/appraisal_review/application/extraction_evaluation.py:926-1010 | while providers keep their limits a run stays within both budgets |
| `EvaluationRun.ProjectReplay` | src/appraisal_review/application/extraction_evaluation.py:291-303 | the replay loop projects each recorded page at the usage of the pages before it |
| `EvaluationRun.ProjectionIsIdempotent` | src/appraisal_review/application/extraction_evaluation.py:291-303 | projecting a projection changes nothing, for any record |
| `EvaluationRun.ProjectionFailsExactly` | src/appraisal_review/application/extraction_evaluation.py:113-153 | a projection fails exactly the pages that take the record over budget, keeping what they were billed; every other page is as recorded |
| `EvaluationRun.EveryRunReplays` | src/appraisal_review/application/extraction_evaluation.py:897-1010 | for every manifest, provider and clock, re-scoring the captured run reproduces exactly its outcomes |
| `EvaluationRun.RunEvaluation` | src/appraisal_review/application/extraction_evaluation.py:926-1000 | the three nested loops with their early exits equal one visit of the whole schedule |
| `ExtractionLedger.LedgerIsExact` | src/appraisal_review/application/extraction_budget.py:11-67 | in every interleaving reserved tokens are observed usage of settled calls plus reservations of the rest, running calls stay within the concurrency limit, admitted pages and calls are counted and within limits, pages begin only within the elapsed limit, and a total above the token limit implies stopped |
| `ExtractionLedger.AdmittedExactly` | src/appraisal_review/application/extraction_budget.py:21-50 | in every interleaving: exactly when a page and a call are admitted, by run, stop, time since the first page, and the calls, weights and concurrency of the history, and what that leaves |
| `ExtractionLedger.StoppedExactly` | src/appraisal_review/application/extraction_budget.py:57-68 | the ledger is stopped if and only if someone stopped it, a call used more than was reserved for it, or a settlement took the total over the limit |
| `ExtractionLedger.StoppedAdmitsNothing` | src/appraisal_review/application/extraction_budget.py:21-50 | once stopped no page or call is admitted in any later state |
| `ExtractionLedger.OverrunStops` | src/appraisal_review/application/extraction_budget.py:57-63 | a call observed to use more than its reservation has stopped the ledger for good |
| `ExtractionLedger.RunIsFixed` | src/appraisal_review/application/extraction_budget.py:21-30 | the run binding and start time never change once set |
| `ExtractionLedger.Budget.Settle` | src/appraisal_review/application/extraction_budget.py:57-63 | the object's new state is the specified settlement |
| `RefillPartition.Partition` | src/appraisal_review/application/privacy_refill_review.py:310-367 | preparation succeeds if and only if every observation touching a printed target lies within it (the ambiguity check never fires); then membership and item ids agree both ways, each present target has exactly one item holding exactly the observations that touch it, every other item is one observation that needs reading, and every unassigned one has confidence of at least 0.85 and no placeholder |
| `RefillPartition.FillCell` | src/appraisal_review/application/privacy_refill_review.py:323-337 | one target's loop marks exactly the observations that touch it, or finds one it must refuse |
| `RefillPartition.OverlapsExactly` | src/appraisal_review/application/privacy_refill_review.py:310-337 | two boxes overlap if and only if they share an inner point of one page |
| `RefillPartition.InsideExactly` | src/appraisal_review/application/privacy_refill_review.py:310-337 | a box lies inside a cell if and only if every point of it does, border included |
| `RefillReview.InventoryIsExact` | src/appraisal_review/domain/privacy_refill.py:125-159 | a full inventory reads as many placeholders as targets are printed, each target once, each within a cell of its own entity |
| `RefillReview.FinishedWasReviewedTwice` | src/appraisal_review/application/privacy_refill_review.py:453-532 | a finished artifact has receipts for both stages; in each stage, as prepared, every uncertain or placeholder-like measurement and every printed target lies in an item with a confirmed reading of a page shown in that stage, a target's exactly as bound; the inventories are full, and the artifact is byte for byte the reviewed candidate |
| `RefillReview.FinishedIsWhatWasWritten` | src/appraisal_review/application/privacy_refill_review.py:493-532 | over every run: a finished artifact is what the processor wrote in the one step that left the published stage, and the restored view was prepared from just those bytes |
| `RefillReview.ReadingIsStoredExactly` | src/appraisal_review/application/privacy_refill_review.py:415-447 | exactly when a reading is stored, that nothing else of the view changes, and when the stage gets its receipt |
| `RefillReview.DeliveredExactly` | src/appraisal_review/application/privacy_refill_review.py:405-413 | a page is delivered, and counts as seen from then on, if and only if the review is alive and has it |
| `RefillReview.StageReadsExactly` | src/appraisal_review/application/privacy_refill_review.py:453-491 | a reviewed stage reads as each measurement outside every item, as measured, and each item, as confirmed; nothing twice and nothing else |
| `RefillReview.PublishedIsLeftExactly` | src/appraisal_review/application/privacy_refill_review.py:493-509 | the published stage is left if and only if it is reviewed, every check finds the review alive, the candidate could be prepared, and what is retained stays within the limit at both admissions |
| `RefillReview.RestoredIsFinishedExactly` | src/appraisal_review/application/privacy_refill_review.py:493-532 | the restored stage is finished, with its own bytes, if and only if it is reviewed while the review is alive |
| `RefillReview.PermitsExactlyTheFinished` | src/appraisal_review/application/privacy_refill_review.py:534-541 | completion is permitted if and only if the review is alive and the digest is the finished artifact's |
| `RefillReview.RetentionIsBounded` | src/appraisal_review/application/privacy_refill_review.py:130-242 | after every operation, refused ones included, retained bytes are within the limit and the evidence agrees with every receipt |
| `RefillReview.ReadingsAreImmutable` | src/appraisal_review/application/privacy_refill_review.py:415-447 | a confirmed reading and a finished result never change again in any later state |
| `RefillReview.NextKeeps` | src/appraisal_review/application/privacy_refill_review.py:405-532 | every operation keeps the receipt, history, reading and retention invariants |
| `RefillReview.Session.ConfirmItem` | src/appraisal_review/application/privacy_refill_review.py:415-447 | the object's new state and answer are the specified ones, each of the four checks on the way, the last after the receipt, included |
| `RefillReview.Session.AdvanceReview` | src/appraisal_review/application/privacy_refill_review.py:493-532 | likewise for the two-stage advance, with what a refused step already stored |
| `Revisions.ConfirmationsAreCurrent` | src/appraisal_review/application/material_corrections.py:229-295 | after any operation of any chain every confirmation binds its side's current digest and is that operation's human's; after a correction there is none |
| `Revisions.ConfirmationIsTraced` | src/appraisal_review/application/material_corrections.py:229-295 | a surviving confirmation goes back, unbroken and by one human, to an operation that confirmed that very side or to the first revision |
| `Revisions.ConfirmationSurvivesExactly` | src/appraisal_review/application/material_corrections.py:229-295 | in any chain a confirmation held at one revision is held at every later one up to `n` if and only if every operation in between is a confirmation by that same human, of the content it binds, that addresses the side or carries it over |
| `Revisions.SurvivalIsForeseeable` | src/appraisal_review/application/material_corrections.py:229-295 | that is decided in advance: by the revision that holds it and the allowlists, subjects and humans of the operations, without any revision in between |
| `Revisions.ContentIsTraced` | src/appraisal_review/application/material_corrections.py:152-227 | what a side says at the end of a chain is what the last correction of that very side proposed, word for word, or what it said at the start if there was none |
| `Revisions.EveryCorrectionIsRecorded` | src/appraisal_review/application/material_corrections.py:218-227 | the change list after a chain is the first one and one entry with its human for each correction since, in order: none lost, none rewritten, none added by a confirmation |
| `Revisions.AcceptedExactly` | src/appraisal_review/application/material_corrections.py:152-260 | exactly which corrections and confirmations are accepted into a new version: by a human, of the one pair the subject is bound to, a correction of the side as it stands within the registry's rules, a confirmation of a complete side evidenced in the selected forms |
| `Revisions.NativeLineageIsUnbroken` | src/appraisal_review/application/revisions.py:101-134 | a native label at the end of a chain was there at every earlier revision, unconfirmed and with the same digest |
| `Revisions.ReviseInPlace` | src/appraisal_review/application/revisions.py:114-133 | the loops over pairs and sides compute the specified revision of every pair |
| `Revisions.CarryInPlace` | src/appraisal_review/application/material_corrections.py:252-289 | the nested loops of confirm compute the specified pairs |
| `ModelDispatch.CallsAreSpaced` | src/appraisal_review/application/model_dispatch.py:35-57 | for any number of senders and any interleaving each physical call begins at least the full interval after every earlier one ended |
| `ModelDispatch.OrphanBlocksForEver` | src/appraisal_review/application/model_dispatch.py:46-57 | after a crash of the owner, an acquisition written by a failing store or a release it did not write, from any reachable state, the register keeps that owner and no call begins, whatever steps follow |
| `ModelDispatch.OrphanedExactly` | src/appraisal_review/application/model_dispatch.py:35-57 | the register's owner is gone for good if and only if the run contains such a step |
| `ModelDispatch.OnlyOrphansBlock` | src/appraisal_review/application/model_dispatch.py:35-57 | the register is taken if and only if some sender is still at work or the run contains such a step: a sender that finished normally blocks nothing |
| `ModelDispatch.OneActiveSender` | src/appraisal_review/adapters/local/sqlite_model_dispatch.py:22-38 | at most one sender is between acquisition and release |
| `ModelDispatch.Wait` | src/appraisal_review/application/model_dispatch.py:24-33 | the wait loop returns normally only after the whole duration and before the deadline, is refused only past the deadline or by the guard, and never waits on past either |
| `ModelDispatch.UndisturbedSendCallsExactly` | src/appraisal_review/application/model_dispatch.py:35-57 | from any reachable state a sender that finds the register free and is left alone makes its call, one interval later, if and only if its deadline is not reached by then and its guard agrees at both ends |
| `ModelDispatch.EndedSendFreesTheRegister` | src/appraisal_review/application/model_dispatch.py:46-57 | after its call a sender leaves the register free and the call recorded as ended then |

## Left out

- Hashing, signatures, encryption, canonical JSON and the sizes of catalogue records: digests are values, validated inputs are preconditions.
- The run status column of the job store, which is written and never read, and dispatch tokens, which only repeat that a round is no longer pending.
- Idempotent submission, principals and permissions of the job API: each is settled by reading one branch.
- The delay jitter and the clock of the job passes are arguments; only the delay's bounds are stated.
- The decision trace: it may refuse a stray proposal that has parents before the result's validator does; the run is abandoned either way.
- Handing back an earlier result: a run the ledger has already completed returns what was recorded.
- The contents of human handoffs (subjects, citations, last outcome) in the bounded workflow.
- Usage, cost, repeat-difference and English summary reports of the evaluation: sums and formatting with no law of their own.
- Attempt and page failure histograms, handoff reasons and unscored proposals of the scorer: plain tallies.
- Manifest, replay and golden binding checks of `_schedule` before its budget loop: a list of independent refusals.
- Floating point: boxes, confidences and tolerances are reals.
- NFKC normalisation and the placeholder regular expression: a text comes with the placeholders the pattern finds in it.
- Rendering, OCR, native text verification and the deadlines inside `_prepare`: a rendering is an input that may be missing.
- Archiving and revoking a restoration review: revocation is one way in which the liveness checks fail.
- The measured evidence scores rebuilt by a correction and the support of a transcription by its source text are inputs of the correction.
- Per-guard send budgets of the model dispatcher: a refused charge is one of the denials the model allows at any time.
- AWS adapters, web routes, scripts and deployment.
- JobLifecycle.NoJobStranded: liveness beyond the next repair step is not stated, because fairness of the queue and the reconciler is outside the code.
- JobPasses.ReconcileRepairs: stated for a pass nobody disturbs; under interference each finding is settled at its own turn (JobPasses.RepairedAtItsTurn, JobPasses.HandledAtItsTurn) and may be undone by others later.
