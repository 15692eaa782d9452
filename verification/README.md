# GoOnCall: a verified model of the incident loop, the message consumer and the knowledge base

GoOnCall receives alerts, opens incidents, has an agent diagnose them, asks a person to approve a
remediation, executes it once, verifies the outcome and closes the incident. This project models
the parts of it whose correctness no single function shows, and proves them for every input and
every run.

**The closed loop** (`ClosedLoop*.dfy`, over `Incidents`, `IncidentRepository`,
`ApprovalRepository`, `RunRepository`, `Verifier`). Any number of calls to create, analyse,
diagnose, request, approve, reject, resolve, fail and recover run at once. A call is cut at every
access to a repository: its program counter and local variables are a `Phase`, one access is one
`Step`, and a run is any finite interleaving of steps of any number of calls. Each access may be
answered, refused (a cancellation or a failing store), or take effect with its answer lost. The
stores are those of the in-memory repositories: classes whose methods are proved against the
functions the steps use. `ClosedLoopInvariant` states what holds in every reachable state,
`ClosedLoopSteps` proves that every step keeps it, `ClosedLoopTheorems` draws the guarantees, and
`ClosedLoopAlone` and `ClosedLoopCalls` give the exact records each call leaves when undisturbed.
`ClosedLoopRuns` names every step of a run and ties undisturbed calls to runs, `ClosedLoopWitness`
builds a run that acts, `ClosedLoopAnswers` says of every call of every run exactly when it answers with
an error, `ClosedLoopOutcomes` what an approve or a recovery that answered success has done,
`ClosedLoopDeliveries` when a delivery of the diagnosis event fails, `ClosedLoopCompletions` what a
completed diagnosis means for later deliveries, and `ClosedLoopAudit` which actions the log records.

**The relational approval store** (`PostgresApproval.dfy`). A status change is two statements, a
read and an update conditional on the status, each of which may fail or lose its answer. Every run of
it is a run of the atomic store, with the same rows and the same answers, in an order that respects
time.

**The consumer** (`Retry.dfy`, `Consumer.dfy`, `DeadLetters.dfy`). Delivery, retry and dead-lettering
with unconfirmed publishes that may have landed, failing acknowledgements and connections lost at any
point, for any number of consumers. `Consumer` proves that nothing is lost, `DeadLetters` where each
delivery goes.

**Knowledge** (`Text`, `MarkdownSections`, `Splitter`; `VectorStore`, `Indexing`; `Sorting`,
`Tokenizer`, `Bm25`, `Retriever`, `StaleIndex`; `Metrics`, `Evaluation`). The recursive Markdown splitter, the
incremental index as a cache, hybrid retrieval with BM25 and reciprocal rank fusion, and the
retrieval metrics. The loops of the source are loops here, each proved equal to a recursive
specification, and the promises are proved of the specification.

Names and numbers the source leaves to libraries are parameters: hashes are injective functions,
identifiers are fresh, the logarithm of BM25 is any function that is positive above 1, the discount
of NDCG any positive strictly decreasing function, floating-point numbers are reals, text is a
sequence of runes, and Han, letter and lower case are whatever an `Alphabet` says.

## What the proofs found

- A delivery of the diagnosis event can fail although a diagnosis is under way: when two deliveries
  read an incident OPEN and list no run, and one of them then moves it on, the other is denied the same
  move and returns an error instead of an acknowledgement (`ClosedLoopDeliveries.SecondDeliveryFails`,
  internal/bootstrap/agent.go:66-70). Exactly when a delivery fails is
  `ClosedLoopDeliveries.DeliveryFailsExactlyWhen`.
- An outside recovery can answer success although an incident of its fingerprint is OPEN. It reads
  twice: that no record is open, and then the newest record, which the comment at
  internal/incident/service/service.go:154 takes for history. A record that an alert creates between the
  two is not (`ClosedLoopOutcomes.RecoveryMissesNewIncident`). Whatever was stored at the first read is
  then closed; in every other case success means that an incident of the fingerprint is RESOLVED with
  the outside recovery in its log (`ClosedLoopOutcomes.RecoveredOrHistory`).
- A completed diagnosis can be taken back. When the store completes a run but the answer is lost, the
  call sets that run FAILED (internal/agent/runtime/runtime.go:122-124), and a later delivery diagnoses
  again (`ClosedLoopCompletions.LostCompletionIsTakenBack`). In no other way does a COMPLETED run change
  (`ClosedLoopCompletions.CompletionIsFinalUnlessLost`).
- A dead letter can fail an incident while its action runs. The comment at
  internal/bootstrap/bootstrap.go:224 says an incident in mitigation is left alone, but the transition
  table allows MITIGATING and VERIFYING to FAILED (`ClosedLoopCalls.FailAlone`). The action then
  happens, and the incident and its approval end FAILED with no event that records the completion
  (`ClosedLoopAudit.DeadLetterDuringAction`). In general an answered action is recorded if and only if
  the guarded move after it commits (`ClosedLoopAudit.ActionRecordedIffMoveCommitted`).
- The index never removes points. With r removed ids in it, every answer is full, whatever the query,
  if and only if there are no chunks or r plus the expected number of hits is at most the number of
  candidates asked of the vector search (`StaleIndex.FullExactlyWhenRoom`): with the defaults, fifteen
  removed chunks are tolerated and a sixteenth is not (`StaleIndex.DefaultToleratesFifteen`), and with one
  candidate a single one can empty the answer (`StaleIndex.OneRemovedChunkHidesTheOther`).
- Payload other than the content hash is refreshed only together with the content
  (`Indexing.PayloadMayBeOld`).
- A cutoff listed twice in `Evaluate` is summed twice and divided twice; the reported recall is the
  mean exactly when the mean is 0 or m = n^(m - 1) for m mentions and n queries
  (`Evaluation.ReportedRecallIsMean`). Three queries with full recall and the cutoffs [5, 5] report 2/3
  (`Evaluation.TwiceListedCutoffIsWrong`).
- One query that has relevant documents but an empty result makes the whole report's NDCG undefined
  (0/0), and nothing else does (`Evaluation.NdcgUndefined`).
- A line of three backticks with another backtick further on opens a fence here, while section 4.5 of
  CommonMark 0.31.2 makes it a paragraph; on all other lines the two agree
  (`MarkdownSections.FencesAgree`, `MarkdownSections.BacktickInInfoString`).
- A retry count below -2^31 - 1 wraps around in the 32-bit header
  (`Retry.CountRisesUnlessItWraps`, `Retry.CountBelowRangeWraps`).

## Model

| member | source | states |
|---|---|---|
| ClosedLoopTheorems.ActionAtMostOncePerIncident | internal/execution/approval/service.go:192-247 | In every run, any two invocations of the outside action are for different incidents, however many approvals, approvers, retries and failures there were. |
| ClosedLoopTheorems.OneExecutingApprovalPerIncident | internal/incident/state_machine/transition.go:18-24 | Over a whole run at most one approval of an incident ever gets as far as EXECUTING. |
| ClosedLoopTheorems.CheckedBeforeActing | internal/execution/executor/remediation.go:96-110 | A call about to act has read its own incident as MITIGATING at an earlier moment of the run. |
| ClosedLoopTheorems.RecoveryExcludesAction | internal/incident/service/service.go:161-180 | If the log of an incident ever holds an outside recovery, then at every earlier and later moment of the run no approval of it has started executing and no action was invoked for it. |
| ClosedLoopTheorems.RecoveryCommitClosesOutside | internal/incident/service/service.go:170-180 | The committed write of a recovery call is what puts the outside recovery into that incident's log. |
| ClosedLoopTheorems.AuditLogReplaysToRecord | internal/incident/service/service.go:202-242 | In every reachable state an incident's log replays to its record: its moves chain from OPEN to the stored status along legal edges, the version is their number, and that is at most 5. |
| ClosedLoopTheorems.AuditLogIsAppendOnly | internal/incident/repository/event_memory.go:51-78 | Between any two moments of a run a log only grows at its end. |
| ClosedLoopTheorems.AuditEventsAreTrue | internal/execution/executor/remediation.go:115-175 | Action events name an approval whose action was invoked for that incident; a postmortem event comes with a completed action and a verification sequence that passed. |
| ClosedLoopTheorems.ExecutedIsClosedAndAudited | internal/execution/approval/service.go:246-268 | An EXECUTED approval belongs to an incident that is RESOLVED or FAILED and whose log records the completion of that approval's action. |
| ClosedLoopTheorems.UnknownMeansInvoked | internal/execution/approval/service.go:246-257 | An UNKNOWN approval has an invoked action; whatever fails before the action leaves it FAILED. |
| ClosedLoopTheorems.ResolvedHasAReason | internal/execution/executor/remediation.go:121-181 | A RESOLVED incident was closed outside or has a completed action in its log that was really invoked. |
| ClosedLoopTheorems.OnlyTheClaimerWrites | internal/execution/approval/service.go:193-204 | Once a call has claimed an approval, no step of another call changes the row. |
| ClosedLoopTheorems.ClaimerNeverConflicts | internal/execution/approval/service.go:212-302 | The status swaps the claimer asks for after its claim always find the status they expect. |
| ClosedLoopTheorems.FinishedApproveIsFinal | internal/execution/approval/service.go:192-284 | If the approval store did not fail the claimer, a finished call leaves the approval it claimed in EXECUTED, FAILED, UNKNOWN or EXPIRED; only without an executor may it stay APPROVED. |
| ClosedLoopTheorems.OneActiveIncidentPerFingerprint | internal/incident/repository/memory.go:37-49 | In every reachable state two open incidents never share a fingerprint, although updates do not recheck it. |
| ClosedLoopTheorems.NewRecordsAreOpen | internal/incident/service/service.go:88-105 | A record that any step of any call adds is OPEN. |
| ClosedLoopTheorems.AlertCycleAddsNoRecord | internal/incident/service/service.go:73-122 | While an incident of a fingerprint stays open, no interleaving of calls adds another record of that fingerprint. |
| ClosedLoopTheorems.OneActiveRunPerIncident | internal/incident/repository/run_memory.go:32-66 | Over any interleaving of deliveries an incident has at most one RUNNING or COMPLETED run. |
| ClosedLoopDeliveries.DeliveryFailsExactlyWhen | internal/bootstrap/agent.go:53-82 | In every run, a finished delivery whose accesses were answered (its listing of runs may have failed) reports an error if and only if the incident was unknown, its move from an OPEN record found another status or lost the version swap or drew a used event id, or its diagnosis failed. |
| ClosedLoopDeliveries.DeliveryMeetsRun | internal/bootstrap/agent.go:62-79 | In every run, a delivery that finds a RUNNING or COMPLETED run of its incident, when it lists the runs or, should its listing have failed, at the create of its own, is acknowledged there, and that step changes no store. A delivery that loses earlier, at its OPEN move, is not acknowledged. |
| ClosedLoopAnswers.AnswerIsExact | internal/execution/approval/service.go:152-331 | In every run, with every fault and every interleaving, a finished call of any service answered with an error if and only if one of its own accesses was among the named ones: an unknown record, a denied move, a lost version or status swap, a used identifier, a failed diagnosis, an access refused or its answer lost; and never because of how an action went. |
| ClosedLoopAnswers.StepFails | internal/incident/service/service.go:141-242 | One access makes its call fail exactly under its named condition on the stores and the fault, and a call that is failing only cleans up before it answers the error. |
| ClosedLoopAnswers.FailedStepWritesNothing | internal/incident/repository/event_memory.go:51-78 | An access at which a call fails, unless only its answer was lost, leaves every store as it was. |
| ClosedLoopAnswers.FaultsAreExact | internal/execution/approval/service.go:192-302 | A refused access has no effect, and an access whose answer is lost has exactly the effect of the answered one. |
| ClosedLoopOutcomes.ApprovedByItsClaimer | internal/execution/approval/service.go:192-284 | In every run, an Approve that answered success is the call that claimed the approval, which is then EXECUTED, FAILED or UNKNOWN, or APPROVED without an executor. |
| ClosedLoopOutcomes.AtMostOneApproveSucceeds | internal/execution/approval/service.go:192-204 | Of any number of calls that approve one approval at most one answers success. |
| ClosedLoopOutcomes.RecoveredOrHistory | internal/incident/service/service.go:141-181 | In every run, a recovery that answered success has its fingerprint's incident RESOLVED with the outside recovery in its log; or at its first read no record was open and at its second there was one, and every record stored at the first read is closed for good. |
| ClosedLoopOutcomes.LostSwapIsAnError | internal/incident/service/service.go:175-178 | A recovery whose incident changed since it was read answers with an error and changes nothing. |
| ClosedLoopOutcomes.RecoveryMissesNewIncident | internal/incident/service/service.go:141-155 | The interleaving with a create, from any run that ends where both have arrived and nothing is open, after which the recovery has answered success and the new incident is OPEN. |
| ClosedLoopCompletions.CompletedRunIsTheLast | internal/incident/repository/run_memory.go:38-42 | While an incident keeps a RUNNING or COMPLETED run, no call of any run adds another run of it. |
| ClosedLoopCompletions.CompletionIsFinalUnlessLost | internal/agent/runtime/recorder.go:138-165 | A COMPLETED run stays so at every later moment, unless the answer of that very completion was lost and its call set it FAILED. |
| ClosedLoopCompletions.LostCompletionIsTakenBack | internal/agent/runtime/runtime.go:122-124 | The two steps, from any run that ends where a call is about to complete its run, after which the run was COMPLETED and is FAILED. |
| ClosedLoopCompletions.DeliveryAfterRunIsAcknowledged | internal/bootstrap/agent.go:53-67 | A delivery that arrives while its incident has such a run, and is answered while that run lasts, only reads, and ends acknowledged. |
| ClosedLoopDeliveries.SecondDeliveryFails | internal/bootstrap/agent.go:62-70 | The interleaving of two deliveries, from any run that ends where both arrived, after which the second has failed while the first one's run is active. |
| ClosedLoopDeliveries.RunsAreHeld | internal/incident/repository/run_memory.go:50-66 | In every state a started run is held by one call and stays RUNNING until that call ends it. |
| ClosedLoopRuns.AloneIsRun | internal/execution/approval/service.go:192-284 | Any run that ends where a call stands can go on with exactly the steps of the undisturbed call, and ends where that ends. |
| ClosedLoopWitness.SomeRunActs | internal/execution/approval/service.go:192-284 | With an executor wired, some run from the empty stores invokes the action. |
| ClosedLoopAudit.RecordedIffCommitted | internal/incident/service/service.go:202-242 | In every run an audit event is in an incident's log if and only if some call committed a guarded move of that incident that carried it. |
| ClosedLoopAudit.ActionRecordedIffMoveCommitted | internal/execution/executor/remediation.go:109-125 | An action that the outside answered is recorded, as completed or failed, if and only if its own call committed the guarded move after it. |
| ClosedLoopAudit.UnknownActionLeavesNoTrace | internal/execution/executor/remediation.go:111-114 | An action with an unknown result is never recorded, neither as completed nor as failed. |
| ClosedLoopAudit.DeadLetterDuringAction | internal/bootstrap/bootstrap.go:214-232 | From any run in which a call is about to act on a MITIGATING incident, a dead letter can fail the incident after the action: the action happened, incident and approval are FAILED, and no completion is recorded. |
| ClosedLoopTheorems.ColumnUpdateAgreesWithReplacement | internal/incident/repository/postgres.go:118-135 | Whenever the version check passes, writing only status, resolved_at, updated_at and version gives the row that replacing the record gives. |
| ClosedLoopTheorems.RunHolds | internal/execution/approval/service.go:152-331 | The invariant of the stores and of every call's local variables holds after every step of every run. |
| ClosedLoopAlone.ApproveAlone | internal/execution/approval/service.go:192-284 | An undisturbed approve, for every answer of the outside system and every verification: the final status, signer, operation and error of the approval, the final status of the incident, the exact events added in order, and exactly one action. |
| ClosedLoopAlone.MoveAlone | internal/incident/service/service.go:202-242 | An undisturbed move along a table edge takes one read and one write and commits record and events together. |
| ClosedLoopCalls.ApproveDecidedAlone | internal/execution/approval/service.go:192-203 | Approving or rejecting an approval that does not exist or is decided is an error that changes nothing. |
| ClosedLoopCalls.ApproveDeniedAlone | internal/execution/approval/service.go:206-212 | Approving a PENDING approval whose incident does not wait for it leaves it EXPIRED, signed and with the cause, leaves the incident as it was, and is an error. |
| ClosedLoopCalls.RejectAlone | internal/execution/approval/service.go:314-331 | Reject signs the approval REJECTED; the incident becomes FAILED exactly when the table allows it, and otherwise the call reports an error with the approval still REJECTED. |
| ClosedLoopCalls.RequestAlone | internal/execution/approval/service.go:152-184 | Request binds a PENDING approval to the run's incident and moves that to WAITING_APPROVAL; when it may not move, the approval ends EXPIRED and nothing else changed. |
| ClosedLoopCalls.RecoverAlone | internal/incident/service/service.go:141-181 | A recovery expires exactly the waiting approvals of the incident and resolves it with one event; in mitigation it is refused, with only closed records it succeeds, with none it fails, and in these three cases nothing changes. |
| ClosedLoopCalls.CreateAlone | internal/incident/service/service.go:73-122 | Create adds exactly one OPEN record whose log replays to it, or nothing when the fingerprint already has an open incident. |
| ClosedLoopCalls.DiagnoseAlone | internal/bootstrap/agent.go:53-101 | A delivery for a closed incident or one with an active run changes nothing and succeeds; any other leaves one new run, COMPLETED or FAILED as the diagnosis went, and moves an OPEN incident on. |
| ClosedLoopCalls.FailAlone | internal/incident/service/service.go:246-248 | Fail moves an incident to FAILED, with one event that gives the reason, exactly when it is OPEN, INVESTIGATING, WAITING_APPROVAL, MITIGATING or VERIFYING, and otherwise changes nothing. |
| ClosedLoopCalls.PlainMoveAlone | internal/incident/service/service.go:202-271 | A permitted move changes exactly one record, by status, times and one version, and adds exactly one event that says so. |
| ClosedLoopCalls.DeniedMoveAlone | internal/incident/service/service.go:202-215 | A move the table forbids, or of an unknown incident, ends after the read with every store unchanged. |
| Incidents.MoveTable | internal/incident/state_machine/transition.go:18-24 | The permitted moves are the five steps from OPEN to RESOLVED and FAILED from each of the five open statuses, and no others. |
| Incidents.ReplayIsChain | internal/incident/state_machine/transition.go:18-24 | A log that replays to a status and version is a chain of exactly that many legal moves, and no log can hold more than five. |
| Incidents.EdgesClimb | internal/incident/state_machine/transition.go:18-24 | The moves form no cycle, a closed status has no exit, mitigation and verification have one entrance each, and RESOLVED is reached from VERIFYING or from before mitigation only. |
| IncidentRepository.Memory.CreateRecord | internal/incident/repository/event_memory.go:13-28 | All or nothing: on success record and event are both stored, on any conflict the store is unchanged. |
| IncidentRepository.Memory.UpdateRecord | internal/incident/repository/event_memory.go:51-78 | The version swap with its events: exact new record, log and version on success; missing record, changed version and reused event id are told apart and change nothing. |
| IncidentRepository.Memory.CheckCreateConflicts | internal/incident/repository/event_memory.go:93-103 | Reports a conflict exactly for a used id or an open record of the same non-empty fingerprint. |
| IncidentRepository.Memory.CheckEventConflict | internal/incident/repository/event_memory.go:118-130 | Reports a conflict exactly when some stored event of any incident has the id. |
| IncidentRepository.Memory.GetActiveByFingerprint | internal/incident/repository/memory.go:82-98 | Finds a newest open record of the fingerprint, and nothing exactly when there is none. |
| IncidentRepository.Memory.GetByFingerprint | internal/incident/repository/memory.go:62-79 | Finds a newest record of the fingerprint, open or closed. |
| ApprovalRepository.Memory.Transition | internal/incident/repository/approval_memory.go:84-105 | The atomic status swap with its mutation: exact new row, or not-found or conflict with nothing changed. |
| ApprovalRepository.Memory.ExpirePendingByIncident | internal/incident/repository/approval_memory.go:107-123 | Expires exactly the pending approvals of the incident, keeps every other row and returns their number; the empty incident id matches none. |
| ApprovalRepository.Memory.Insert | internal/incident/repository/approval_memory.go:23-32 | A new id is stored; a used one is a conflict that changes nothing. |
| ApprovalRepository.ChangedKeepsBinding | internal/execution/approval/service.go:152-170 | No status change alters the incident, run, request or creation time an approval was bound to. |
| RunRepository.Memory.Create | internal/incident/repository/run_memory.go:32-46 | Stores the run unless its id is used or its incident has an active run; then nothing changes. |
| RunRepository.Memory.Update | internal/incident/repository/run_memory.go:50-66 | Replaces a stored run unless that would make it active beside another active run of the incident. |
| RunRepository.Memory.AnyActive | internal/incident/repository/run_memory.go:38-42 | The scan finds an active run of the incident, other than the named one, exactly when there is one. |
| RunRepository.CreateKeepsOneActive | internal/incident/repository/run_memory.go:30-46 | At most one active run per incident survives every create. |
| RunRepository.UpdateKeepsOneActive | internal/incident/repository/run_memory.go:48-66 | At most one active run per incident survives every update. |
| PostgresApproval.RelationalRunIsAtomic | internal/incident/repository/approval_postgres.go:54-105 | In every interleaving of two-statement status changes, sweeps and inserts, with statements that fail or whose answer is lost, the rows and every returned answer are those of the atomic operations applied one after another. |
| PostgresApproval.OperationsFollowTime | internal/incident/repository/approval_postgres.go:54-105 | That order respects time: the history only grows, a call has at most one entry, none before it arrives or while it is unfinished, its own once it returned, and one or none, for good, once it ended with an error. |
| PostgresApproval.MatchingStatusMeansUnchangedRow | internal/incident/repository/approval_postgres.go:59-77 | If the status still matches at the conditional update, the row equals the snapshot, so the column update loses no field another call wrote. |
| PostgresApproval.UpdateRefines | internal/incident/repository/approval_postgres.go:68-85 | The conditional update takes effect as the atomic swap at that moment, on success and on conflict. |
| Verifier.VerifySequence | internal/execution/verifier/verifier.go:141-199 | Stops at the first good window, records every collection with its verdict, never passes with an error, and reports cancellation exactly when the context ended before the attempts did. |
| Verifier.ReportIsVerdict | internal/execution/verifier/verifier.go:141-199 | The sequence passes if and only if some window of the required number of consecutive good collections lies within the attempts and before the cancellation; an error means it did not pass. |
| Verifier.PassesExactlyWhen | internal/execution/verifier/verifier.go:45-138 | In terms of the thresholds and the configuration as given, a sequence passes exactly when, within the attempts, as many samples in a row as required have enough consumers, a short enough queue and few enough errors. |
| Verifier.TooManyRequired | internal/execution/verifier/verifier.go:45-58 | Requiring more successes than attempts never passes. |
| Verifier.StreakIsWindow | internal/execution/verifier/verifier.go:167-183 | A window ends at a collection exactly when the running streak is long enough there. |
| Consumer.NoEventLost | internal/messaging/consumer.go:98-185 | At every moment of every run a published event was handled, or has a copy in a queue or unacknowledged at a consumer. |
| Consumer.TerminatedOnlyAfterDeadLetter | internal/messaging/consumer.go:120-185 | The terminal callback runs only for an event with a copy already in the dead-letter queue whose handler failed at least four times. |
| Consumer.CountsStayInBudget | internal/messaging/consumer.go:117-131 | The count of every queued copy stays within the budget and never exceeds the failed handler runs of its event. |
| DeadLetters.RetriedOnceMore | internal/messaging/consumer.go:117-131 | In every run, a copy that enters the retry queue is the next copy of a decodable delivery below the budget: exactly one count more, at most the budget, all other headers the same. A spent or undecodable delivery never enters it. |
| DeadLetters.DeadLetteredAsItWas | internal/messaging/consumer.go:106-131 | In every run, a copy that enters the dead-letter queue is the delivery itself with its headers, and its count is the budget or it cannot be decoded. |
| DeadLetters.DeliveryCourse | internal/messaging/consumer.go:98-137 | In every run, step by step: a decodable delivery is handled; a failed handler counts one failure and sends the delivery on by its count alone; a publish that is not confirmed hands it back; a spent delivery whose dead letter is confirmed waits for the terminal callback, which ends its event before the acknowledgement. |
| DeadLetters.AcknowledgedOnlyWhenDone | internal/messaging/consumer.go:121-134 | In every run, a delivery being acknowledged was handled, or is below the budget, or has its unchanged copy in the dead-letter queue and, if it could be decoded, its event terminated. |
| DeadLetters.MainGains | internal/messaging/consumer.go:147-175 | A copy comes back to the main queue only when its consumer hands it back or is disconnected, or when its stay in the retry queue ends. |
| DeadLetters.HistoryIsTrue | internal/messaging/consumer.go:117-134 | In every run, an event becomes handled only when a handler of it succeeds, counts a failure only when one fails, and becomes terminated only when its dead letter is already stored. |
| DeadLetters.CopiesAreConserved | internal/messaging/consumer.go:98-175 | Of all copies the broker holds, in queues or delivered and unacknowledged, a step adds only what is published or republished and takes out only what is acknowledged; everything else moves copies, whole. |
| Consumer.StepKeepsCopies | internal/messaging/consumer.go:98-185 | No single step, failed publish, failed acknowledgement or lost connection drops the last copy of an unhandled event. |
| Retry.RetryBudget | internal/messaging/retry.go:36-83 | After n failures the count and route are as the budget says, the dead-letter route comes exactly when the budget is spent, and no other header ever changes. |
| Retry.FourthFailureIsFinal | internal/messaging/retry.go:54-61 | A message without a count is retried three times and dead-lettered from its fourth failure on. |
| Retry.CountRisesUnlessItWraps | internal/messaging/retry.go:36-83 | A retried message's count rises by one if and only if it is at least -2^31 - 1. |
| Retry.CountBelowRangeWraps | internal/messaging/retry.go:78-81 | The count just below that goes to the dead-letter queue after a single retry. |
| Retry.FailedMessageRoute | internal/messaging/retry.go:75-83 | Computes route and headers without touching the original headers. |
| Retry.CloneHeaders | internal/messaging/retry.go:64-70 | The copy holds exactly the original headers. |
| Splitter.SplitText | internal/knowledge/splitter/splitter.go:24-97 | For any text and any asked size: every chunk is non-empty, trimmed and within the size, and the chunks hold exactly the text's non-blank runes in order. |
| Splitter.SplitIsSound | internal/knowledge/splitter/splitter.go:24-97 | The size bound and the preservation of content through all ten levels and the hard cut, and no chunks exactly for a blank text. |
| Splitter.UnitsStayWhole | internal/knowledge/splitter/splitter.go:32-97 | A section, paragraph, line, sentence or word that fits, and was reached only through parts too long for their level, stands whole inside one chunk. |
| Splitter.SplitLevel | internal/knowledge/splitter/splitter.go:32-97 | The recursive split gives the specified chunks at every level. |
| Splitter.Pack | internal/knowledge/splitter/splitter.go:67-96 | The buffer loop gives the specified packing. |
| Splitter.HardSplit | internal/knowledge/splitter/splitter.go:135-148 | The last-resort loop gives the specified cuts of at most the size. |
| Splitter.HardPiecesAreSound | internal/knowledge/splitter/splitter.go:135-148 | The cuts are within the size and lose nothing but white space. |
| Splitter.CutAtBoundaries | internal/knowledge/splitter/splitter.go:49-64 | The sentence and word loop gives the specified parts. |
| Splitter.CutsAreExact | internal/knowledge/splitter/splitter.go:49-64 | Every part but the last ends at the only boundary it holds, and the last holds none. |
| Splitter.PartsByLevel | internal/knowledge/splitter/splitter.go:40-65 | Below the headings each level cuts exactly where its units end: blank lines, line ends, sentence marks, white space, in this order of levels. |
| Splitter.UnixLinesReplace | internal/knowledge/splitter/splitter.go:25-25 | Every "\r\n" becomes "\n", wherever it stands. |
| Splitter.PartsJoin | internal/knowledge/splitter/splitter.go:40-65 | At every level the parts join to the text. |
| Text.SplitAfterPieces | internal/knowledge/splitter/splitter.go:44-48 | Paragraphs and lines join to the text, and each but the last ends at the only separator it holds. |
| MarkdownSections.SplitSections | internal/knowledge/splitter/splitter.go:106-133 | The offset loop gives the specified sections. |
| MarkdownSections.SectionsCutExactly | internal/knowledge/splitter/splitter.go:106-133 | The parts are the line ranges between consecutive first lines, and a line after the first is one if and only if no fence is open before it, it has at most three leading spaces, and then as many '#' as the level, followed by a space or a tab or alone but for white space. |
| MarkdownSections.FenceLine | internal/knowledge/splitter/splitter.go:112-125 | What a line does to the open fence, in full: nothing when indented by more than three spaces; closing by its own marks; opening by exactly a run of three or more backticks or tildes, the whole run. |
| MarkdownSections.SectionsAreRanges | internal/knowledge/splitter/splitter.go:106-133 | The sections join to the text and are exactly the line ranges between consecutive headings of the level outside fences. |
| MarkdownSections.ReadLine | internal/knowledge/splitter/splitter.go:112-129 | One line's effect on the open fence, and whether it starts a section. |
| MarkdownSections.OpeningFence | internal/knowledge/splitter/splitter.go:118-122 | A fence opens with all the marks its line starts with, three or more of one kind (section 4.5 of CommonMark 0.31.2). |
| MarkdownSections.FencesAgree | internal/knowledge/splitter/splitter.go:118-122 | Every opening fence of section 4.5 of CommonMark 0.31.2 opens one here, and the two agree on a line unless it starts with three backticks and holds another after its leading run. |
| MarkdownSections.BacktickInInfoString | internal/knowledge/splitter/splitter.go:118-122 | A line on which they differ. |
| MarkdownSections.ClosingFence | internal/knowledge/splitter/splitter.go:114-117 | A fence of n marks is closed exactly by a line of n or more of the same mark and nothing else but white space. |
| MarkdownSections.FencesAreRuns | internal/knowledge/splitter/splitter.go:106-133 | At every line of every text the open fence is none or a run of at least three equal marks. |
| VectorStore.Memory.Search | internal/knowledge/vectorstore/vectorstore.go:54-76 | Returns the asked number of distinct points, nearest first, with no other point nearer than any of them; all of them when none or too many are asked for. |
| VectorStore.Memory.Upsert | internal/knowledge/vectorstore/vectorstore.go:45-52 | Stores every point of the batch under its id, the later winning, and no other. |
| VectorStore.Memory.HashesOf | internal/knowledge/vectorstore/vectorstore.go:79-89 | Returns exactly the points that carry a non-empty hash. |
| Indexing.Index | internal/knowledge/retriever/retriever.go:75-119 | The run over the store, for every way the embedder and the store may fail. |
| Indexing.IndexKeepsCoherent | internal/knowledge/retriever/retriever.go:75-119 | Whatever fails, and whether or not the failed write landed, stored hashes stay those of the content their vector was made from. |
| Indexing.SuccessEqualsRebuild | internal/knowledge/retriever/retriever.go:75-119 | A successful run embeds exactly the new or changed chunks, leaves every chunk's vector and hash as a full rebuild would, and touches no other point. |
| Indexing.DueAreOutOfDate | internal/knowledge/retriever/retriever.go:82-87 | What a run embeds is exactly what is not up to date. |
| Indexing.RunLeavesTheRest | internal/knowledge/retriever/retriever.go:88-114 | However a run ends, what is due afterwards is exactly the rest of what was due; at most the last embedded chunk has to be embedded again. |
| Indexing.RerunsConverge | internal/knowledge/retriever/retriever.go:75-119 | After a success a run embeds nothing and changes nothing; after any failure a successful rerun ends in the points one undisturbed run would have stored. |
| Indexing.InterruptionsLeaveNoTrace | internal/knowledge/retriever/retriever.go:75-119 | Any number of interrupted runs before an undisturbed one make no difference to its result. |
| Indexing.PayloadMayBeOld | internal/knowledge/retriever/retriever.go:84-111 | After a successful run a stored point equals the rebuilt one exactly when its chunk was due or its other payload had not changed. |
| Tokenizer.Tokenize | internal/knowledge/retriever/retriever.go:330-362 | The rune loop yields the terms of the maximal runs of the folded text. |
| Tokenizer.CaseIsFolded | internal/knowledge/retriever/retriever.go:342-343 | Texts that differ in case alone have the same terms. |
| Tokenizer.SeparatorSplits | internal/knowledge/retriever/retriever.go:330-362 | A rune that is neither Han nor part of a word splits a text into two whose terms simply follow each other. |
| Tokenizer.HanTermsAre | internal/knowledge/retriever/retriever.go:344-351 | A maximal run of n Han characters yields its n characters and its n - 1 adjacent pairs, interleaved in order, and nothing across a gap. |
| Bm25.RanksAreBijective | internal/knowledge/retriever/retriever.go:249-317 | BM25 ranks exactly the chunks that share a term with the query, one rank each from 1 to m, ordered by score and then id. |
| Bm25.Bm25Ranks | internal/knowledge/retriever/retriever.go:249-317 | The counting and scoring loops compute that ranking. |
| Bm25.TermScoreIsOkapi | internal/knowledge/retriever/retriever.go:280-300 | A term's score is Okapi's, with k1 = 1.2 and b = 0.75, for the number of times it stands in the document, the number of documents that hold it and the document's length. |
| Bm25.AverageIsMean | internal/knowledge/retriever/retriever.go:249-290 | The average is the total number of terms over the number of documents. |
| Bm25.TitleCounts | internal/knowledge/retriever/retriever.go:262-264 | A document's terms are those of its title followed by those of its content, with nothing running across. |
| Bm25.TermScorePositive | internal/knowledge/retriever/retriever.go:291-300 | A document frequency never exceeds the number of documents, so a term adds a positive amount exactly to the documents that hold it. |
| Bm25.ContributionShape | internal/knowledge/retriever/retriever.go:280-299 | A term counts more the more often it stands in a document but never 2.2 times its idf, less the longer the document is, and exactly its idf when it stands once in a document of average length. |
| Bm25.IdfFalls | internal/knowledge/retriever/retriever.go:296-297 | With an increasing logarithm a rarer term has the higher idf. |
| Retriever.Hybrid.Retrieve | internal/knowledge/retriever/retriever.go:128-207 | The whole retrieval, with its three failures, equals its specification whatever order maps are walked in; of two chunks with one id the later counts. |
| Retriever.AnyOrderFuses | internal/knowledge/retriever/retriever.go:161-172 | The fused list does not depend on the order in which the scores are walked. |
| Retriever.FusedIsExact | internal/knowledge/retriever/retriever.go:146-172 | The fused list holds each chunk that either list ranks, once, by descending score and then id. |
| Retriever.ResultCount | internal/knowledge/retriever/retriever.go:128-207 | Every answer has distinct chunks, as many as asked or as many ids as some list ranks and some chunk has, with or without a reranker. |
| Retriever.FullIndexFillsTheAnswer | internal/knowledge/retriever/retriever.go:137-206 | With an index that holds exactly the chunks, the answer has min(topK, number of chunk ids) distinct chunks. |
| Retriever.DominanceIsRespected | internal/knowledge/retriever/retriever.go:128-207 | Without a reranker a chunk that ranks no worse in every list holding the other, and better in one, comes before it and is never dropped in its favour. |
| Retriever.FusedHitIsScored | internal/knowledge/retriever/retriever.go:146-206 | Without a reranker a hit carries the last chunk of its id and the sum of the reciprocal ranks of that id in the two lists. |
| Retriever.RerankedHitIsScored | internal/knowledge/retriever/retriever.go:173-206 | With a reranker a hit carries the relevance given to the title, a line end and the content of that very chunk. |
| Retriever.RerankOnlyReorders | internal/knowledge/retriever/retriever.go:173-200 | The reranker only reorders the first candidates: by descending relevance, equal relevance in fused order, cut to what was asked. |
| StaleIndex.FullExactlyWhenRoom | internal/knowledge/retriever/retriever.go:137-166 | For an index that holds the chunks and a set of removed ids, every answer is full, for every query, similarity and vector, if and only if there are no chunks or the removed ids plus the expected hits fit among the candidates. |
| StaleIndex.DefaultToleratesFifteen | internal/knowledge/retriever/retriever.go:53-58 | With the default numbers and five chunks or more that bound is fifteen removed ids. |
| StaleIndex.OneRemovedChunkHidesTheOther | internal/knowledge/retriever/retriever.go:161-166 | One chunk, one removed id, one candidate: an answer the index can give that is empty. |
| Retriever.RrfScores | internal/knowledge/retriever/retriever.go:320-328 | The score of an id is the sum over its ranks of 1 / (k + rank). |
| Sorting.SortOrders | internal/knowledge/retriever/retriever.go:167-172 | The sort rearranges its input into order. |
| Sorting.SortIsStable | internal/knowledge/retriever/retriever.go:196-196 | Of two items it may leave in place, the first stays first. |
| Sorting.OnlyOneOrder | internal/knowledge/retriever/retriever.go:305-310 | Where no two items tie, every sort gives the same list. |
| Metrics.NdcgIsNormalized | internal/knowledge/evaluation/metrics.go:99-121 | NDCG is undefined exactly for an empty prefix of a query with relevant documents, otherwise between 0 and 1, and 1 exactly when the prefix starts with as many relevant documents as it can hold. |
| Metrics.GainAtMostPacked | internal/knowledge/evaluation/metrics.go:106-119 | Moving the hits to the front never loses gain, and gains nothing exactly when they already lead. |
| Metrics.SwapRaisesGain | internal/knowledge/evaluation/metrics.go:106-111 | Exchanging an irrelevant document with a lower relevant one raises the gain by exactly the difference of their discounts. |
| Metrics.RecallIsFraction | internal/knowledge/evaluation/metrics.go:74-88 | Recall is the share of relevant documents in the prefix, between 0 and 1, and 1 exactly when all of them are there. |
| Metrics.RecallGrows | internal/knowledge/evaluation/metrics.go:74-88 | Recall never falls when the cutoff grows. |
| Metrics.UniqueKeepsFirsts | internal/knowledge/evaluation/metrics.go:131-142 | Removing duplicates keeps every value, each once. |
| Metrics.UniqueOf | internal/knowledge/evaluation/metrics.go:131-142 | The loop keeps exactly the first occurrences in order; the term list of the retriever is built by the same loop. |
| Metrics.RecallAt | internal/knowledge/evaluation/metrics.go:74-88 | The loop computes that recall. |
| Metrics.ReciprocalRank | internal/knowledge/evaluation/metrics.go:90-97 | The loop finds the first relevant position. |
| Metrics.Reciprocal | internal/knowledge/evaluation/metrics.go:90-97 | Between 0 and 1, 0 exactly without a relevant document, 1 exactly when the first is relevant, and the inverse of the first relevant rank otherwise. |
| Metrics.NdcgAt | internal/knowledge/evaluation/metrics.go:99-121 | The two loops compute that NDCG. |
| Evaluation.Evaluate | internal/knowledge/evaluation/metrics.go:30-72 | The report: sums over the queries divided by their number, component means over the queries of the component, the missed queries sorted by id, and zeros for no queries. |
| Evaluation.MeansInRange | internal/knowledge/evaluation/metrics.go:61-66 | Mean recall and mean reciprocal rank lie between 0 and 1, and mean recall is 1 exactly when every query's is. |
| Evaluation.NdcgUndefined | internal/knowledge/evaluation/metrics.go:58-66 | The summed NDCG is undefined exactly when some query has relevant documents and an empty run. |
| Evaluation.MissesAreIncomplete | internal/knowledge/evaluation/metrics.go:54-56 | A query is listed as missed exactly when its first five miss a relevant document or it has none. |
| Evaluation.ReportedRecallIsMean | internal/knowledge/evaluation/metrics.go:48-64 | For a report over n queries, the recall of a cutoff listed m times is the mean exactly when the mean is 0 or m = n^(m - 1). |
| Evaluation.DistinctCutoffsAreMeans | internal/knowledge/evaluation/metrics.go:48-64 | A report over cutoffs without repetition gives the mean of every one. |
| Evaluation.TwiceListedCutoffIsWrong | internal/knowledge/evaluation/metrics.go:48-64 | Three queries of full recall and the cutoffs [5, 5]: the report gives 2/3. |
| Evaluation.MissesAreSorted | internal/knowledge/evaluation/metrics.go:70-70 | The report lists exactly the incomplete queries, each as often as it was missed, in ascending order of id. |
| Evaluation.ComponentsShareRecall | internal/knowledge/evaluation/metrics.go:51-53 | The component sums add up to the sum over all queries. |

## Left out

- Service calls as methods: approval, incident, executor and worker calls are state machines over the repositories, because what they promise is about their interleavings; the repositories they use are classes.
- Consumer loop as a method: it is a state machine over broker steps for the same reason.
- Liveness: that an incident eventually closes is not claimed; several error paths leave work to an operator or a retry.
- HTTP handlers, authentication, configuration, logging, metrics, the event broker, the language model and its tools, and postmortem texts.
- Approvals from before incident ids were stored, which look their incident up through the run; every approval here is bound when it is requested.
- Wiring without incident or run repositories, and a worker without an agent runtime.
- Error texts: kinds of errors are kept apart, their wording is an arbitrary string.
- ClosedLoopDeliveries.DeliveryFailsExactlyWhen: speaks of deliveries whose accesses were answered; `ClosedLoopAnswers.AnswerIsExact` also names the faults.
- ClosedLoopTheorems.ColumnUpdateAgreesWithReplacement: says nothing of errors, because PostgreSQL and the in-memory store report a missing incident and a reused event id differently.
- Time: clocks are arbitrary numbers, timeouts are cancellations, and writes that must not be cancelled may still fail.
- Verifier.VerifySequence: a cancellation in the pause after an attempt is one before the next attempt, which ends the sequence with the same result.
- The dead-letter queue is never emptied by the consumer, and nothing here empties it.
- Queue and exchange declarations; a queue that rejects or expires messages by itself, other than the retry delay.
- Terminal callback of the consumer: its failure is only logged in the source, so its outcome does not matter to the protocol.
- Bytes and invalid UTF-8: text is a sequence of runes, so offsets count runes, not bytes.
- Floating-point rounding, infinities and vectors of different lengths; the cosine is an arbitrary similarity.
- Metrics.RecallAt: cutoffs are not negative; the source fails on a negative one.
- Bm25.RanksAreBijective: assumes distinct chunk ids; a duplicated id takes its later place, as `RankMap` says.
- Indexing.SuccessEqualsRebuild: assumes distinct chunk ids, because of two chunks with one id the later overwrites the earlier; coherence needs no such assumption.
- Conversion of a retrieval result into evidence, and the Qdrant client.
