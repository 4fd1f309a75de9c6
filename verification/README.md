# Codestra middleware: leases, fencing and exactly-once

A Dafny model of the parts of the Codestra middleware that have to stay correct under every interleaving of workers,
users, sweepers and a moving clock, with proofs of what those parts promise. Nothing here runs the middleware.

`dafny verify dfyconfig.toml` checks the whole project.

| files | what they model |
|---|---|
| `AiJobs`, `AiJobsSteps`, `AiJobsInvariant`, `AiJobsTheorems`, `AiJobsOutcomes`, `AiJobsRetries`, `AiJobsAdmission`, `AiJobsHolders`, `AiJobsTransitions`, `AiJobsEvidence`, `AiJobsTenants`, `ModelProfiles` | the durable AI job queue: its transactions, the shapes of their steps, the invariant, the theorems over every run, and who may do what to which row |
| `AiJobRepository` | the same transactions statement by statement, proved to do what `AiJobs` says |
| `WorkerRuntime` | the polling worker: slots, lease keeper, reports |
| `TtsJobs`, `TtsJobsEvidence`, `TtsJobRepository` | text-to-speech jobs, where a paid provider call must start at most once |
| `Realtime`, `RealtimeProgress`, `RealtimeGateway`, `RealtimeAudience`, `RealtimeClient`, `RealtimeReconnect`, `RealtimeSessions`, `RealtimeTickets` | event publication, replay, client deduplication, tickets |
| `LeadAutomation`, `LeadAutomationProofs`, `LeadAutomationEvidence`, `LeadAutomationReuse`, `LeadAutomationService` | the lead automation state machine |
| `EndpointRegistry`, `EndpointRecency` | route ranking and the two-level snapshot cache |
| `Controller`, `ControllerEvidence`, `AuditChain`, `Base64Url`, `ControllerService` | approval tokens, task machine, hash-chained audit log, token encoding |
| `CallbackScheduler`, `CallbackSchedulerPasses`, `CallbackSchedulerService` | the callback scheduler and reconciler |
| `CampaignIdentity` | printing and searching public identities |

How to read it. Each component has a state datatype, an `Op` for every transaction or call, `Apply` for one step and
`Run` for a sequence of steps. An invariant `Inv` is kept by every step, hence by every run, and the theorems speak of
`Run(state, ops)` for arbitrary `ops`. Classes hold the same state in fields; their methods update it in place and are
proved equal to `Apply` on the snapshot of those fields.

What `Apply` does is in turn pinned to the fields of rows, requests and tokens, without the predicates `Apply` is written
with. For each component a table `Cause` lists the edges into every state; `EntersExactly` says a step takes them and no
others, lemmas `...IsWritten` and `...Exactly` say what it writes, and the `Every...` theorems trace whatever the tables hold
at the end of a run back to the step that was entitled to write it.

Assumptions. One SQL transaction is one atomic step at one `now()`, since rows are locked or updated conditionally; the
cross-session check of `consume_ticket` is taken as atomic too. The clock never runs backwards. Fresh UUIDs are fresh.
SHA-256 and canonical JSON are injective, and a signature verifies only if it was issued. Counters of new rows start at
0, as the migrations declare. The environment (network answers, random choices, row locks of others) is a parameter.

What turned out false, and the exact condition proved instead:

- The console's cancel (app/api/v1/ai_console.py:258-297) records the request but leaves a leased job leased, so a sweep can
  still send it to `retry_wait` or `dead_letter`. `ConsoleCancelSettlesExactly` gives the condition under which it settles the
  job; `RequestedJobIsNeverRunAgain` says what holds in any case.
- A dead-letter retry needs an approval decided after the failure, but the table admits one approval per job and the
  repository's own code only creates it with a result. `RetryAcceptedExactly`: a retry is accepted if and only if the job is
  a dead letter whose limit is below ten and an operator inserted its approval by hand after the failure. `SomeRetryIsAccepted`
  gives such a run, `RetryNeedsAnOperator` says no retry is accepted without one, `EarlyApprovalBlocks` that an approval
  which comes before the failure blocks every retry for good, and `AtMostOneDeadLetterRetry` that at most one succeeds.
- `max_attempts` of a text-to-speech job is stored but never read (`AttemptsAreUnbounded`, `LimitKeptExactly`).
- Across reconnects an event can be lost, because a live event may overtake the replay and advance the client's last event id
  (`EventIsLostAcrossReconnects`). `ReconnectBringsBackExactly`: a caught-up connection was sent an in-scope event if and only
  if it was committed after the connection registered, or was still to be offered to it then, or lies in the replayed range.
- `odoo_operations` should equal the number of events holding an acknowledgement. A call keeps the two equal if and only if it
  is not a new payload that reuses the event id of an acknowledged event under another idempotency key (`CountKeptExactly`);
  after a run they are equal if and only if it contains no such call (`CountAgreesExactly`). `CountsCanDiffer` is a run that
  does contain one.
- The signature of a cached envelope covers the endpoint only, neither the request nor the age
  (`SignatureSaysNeitherRequestNorAge`), so `Resolve` bounds the age unless a misplaced envelope was read.
- A call id whose date uses decimal digits outside ASCII is issued but not accepted by the search
  (`CallIdsAreSearchableExactly`; `ForeignDateExample` is one).

## Model

| member | source | states |
|---|---|---|
| `ModelProfiles.AdmittedExactly` | app/core/ai_jobs.py:128-145 | a profile is admitted beside the active leases if and only if it is governed and may share the worker with each of them |
| `ModelProfiles.FilterNeverWidens` | app/core/ai_jobs.py:148-155 | a client's filter can only narrow the server's policy, to exactly the profiles in both |
| `ModelProfiles.SharersExactly` | app/core/ai_jobs.py:31-39 | by name: the two light chat profiles share with themselves and each other, default coding with itself, no other with any |
| `AiJobsSteps.MoveSteps` | app/core/ai_jobs.py:395-1169 | whatever a transaction does to a job is one of a few named steps (lease taken, renewed, output extended, reported, cancel asked, decided, approval inserted, retried, swept) |
| `AiJobsInvariant.StepKeepsInv` | app/core/ai_jobs.py:483-500 | every transaction keeps: fencing token = attempt count <= limit <= 10, a waiting job has an attempt left, leases only in leased states, one attempt row per token, output bytes = sum of the chunks, result and charge together, idempotency keys unique |
| `AiJobsInvariant.RunKeepsInv` | app/core/ai_jobs.py:395-1169 | the invariant holds in every state of every run |
| `AiJobsInvariant.StepKeepsChunks` | app/core/ai_jobs.py:673-722 | output_bytes stays the sum of the stored chunk sizes under every step |
| `AiJobsInvariant.StepKeepsKeys` | app/core/ai_orchestration.py:22-50 | no two jobs of a workspace ever share an idempotency key |
| `AiJobsTheorems.StableOverRuns` | app/core/ai_jobs.py:395-1169 | a fact no step and no passing of time undoes holds for good, over every run |
| `AiJobsTheorems.DeadLeasesStayDead` | app/core/ai_jobs.py:578-614 | once an issued (worker, token) is refused, it is refused in every later state of every run |
| `AiJobsHolders.OnlyTheHolderIsHeard` | app/core/ai_jobs.py:578-614 | no heartbeat, chunk, result, report or cancellation of anybody but the row's owner, under its token, in time and in scope, changes the job, and its answer is a refusal or a duplicate |
| `AiJobsHolders.TakenBackForGood` | app/core/ai_jobs.py:578-614 | once an issued (worker, token) is not the holder's any more, no transaction presenting it changes any table in any later state of any run |
| `AiJobsHolders.HeartbeatExactly` | app/core/ai_jobs.py:617-670 | accepted exactly from the holder; moves the end of the lease to now + seconds and nothing else |
| `AiJobsHolders.ChunkStoredExactly` | app/core/ai_jobs.py:673-722 | a chunk is stored if and only if it comes from the live, uncancelled holder, its number is unused and the output stays within the limit; with its token, size and hash |
| `AiJobsHolders.CancelAnsweredExactly` | app/core/ai_jobs.py:897-966 | acknowledged exactly to the holder of a requested job; repeated exactly to the worker its last token was issued to |
| `AiJobsTheorems.LeaseLostExactly` | app/core/ai_jobs.py:578-614 | a live lease stops being accepted by a transaction if and only if that transaction is a report by its holder, a deadline expiry or a zero-length renewal |
| `AiJobsTheorems.GrantIssuesNextToken` | app/core/ai_jobs.py:483-575 | a granted claim never rolls back and leaves the job leased to the claimant under the next token |
| `AiJobsTheorems.OnlyGrantsIssueTokens` | app/core/ai_jobs.py:483-500 | no other transaction issues a token |
| `AiJobsTheorems.ClaimsAreTokens` | app/core/ai_jobs.py:483-500 | over a run the fencing token rises by exactly the number of granted claims |
| `AiJobsTheorems.AtMostTenClaims` | app/core/ai_jobs.py:749-758 | no job is claimed more than ten times in its life |
| `AiJobsTheorems.AtMostOneReportTakesEffect` | app/core/ai_jobs.py:725-775 | after one report on a lease took effect, every later report on that lease is refused or answered as a duplicate and changes no table, whatever ran in between |
| `AiJobsTheorems.ResultsArePermanent` | app/core/ai_orchestration.py:198-237 | a stored result, its usage charge and the job's token never change again |
| `AiJobsTransitions.EntersExactly` | app/core/ai_jobs.py:395-1169 | for every state: a transaction takes a job into it if and only if it is one of the state's causes, given on the fields of the row |
| `AiJobsTransitions.LeaseIsWritten` | app/core/ai_jobs.py:483-575 | a claim writes the claimant, its lease, the next token and the attempt |
| `AiJobsTransitions.EndIsWritten` | app/core/ai_jobs.py:725-817 | a job that completes, dies, is cancelled or expires is dated now, loses its lease and, dead, has its letter |
| `AiJobsTransitions.BackoffDoubles` | app/core/ai_jobs.py:759-759 | the delay doubles with each attempt up to 256 seconds; the cap of 300 is never reached |
| `AiJobsTransitions.RetryIsScheduled` | app/core/ai_jobs.py:746-765 | a job goes back to waiting at once, or after the back-off if a failure was reported; only a revived dead letter gains an attempt |
| `AiJobsTransitions.RequestIsWritten` | app/core/ai_orchestration.py:160-175 | a cancellation request is recorded exactly by a cancel in scope of a job that is not over for it, once and for good |
| `AiJobsTransitions.RulingIsWritten` | app/core/ai_orchestration.py:178-195 | a pending approval is settled exactly by a ruling in scope, as ruled, under its id and dated |
| `AiJobsEvidence.EveryStateHasItsCause` | app/core/ai_jobs.py:395-1169 | every job of every run that is not queued was brought into its state by a cause of that state |
| `AiJobsEvidence.EveryCompletionIsItsHolders` | app/api/internal/ai_jobs.py:448-497 | every completed or proposed job was reported by the worker holding it then |
| `AiJobsEvidence.ResultIsWritten` | app/core/ai_orchestration.py:198-237 | a job gets a result exactly by its holder's delivery: that hash, those tokens and the approval it needs |
| `AiJobsEvidence.EveryResultHasItsReport` | app/core/ai_orchestration.py:198-237 | every result and charge of every run is exactly what the live holder delivered in one transaction |
| `AiJobsEvidence.RepeatsAreDuplicates` | app/api/internal/ai_jobs.py:448-497 | a completing report that took effect is answered from its result whatever ran in between: the same output as a duplicate, another as a conflict |
| `AiJobsEvidence.AttemptsArePermanent` | app/core/ai_jobs.py:517-531 | an attempt row is never changed or removed |
| `AiJobsEvidence.EveryAttemptHasItsClaim` | app/core/ai_jobs.py:517-531 | every attempt row is a granted claim by the worker it names, which issued its token |
| `AiJobsEvidence.EveryChunkHasItsWriter` | app/core/ai_jobs.py:673-722 | every stored chunk was sent, byte count and hash, by the worker that held the job under its token, whom the attempts table names |
| `AiJobsEvidence.EveryJobWasSubmitted` | app/core/ai_orchestration.py:22-118 | every job was submitted with what it still carries, and entered queued, unattempted and due at once |
| `AiJobsTenants.OthersAreUntouched` | app/core/ai_jobs.py:578-614 | a transaction confined to another organization or workspace leaves the job's rows alone |
| `AiJobsTenants.TenantsAreIsolated` | app/core/ai_jobs.py:578-614 | over every run of other tenants' transactions a job keeps everything it has |
| `AiJobsTenants.InsertedExactly` | app/core/ai_orchestration.py:22-50 | a submission inserts its job exactly when no job of its organization and workspace has its key |
| `AiJobsTenants.LatestRegistrationCounts` | app/core/ai_jobs.py:412-430 | the gate of a claim sees the worker's latest registration |
| `AiJobsTenants.GrantedExactly` | app/core/ai_jobs.py:395-507 | a claim gets job j if and only if the worker may ask, j is due, in scope and shareable, and no unlocked job like it has a smaller priority number or the same and an earlier creation |
| `AiJobsTenants.WorkIsHandedOut` | app/core/ai_jobs.py:483-500 | a worker that may ask goes away empty only if every suitable job is locked |
| `AiJobsOutcomes.CancellationWins` | app/core/ai_orchestration.py:160-175 | a settled cancellation is never overtaken: the job is not queued, leased, retried, completed, proposed, dead-lettered or expired in any later state |
| `AiJobsOutcomes.UserCancelSettles` | app/core/ai_orchestration.py:160-175 | the command cancel accepts exactly the active jobs in scope, and settles each |
| `AiJobsOutcomes.ConsoleCancelSettlesExactly` | app/api/v1/ai_console.py:258-297 | the console cancel settles a job if and only if it is not leased, not awaiting approval and not expired |
| `AiJobsOutcomes.ConsoleCancelledLeaseIsSwept` | app/core/ai_jobs.py:1092-1148 | otherwise: a silent worker's console-cancelled job is swept to retry_wait or dead_letter with the request on it |
| `AiJobsOutcomes.RequestedJobIsNeverRunAgain` | app/core/ai_jobs.py:492-492 | after any cancellation request the job is never claimed again and never completes |
| `AiJobsOutcomes.AtMostOneDeadLetterRetry` | app/core/ai_jobs.py:993-1051 | after one successful dead-letter retry every further one, under any approval, is refused in every run |
| `AiJobsRetries.RetryNeedsAnOperator` | app/core/ai_jobs.py:993-1051 | without a hand-inserted approval every dead-letter retry of every run is refused |
| `AiJobsRetries.RetryAcceptedExactly` | app/core/ai_jobs.py:993-1051 | over every run from empty tables a retry is accepted if and only if the job is an in-scope dead letter whose limit is below ten attempts and some transaction of the run inserted its approval, under the id presented, after its last failure |
| `AiJobsRetries.SomeRetryIsAccepted` | app/core/ai_jobs.py:993-1051 | submit, claim, fail, wait, insert the approval: from empty tables such a run ends where the retry is accepted |
| `AiJobsRetries.EarlyApprovalBlocks` | migrations/versions/0031_ai_orchestration_v1.py:77-87 | an approval decided while the job is not a dead letter takes the one row the table has for it: no retry is ever accepted again |
| `AiJobsRetries.InsertedStays` | migrations/versions/0031_ai_orchestration_v1.py:77-87 | a hand-inserted approval keeps its id and its decision time in every later state |
| `AiJobsRetries.RunKeepsLedgers` | app/core/ai_jobs.py:993-1051 | in every reachable state a dead letter that still asks for an approval dates from the job's last failure, and an approval already used is no younger than any later one |
| `AiJobsOutcomes.SettledApprovalIsFinal` | app/core/ai_orchestration.py:178-195 | a decided approval is never changed, and deciding again is refused |
| `AiJobsAdmission.GrantIsAdmissible` | app/core/ai_jobs.py:412-507 | a granted claim finds fewer live leases than the limit and a profile that may share with each |
| `AiJobsAdmission.StepKeepsAdmission` | app/core/ai_jobs.py:412-507 | no step of a run gives a disciplined worker an inadmissible set of leases |
| `AiJobsAdmission.AdmissionHolds` | app/core/ai_jobs.py:412-507 | in every reachable state such a worker holds at most min(max_concurrency, 2) live leases, pairwise allowed to share |
| `AiJobsAdmission.NeverMoreThanTwo` | app/core/ai_jobs.py:30-30 | from empty tables, with any registration limit: never more live leases than two or the limit |
| `AiJobRepository.ThreeUpdatesAreOneSweep` | app/core/ai_jobs.py:1054-1150 | the sweep's three updates run in sequence do to each row what the one-row sweep function does |
| `AiJobRepository.SweepCounts` | app/core/ai_jobs.py:1054-1150 | the counts reported are those of the tables before the sweep |
| `AiJobRepository.Repository.Claim` | app/core/ai_jobs.py:395-575 | raises as the gate says, finds nothing unlocked, or leases the first unlocked candidate and records its attempt |
| `AiJobRepository.Repository.FirstCandidate` | app/core/ai_jobs.py:483-500 | the loop finds a first unlocked candidate in (priority, created_at) order, or there is none |
| `AiJobRepository.Repository.Heartbeat` | app/core/ai_jobs.py:617-670 | renews exactly the live lease presented |
| `AiJobRepository.Repository.AppendChunk` | app/core/ai_jobs.py:673-722 | first writer wins per sequence number, within the byte limit, under a live lease |
| `AiJobRepository.Repository.Delay` | app/core/ai_jobs.py:759-759 | the loop computes min(2^min(n, 8), 300) |
| `AiJobRepository.Repository.FinishWith` | app/core/ai_jobs.py:725-817 | state, back-off and dead letter written as the finish function says |
| `AiJobRepository.Repository.Finish` | app/api/internal/ai_jobs.py:500-517 | fail and release are this transaction |
| `AiJobRepository.Repository.StoreRows` | app/core/ai_orchestration.py:198-237 | result, charge and approval inserted only where absent |
| `AiJobRepository.Repository.Complete` | app/api/internal/ai_jobs.py:448-497 | a repeat is answered from the stored result; otherwise result and state are written together or not at all |
| `AiJobRepository.Repository.StoreAndFinish` | app/workers/openai_jobs.py:268-279 | the in-process worker's result and state are written together or, on a lost lease, not at all |
| `AiJobRepository.Repository.WorkerCancel` | app/core/ai_jobs.py:897-966 | acknowledges a requested cancellation, also when repeated |
| `AiJobRepository.Repository.RetryDeadLetter` | app/core/ai_jobs.py:993-1051 | performs the retry transaction |
| `AiJobRepository.Repository.RecoverExpired` | app/core/ai_jobs.py:1054-1150 | performs the sweep and counts what it retried and buried |
| `AiJobRepository.Repository.ExpireDeadlines` | app/core/ai_jobs.py:1153-1169 | performs the deadline sweep and counts it |
| `AiJobRepository.Repository.Submit` | app/core/ai_orchestration.py:22-118 | a job is inserted if and only if its key and id are unused and no quota is used up; the quota refusal is exact; a key in use is answered with its first job, or as a conflict if the request differs |
| `AiJobRepository.Repository.UserCancel` | app/core/ai_orchestration.py:160-175 | cancels a waiting job at once and asks any other active one to stop |
| `AiJobRepository.Repository.ConsoleCancel` | app/api/v1/ai_console.py:258-297 | records the request, and cancels the job only if it is waiting |
| `AiJobRepository.Repository.Decide` | app/core/ai_orchestration.py:178-195 | settles the pending approval and overwrites the job state |
| `WorkerRuntime.FilterAgreesWithServer` | worker/qwen_polling_worker.py:694-709 | under the server's policy the worker's filter admits only what the server would |
| `WorkerRuntime.FilterIsExact` | worker/qwen_polling_worker.py:694-709 | with the server's complete table the worker asks for exactly what the server would admit |
| `WorkerRuntime.BoundedWorkerRuntime.Reap` | worker/qwen_polling_worker.py:678-685 | frees exactly the ended slots, stopping at one that ended with an error; profiles stay keyed by slots |
| `WorkerRuntime.BoundedWorkerRuntime.Admission` | worker/qwen_polling_worker.py:692-711 | no filter when idle, else the profiles the running one tolerates |
| `WorkerRuntime.BoundedWorkerRuntime.Screen` | worker/qwen_polling_worker.py:689-748 | a job is started if and only if not stopping, a slot is free and every running profile tolerates it |
| `WorkerRuntime.BoundedWorkerRuntime.Poll` | worker/qwen_polling_worker.py:687-768 | at most two slots always, gauges count them, any two running profiles may share under the server's policy, and a started job met every condition |
| `WorkerRuntime.MaintainLease` | worker/qwen_polling_worker.py:414-460 | the lease is declared lost if and only if the first interval that is not quiet failed; a cancellation if and only if it was verified |
| `WorkerRuntime.RunClaimedJob` | worker/qwen_polling_worker.py:534-581 | nothing is sent on a lost lease; otherwise the one request due, and a fail exactly when its reply was lost or a result was rejected |
| `WorkerRuntime.RequestsReachTheServer` | worker/qwen_polling_worker.py:534-581 | each request of the holder leaves the job as meant: handed back or dead, completed or proposed with that output, cancelled |
| `WorkerRuntime.LostReplyIsHarmless` | worker/qwen_polling_worker.py:560-581 | if the first request took effect, the second changes no table, for every interleaving |
| `TtsJobs.StepKeepsInv` | app/core/tts_jobs.py:63-247 | cancelled exactly when cancellation_at is set, completed jobs have a chunk, queued and claimed jobs never reached the provider, one token per attempt, keys unique |
| `TtsJobs.RunIsBooked` | app/core/tts_jobs.py:63-138 | over every run the token counts the accepted claims, chunk_count and audio_bytes the accepted chunks, started_at the accepted starts |
| `TtsJobs.ProviderStartsAtMostOnce` | app/core/tts_jobs.py:106-120 | the provider is started at most once per job over any run, and never if it was started before |
| `TtsJobs.OneProviderStartPerKey` | app/core/tts_jobs.py:34-45 | two jobs started in a run carry different idempotency keys |
| `TtsJobs.OutcomesAreFinal` | app/core/tts_jobs.py:141-229 | the row of a completed, cancelled or ambiguous job never changes again |
| `TtsJobs.RevokedStaysRevoked` | app/core/tts_jobs.py:112-117 | a token that was taken back stays taken back in every later state |
| `TtsJobsEvidence.StrangersAreRefused` | app/core/tts_jobs.py:106-201 | no start, chunk, completion or verdict of anybody but the lease's owner under its token is accepted or changes the row |
| `TtsJobsEvidence.TakenBackForGood` | app/core/tts_jobs.py:106-201 | once a token is taken back, nothing presenting it is accepted or changes the table in any later state of any run |
| `TtsJobsEvidence.EntersExactly` | app/core/tts_jobs.py:63-247 | for every state: a transaction takes a job into it if and only if it is one of the state's causes, given on the fields of the row; a queue claim takes the oldest unlocked job |
| `TtsJobsEvidence.StartIsWritten` | app/core/tts_jobs.py:106-120 | provider_request_started_at is set exactly by the owner of a claimed job, in time and uncancelled |
| `TtsJobsEvidence.ChunkIsWritten` | app/core/tts_jobs.py:123-138 | chunks and bytes are counted exactly for the owner of a running job, in time and uncancelled; the lease is renewed for 60 seconds |
| `TtsJobsEvidence.OutcomeIsWritten` | app/core/tts_jobs.py:86-229 | a claim writes claimant, lease and next token; outcomes are dated and end the lease |
| `TtsJobsEvidence.EveryStateHasItsCause` | app/core/tts_jobs.py:63-247 | every job of every run that is not queued was brought into its state by a cause of that state |
| `TtsJobsEvidence.EveryStartHasItsOwner` | app/core/tts_jobs.py:106-120 | every provider start on record was made, at that time, by the owner of the lease |
| `TtsJobsEvidence.EveryJobWasSubmitted` | app/core/tts_jobs.py:12-60 | every job was submitted under the key and with the request it carries |
| `TtsJobsEvidence.InsertedExactly` | app/core/tts_jobs.py:12-60 | a submission inserts its job exactly when no job has its tenant, project, user and key |
| `TtsJobs.AttemptsAreUnbounded` | app/core/tts_jobs.py:232-240 | for every n and every lease length, n claims that run out leave the job queued with n more attempts, whatever the stored limit |
| `TtsJobs.LimitKeptExactly` | app/core/tts_jobs.py:86-103 | a transaction keeps attempts within the limit if and only if it is not a claim of a queued job that has used it up |
| `TtsJobRepository.TwoUpdatesAreOneSweep` | app/core/tts_jobs.py:232-247 | the two updates in sequence are the one-row recovery, and neither hides rows from the other |
| `TtsJobRepository.Repository.Submit` | app/core/tts_jobs.py:12-60 | a key is inserted once; a repeat yields the same job, a different request a conflict |
| `TtsJobRepository.Repository.ClaimExact` | app/core/tts_jobs.py:86-103 | leases the job to the worker under the next token exactly when it is queued and not cancelled |
| `TtsJobRepository.Repository.MarkProviderStarted` | app/core/tts_jobs.py:106-120 | accepted exactly for the unexpired, uncancelled claim presented, once |
| `TtsJobRepository.Repository.RecordChunk` | app/core/tts_jobs.py:123-138 | counts a chunk exactly under the unexpired lease presented, while not cancelled |
| `TtsJobRepository.Repository.Complete` | app/core/tts_jobs.py:141-154 | completes exactly a streaming job of the holder that has a chunk and no cancellation |
| `TtsJobRepository.Repository.MarkAmbiguous` | app/core/tts_jobs.py:157-182 | only the holder of a job at the provider, also after its lease ran out |
| `TtsJobRepository.Repository.MarkCancelledStreaming` | app/core/tts_jobs.py:185-201 | likewise, recording the cancellation |
| `TtsJobRepository.Repository.Cancel` | app/core/tts_jobs.py:204-229 | accepted exactly for the owner's job that has no outcome yet |
| `TtsJobRepository.Repository.FirstQueued` | app/core/tts_jobs.py:70-72 | the loop finds the oldest unlocked queued job, or there is none |
| `TtsJobRepository.Repository.Claim` | app/core/tts_jobs.py:63-83 | claims that job and nothing else |
| `TtsJobRepository.Repository.RecoverExpired` | app/core/tts_jobs.py:232-247 | performs the recovery and counts both kinds |
| `Realtime.Replay` | websocket_gateway/app.py:293-302 | the selection loop returns an answer of the replay query |
| `Realtime.ReplayIsUnique` | websocket_gateway/app.py:298-302 | the query has exactly one answer |
| `Realtime.ReplayResumes` | websocket_gateway/app.py:298-302 | querying again after the last row of a truncated replay continues it without loss or repetition |
| `Realtime.AfterIsOrdinal` | websocket_gateway/app.py:294-297 | replay starts after the named event's ordinal, or at 0 if it is unknown |
| `Realtime.StepKeepsInv` | websocket_gateway/app.py:345-358 | every step keeps, per connection: bounded queue, only in-scope logged events, every due event held or still owed by a publisher |
| `Realtime.OfferKeeps` | websocket_gateway/app.py:403-416 | an offer keeps the no-gap invariant, closing the connection on a full queue |
| `Realtime.SnapshotKeeps` | websocket_gateway/app.py:353-358 | so does the replay, whatever was published meanwhile |
| `Realtime.CaughtUpConnectionsHaveNoGap` | websocket_gateway/app.py:345-358 | a caught-up open connection was sent exactly the events of the log due to it: in scope, and committed since it registered, still to be offered to it then, or in the replayed range |
| `Realtime.ReconnectBringsBackExactly` | websocket_gateway/app.py:293-302 | for every in-scope event of the log: it was sent if and only if it was not yet committed at registration, or then still to be offered to the connection, or in the replayed range, which starts after the named event's ordinal |
| `RealtimeProgress.CanCatchUp` | websocket_gateway/app.py:345-358 | from every state of the invariant an open connection past its replay query can be caught up by sends, fan-outs and replay enqueues alone |
| `RealtimeAudience.NobodyElsesEvents` | websocket_gateway/app.py:113-121 | whatever a connection was sent or has queued was published for its tenant, unit, user, agent and one of its campaigns |
| `RealtimeAudience.AudienceExactly` | websocket_gateway/app.py:345-358 | a caught-up connection was sent an event if and only if it is for its session and was committed after registration, still to be offered then, or in the replayed range |
| `RealtimeAudience.RunKeepsCuts` | websocket_gateway/app.py:298-302 | a replay is cut short only after a thousand events |
| `RealtimeGateway.Gateway.Publish` | websocket_gateway/app.py:394-418 | a duplicate changes nothing; otherwise, uninterrupted, the row is logged and offered to every open connection once, delivered counts the queues reached, and the effect is a run of publisher steps |
| `RealtimeGateway.Gateway.OfferToAll` | websocket_gateway/app.py:403-416 | the fan-out loop |
| `RealtimeGateway.Gateway.OfferNext` | websocket_gateway/app.py:403-416 | one turn of it is one fan-out step: the event is queued, or the connection with a full queue closed |
| `RealtimeGateway.Gateway.Resume` | websocket_gateway/app.py:403-416 | the loop between two points where it may be suspended: a run of fan-out steps that ends with nobody owed or with a connection just closed; delivered counts the queues reached |
| `RealtimeClient.Client.OnMessage` | agent_desktop/src/realtime.ts:56-60 | the handler has been called once per delivered id, in order of first arrival; the stored id is the latest |
| `RealtimeClient.FirstArrivalsAreExact` | agent_desktop/src/realtime.ts:59-60 | handled ids are exactly the delivered ones, without repetition |
| `RealtimeClient.FirstArrivalsGrow` | agent_desktop/src/realtime.ts:59-60 | later frames only append to what was handled |
| `RealtimeClient.DueEventsAreHandledOnce` | agent_desktop/src/realtime.ts:56-60 | end to end: every event due to a caught-up connection has been handled exactly once |
| `RealtimeReconnect.EventIsLostAcrossReconnects` | agent_desktop/src/realtime.ts:60-60 | a run in which a published in-scope event never reaches the handler although the client reconnected and caught up |
| `RealtimeSessions.RunKeepsInv` | websocket_gateway/app.py:269-290 | an agent never has two active unrevoked sessions |
| `RealtimeSessions.SessionsConnectAtMostOnce` | websocket_gateway/app.py:269-290 | a session is admitted at most once in any run, so no live connection is overwritten |
| `RealtimeTickets.AdmittedExactly` | websocket_gateway/app.py:269-290 | a ticket admits its session exactly while both are unexpired, unused and unrevoked and the agent has no other active session; a redeemed ticket is used up |
| `RealtimeTickets.StatusExactly` | websocket_gateway/app.py:360-373 | a session is connected exactly from its admission to its disconnection or a restart, and revoked from its revocation on |
| `RealtimeTickets.EveryConnectionHasItsTicket` | websocket_gateway/app.py:250-290 | every connection of every run goes back to a ticket issued for it and redeemed within ticket and session lifetime |
| `LeadAutomationProofs.StepKeepsInv` | app/core/lead_automation.py:241-521 | every call keeps: audit walks, admitted events = outbox rows, distinct executions, acknowledgements bound to their event and counted once |
| `LeadAutomationProofs.AuditIsAWalk` | app/core/lead_automation.py:116-146 | the audit trail is a path in the transition table from RECEIVED that ends in the state unless a quarantine was forced |
| `LeadAutomationProofs.RecordsOnlyContinue` | app/core/lead_automation.py:84-91 | over every run an event keeps its payload, extends its audit, keeps its result and its one acknowledgement, and once terminal can only be quarantined |
| `LeadAutomationProofs.RowsAreCleared` | app/core/lead_automation.py:289-326 | a call adds an outbox row if and only if it received a new payload that passed policy, switches, do-not-call, consent and field checks |
| `LeadAutomationProofs.OutboxIsJustified` | app/core/lead_automation.py:289-326 | for every row of every run, the call that passed those checks |
| `LeadAutomationEvidence.VerdictExactly` | app/core/lead_automation.py:289-311 | denied, do-not-call, consent or admitted, each exactly when; do-not-call before consent before fields; no verdict without a needed snapshot |
| `LeadAutomationEvidence.EntersExactly` | app/core/lead_automation.py:116-146 | for every state: a call takes an event into it if and only if it is one of the state's causes, given on the fields |
| `LeadAutomationEvidence.AckIsWritten` | app/core/lead_automation.py:444-503 | an acknowledgement is taken exactly by an event that waits for it and that it names, which then is completed, denied, blocked, to be retried or quarantined as it says |
| `LeadAutomationEvidence.ResultIsWritten` | app/core/lead_automation.py:354-442 | a result is taken exactly by an acknowledged event it is bound to, within policy and under a new execution id |
| `LeadAutomationEvidence.NotesExactly` | app/core/lead_automation.py:354-503 | conflicting results, second acknowledgements and acknowledgements of something else are noted, and nothing else |
| `LeadAutomationEvidence.ExecutionIsRecorded` | app/core/lead_automation.py:421-425 | an execution id is used up by every sound, allowed, new result, also when the event is not in the state to take it |
| `LeadAutomationEvidence.ReceiptIsWritten` | app/core/lead_automation.py:241-329 | a well-formed payload under an unused key becomes the event of its id, listed last if new; its answer is remembered exactly if a verdict was reached |
| `LeadAutomationEvidence.EveryStateHasItsCause` | app/core/lead_automation.py:241-521 | every event of every run is in the state its payload's verdict gave it or was brought there by a cause of that state |
| `LeadAutomationEvidence.RunKeepsEvidence` | app/core/lead_automation.py:444-503 | in every run an acknowledged event is where its acknowledgement says, quarantined, or given up after a retryable one; acknowledgement and result are bound to it |
| `LeadAutomationEvidence.CompletedMeansApplied` | app/core/lead_automation.py:479-503 | an event is completed if and only if it holds an acknowledgement of success and was not quarantined |
| `LeadAutomationEvidence.ScopesAreIsolated` | app/core/lead_automation.py:547-553 | over every run an event is touched only by calls naming its environment, unit and campaign |
| `LeadAutomationEvidence.FindsTheFirst` | app/core/lead_automation.py:547-553 | a call is about the first entry of the scope that goes by the name, or none |
| `LeadAutomationEvidence.EveryKeyWasReceived` | app/core/lead_automation.py:249-257 | a payload counts as a replay only of one received with its scope and key |
| `LeadAutomationProofs.ReplaysAreIdempotent` | app/core/lead_automation.py:249-257 | a payload delivered again gets the first answer and changes nothing, however much later; a different one under its key is refused |
| `LeadAutomationProofs.MoveKeepsExecutions` | app/core/lead_automation.py:421-425 | accepted results use pairwise distinct (environment, execution id) |
| `LeadAutomationProofs.OperationsCountEventsExactly` | app/core/lead_automation.py:479-480 | odoo_operations never falls below the number of events holding an acknowledgement, and equals it if and only if no acknowledged record was replaced |
| `LeadAutomationProofs.ReusedEventIdBreaksTheCount` | app/core/lead_automation.py:285-286 | reusing an acknowledged event's id under a new key makes them differ for good |
| `LeadAutomationProofs.CountKeptExactly` | app/core/lead_automation.py:444-503 | a call keeps the two counts equal if and only if it is not a new payload reusing the event id of an acknowledged event |
| `LeadAutomationProofs.CountAgreesExactly` | app/core/lead_automation.py:285-286 | after a run they are equal if and only if no call of the run did that at its time |
| `LeadAutomationReuse.CountsCanDiffer` | app/core/lead_automation.py:285-286 | from the empty service, one acknowledged lead and a second payload with its event id make the counts differ, in every later state too |
| `LeadAutomationService.Evaluate` | app/core/lead_automation.py:289-311 | the verdict, and that it admits exactly the cleared payloads |
| `LeadAutomationService.Open` | app/core/lead_automation.py:285-315 | the new event's transitions one by one |
| `LeadAutomationService.TakeResultOn` | app/core/lead_automation.py:354-442 | accepts, ignores or quarantines as the model says, recording the execution id even when the state then refuses it |
| `LeadAutomationService.ApplyAckOn` | app/core/lead_automation.py:448-503 | counts an acknowledgement exactly when it is accepted, and leaves the event in the state it deserves |
| `LeadAutomationService.RecordRetryOn` | app/core/lead_automation.py:505-521 | exhausted attempts end in FAILED_TERMINAL through RETRY_PENDING; a refused call changes nothing |
| `LeadAutomationService.LeadService.Receive` | app/core/lead_automation.py:241-329 | performs the receive step and returns its answer |
| `LeadAutomationService.LeadService.FindEvent` | app/core/lead_automation.py:547-553 | the loop finds the first entry in insertion order |
| `LeadAutomationService.LeadService.ReserveDispatch` | app/core/lead_automation.py:331-340 | reserves, and says so, exactly for a pending event while enabled and bound; an unknown event raises |
| `LeadAutomationService.LeadService.ReceiveResult` | app/core/lead_automation.py:348-442 | performs the result step; answers exactly when the result is accepted or is the stored one, and with the event's status |
| `LeadAutomationService.LeadService.ApplyOdooAck` | app/core/lead_automation.py:444-503 | performs the acknowledgement step; answers exactly when it is accepted or is the stored one while applying is on; a newly accepted one is answered with the state it deserves |
| `LeadAutomationService.LeadService.RecordRetry` | app/core/lead_automation.py:505-521 | performs the retry step and returns the new state, or raises exactly when the table refuses the move |
| `LeadAutomationService.LeadService.Reconcile` | app/core/lead_automation.py:523-541 | reports exactly the gaps of the scope |
| `LeadAutomationService.NoGapsEver` | app/core/lead_automation.py:523-541 | there is none in any reachable state |
| `EndpointRegistry.ScoreIsSpecificity` | app/core/endpoint_registry.py:102-128 | among serving bindings the score orders them by specificity, and a tie means identical scopes |
| `EndpointRegistry.ServesExactly` | app/core/endpoint_registry.py:102-128 | a binding serves a request exactly when all it constrains is the request's and it constrains an unbroken run of scopes from the organization down |
| `EndpointRegistry.Select` | app/core/endpoint_registry.py:199-215 | the unique most specific row, no route, or an ambiguity between two rows of identical scopes |
| `EndpointRegistry.SignedSnapshotCache.Get` | app/core/endpoint_registry.py:296-314 | a hit is touched, anything else evicted |
| `EndpointRegistry.Evicted` | app/core/endpoint_registry.py:366-367 | exactly the most recently used entries survive |
| `EndpointRecency.LeastRecentGoesFirst` | app/core/endpoint_registry.py:356-367 | of n places a request keeps one if and only if it was stored or hit and fewer than n others have been since |
| `EndpointRecency.EvictionCommutes` | app/core/endpoint_registry.py:366-367 | evicting at every store or once in the end leaves the same entries |
| `EndpointRegistry.SignedSnapshotCache.PutL1` | app/core/endpoint_registry.py:356-367 | L1 keeps the newest max_entries entries |
| `EndpointRegistry.SignedSnapshotCache.GetL2` | app/core/endpoint_registry.py:316-337 | returns and promotes an unexpired envelope for this request and generation, at most l2_ttl old; a signed envelope found under the wrong key is returned too, and only its signature vouches for it |
| `EndpointRegistry.SignedSnapshotCache.Put` | app/core/endpoint_registry.py:339-354 | both levels are written, or neither if Redis fails |
| `EndpointRegistry.SignedSnapshotCache.Resolve` | app/core/endpoint_registry.py:382-411 | which source answers, in every case, and that stale grace never does; every answer was signed, and unless an envelope was misplaced it was given for the same request and cached at most l1_ttl + l2_ttl ago |
| `EndpointRegistry.SignatureSaysNeitherRequestNorAge` | app/core/endpoint_registry.py:322-335 | a valid signature says somebody was given this endpoint; it bounds the age for a request if and only if it is the request signed for and the bound has not passed |
| `Base64Url.RoundTrip` | app/core/controller.py:98-103 | decoding an encoding gives back every byte string |
| `Base64Url.PaddingIsLegal` | app/core/controller.py:102-103 | the restored padding is at most two signs and completes the last group |
| `Base64Url.EncodingIsInjective` | app/core/controller.py:98-99 | different byte strings have different encodings |
| `Base64Url.TestVectors` | app/core/controller.py:98-99 | test vectors of section 10 of RFC 4648 |
| `Base64Url.NoDots` | app/core/controller.py:98-99 | an encoding contains neither a dot nor padding |
| `Base64Url.TokenSplitsBack` | app/core/controller.py:151-172 | a token splits back into exactly its payload and signature |
| `AuditChain.AppendKeeps` | app/core/controller.py:277-291 | sequences 1..n, links and hashes stay right |
| `AuditChain.HeadDeterminesChain` | app/core/controller.py:277-291 | two well-formed chains with one head hash are equal record for record |
| `AuditChain.TamperingShows` | app/core/controller.py:277-291 | any other well-formed history has another head |
| `Controller.StepKeepsInv` | app/core/controller.py:299-402 | every call keeps: one token per task, at most one execution, log and state in step |
| `Controller.AtMostOneExecution` | app/core/controller.py:372-402 | a run authorises at most one execution per task, whatever tokens are presented |
| `Controller.ExecutionsMatchThePlan` | app/core/controller.py:343-402 | its tool is in the approved plan, its workspace, tenant, server and plan the task's own |
| `Controller.NothingAfterCancellation` | app/core/controller.py:363-381 | nothing is authorised for a cancelled task, and its record never changes |
| `Controller.LogsTellTheState` | app/core/controller.py:277-291 | after any run the log is well formed, ends in the task's state and counts its executions |
| `ControllerEvidence.StrangersAreRefused` | app/core/controller.py:293-297 | planning, approving, cancelling or executing another tenant's task is refused and changes nothing |
| `ControllerEvidence.TenantsAreIsolated` | app/core/controller.py:293-297 | over every run without its own tenant a task keeps its record, token and log |
| `ControllerEvidence.EntersExactly` | app/core/controller.py:299-402 | for every state: a call takes a task into it if and only if it is the tenant's own call for it, with every condition on its fields |
| `ControllerEvidence.ApprovalIsWritten` | app/core/controller.py:343-361 | a plan is written as planned; a token is issued exactly by an approval, for that plan, its tools, server, tenant and workspace, and ttl seconds |
| `ControllerEvidence.ExecutionIsWritten` | app/core/controller.py:372-402 | an execution is authorised exactly with a good token, for exactly what the call names, and uses the token up |
| `ControllerEvidence.CreationIsWritten` | app/core/controller.py:299-320 | a task is created exactly under a key its tenant has not used |
| `ControllerEvidence.LogIsWritten` | app/core/controller.py:277-291 | the log grows exactly when the task changes, by one record with the call's action, time and the previous hash |
| `ControllerEvidence.EveryExecutionHasItsApproval` | app/core/controller.py:343-402 | behind every execution of every run stands an earlier approval by its tenant of its plan and server, used within the token's lifetime |
| `ControllerService.RestrictedController.Audit` | app/core/controller.py:277-291 | appends the next chained record |
| `ControllerService.RestrictedController.CreateTask` | app/core/controller.py:299-320 | a key names one request and one task |
| `ControllerService.RestrictedController.Plan` | app/core/controller.py:326-341 | accepted exactly for a created task of the tenant with allowed steps |
| `ControllerService.RestrictedController.Approve` | app/core/controller.py:343-361 | issues a token exactly for the plan the approver named |
| `ControllerService.RestrictedController.Cancel` | app/core/controller.py:363-370 | accepted exactly for a task that is not cancelled |
| `ControllerService.RestrictedController.Verify` | app/core/controller.py:155-194 | accepts exactly an issued, timely, matching, unused token, and never the same one twice |
| `ControllerService.RestrictedController.Execute` | app/core/controller.py:372-402 | authorises exactly when state and token allow |
| `CallbackScheduler.RowAdvances` | app/callback_scheduler.py:55-91 | an advanced row follows an edge of the table, gets one new event at its new version and overwrites no delivery |
| `CallbackScheduler.RunsFollowTheTable` | app/core/callbacks.py:10-40 | over every run a callback takes version' - version edges of the table and gains exactly as many events |
| `CallbackSchedulerPasses.PassExactly` | app/callback_scheduler.py:49-93 | a pass advances exactly the ripe callbacks it selected, once, to due, missed or escalated |
| `CallbackSchedulerPasses.EventsExactly` | app/callback_scheduler.py:49-93 | and logs one event for each of them and nothing else |
| `CallbackSchedulerPasses.PopupsExactly` | app/callback_scheduler.py:49-93 | and queues exactly the popups due: at once, and for a due callback a reminder ten minutes later |
| `CallbackSchedulerPasses.EveryStateHasItsPass` | app/callback_scheduler.py:34-93 | a callback whose state a run changed was taken by a pass of its own tenant and campaign, in time |
| `CallbackSchedulerPasses.CancelsExactly` | app/callback_scheduler.py:255-285 | a reconciliation cancels exactly the scope's waiting deliveries of finished or newer callbacks |
| `CallbackScheduler.ReconcileClears` | app/callback_scheduler.py:255-285 | no waiting delivery is outdated or of a finished callback afterwards; nothing else changed |
| `CallbackScheduler.ReconcileIsIdempotent` | app/callback_scheduler.py:255-285 | a second reconciliation changes nothing |
| `CallbackScheduler.ScopesAreIndependent` | app/callback_scheduler.py:226-235 | another tenant's or campaign's deliveries are untouched |
| `CallbackSchedulerService.DueRows` | app/callback_scheduler.py:34-48 | the earliest selectable rows in order, at most limit, none earlier left out |
| `CallbackSchedulerService.Tables.AdvanceRows` | app/callback_scheduler.py:49-93 | the loop performs the pass, each row advanced once |
| `CallbackSchedulerService.Tables.ClaimDue` | app/callback_scheduler.py:12-94 | selects that batch and performs the pass on it |
| `CallbackSchedulerService.Tables.Reconcile` | app/callback_scheduler.py:219-291 | performs the reconciliation; unassigned callbacks, missing events, outdated and finished deliveries are counted as they were before it; no current event is missing |
| `CampaignIdentity.PublicIdsAreInjective` | app/core/campaign_identity.py:30-67 | equal public ids mean equal campaign, type and sequence (extension for agents, also date for calls) |
| `CampaignIdentity.IssuedExactly` | app/core/campaign_identity.py:30-67 | an identity is issued exactly for a campaign in the hundreds, three capitals, a positive sequence and what its type asks for |
| `CampaignIdentity.FixedWidth` | app/core/campaign_identity.py:10-17 | sequences are printed at the full width of their type and read back |
| `CampaignIdentity.AliasesAreInjective` | app/core/campaign_identity.py:66-66 | a lead alias determines code and id |
| `CampaignIdentity.IssuedIdsAreSearchable` | app/core/campaign_search.py:10-27 | issued ids and lead aliases are accepted unchanged |
| `CampaignIdentity.CallIdsAreSearchableExactly` | app/core/campaign_search.py:10-27 | a call id is accepted if and only if its date is in ASCII digits |
| `CampaignIdentity.ForeignDateExample` | app/core/campaign_identity.py:53-54 | a call dated in Arabic-Indic digits is issued an id that the search rejects |

## Left out

- HTTP routing, authentication, TLS, settings, metrics, dashboards and deployment scripts: plumbing.
- AI queue: the usage ledger (what submit reads from it is the parameter limits), the outcome columns of attempts, failure codes, versions, heartbeat,
  event and audit tables; the states available, running and failed are declared but produced by no transaction.
- AI queue: conversations, and create_message_job, which inserts into the same queue as submit.
- AI queue: the attempt counter of a release is that of a retryable failure, as its handler calls finish.
- AiJobRepository.Repository.Claim: other transactions' row locks are the parameter locked; two rows equal in priority and
  created_at may be picked in either order.
- WorkerRuntime: model inference, processes, threads and timers; only their outcomes (succeeded, lost, cancelled, stopping) remain.
- WorkerRuntime.MaintainLease: the wait between intervals is left out; a stop ends the sequence of intervals.
- TtsJobs: failure_class, voice and model columns; chunk contents.
- Realtime: payload fields other than the scope; a failed send is a closed connection; a closed connection takes no further part,
  although the process lists it a moment longer; ping, pong and error frames.
- RealtimeClient: a page reload forgets the processed set but keeps the last event id, so exactly-once is per client object.
- LeadAutomation: field-by-field schema checks of payloads, results and acknowledgements are one flag each; building the apply
  request is a flag; result codes in the audit trail; mark_dispatched and acknowledge_n8n are plain transitions without a method.
- EndpointRegistry: the SQL join is the list of rows given to Select; JSON and HMAC of the envelope beyond what a valid
  signature says; Redis expires keys on the resolver's clock.
- EndpointRegistry.SignedSnapshotCache.Resolve: the age is counted from when the answer was cached, which may be any time after
  it was given; concurrent resolves of one process are not interleaved.
- RealtimeGateway.Gateway.Publish: runs without interruption; with other tasks between the turns of its loop it is Resume, and
  the theorems of Realtime cover every such interleaving.
- Controller: argument and workspace validation are one flag; agent registration, verification codes and redaction; the states
  planning, verifying, completed, failed and dead_letter, which no method of the class leaves a task in.
- CallbackScheduler: handlers that move callbacks are not steps of its runs; the printed form of event keys.
- CampaignIdentity.IssuedIdsAreSearchable: upper-casing and stripping are modelled for ASCII and for characters without case.
