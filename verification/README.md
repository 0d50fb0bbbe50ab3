# A verified model of SocialPilot's queue, worker, batches and safe migration

SocialPilot runs its long jobs (provider calls, renders, uploads) through a persistent queue. A job may be
claimed by any worker under a lease, may lose its lease, may be retried explicitly, and may be billed by a
provider at most once without an operator's decision. This project states what the backend does to its rows
and files, in Dafny, and proves what that guarantees over every run.

| file | subject |
|---|---|
| `ExecutionRecords.dfy`, `QueueSpec.dfy` | the rows, and every queue transaction as a function on the table |
| `QueueInvariant.dfy`, `QueueRuns.dfy`, `ClaimOrder.dfy` | the inductive invariant; history, bounded work and fencing over runs; which job a claim takes |
| `QueueEffects.dfy` | what each transaction writes, column by column, and exactly when it is accepted |
| `ExecutionQueue.dfy` | the service as a class that changes the table in place, each method proved equal to its transaction |
| `ExecutionContracts.dfy` | handler results, the handler's context (the write-ahead boundary), reporting a result |
| `WorkerSystem.dfy`, `WorkerSafety.dfy` | any number of workers, each with a handler and a heartbeat thread, interleaved with clients, failing transactions and crashes |
| `WorkerRefinement.dfy`, `WorkerProgress.dfy` | the worker's objects take the steps of that system; what a worker gets done while its lease is live |
| `Keys.dfy`, `Tables.dfy`, `Sorting.dfy` | the key formats, looking up a row, and why sorting makes lists canonical |
| `BatchPreflight.dfy`, `BatchVideo.dfy`, `ScriptQuota.dfy` | batches of jobs, their concurrency cap, and the call quota |
| `Migration.dfy`, `Upgrade.dfy` | lock, backup, Alembic, verification and restore over a disk that remembers every state |
| `YouTubePublish.dfy`, `BrandKit.dfy`, `Timeline.dfy`, `Metrics.dfy` | at-most-once upload, version numbering, timeline validators, metric aggregation |

How to read it. Where the source changes state step by step there is a method, proved equal to a function
of the old state; the theorems are about those functions and about runs of them. A job's identity is its
position in the table. One queue call is one transaction; what a call may have read earlier is an argument
(`view` for the candidate of a claim, `seen` for how many rows an idempotency lookup saw), so that theorems
hold for arbitrarily stale reads. Clocks are arguments and need not be monotone.

## Findings

Where the code does not do what one might expect, the code was kept and the exact condition proved.

- Recovery and claim. Production sessions are created with autoflush off (`backend/app/db/session.py:15`,
  `backend/app/cli/execution_worker.py:88`), so within one claim the UPDATE does not see the rows that the
  same claim has just recovered: such a job waits for the next claim. With autoflush on it can be taken at
  once. `autoflush` is therefore a parameter, and safety is proved for both.
- Lease given up while held. Any heartbeat that fails, for whatever reason, is taken for a lost lease. Moreover the
  heartbeat thread reads the counters before it takes the heartbeat lock, so an older count can arrive after a newer
  one and be refused. `WorkerSafety.BeatLosesLiveLeaseIff` gives the exact condition and `StaleBeatLosesLiveLease` a
  run that reaches the refusal. Safety is not affected: failing transactions, committed or not, are steps of the system.
- Results that cannot be reported. A FAILED handler result whose provider state is SUBMIT_UNKNOWN passes the
  result's own checks but no failure request can carry it, unless the external flag is set.
  `ExecutionContracts.FinalCallAcceptedIff` says that this is the only case in which a live lease does not help;
  `WorkerSafety.UnreportableResultIsReachable` is a run that reaches it and leaves the job RUNNING.
- Unversioned databases. A schema of revision 0009 is upgraded when it has a version row and refused when it
  has none, because that revision is missing from the list tried for unversioned files
  (`Migration.UnversionedCompositionRefused`).
- A zero-byte database counts as absent: it is not backed up, and it is deleted when its migration fails
  (`Upgrade.UpgradeNew`).
- An upgrade that fails leaves the original in place exactly if it can be restored (`Upgrade.UpgradeExisting`): a journal
  left behind by Alembic makes the restore refuse, and the backup is then the only copy
  (`Upgrade.JournalBlocksRestore` is such an upgrade).
- A retried job keeps `submitted_at`, so later expiries are set aside as uncertain even if the retry itself never
  reached the provider (`QueueRuns.NoRequeueAfterBoundary`; `RetryMayEndInDoubt` is a run that ends so).
- A publish request that dies after the upload and before its last commit leaves its task UPLOADING, not uncertain,
  and nothing ever moves it (`YouTubePublish.CrashStrandsATask`, `StrandedForever`). No other status hides how an
  upload ended (`OnlyUploadingHidesAnOutcome`).
- Overall CPA may exceed every platform's CPA (`Metrics.CpaMayExceedEveryPlatform`). It does so exactly when the spend
  of the platforms without conversions exceeds what the others fall short of the highest CPA, and likewise for ROAS
  (`Metrics.OverallIsBetweenPlatforms`); click-through and conversion rates never do this
  (`Metrics.ProportionsAreBetweenPlatforms`).

## Model

| member | source | states |
|---|---|---|
| QueueInvariant.ExpireKeeps | backend/app/services/execution_queue_service.py:295-331 | recovering an expired row keeps the row invariant: attempts numbered 1..attempt_count, only the last open, lease iff RUNNING, uncertain iff SUBMIT_UNKNOWN, result only if SUCCEEDED, a queued or paused job has an attempt left |
| QueueInvariant.ReplaceKeeps | backend/app/models/execution.py:59-88 | replacing a row keeps the table invariant unless the row newly runs on a busy key |
| QueueInvariant.ClaimTryKeeps | backend/app/repositories/execution.py:107-137 | a claim keeps the invariant and never meets the attempt constraint, whatever stale rows its candidate was chosen from |
| QueueInvariant.LeasedKeeps | backend/app/services/execution_queue_service.py:188-288 | heartbeat, completion, failure and doubt keep the invariant, including rejected calls that commit a recovery |
| QueueInvariant.ApplyKeeps | backend/app/services/execution_queue_service.py:45-348 | every transaction keeps the invariant |
| QueueInvariant.RunKeeps | backend/app/services/execution_queue_service.py:45-348 | so does every run of transactions |
| QueueInvariant.ConstraintsHold | backend/app/models/execution.py:52-88 | in every reachable table the CHECK constraints and both unique indexes hold |
| QueueRuns.RowMoves | backend/app/services/execution_queue_service.py:106-348 | one transaction changes a row only by expiry, claim, an accepted lease call of its live owner, or control |
| QueueRuns.ApplyEvolves | backend/app/services/execution_queue_service.py:188-331 | a transaction never rewrites a closed attempt, never clears an external flag or submitted_at, never lowers a call count and never changes a terminal row |
| QueueRuns.RunEvolves | backend/app/services/execution_queue_service.py:188-331 | the same over any run |
| QueueRuns.ControlLaws | backend/app/services/execution_queue_service.py:106-149 | exactly when pause, resume, cancel and retry are accepted; a 409 changes nothing; running jobs and outcomes are out of their reach; repeating an accepted call is harmless except for retry |
| QueueRuns.ResumeUndoesPause | backend/app/services/execution_queue_service.py:106-124 | resuming restores exactly the row that was paused |
| QueueRuns.RecoveryTestIsSubmittedAt | backend/app/services/execution_queue_service.py:299-329 | recovery's three-way test equals "submitted_at is set", and decides exactly between SUBMIT_UNKNOWN, QUEUED and FAILED |
| QueueRuns.NoRequeueAfterBoundary | backend/app/services/execution_queue_service.py:295-331 | once any attempt crossed the submission boundary no later expiry requeues the job |
| QueueRuns.RetryMayEndInDoubt | backend/app/services/execution_queue_service.py:137-149 | a run that ends in SUBMIT_UNKNOWN although its last attempt never called the provider |
| QueueRuns.FailureIsCertain | backend/app/services/execution_queue_service.py:237-247 | after any run a failed attempt with a possible submission has a certain provider state, an expired one had none, and an attempt of unknown outcome is the last and is neither |
| QueueRuns.UncertainForever | backend/app/services/execution_queue_service.py:126-149 | an uncertain job is never changed again by anything |
| QueueRuns.MeasureDrops | backend/app/services/execution_queue_service.py:126-186 | the measure 3*(max_attempts - attempt_count) + rank never grows and drops with every claim, report, recovery, retry and cancel; attempt_count grows exactly with claims |
| QueueRuns.WorkIsBounded | backend/app/services/execution_queue_service.py:126-331 | any run makes at most that many transitions of a job and counts its claims exactly |
| QueueRuns.FreshJobBound | backend/app/services/execution_queue_service.py:126-331 | from creation: at most 3*max_attempts + 1 transitions and max_attempts claims |
| QueueRuns.LeaseTestsAgree | backend/app/models/execution.py:157-167 | recovery, ownership and lease_active split every instant the same way, the expiry instant included |
| QueueRuns.OutsidersOnlyRecover | backend/app/services/execution_queue_service.py:333-348 | a call by anyone but the live owner is rejected and does nothing or nothing but recovery |
| QueueRuns.LiveLeaseIsExclusive | backend/app/services/execution_queue_service.py:333-348 | until the lease runs out no run of other parties' calls changes the owner's job |
| QueueRuns.LiveHeartbeatRefusedIff | backend/app/services/execution_queue_service.py:188-204 | the live owner's heartbeat is refused exactly when its call count is below the stored one |
| QueueEffects.CreateExact | backend/app/services/execution_queue_service.py:45-80 | a job is created exactly when its key is long enough and free, with these columns; a taken key is reused for the same digest only |
| QueueEffects.ControlEffect | backend/app/services/execution_queue_service.py:106-149 | an accepted pause, resume, cancel or retry writes this status and these completion columns, and no other column or row; 404 for an unknown job |
| QueueEffects.ExpiryEffect | backend/app/services/execution_queue_service.py:295-331 | recovery writes exactly these columns of job and latest attempt to every job whose lease ran out at or before now, and nothing to any other |
| QueueEffects.ClaimEffect | backend/app/repositories/execution.py:118-137 | a claimed job has the worker as owner, a lease until exactly now plus the seconds asked for, and one fresh attempt; nothing else changes |
| QueueEffects.ClaimProtects | backend/app/services/execution_queue_service.py:151-186 | after a claim no run of others' calls before the end of the granted lease changes the job |
| QueueEffects.LeaseReplyExact | backend/app/services/execution_queue_service.py:333-373 | exactly when heartbeat, completion, failure and doubt are accepted, and the code of each refusal |
| QueueEffects.HeartbeatEffect | backend/app/services/execution_queue_service.py:188-204 | an accepted heartbeat keeps owner and status, makes the lease end exactly lease_seconds after it, and stores the count, the flag and submitted_at, nothing else |
| QueueEffects.HeartbeatProtects | backend/app/services/execution_queue_service.py:188-204 | after an accepted heartbeat no run of others' calls before its new expiry changes the job |
| QueueEffects.CompleteEffect | backend/app/services/execution_queue_service.py:206-231 | what a completion writes, column by column: provider name, operation, result, submitted_at, attempt and provider state |
| QueueEffects.FailEffect | backend/app/services/execution_queue_service.py:233-262 | what a failure writes, column by column |
| QueueEffects.UnknownEffect | backend/app/services/execution_queue_service.py:264-288 | what a doubt writes, column by column |
| ClaimOrder.CandidateIsBest | backend/app/repositories/execution.py:96-117 | the candidate is the unique eligible row that is best by priority descending, creation time, identity; none iff no row is eligible |
| ClaimOrder.AtomicClaimReply | backend/app/services/execution_queue_service.py:151-186 | an undisturbed claim returns exactly the best eligible job, and nothing iff every queued job is filtered out by type, unconfirmed cost or a busy key |
| ClaimOrder.ClaimTakesTheFirst | backend/app/repositories/execution.py:86-117 | an undisturbed claim takes the queued, wanted, paid-for job with a free key that has the highest priority, then the earliest creation, then the lowest identity; none only if there is none |
| ClaimOrder.ClaimReplyExact | backend/app/services/execution_queue_service.py:153-171 | the reply to a claim for a candidate from any stale view, and whether its recovery is kept |
| ClaimOrder.NoExpiredLeaseAfterClaim | backend/app/services/execution_queue_service.py:153-185 | after a claim that commits no running job has a lease at or before its clock |
| ClaimOrder.ClaimedIsExclusive | backend/app/repositories/execution.py:118-137 | however stale the candidate, a claimed job was queued, is alone on its key, has one new attempt, and every other row is only recovered |
| ClaimOrder.RecoveredJobWaitsForNextClaim | backend/app/services/execution_queue_service.py:153-161 | without autoflush a claim never takes a job that it itself recovered |
| ClaimOrder.RecoveredJobMayBeTakenWithAutoflush | backend/app/services/execution_queue_service.py:153-161 | a concrete table on which autoflush decides between taking the job and finding none |
| ClaimOrder.ClaimLoopIsOneTry | backend/app/services/execution_queue_service.py:151-186 | whatever others commit between its tries, the bounded loop acts as one of them, all earlier ones having met a conflict and left nothing, or gives up after the last leaving only what others did |
| ExecutionQueue.ExecutionQueueService.Create | backend/app/services/execution_queue_service.py:45-80 | creation in place equals the transaction: short key 422, reuse for the same digest, 409 for another, whatever the first lookup saw |
| ExecutionQueue.ExecutionQueueService.Control | backend/app/services/execution_queue_service.py:106-149 | pause, resume, cancel and retry in place equal the transaction |
| ExecutionQueue.ExecutionQueueService.RecoverExpiredLeases | backend/app/services/execution_queue_service.py:295-331 | the sweep recovers exactly the expired rows and returns exactly their identities |
| ExecutionQueue.ExecutionQueueService.ExpireRow | backend/app/services/execution_queue_service.py:297-329 | what the sweep writes, field by field, equals the expiry of the row |
| ExecutionQueue.ExecutionQueueService.ClaimOnce | backend/app/services/execution_queue_service.py:153-185 | one try: recovery, candidate, guarded UPDATE, attempt, or a rollback that also undoes the recovery |
| ExecutionQueue.ExecutionQueueService.Claim | backend/app/services/execution_queue_service.py:151-186 | at most three tries, others committing before each; replies only with a job or with none |
| ExecutionQueue.ExecutionQueueService.OwnedRunning | backend/app/services/execution_queue_service.py:333-348 | 404, 409 and the 409 that commits a recovery, in the order of the code |
| ExecutionQueue.ExecutionQueueService.Heartbeat | backend/app/services/execution_queue_service.py:188-204 | the heartbeat in place equals the transaction, whose new lease and counters HeartbeatEffect states |
| ExecutionQueue.ExecutionQueueService.Complete | backend/app/services/execution_queue_service.py:206-231 | completion in place equals the transaction |
| ExecutionQueue.ExecutionQueueService.Fail | backend/app/services/execution_queue_service.py:233-262 | failure in place equals the transaction, with its certainty check |
| ExecutionQueue.ExecutionQueueService.MarkSubmitUnknown | backend/app/services/execution_queue_service.py:264-288 | doubt in place equals the transaction |
| ExecutionContracts.FinalCallAcceptedIff | backend/app/execution/worker.py:192-269 | with a live lease and dominating counters a valid result is accepted if and only if a request can express it |
| ExecutionContracts.FinalCallRecords | backend/app/execution/worker.py:209-261 | success is recorded only for a success, plain failure only without possible submission or with a certain provider state, doubt otherwise |
| ExecutionContracts.FinalCallColumns | backend/app/execution/worker.py:213-261 | error code, provider name, operation, result and provider state of an accepted report are those of the handler's result |
| ExecutionContracts.EndingsAreReportedAs | backend/app/execution/worker.py:141-190 | which result stands for each way in which a handler can end |
| ExecutionContracts.CrossedEffect | backend/app/execution/contracts.py:67-94 | a boundary that passes has raised and stored the count and renewed the lease; before a possible submission it has stored flag and submitted_at, otherwise it leaves them; it passes exactly if nothing stops it and the heartbeat is accepted |
| ExecutionContracts.BrokenOffMeansDoubtIffExternal | backend/app/execution/worker.py:141-190 | a handler that raises, is stopped, is not registered or returns something else yields a valid, reportable result that records doubt exactly if a submission was possible |
| ExecutionContracts.ExecutionContext.Boundary | backend/app/execution/contracts.py:67-94 | the write-ahead boundary in place: when it passes before a possible submission or an irreversible persist, the attempt is flagged and submitted_at is set in the queue; a counted call raises the count by one, and one that cannot submit leaves the flag; it passes exactly if the lease is not lost, no stop is requested and the heartbeat is accepted; otherwise the handler learns why |
| ExecutionContracts.ExecutionContext.Beat | backend/app/execution/worker.py:290-314 | a heartbeat stores the counters; a refusal, and a failure before or after the commit, mark the lease lost |
| ExecutionContracts.ExecutionContext.Conclude | backend/app/execution/worker.py:138-190 | whichever way the handler ended, the result that is chosen is the one reported, and nothing is reported once the lease is known to be lost |
| ExecutionContracts.ExecutionContext.Finalize | backend/app/execution/worker.py:192-269 | reporting in place equals its specification, including the extra heartbeat that stores a doubt first and transactions that fail without an answer |
| WorkerSystem.OthersKeepTie | backend/app/services/execution_queue_service.py:295-348 | whatever others do, a worker's attempt is still running as its own, or is closed with its boundary kept |
| WorkerSystem.OwnBeatKeepsTie | backend/app/execution/worker.py:271-314 | in-memory counters dominate stored ones after every heartbeat, stale ones included |
| WorkerSystem.NextKeeps | backend/app/execution/worker.py:95-314 | every step of every thread and of every client, a transaction that fails before or after its commit, and a crash at any step keep the system invariant |
| WorkerSafety.SubmittedAttemptIsRecorded | backend/app/execution/contracts.py:67-94 | an attempt that really submitted has its flag and submitted_at stored and is never closed as "nothing submitted" |
| WorkerSafety.AtMostOneOpenSubmission | backend/app/services/execution_queue_service.py:233-331 | over every interleaving a job has at most one real submission without a certain outcome; it is the last attempt and the job is RUNNING or SUBMIT_UNKNOWN |
| WorkerSafety.SubmissionsHappenOnlyWhileOpen | backend/app/execution/contracts.py:67-78 | a submission can only happen while the job is the worker's or already set aside |
| WorkerSafety.SystemIsQueueRun | backend/app/execution/worker.py:95-314 | what all workers and clients, lease calls over HTTP included, do to the table together is a run of queue transactions, so every theorem about runs applies |
| WorkerSafety.SubmissionsNeedRetries | backend/app/services/execution_queue_service.py:137-149 | a job really submits in at most one attempt more than the explicit retries it was granted |
| WorkerSafety.LiveReportIsAccepted | backend/app/execution/worker.py:192-269 | in every reachable state a worker ready to report with a live lease is accepted, unless its result cannot be expressed |
| WorkerSafety.LiveDoubtIsAccepted | backend/app/execution/worker.py:199-210 | storing a doubt ahead of the report is likewise accepted |
| WorkerSafety.BeatLosesLiveLeaseIff | backend/app/execution/worker.py:271-314 | a background heartbeat gives up a live lease exactly when it fails without an answer or a newer count was stored since it read; the queue still grants the lease |
| WorkerSafety.StaleBeatLosesLiveLease | backend/app/execution/worker.py:278-288 | a run that reaches this |
| WorkerSafety.UnreportableResultIsReachable | backend/app/execution/contracts.py:129-140 | a run in which a valid result is returned under a live lease, its report raises, and the job stays RUNNING |
| WorkerRefinement.BoundaryIsTwoSteps | backend/app/execution/contracts.py:67-94 | the context's boundary is the steps that raise the counters and then store them, and arms the worker exactly if it passes with a possible submission |
| WorkerRefinement.FinalizedIsTwoSteps | backend/app/execution/worker.py:192-269 | the report is the steps that store the doubt and then make the final call |
| WorkerProgress.ClaimStartsWork | backend/app/execution/worker.py:101-115 | an answered claim makes the worker handle the job's new attempt, with nothing counted |
| WorkerProgress.NoClaimWhileBusyOrStopped | backend/app/execution/worker.py:95-100 | a busy or stopped worker claims nothing |
| WorkerProgress.BoundaryArms | backend/app/execution/contracts.py:67-94 | under a live lease a boundary before a possible submission is stored, leaves attempt and job marked and the lease renewed, and only then may the handler submit |
| WorkerProgress.ArmedJobIsNeverRequeued | backend/app/services/execution_queue_service.py:299-316 | once a worker may have submitted, every later expiry of its job ends in SUBMIT_UNKNOWN, after any run |
| WorkerProgress.BackgroundBeatRenews | backend/app/execution/worker.py:271-288 | a beat of the heartbeat thread renews the lease unless a newer count was stored since it read |
| WorkerProgress.ResultIsTaken | backend/app/execution/worker.py:141-170 | a valid result is the one that is reported, unless the lease is lost |
| WorkerProgress.ResultIsRecorded | backend/app/execution/worker.py:192-269 | what a handler returned under a live lease is recorded on the job with its columns, and the worker is free again |
| Keys.SlotKeyInjective | backend/app/services/batch_video_job_service.py:147-149 | slot keys determine batch and slot |
| Keys.VariantKeyInjective | backend/app/services/qwen_video_script_job_service.py:148-150 | the hashed material determines variant and client key |
| BatchPreflight.SizeOfExpansion | backend/app/services/batch_video_preflight.py:70-112 | the expansion has products x platforms x variants plans |
| BatchPreflight.ExpansionMembers | backend/app/services/batch_video_preflight.py:86-112 | it contains exactly the plans of the requested triples |
| BatchPreflight.ExpansionOrdered | backend/app/services/batch_video_preflight.py:86-112 | in strict lexicographic order, hence each once |
| BatchPreflight.PreflightIsCanonical | backend/app/services/batch_video_preflight.py:61-146 | all of this, with at most 60 plans, for every accepted request |
| BatchPreflight.PreflightExact | backend/app/services/batch_video_preflight.py:64-89 | which requests are refused with 422, 404 and 409, in that order, and that all others are accepted |
| BatchPreflight.FrozenExact | backend/app/services/batch_video_preflight.py:86-125 | what is frozen: the request's fields, its lists sorted, and for every triple the plan with the product's own brand |
| BatchPreflight.PlatformsSortByName | backend/app/services/batch_video_preflight.py:69 | platforms sort as their names |
| BatchPreflight.FrozenIffSameUpToOrder | backend/app/services/batch_video_preflight.py:113-126 | two requests have one frozen payload if and only if they differ at most in the order of products and platforms |
| BatchPreflight.BatchVideoPreflightService.Run | backend/app/services/batch_video_preflight.py:61-146 | the nested loops compute that expansion; 422, 404 and 409 exactly as the order-independent checks say |
| BatchVideo.NextKeepsState | backend/app/services/batch_video_job_service.py:69-224 | creation, control and all queue traffic keep every batch's jobs on its slot keys and leave earlier batches alone |
| BatchVideo.Pigeonhole | backend/app/services/batch_video_job_service.py:147-149 | ordinals in pairwise different slots are at most as many as the slots |
| BatchVideo.BatchCap | backend/app/services/batch_video_job_service.py:114-155 | in every reachable state a batch runs at most max_concurrency jobs |
| BatchVideo.BatchesShareNoKey | backend/app/services/batch_video_job_service.py:147-149 | jobs of different batches never compete |
| BatchVideo.SlotLoadExact | backend/app/services/batch_video_job_service.py:114-149 | how many ordinals fall into each slot |
| BatchVideo.SlotsAreBalanced | backend/app/services/batch_video_job_service.py:114-149 | slot loads differ by at most one |
| BatchVideo.BatchKeysAreBalanced | backend/app/services/batch_video_job_service.py:114-149 | in every reachable state the keys of a batch carry numbers of jobs that differ by at most one |
| BatchVideo.LookupFinds | backend/app/services/batch_video_job_service.py:161-172 | which reply a repeated key or digest gets |
| BatchVideo.CreateIsIdempotent | backend/app/services/batch_video_job_service.py:69-176 | once a batch exists no later creation with its key or digest changes anything, whatever it reads |
| BatchVideo.CreationExact | backend/app/services/batch_video_job_service.py:69-176 | a batch is created exactly when the request is well formed, new, not expired, accepted again with the same digests and its job keys are free; then one variant and one job per plan are there, in order, with these columns; otherwise nothing changes |
| BatchVideo.CreationCodes | backend/app/services/batch_video_job_service.py:78-86 | the code of every refusal of a new request, expiry and digest mismatch included |
| BatchVideo.AggregateMeaning | backend/app/services/batch_video_job_service.py:41-61 | exactly when the mixed statuses are reported of a list of statuses |
| BatchVideo.BatchStatusMeaning | backend/app/services/batch_video_job_service.py:26-61 | in every reachable state READY, FAILED, CANCELLED and WAITING say exactly what status all jobs of the batch have, and a running job is always reported |
| BatchVideo.MixedStatusMeaning | backend/app/services/batch_video_job_service.py:53-61 | likewise RUNNING, PARTIAL_FAILED, PAUSED and MIXED_TERMINAL, in terms of the jobs |
| BatchVideo.FinalStatusIsFinal | backend/app/services/batch_video_job_service.py:26-61 | once a reachable batch reports READY, FAILED, CANCELLED or MIXED_TERMINAL no later call changes that status or any of its jobs |
| BatchVideo.BatchVideoJobService.InsertJobs | backend/app/services/batch_video_job_service.py:113-159 | the loop places every variant and job, or reports a key conflict exactly if the unique key would be violated |
| BatchVideo.BatchVideoJobService.CreateBatch | backend/app/services/batch_video_job_service.py:69-176 | creation in place equals the transaction, with its rollbacks |
| BatchVideo.BatchVideoJobService.ControlBatch | backend/app/services/batch_video_job_service.py:205-224 | every variant's job is paused if it was queued, resumed if it was paused, or cancelled with its time if it was queued or paused, and is otherwise unchanged; no other job, batch or counter changes; 404 for an unknown batch |
| BatchVideo.ControlReachesTheBatch | backend/app/services/batch_video_job_service.py:208-222 | the same for every state that satisfies the invariant |
| BatchVideo.NothingIsLeftBehind | backend/app/services/batch_video_job_service.py:208-222 | after a cancel no job of the batch is queued or paused, after a pause none is queued, after a resume none is paused |
| ScriptQuota.EnqueueKeeps | backend/app/services/qwen_video_script_job_service.py:37-145 | an enqueue keeps "reserved = number of the batch's script jobs <= quota" |
| ScriptQuota.EnqueueExact | backend/app/services/qwen_video_script_job_service.py:37-145 | a job is created exactly when its key is new, the request is unexpired, ready and matching, its variant and batch exist and the batch has a call left; then one job with these columns and one reserved call are added; otherwise nothing changes |
| ScriptQuota.EnqueueCodes | backend/app/services/qwen_video_script_job_service.py:44-140 | the code of every refusal of a request with a new key |
| ScriptQuota.TakenKeyReply | backend/app/services/qwen_video_script_job_service.py:152-169 | the reply to a request whose key is taken, by what its first lookup saw |
| ScriptQuota.QuotaIsConserved | backend/app/services/qwen_video_script_job_service.py:121-145 | in every reachable state the reserved calls of a batch are exactly its script jobs and within the quota |
| ScriptQuota.ReplayReservesNothing | backend/app/services/qwen_video_script_job_service.py:152-169 | repeating a request, after any other activity and with any stale reads, reserves and creates nothing, and returns the same job once it is visible |
| ScriptQuota.JobKeysSeparate | backend/app/services/qwen_video_script_job_service.py:148-150 | different variants or client keys have different job keys unless the hash collides |
| ScriptQuota.QwenVideoScriptJobService.EnqueueJob | backend/app/services/qwen_video_script_job_service.py:37-145 | reserve-then-create in place: the reply is a created job exactly under these conditions on the columns, with exactly one job and one reserved call added |
| Migration.StatusPredictsUpgrade | backend/app/services/database_migration_service.py:560-669 | the read-only status foretells what an upgrade of the same file decides |
| Migration.StatusExact | backend/app/services/database_migration_service.py:560-669 | exactly when each status is reported, and the two flags beside it |
| Migration.PlanExact | backend/app/services/database_migration_service.py:689-736 | what an upgrade decides to run, from tables, revision and fingerprint |
| Migration.UnversionedAcceptedIff | backend/app/services/database_migration_service.py:518-542 | an unversioned file is accepted exactly if its schema is that of a listed revision; all known ones but 0009 are listed |
| Migration.UnversionedCompositionRefused | backend/app/services/database_migration_service.py:518-542 | the 0009 schema is refused without and upgraded with a version row |
| Migration.CreateBackup | backend/app/services/database_migration_service.py:408-459 | exactly when a backup succeeds; then copy and manifest carry the original bytes; at every point in between only its own files change and a manifest is only ever seen complete |
| Migration.Restore | backend/app/services/database_migration_service.py:470-499 | exactly when a restore succeeds; a missing manifest or a backup that lost its bytes is refused untouched; the database is at every point either untouched or what was backed up |
| Upgrade.MigrateInPlace | backend/app/services/database_migration_service.py:689-752 | which Alembic runs are made for each plan, what they leave, and that success is reported exactly if they succeeded and the file then has the head revision and the head fingerprint |
| Upgrade.PromiseByPlan | backend/app/services/database_migration_service.py:689-752 | an upgrade returns success exactly if nothing blocked it and the runs of its plan reached the head: none for a refused schema, one upgrade for versioned, empty and absent files, one stamp and then an upgrade for unversioned ones, stopping after a failed stamp or at the head |
| Upgrade.UpgradeExisting | backend/app/services/database_migration_service.py:672-773 | at every crash point the original bytes are at the source or in a backup with a complete manifest, and the manifest tells which; each outcome has its exact condition; a refusal or a restored failure leaves the bytes identical |
| Upgrade.JournalBlocksRestore | backend/app/services/database_migration_service.py:753-773 | a failing upgrade whose leftover journal makes the restore refuse, and the same upgrade without it, which is put back |
| Upgrade.UpgradeNew | backend/app/services/database_migration_service.py:689-692 | an absent or zero-byte database ends at head or is absent |
| Upgrade.UpgradeDatabase | backend/app/services/database_migration_service.py:776-782 | the same under the lock, which is present in every intermediate state and released afterwards, with the outcome stated run by run; a held lock refuses and touches nothing |
| Upgrade.LockedPeriod | backend/app/services/database_migration_service.py:325-368 | from acquisition to release the disk is locked and the original safe |
| Upgrade.Release | backend/app/services/database_migration_service.py:302-322 | only the owner's token removes the lock |
| Upgrade.RestoreBackup | backend/app/services/database_migration_service.py:502-515 | an explicit restore of a complete backup succeeds under an exact condition and otherwise leaves the database as it was |
| Upgrade.RecoverAfterCrash | backend/app/services/database_migration_service.py:470-515 | from every state in which an upgrade, or a later recovery, may have died: dropping the lock and restoring if the manifest is there brings the original bytes back under an exact condition, and is itself safe to interrupt |
| YouTubePublish.NextKeeps | backend/app/services/social_service.py:364-517 | every commit, provider call, refresh and crash keeps the invariant that ties columns to real uploads |
| YouTubePublish.AtMostOneUploadPerKey | backend/app/services/social_service.py:376-466 | over every interleaving the provider upload runs at most once per idempotency key |
| YouTubePublish.StatusMeaning | backend/app/services/social_service.py:432-512 | uncertain iff SUBMIT_UNKNOWN; submitted, processing and succeeded tasks have a video and exactly one upload |
| YouTubePublish.UnknownForever | backend/app/services/social_service.py:484-494 | SUBMIT_UNKNOWN never leaves that state and is never uploaded again |
| YouTubePublish.OnlyUploadingHidesAnOutcome | backend/app/services/social_service.py:435-466 | in every reachable state a task whose upload ended says how, unless it is still UPLOADING |
| YouTubePublish.StrandedForever | backend/app/services/social_service.py:432-466 | a task in UPLOADING whose request is gone is never changed again |
| YouTubePublish.CrashStrandsATask | backend/app/services/social_service.py:432-466 | a run that leaves such a task after a successful upload |
| YouTubePublish.RepeatIsReused | backend/app/services/social_service.py:376-416 | repeating a key never begins a second task, whatever the lookup saw |
| YouTubePublish.BeginExact | backend/app/services/social_service.py:372-416 | a task begins exactly when the preflight holds and its key is new, with these columns |
| YouTubePublish.AuthorizeEffect | backend/app/services/social_service.py:419-434 | what the commit before the upload writes, with and without a token |
| YouTubePublish.RecordEffect | backend/app/services/social_service.py:435-466 | how each way in which the upload ended is written |
| YouTubePublish.RefreshEffect | backend/app/services/social_service.py:496-512 | which status each answer of the provider gets |
| YouTubePublish.YouTubePublishingService.BeginTask | backend/app/services/social_service.py:376-416 | lookup and insert in place equal the transaction |
| YouTubePublish.YouTubePublishingService.Authorize | backend/app/services/social_service.py:417-434 | without a token the task is FAILED; with one it is UPLOADING before any upload |
| YouTubePublish.YouTubePublishingService.BeginRefresh | backend/app/services/social_service.py:484-494 | only a submitted or processing task is asked about |
| YouTubePublish.YouTubePublishingService.Record | backend/app/services/social_service.py:435-466 | the branches over the provider's outcome equal the transaction |
| YouTubePublish.YouTubePublishingService.FinishRefresh | backend/app/services/social_service.py:508-512 | the provider's answer is written as the transaction says |
| BrandKit.CollectMeaning | backend/app/services/brand_kit_service.py:41-47 | the dictionary's keys are exactly the folded non-empty terms, each once |
| BrandKit.FoldedListIffSameTerms | backend/app/services/brand_kit_service.py:73-82 | what the digest sees of a list depends on its set of folded terms and on nothing else |
| BrandKit.NormalizedListExact | backend/app/services/brand_kit_service.py:41-47 | the stored list has every term once, ascending by folded term, each spelled as it first was |
| BrandKit.StoredListKeepsTerms | backend/app/services/brand_kit_service.py:41-47 | normalizing a stored list again changes nothing the digest sees |
| BrandKit.DigestIffSameContent | backend/app/services/brand_kit_service.py:50-82 | two inputs have one canonical payload if and only if texts agree and every list has the same terms |
| BrandKit.SameContentSameVerdict | backend/app/services/brand_kit_service.py:57-69 | whether content is accepted depends only on what the digest sees of it |
| BrandKit.TryKeeps | backend/app/services/brand_kit_service.py:143-178 | however stale its reads a try keeps versions numbered 1..n with distinct digests and never surfaces the constraint error |
| BrandKit.TryExact | backend/app/services/brand_kit_service.py:143-178 | the reply to a try: the digest's own version if there is one, a new version if its reads were up to date, contested otherwise |
| BrandKit.RunTriesKeeps | backend/app/services/brand_kit_service.py:137-181 | so does any interleaving of creators; versions are only appended |
| BrandKit.DigestKeepsItsVersion | backend/app/services/brand_kit_service.py:143-146 | once a digest has a version every later try reuses that version |
| BrandKit.BrandKitService.CreateVersion | backend/app/services/brand_kit_service.py:137-181 | the retry loop: known content is reused without a write; a 409 means that at least three other versions were added meanwhile |
| BrandKit.BrandKitService.Normalize | backend/app/services/brand_kit_service.py:41-47 | the loops compute the normalized list |
| BrandKit.BrandKitService.NormalizedContent | backend/app/services/brand_kit_service.py:50-70 | content is refused exactly for an empty text or a term both preferred and forbidden, and is otherwise normalized field by field |
| BrandKit.BrandKitService.DigestPayload | backend/app/services/brand_kit_service.py:73-82 | the payload of normalized content is the canonical payload of the input |
| Timeline.ShotsAcceptedIff | backend/app/schemas/video_composition.py:28-44 | in any input order shots are accepted exactly if numbered 1..n, in time order, non-empty, partitioning [0, 15000), with long enough trims |
| Timeline.FirstFaultIsBlamed | backend/app/schemas/video_composition.py:34-43 | which error a rejected list gets: that of its first faulty shot, else the end of the timeline |
| Timeline.AcceptedShotsFillTheTimeline | backend/app/schemas/video_composition.py:34-43 | their durations then sum to 15000 |
| Timeline.NeighboursSuffice | backend/app/schemas/video_composition_enhancement.py:68-72 | the check of neighbours is equivalent to the check of all pairs |
| Timeline.CuesAcceptedIff | backend/app/schemas/video_composition_enhancement.py:63-73 | in any input order cues are accepted exactly if numbered 1..n, non-empty and in time order |
| Timeline.AcceptedCuesAreDisjoint | backend/app/schemas/video_composition_enhancement.py:63-73 | no instant shows two accepted cues |
| Timeline.ValidateTimeline | backend/app/schemas/video_composition.py:28-44 | the loop with its cursor gives that verdict |
| Timeline.ValidateSubtitles | backend/app/schemas/video_composition_enhancement.py:63-73 | the loop with the previous end gives that verdict |
| Metrics.RatesAreProportions | backend/app/services/metrics_service.py:20-21 | click-through and conversion rates of accepted rows lie in [0, 1] |
| Metrics.TotalsAreSums | backend/app/services/metrics_service.py:14-18 | every total is the sum of its own column |
| Metrics.RatesExact | backend/app/services/metrics_service.py:20-21 | click-through and conversion rate are the quotients of their totals, or 0 |
| Metrics.MoneyRatesExact | backend/app/services/metrics_service.py:22-23 | cost per conversion and return on spend are the quotients of their totals, or absent |
| Metrics.GroupsAddUp | backend/app/services/feedback_context_service.py:155-168 | per-platform totals sum to the overall totals for every list of rows |
| Metrics.SomeGroupIsBelow | backend/app/services/metrics_service.py:14-23 | some group's ratio is at most the ratio of the sums |
| Metrics.SomeGroupIsAboveIff | backend/app/services/metrics_service.py:14-23 | some group's ratio is at least the ratio of the sums if and only if the numerators without a denominator are at most what the other groups fall short of the highest ratio |
| Metrics.OverallIsBetweenPlatforms | backend/app/services/feedback_context_service.py:60-63 | every reported overall rate is at least some platform's, and at most some platform's if and only if the numerators of platforms without a rate are made up for by what the others fall short of the highest rate |
| Metrics.ProportionsAreBetweenPlatforms | backend/app/services/metrics_service.py:20-21 | without exception for click-through and conversion rates |
| Metrics.CpaMayExceedEveryPlatform | backend/app/services/metrics_service.py:22 | two rows for which the overall CPA exceeds every platform's |
| Metrics.Group | backend/app/services/feedback_context_service.py:155-157 | the dictionary holds every platform's rows in order |
| Metrics.PlatformMetricsOf | backend/app/services/feedback_context_service.py:152-168 | the report lists every platform once, by casefolded name then name, and its totals add up |

## Left out

- Overlapping transactions: apart from stale candidate reads and stale lookups, which are arguments, each service call is one atomic step; lost updates between two sessions that both hold a row are not modelled.
- Worker identity: the owner digest is the worker id itself, and the id alone is the fence. A late call under the same id after that id has claimed the job again is accepted, as in the code.
- Fairness: claims have no aging, so nothing is proved about every job eventually running.
- SHA-256 and JSON encoding: digests are functions given as arguments, or the payload stands for its digest; where injectivity matters it is a stated hypothesis.
- Text handling: trimming, casefolding and Unicode normalization are functions given as arguments in BrandKit and Metrics, and are not applied to keys, job types and digests of the queue, which are taken as already normalized.
- Payload contents, safe error details and their sensitive-key checks, currency, display fields and timestamps that nothing reads.
- Length bounds on names, worker ids and operation identities: they are the same in handler results and in requests.
- ExecutionQueue.ExecutionQueueService.Create: duplicate keys are refused by the unique constraint only; other integrity errors of the insert are not modelled.
- Registered workers' ids are used by nobody else: a client that calls the lease endpoints under a running worker's id is not modelled.
- Threads, locks and signals: workers are interleaved steps; the worker's run lock appears as "one job at a time", the heartbeat lock as the atomicity of one heartbeat, and job type filters are not used by workers.
- Handlers, renderers, storage, HTTP clients and OAuth: a handler is any sequence of boundaries and submissions that ends in any valid result; a provider call is an arbitrary outcome.
- Alembic, SQLite and schema inspection: an arbitrary sequence of writes to the database and its journal, and arbitrary functions from bytes to revision, schema fingerprint and integrity.
- Migration.CreateBackup: names of backups are told apart by their timestamps; an exception raised in the middle of a copy and another process changing the database during it appear only as a copy that differs.
- Upgrade.UpgradeDatabase: stale locks, a lock file replaced by another process, and a process that ignores the lock are not modelled; the lock's token always verifies at release.
- Upgrade.RestoreBackup: a restore to a different destination, and manifests of another version, are not modelled.
- BatchVideo.BatchVideoJobService.ControlBatch: a variant without a job cannot occur in the model; the variant's own status column is not stored, since status is always read from the job.
- ScriptQuota.EnqueueKeeps: the verdict of the script preflight is an argument, and script jobs are created through this service only.
- YouTubePublish.YouTubePublishingService.BeginTask: preflight, artifact and account checks are one verdict; the resumable session that is stored encrypted is not modelled, and refreshes of one task may overlap, which is weaker than the per-task lock of one process.
- BrandKit.BrandKitService.CreateVersion: other kits, binding of products, and the kit's own timestamp are not modelled.
- Timeline.ValidateSubtitles: the text rules of a cue are single checks and are not modelled.
- Metrics.PlatformMetricsOf: values are exact; rounding for display is not modelled. The content chain and the context digest of the feedback service would only add straight-line checks.
- Listing, reading, dashboards, demo data, prompts, feature gates, range requests and the frontend.
