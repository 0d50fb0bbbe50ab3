/**
 The rows of the execution queue: jobs, their attempts, and the constraints that the
 database declares over them.  A job's identity is its position in the table.
 */
module ExecutionRecords {
  import opened Wrappers

  type Time = int

  datatype JobStatus =
    | Queued | Paused | Running | Succeeded | Failed | SubmitUnknown | Cancelled

  datatype AttemptStatus =
    | AttemptRunning | AttemptSucceeded | AttemptFailed | AttemptSubmitUnknown | AttemptLeaseExpired

  /** What is known about the provider at the end of an attempt. */
  datatype SubmissionState =
    | NotStarted | NotSubmitted | ExplicitFailure | ResponseReceived | OutcomeUnknown

  /** The provider states after which nothing about the submission is in doubt. */
  predicate CertainState(s: SubmissionState) {
    s == NotSubmitted || s == ExplicitFailure || s == ResponseReceived
  }

  datatype Attempt = Attempt(
    number: nat,
    status: AttemptStatus,
    startedAt: Time,
    completedAt: Option<Time>,
    errorCode: Option<string>,
    calls: nat,
    external: bool,
    state: SubmissionState)

  /** The columns that no operation ever rewrites. */
  datatype JobSpec = JobSpec(
    jobType: string,
    sourceType: string,
    sourceId: nat,
    inputDigest: string,
    idempotencyKey: string,
    priority: nat,
    concurrencyKey: Option<string>,
    estimatedCost: nat,
    costConfirmed: bool,
    maxAttempts: nat,
    createdAt: Time)

  datatype Job = Job(
    spec: JobSpec,
    status: JobStatus,
    attemptCount: nat,
    leaseOwner: Option<string>,
    leaseExpiresAt: Option<Time>,
    providerName: Option<string>,
    operationId: Option<string>,
    submittedAt: Option<Time>,
    completedAt: Option<Time>,
    errorCode: Option<string>,
    uncertain: bool,
    resultType: Option<string>,
    resultId: Option<nat>,
    attempts: seq<Attempt>)

  /** The CHECK constraints declared on execution_jobs and execution_attempts. */
  predicate RowConstraints(j: Job) {
    && j.attemptCount <= j.spec.maxAttempts
    && 1 <= j.spec.maxAttempts
    && (j.uncertain <==> j.status.SubmitUnknown?)
    && (j.status.Running? <==> j.leaseOwner.Some?)
    && (j.status.Running? <==> j.leaseExpiresAt.Some?)
    && (j.resultType.Some? <==> j.resultId.Some?)
    && (j.resultId.Some? ==> j.resultId.value > 0 && j.status.Succeeded?)
    && (forall k :: 0 <= k < |j.attempts| ==> j.attempts[k].number >= 1)
    && (forall k, l :: 0 <= k < l < |j.attempts| ==> j.attempts[k].number != j.attempts[l].number)
  }

  /** The partial unique index uq_execution_jobs_running_concurrency_key. */
  predicate RunningKeysUnique(jobs: seq<Job>) {
    forall a, b :: 0 <= a < b < |jobs| && jobs[a].status.Running? && jobs[b].status.Running?
                   && jobs[a].spec.concurrencyKey.Some?
      ==> jobs[a].spec.concurrencyKey != jobs[b].spec.concurrencyKey
  }

  /** The unique constraint uq_execution_jobs_idempotency. */
  predicate IdempotencyKeysUnique(jobs: seq<Job>) {
    forall a, b :: 0 <= a < b < |jobs| ==> jobs[a].spec.idempotencyKey != jobs[b].spec.idempotencyKey
  }

  /** The read-only property reported to clients. */
  predicate LeaseActive(j: Job, now: Time) {
    j.status.Running? && j.leaseOwner.Some? && j.leaseExpiresAt.Some? && j.leaseExpiresAt.value > now
  }
}
