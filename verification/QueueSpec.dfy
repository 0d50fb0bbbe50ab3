/**
 What each transaction of the execution queue does to the job table, as functions on values.
 The class in ExecutionQueue.dfy performs the same transactions in place and is proved
 against these functions; QueueInvariant.dfy proves what they keep.
 */
module QueueSpec {
  import opened Wrappers
  import opened Tables
  import opened ExecutionRecords

  const LEASE_EXPIRED := "LEASE_EXPIRED"
  const LEASE_EXPIRED_EXTERNAL := "LEASE_EXPIRED_AFTER_EXTERNAL_SUBMISSION"
  const MIN_KEY_LENGTH: nat := 8
  const MAX_CLAIM_CONCURRENCY_RETRIES: nat := 2

  datatype Reply =
    | Done
    | Created(id: nat)
    | Reused(id: nat)
    | Claimed(id: nat)
    | NoJob
    | KeyConflict
    | ConstraintFailure
    | Rejected(code: nat)

  // ----- single rows -----

  function NewJob(spec: JobSpec): Job {
    Job(spec, Queued, 0, None, None, None, None, None, None, None, false, None, None, [])
  }

  function NewAttempt(number: nat, now: Time): Attempt {
    Attempt(number, AttemptRunning, now, None, None, 0, false, NotStarted)
  }

  predicate Expired(j: Job, now: Time) {
    j.status.Running? && j.leaseExpiresAt.Some? && j.leaseExpiresAt.value <= now
  }

  /** The latest attempt is the one with the highest number; attempts are stored in that order. */
  function WithLatest(j: Job, a: Attempt): seq<Attempt>
    requires |j.attempts| > 0
  {
    j.attempts[|j.attempts| - 1 := a]
  }

  function Latest(j: Job): Attempt
    requires |j.attempts| > 0
  {
    j.attempts[|j.attempts| - 1]
  }

  predicate ExternalPossible(j: Job) {
    (|j.attempts| > 0 && Latest(j).external) || j.submittedAt.Some? || j.operationId.Some?
  }

  /** Recovery of one job whose lease has run out. */
  function ExpireJob(j: Job, now: Time): Job {
    if ExternalPossible(j) then
      j.(leaseOwner := None, leaseExpiresAt := None, completedAt := Some(now),
         status := SubmitUnknown, uncertain := true, errorCode := Some(LEASE_EXPIRED_EXTERNAL),
         attempts := if |j.attempts| == 0 then [] else
           WithLatest(j, Latest(j).(status := AttemptSubmitUnknown, external := true, state := OutcomeUnknown,
                                    errorCode := Some(LEASE_EXPIRED_EXTERNAL), completedAt := Some(now))))
    else
      var again := j.attemptCount < j.spec.maxAttempts;
      j.(leaseOwner := None, leaseExpiresAt := None, completedAt := if again then None else Some(now),
         status := if again then Queued else Failed, uncertain := false, errorCode := Some(LEASE_EXPIRED),
         attempts := if |j.attempts| == 0 then [] else
           WithLatest(j, Latest(j).(status := AttemptLeaseExpired, state := NotSubmitted,
                                    errorCode := Some(LEASE_EXPIRED), completedAt := Some(now))))
  }

  function ClaimJob(j: Job, owner: string, expiresAt: Time, now: Time): Job {
    j.(status := Running, attemptCount := j.attemptCount + 1,
       leaseOwner := Some(owner), leaseExpiresAt := Some(expiresAt),
       errorCode := None, completedAt := None, uncertain := false,
       attempts := j.attempts + [NewAttempt(j.attemptCount + 1, now)])
  }

  function HeartbeatJob(j: Job, expiresAt: Time, calls: Option<nat>, external: bool, now: Time): Job
    requires |j.attempts| > 0
  {
    var a := Latest(j);
    var counted := a.(calls := calls.GetOr(a.calls));
    if external then
      j.(leaseExpiresAt := Some(expiresAt),
         submittedAt := if j.submittedAt.None? then Some(now) else j.submittedAt,
         attempts := WithLatest(j, counted.(external := true, state := OutcomeUnknown)))
    else
      j.(leaseExpiresAt := Some(expiresAt), attempts := WithLatest(j, counted))
  }

  /** The body of a completion request. */
  datatype Completion = Completion(
    providerName: Option<string>, operationId: Option<string>, calls: nat,
    resultType: Option<string>, resultId: Option<nat>)

  predicate ValidCompletion(c: Completion) {
    && (c.resultType.Some? <==> c.resultId.Some?)
    && (c.resultId.Some? ==> c.resultId.value > 0)
  }

  function CompleteJob(j: Job, c: Completion, now: Time): Job
    requires |j.attempts| > 0
  {
    var a := Latest(j);
    j.(providerName := c.providerName, operationId := c.operationId,
       resultType := c.resultType, resultId := c.resultId,
       submittedAt := if c.operationId.Some? && j.submittedAt.None? then Some(now) else j.submittedAt,
       status := Succeeded, completedAt := Some(now),
       leaseOwner := None, leaseExpiresAt := None, uncertain := false,
       attempts := WithLatest(j, a.(calls := c.calls, status := AttemptSucceeded,
                                    state := if c.calls > 0 || a.external then ResponseReceived else NotStarted,
                                    completedAt := Some(now))))
  }

  function FailJob(j: Job, code: string, calls: nat, state: SubmissionState, now: Time): Job
    requires |j.attempts| > 0
  {
    j.(status := Failed, completedAt := Some(now), errorCode := Some(code),
       leaseOwner := None, leaseExpiresAt := None, uncertain := false,
       attempts := WithLatest(j, Latest(j).(calls := calls, status := AttemptFailed, state := state,
                                            completedAt := Some(now), errorCode := Some(code))))
  }

  function UnknownJob(j: Job, code: string, calls: nat, providerName: Option<string>,
                      operationId: Option<string>, now: Time): Job
    requires |j.attempts| > 0
  {
    j.(status := SubmitUnknown, uncertain := true, errorCode := Some(code),
       providerName := providerName, operationId := operationId,
       submittedAt := if j.submittedAt.Some? then j.submittedAt else Some(now),
       completedAt := Some(now), leaseOwner := None, leaseExpiresAt := None,
       attempts := WithLatest(j, Latest(j).(calls := calls, external := true, state := OutcomeUnknown,
                                            status := AttemptSubmitUnknown, completedAt := Some(now),
                                            errorCode := Some(code))))
  }

  // ----- the whole table -----

  function Recover(jobs: seq<Job>, now: Time): (r: seq<Job>)
    ensures |r| == |jobs|
    ensures forall i :: 0 <= i < |jobs| ==> r[i] == if Expired(jobs[i], now) then ExpireJob(jobs[i], now) else jobs[i]
  {
    seq(|jobs|, i requires 0 <= i < |jobs| => if Expired(jobs[i], now) then ExpireJob(jobs[i], now) else jobs[i])
  }

  predicate KeyBusy(jobs: seq<Job>, c: nat)
    requires c < |jobs|
  {
    && jobs[c].spec.concurrencyKey.Some?
    && exists o :: 0 <= o < |jobs| && o != c && jobs[o].status.Running?
                   && jobs[o].spec.concurrencyKey == jobs[c].spec.concurrencyKey
  }

  predicate Eligible(jobs: seq<Job>, types: seq<string>, c: nat) {
    && c < |jobs|
    && jobs[c].status.Queued?
    && jobs[c].attemptCount < jobs[c].spec.maxAttempts
    && (jobs[c].spec.estimatedCost == 0 || jobs[c].spec.costConfirmed)
    && !KeyBusy(jobs, c)
    && (types == [] || jobs[c].spec.jobType in types)
  }

  /** Priority descending, then creation time, then identity. */
  predicate Before(jobs: seq<Job>, a: nat, b: nat)
    requires a < |jobs| && b < |jobs|
  {
    var x, y := jobs[a].spec, jobs[b].spec;
    x.priority > y.priority
    || (x.priority == y.priority && (x.createdAt < y.createdAt || (x.createdAt == y.createdAt && a < b)))
  }

  /** The row that the candidate sub-query selects among the first n rows. */
  function CandidateAmong(jobs: seq<Job>, types: seq<string>, n: nat): Option<nat>
    requires n <= |jobs|
    ensures CandidateAmong(jobs, types, n).Some? ==> CandidateAmong(jobs, types, n).value < n
  {
    if n == 0 then None
    else
      var best := CandidateAmong(jobs, types, n - 1);
      if Eligible(jobs, types, n - 1) && (best.None? || Before(jobs, n - 1, best.value)) then Some(n - 1) else best
  }

  function Candidate(jobs: seq<Job>, types: seq<string>): Option<nat> {
    CandidateAmong(jobs, types, |jobs|)
  }

  datatype ClaimRequest = ClaimRequest(worker: string, leaseSeconds: int, types: seq<string>)

  predicate ValidLease(seconds: int) { 5 <= seconds <= 3600 }

  /**
   One try of a claim.  `view` is what the candidate sub-query read, which may be stale;
   `autoflush` says whether the session writes the recovered rows before the UPDATE runs.
   */
  function ClaimTry(jobs: seq<Job>, autoflush: bool, view: seq<Job>, data: ClaimRequest, now: Time)
    : (seq<Job>, Reply)
  {
    var done := Recover(jobs, now);
    var stored := if autoflush then done else jobs;
    var candidate := Candidate(view, data.types);
    if candidate.None? || candidate.value >= |jobs| || !stored[candidate.value].status.Queued? then
      (done, NoJob)
    else
      var c := candidate.value;
      if KeyBusy(stored, c) then (jobs, KeyConflict)
      else if stored[c].attemptCount >= stored[c].spec.maxAttempts then (jobs, ConstraintFailure)
      else (done[c := ClaimJob(done[c], data.worker, now + data.leaseSeconds, now)], Claimed(c))
  }

  predicate IsErrorCode(code: string) {
    && 1 <= |code| <= 100
    && 'A' <= code[0] <= 'Z'
    && forall i :: 0 <= i < |code| ==> 'A' <= code[i] <= 'Z' || '0' <= code[i] <= '9' || code[i] == '_'
  }

  function JobKeyOf(j: Job): string { j.spec.idempotencyKey }

  function ReuseReply(jobs: seq<Job>, id: nat, digest: string): Reply
    requires id < |jobs|
  {
    if jobs[id].spec.inputDigest == digest then Reused(id) else Rejected(409)
  }

  /** Creation; the first lookup sees only the first `seen` rows, the insert sees all of them. */
  function Create(jobs: seq<Job>, seen: nat, spec: JobSpec): (seq<Job>, Reply) {
    if |spec.idempotencyKey| < MIN_KEY_LENGTH || spec.maxAttempts < 1 then (jobs, Rejected(422))
    else
      var early := Find(jobs, JobKeyOf, spec.idempotencyKey, if seen < |jobs| then seen else |jobs|);
      var late := Find(jobs, JobKeyOf, spec.idempotencyKey, |jobs|);
      if early.Some? then (jobs, ReuseReply(jobs, early.value, spec.inputDigest))
      else if late.Some? then (jobs, ReuseReply(jobs, late.value, spec.inputDigest))
      else (jobs + [NewJob(spec)], Created(|jobs|))
  }

  datatype LeaseCall =
    | Heartbeat(leaseSeconds: int, beatCalls: Option<nat>, beatExternal: bool)
    | Complete(completion: Completion)
    | Fail(failCode: string, failCalls: nat, failExternal: bool, failState: SubmissionState)
    | MarkUnknown(unknownCode: string, unknownCalls: nat, providerName: Option<string>, operationId: Option<string>)

  /** What request validation and the error-code check demand before any row is read. */
  predicate ValidCall(call: LeaseCall) {
    match call
    case Heartbeat(seconds, _, _) => ValidLease(seconds)
    case Complete(c) => ValidCompletion(c)
    case Fail(code, _, _, state) => IsErrorCode(code) && state != OutcomeUnknown
    case MarkUnknown(code, _, _, _) => IsErrorCode(code)
  }

  /** The checks a call makes on the attempt it found, once the lease is known to be live. */
  predicate Accepts(a: Attempt, call: LeaseCall) {
    match call
    case Heartbeat(_, calls, _) => calls.Some? ==> calls.value >= a.calls
    case Complete(c) => c.calls >= a.calls
    case Fail(_, calls, external, state) => ((external || a.external) ==> CertainState(state)) && calls >= a.calls
    case MarkUnknown(_, calls, _, _) => calls >= a.calls
  }

  function Perform(j: Job, call: LeaseCall, now: Time): Job
    requires |j.attempts| > 0
  {
    match call
    case Heartbeat(seconds, calls, external) => HeartbeatJob(j, now + seconds, calls, external, now)
    case Complete(c) => CompleteJob(j, c, now)
    case Fail(code, calls, _, state) => FailJob(j, code, calls, state, now)
    case MarkUnknown(code, calls, name, operation) => UnknownJob(j, code, calls, name, operation, now)
  }

  predicate OwnsLive(j: Job, worker: string, now: Time) {
    j.status.Running? && j.leaseOwner == Some(worker) && j.leaseExpiresAt.Some? && j.leaseExpiresAt.value > now
  }

  /** Heartbeat, completion and failure all pass through the same ownership test. */
  function Leased(jobs: seq<Job>, id: nat, worker: string, call: LeaseCall, now: Time): (seq<Job>, Reply) {
    if !ValidCall(call) then (jobs, Rejected(422))
    else if id >= |jobs| then (jobs, Rejected(404))
    else
      var j := jobs[id];
      if !j.status.Running? || j.leaseOwner != Some(worker) then (jobs, Rejected(409))
      else if !OwnsLive(j, worker, now) then (Recover(jobs, now), Rejected(409))
      else if |j.attempts| == 0 || !Latest(j).status.AttemptRunning? then (jobs, Rejected(409))
      else if !Accepts(Latest(j), call) then (jobs, Rejected(409))
      else (jobs[id := Perform(j, call, now)], Done)
  }

  datatype Control = Pause | Resume | Cancel | Retry

  function ControlJob(j: Job, action: Control, now: Time): (Job, Reply) {
    match action
    case Pause =>
      if j.status.Paused? then (j, Done)
      else if !j.status.Queued? then (j, Rejected(409))
      else (j.(status := Paused), Done)
    case Resume =>
      if j.status.Queued? then (j, Done)
      else if !j.status.Paused? then (j, Rejected(409))
      else (j.(status := Queued), Done)
    case Cancel =>
      if j.status.Cancelled? then (j, Done)
      else if !j.status.Queued? && !j.status.Paused? then (j, Rejected(409))
      else (j.(status := Cancelled, completedAt := Some(now)), Done)
    case Retry =>
      if !j.status.Failed? || j.uncertain then (j, Rejected(409))
      else if j.attemptCount >= j.spec.maxAttempts then (j, Rejected(409))
      else (j.(status := Queued, errorCode := None, completedAt := None), Done)
  }

  function Controlled(jobs: seq<Job>, id: nat, action: Control, now: Time): (seq<Job>, Reply) {
    if id >= |jobs| then (jobs, Rejected(404))
    else
      var (j, reply) := ControlJob(jobs[id], action, now);
      (jobs[id := j], reply)
  }

  // ----- transactions and runs -----

  /** One committed or rolled-back transaction, whoever issued it. */
  datatype Op =
    | CreateOp(seen: nat, spec: JobSpec)
    | ControlOp(controlId: nat, action: Control, controlNow: Time)
    | ClaimOp(autoflush: bool, view: seq<Job>, request: ClaimRequest, claimNow: Time)
    | LeaseOp(leaseId: nat, worker: string, call: LeaseCall, leaseNow: Time)
    | RecoverOp(recoverNow: Time)

  function Apply(jobs: seq<Job>, op: Op): (seq<Job>, Reply) {
    match op
    case CreateOp(seen, spec) => Create(jobs, seen, spec)
    case ControlOp(id, action, now) => Controlled(jobs, id, action, now)
    case ClaimOp(autoflush, view, request, now) =>
      if ValidLease(request.leaseSeconds) then ClaimTry(jobs, autoflush, view, request, now) else (jobs, Rejected(422))
    case LeaseOp(id, worker, call, now) => Leased(jobs, id, worker, call, now)
    case RecoverOp(now) => (Recover(jobs, now), Done)
  }

  function After(jobs: seq<Job>, op: Op): seq<Job> { Apply(jobs, op).0 }

  /** The table after a whole run. */
  function Run(jobs: seq<Job>, ops: seq<Op>): seq<Job>
    decreases |ops|
  {
    if ops == [] then jobs else Run(After(jobs, ops[0]), ops[1..])
  }

  /** The worker on whose behalf a transaction runs, if any. */
  function Actor(op: Op): Option<string> {
    match op
    case ClaimOp(_, _, request, _) => Some(request.worker)
    case LeaseOp(_, worker, _, _) => Some(worker)
    case _ => None
  }

  function Clock(op: Op): Option<Time> {
    match op
    case CreateOp(_, _) => None
    case ControlOp(_, _, now) => Some(now)
    case ClaimOp(_, _, _, now) => Some(now)
    case LeaseOp(_, _, _, now) => Some(now)
    case RecoverOp(now) => Some(now)
  }
}
