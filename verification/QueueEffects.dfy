/**
 What each queue transaction writes, column by column, and exactly when it is accepted.  Nothing here
 is stated through the functions that perform the writes.
 */
module QueueEffects {
  import opened Wrappers
  import opened Tables
  import opened ExecutionRecords
  import opened QueueSpec
  import opened QueueInvariant
  import opened QueueRuns
  import opened ClaimOrder

  /** Every row but one is as before. */
  predicate OnlyRow(jobs: seq<Job>, jobs': seq<Job>, id: nat) {
    |jobs'| == |jobs| && forall i :: 0 <= i < |jobs| && i != id ==> jobs'[i] == jobs[i]
  }

  /** The first n attempts are as before. */
  predicate SameAttempts(j: Job, j': Job, n: nat) {
    n <= |j.attempts| && n <= |j'.attempts| && forall k :: 0 <= k < n ==> j'.attempts[k] == j.attempts[k]
  }

  /** The columns that no lease call of an attempt ever rewrites. */
  predicate SameIdentity(j: Job, j': Job) {
    j'.spec == j.spec && j'.attemptCount == j.attemptCount && |j'.attempts| == |j.attempts|
  }

  // ----- creation -----

  /** A job is created exactly when its key is long enough and free; a taken key is reused for the same digest only. */
  lemma CreateExact(jobs: seq<Job>, seen: nat, spec: JobSpec)
    requires IdempotencyKeysUnique(jobs)
    ensures var (jobs', reply) := Create(jobs, seen, spec);
      if |spec.idempotencyKey| < 8 || spec.maxAttempts < 1 then jobs' == jobs && reply == Rejected(422)
      else if i :| 0 <= i < |jobs| && jobs[i].spec.idempotencyKey == spec.idempotencyKey then
        jobs' == jobs && reply == if jobs[i].spec.inputDigest == spec.inputDigest then Reused(i) else Rejected(409)
      else
        reply == Created(|jobs|) &&
        jobs' == jobs + [Job(spec, Queued, 0, None, None, None, None, None, None, None, false, None, None, [])]
  {
  }

  // ----- explicit control -----

  /** What an accepted control call writes: the status, and the completion columns where the source names them. */
  lemma ControlEffect(jobs: seq<Job>, id: nat, action: Control, now: Time)
    requires Inv(jobs)
    ensures var (jobs', reply) := Controlled(jobs, id, action, now);
      if id >= |jobs| then jobs' == jobs && reply == Rejected(404)
      else
      var j, j' := jobs[id], jobs'[id];
      && OnlyRow(jobs, jobs', id)
      && j'.(status := j.status, completedAt := j.completedAt, errorCode := j.errorCode) == j
      && (reply != Done ==> reply == Rejected(409) && j' == j)
      && (reply == Done ==>
            match action
            case Pause => j'.status.Paused? && j'.completedAt == j.completedAt && j'.errorCode == j.errorCode
            case Resume => j'.status.Queued? && j'.completedAt == j.completedAt && j'.errorCode == j.errorCode
            case Cancel => j'.status.Cancelled? && j'.errorCode == j.errorCode
                           && j'.completedAt == if j.status.Cancelled? then j.completedAt else Some(now)
            case Retry => j'.status.Queued? && j'.completedAt.None? && j'.errorCode.None?)
  {
  }

  // ----- recovery -----

  /** What recovery writes to a job whose lease ran out at or before `now`, and that it writes to no other. */
  lemma ExpiryEffect(jobs: seq<Job>, now: Time, i: nat)
    requires Inv(jobs) && i < |jobs|
    ensures var j, j' := jobs[i], Recover(jobs, now)[i]; var n := |j.attempts|;
      if !(j.status.Running? && j.leaseExpiresAt.Some? && j.leaseExpiresAt.value <= now) then j' == j
      else
        && n > 0 && SameIdentity(j, j') && SameAttempts(j, j', n - 1)
        && j'.leaseOwner.None? && j'.leaseExpiresAt.None?
        && j'.submittedAt == j.submittedAt && j'.providerName == j.providerName && j'.operationId == j.operationId
        && j'.resultType == j.resultType && j'.resultId == j.resultId
        && var a, a' := j.attempts[n - 1], j'.attempts[n - 1];
        if j.submittedAt.Some? then
          && j'.status.SubmitUnknown? && j'.uncertain && j'.completedAt == Some(now)
          && j'.errorCode == Some("LEASE_EXPIRED_AFTER_EXTERNAL_SUBMISSION")
          && a' == Attempt(a.number, AttemptSubmitUnknown, a.startedAt, Some(now), j'.errorCode, a.calls, true, OutcomeUnknown)
        else
          && (if j.attemptCount < j.spec.maxAttempts then j'.status.Queued? && j'.completedAt.None?
              else j'.status.Failed? && j'.completedAt == Some(now))
          && !j'.uncertain && j'.errorCode == Some("LEASE_EXPIRED")
          && a' == Attempt(a.number, AttemptLeaseExpired, a.startedAt, Some(now), j'.errorCode, a.calls, a.external, NotSubmitted)
  {
    assert JobInv(jobs[i]);
    if Expired(jobs[i], now) { RecoveryTestIsSubmittedAt(jobs[i], now); }
  }

  // ----- claims -----

  /** What a claim writes to the job it takes: owner, exactly the lease that was asked for, and one fresh attempt. */
  lemma ClaimEffect(jobs: seq<Job>, autoflush: bool, view: seq<Job>, data: ClaimRequest, now: Time, c: nat)
    requires Inv(jobs) && ClaimTry(jobs, autoflush, view, data, now).1 == Claimed(c)
    ensures c < |jobs|
    ensures var done, jobs' := Recover(jobs, now), ClaimTry(jobs, autoflush, view, data, now).0;
      var j, j' := done[c], jobs'[c];
      && OnlyRow(done, jobs', c)
      && j'.status.Running? && j'.attemptCount == j.attemptCount + 1
      && j'.leaseOwner == Some(data.worker) && j'.leaseExpiresAt == Some(now + data.leaseSeconds)
      && j'.errorCode.None? && j'.completedAt.None? && !j'.uncertain
      && j'.spec == j.spec && j'.submittedAt == j.submittedAt
      && j'.providerName == j.providerName && j'.operationId == j.operationId
      && j'.resultType == j.resultType && j'.resultId == j.resultId
      && |j'.attempts| == |j.attempts| + 1 && SameAttempts(j, j', |j.attempts|)
      && j'.attempts[|j.attempts|] == Attempt(j'.attemptCount, AttemptRunning, now, None, None, 0, false, NotStarted)
      && (forall t: Time :: OwnsLive(j', data.worker, t) <==> t < now + data.leaseSeconds)
  {
    QueuedRowIsRecovered(jobs, autoflush, now, c);
  }

  // ----- lease calls -----

  /** When each lease call is accepted, and the code of each refusal. */
  lemma LeaseReplyExact(jobs: seq<Job>, id: nat, worker: string, call: LeaseCall, now: Time)
    requires Inv(jobs)
    ensures Leased(jobs, id, worker, call, now).1 ==
      if !ValidCall(call) then Rejected(422)
      else if id >= |jobs| then Rejected(404)
      else if !(jobs[id].status.Running? && jobs[id].leaseOwner == Some(worker) && jobs[id].leaseExpiresAt.value > now) then Rejected(409)
      else
        var a := jobs[id].attempts[|jobs[id].attempts| - 1];
        match call
        case Heartbeat(_, calls, _) => if calls.Some? && calls.value < a.calls then Rejected(409) else Done
        case Complete(c) => if c.calls < a.calls then Rejected(409) else Done
        case Fail(_, calls, external, state) =>
          if calls < a.calls || ((external || a.external) && state == NotStarted) then Rejected(409) else Done
        case MarkUnknown(_, calls, _, _) => if calls < a.calls then Rejected(409) else Done
  {
    if id < |jobs| { assert JobInv(jobs[id]); }
  }

  /** An accepted call was made by the live owner, and writes to its row only. */
  lemma AcceptedCall(jobs: seq<Job>, id: nat, worker: string, call: LeaseCall, now: Time)
    requires Inv(jobs) && Leased(jobs, id, worker, call, now).1 == Done
    ensures id < |jobs| && jobs[id].status.Running? && jobs[id].leaseOwner == Some(worker) && |jobs[id].attempts| > 0
    ensures jobs[id].leaseExpiresAt.Some? && jobs[id].leaseExpiresAt.value > now
    ensures var jobs' := Leased(jobs, id, worker, call, now).0;
      OnlyRow(jobs, jobs', id) && SameIdentity(jobs[id], jobs'[id]) && SameAttempts(jobs[id], jobs'[id], |jobs[id].attempts| - 1)
  {
    assert JobInv(jobs[id]);
  }

  /** An accepted heartbeat keeps the job with its owner until exactly `seconds` after it, and stores what it carries. */
  lemma HeartbeatEffect(jobs: seq<Job>, id: nat, worker: string, seconds: int, calls: Option<nat>, external: bool, now: Time)
    requires Inv(jobs) && Leased(jobs, id, worker, Heartbeat(seconds, calls, external), now).1 == Done
    ensures id < |jobs| && |jobs[id].attempts| > 0
    ensures var jobs' := Leased(jobs, id, worker, Heartbeat(seconds, calls, external), now).0;
      var j, j', n := jobs[id], jobs'[id], |jobs[id].attempts|;
      && OnlyRow(jobs, jobs', id) && SameIdentity(j, j') && SameAttempts(j, j', n - 1)
      && j'.status.Running? && j'.leaseOwner == Some(worker) && j'.leaseExpiresAt == Some(now + seconds)
      && (forall t: Time :: OwnsLive(j', worker, t) <==> t < now + seconds)
      && j'.submittedAt == (if external && j.submittedAt.None? then Some(now) else j.submittedAt)
      && j'.(leaseExpiresAt := j.leaseExpiresAt, submittedAt := j.submittedAt, attempts := j.attempts) == j
      && var a, a' := j.attempts[n - 1], j'.attempts[n - 1];
         a' == Attempt(a.number, a.status, a.startedAt, a.completedAt, a.errorCode,
                       if calls.Some? then calls.value else a.calls,
                       a.external || external, if external then OutcomeUnknown else a.state)
  {
    AcceptedCall(jobs, id, worker, Heartbeat(seconds, calls, external), now);
  }

  /** After an accepted heartbeat no run of other parties' calls before its new expiry changes the job. */
  lemma HeartbeatProtects(jobs: seq<Job>, id: nat, worker: string, seconds: int, calls: Option<nat>, external: bool, now: Time, ops: seq<Op>)
    requires Inv(jobs) && Leased(jobs, id, worker, Heartbeat(seconds, calls, external), now).1 == Done
    requires ByOthersBefore(ops, worker, now + seconds)
    ensures var jobs' := Leased(jobs, id, worker, Heartbeat(seconds, calls, external), now).0;
      id < |jobs'| && id < |Run(jobs', ops)| && Run(jobs', ops)[id] == jobs'[id]
  {
    HeartbeatEffect(jobs, id, worker, seconds, calls, external, now);
    LeasedKeeps(jobs, id, worker, Heartbeat(seconds, calls, external), now);
    var jobs' := Leased(jobs, id, worker, Heartbeat(seconds, calls, external), now).0;
    assert JobInv(jobs'[id]);
    LiveLeaseIsExclusive(jobs', ops, id);
  }

  /** The same from a claim to the end of the lease it was granted. */
  lemma ClaimProtects(jobs: seq<Job>, autoflush: bool, view: seq<Job>, data: ClaimRequest, now: Time, c: nat, ops: seq<Op>)
    requires Inv(jobs) && ClaimTry(jobs, autoflush, view, data, now).1 == Claimed(c)
    requires ByOthersBefore(ops, data.worker, now + data.leaseSeconds)
    ensures var jobs' := ClaimTry(jobs, autoflush, view, data, now).0;
      c < |jobs'| && c < |Run(jobs', ops)| && Run(jobs', ops)[c] == jobs'[c]
  {
    ClaimEffect(jobs, autoflush, view, data, now, c);
    ClaimTryKeeps(jobs, autoflush, view, data, now);
    var jobs' := ClaimTry(jobs, autoflush, view, data, now).0;
    assert JobInv(jobs'[c]);
    LiveLeaseIsExclusive(jobs', ops, c);
  }

  /** A finished job gives up its lease and keeps the columns that the final call does not carry. */
  predicate Released(j: Job, j': Job, now: Time) {
    j'.leaseOwner.None? && j'.leaseExpiresAt.None? && j'.completedAt == Some(now)
  }

  lemma CompleteEffect(jobs: seq<Job>, id: nat, worker: string, c: Completion, now: Time)
    requires Inv(jobs) && Leased(jobs, id, worker, Complete(c), now).1 == Done
    ensures id < |jobs| && |jobs[id].attempts| > 0
    ensures var jobs' := Leased(jobs, id, worker, Complete(c), now).0; var j, j', n := jobs[id], jobs'[id], |jobs[id].attempts|;
      && OnlyRow(jobs, jobs', id) && SameIdentity(j, j') && SameAttempts(j, j', n - 1) && Released(j, j', now)
      && j'.status.Succeeded? && !j'.uncertain && j'.errorCode == j.errorCode
      && j'.providerName == c.providerName && j'.operationId == c.operationId
      && j'.resultType == c.resultType && j'.resultId == c.resultId
      && j'.submittedAt == (if c.operationId.Some? && j.submittedAt.None? then Some(now) else j.submittedAt)
      && var a, a' := j.attempts[n - 1], j'.attempts[n - 1];
         a' == Attempt(a.number, AttemptSucceeded, a.startedAt, Some(now), a.errorCode, c.calls, a.external,
                       if c.calls > 0 || a.external then ResponseReceived else NotStarted)
  {
    AcceptedCall(jobs, id, worker, Complete(c), now);
  }

  lemma FailEffect(jobs: seq<Job>, id: nat, worker: string, code: string, calls: nat, external: bool, state: SubmissionState, now: Time)
    requires Inv(jobs) && Leased(jobs, id, worker, Fail(code, calls, external, state), now).1 == Done
    ensures id < |jobs| && |jobs[id].attempts| > 0
    ensures var jobs' := Leased(jobs, id, worker, Fail(code, calls, external, state), now).0;
      var j, j', n := jobs[id], jobs'[id], |jobs[id].attempts|;
      && OnlyRow(jobs, jobs', id) && SameIdentity(j, j') && SameAttempts(j, j', n - 1) && Released(j, j', now)
      && j'.status.Failed? && !j'.uncertain && j'.errorCode == Some(code)
      && j'.providerName == j.providerName && j'.operationId == j.operationId && j'.submittedAt == j.submittedAt
      && j'.resultType == j.resultType && j'.resultId == j.resultId
      && var a, a' := j.attempts[n - 1], j'.attempts[n - 1];
         a' == Attempt(a.number, AttemptFailed, a.startedAt, Some(now), Some(code), calls, a.external, state)
  {
    AcceptedCall(jobs, id, worker, Fail(code, calls, external, state), now);
  }

  lemma UnknownEffect(jobs: seq<Job>, id: nat, worker: string, code: string, calls: nat, name: Option<string>, operation: Option<string>, now: Time)
    requires Inv(jobs) && Leased(jobs, id, worker, MarkUnknown(code, calls, name, operation), now).1 == Done
    ensures id < |jobs| && |jobs[id].attempts| > 0
    ensures var jobs' := Leased(jobs, id, worker, MarkUnknown(code, calls, name, operation), now).0;
      var j, j', n := jobs[id], jobs'[id], |jobs[id].attempts|;
      && OnlyRow(jobs, jobs', id) && SameIdentity(j, j') && SameAttempts(j, j', n - 1) && Released(j, j', now)
      && j'.status.SubmitUnknown? && j'.uncertain && j'.errorCode == Some(code)
      && j'.providerName == name && j'.operationId == operation
      && j'.submittedAt == (if j.submittedAt.Some? then j.submittedAt else Some(now))
      && j'.resultType == j.resultType && j'.resultId == j.resultId
      && var a, a' := j.attempts[n - 1], j'.attempts[n - 1];
         a' == Attempt(a.number, AttemptSubmitUnknown, a.startedAt, Some(now), Some(code), calls, true, OutcomeUnknown)
  {
    AcceptedCall(jobs, id, worker, MarkUnknown(code, calls, name, operation), now);
  }
}
