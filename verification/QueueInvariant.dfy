/** What every transaction of the execution queue keeps, and what follows for whole runs. */
module QueueInvariant {
  import opened Wrappers
  import opened ExecutionRecords
  import opened QueueSpec

  /** Attempts below the last have ended without doubt; the last one mirrors the job. */
  predicate AttemptsAgree(j: Job) {
    && |j.attempts| == j.attemptCount
    && (forall k :: 0 <= k < |j.attempts| ==> j.attempts[k].number == k + 1)
    && (forall k :: 0 <= k < |j.attempts| - 1 ==>
          j.attempts[k].status.AttemptFailed? || j.attempts[k].status.AttemptLeaseExpired?)
    && (match j.status
        case Running => |j.attempts| > 0 && Latest(j).status.AttemptRunning?
        case Succeeded => |j.attempts| > 0 && Latest(j).status.AttemptSucceeded?
        case SubmitUnknown => |j.attempts| > 0 && Latest(j).status.AttemptSubmitUnknown?
        case Failed => |j.attempts| > 0 && (Latest(j).status.AttemptFailed? || Latest(j).status.AttemptLeaseExpired?)
        case _ => |j.attempts| > 0 ==> Latest(j).status.AttemptFailed? || Latest(j).status.AttemptLeaseExpired?)
  }

  /** The submission boundary leaves a mark that is never lost. */
  predicate BoundaryRecorded(j: Job) {
    && (forall k :: 0 <= k < |j.attempts| && j.attempts[k].external ==> j.submittedAt.Some?)
    && (j.operationId.Some? ==> j.submittedAt.Some? && (j.status.Succeeded? || j.status.SubmitUnknown?))
    && (forall k :: 0 <= k < |j.attempts| && j.attempts[k].status.AttemptLeaseExpired? ==> !j.attempts[k].external)
    && (forall k :: 0 <= k < |j.attempts| && j.attempts[k].status.AttemptSubmitUnknown? ==> j.attempts[k].external)
    && (forall k :: 0 <= k < |j.attempts| && j.attempts[k].status.AttemptFailed? && j.attempts[k].external
          ==> CertainState(j.attempts[k].state))
  }

  predicate JobInv(j: Job) {
    && 1 <= j.spec.maxAttempts
    && j.attemptCount <= j.spec.maxAttempts
    && (j.status.Queued? || j.status.Paused? ==> j.attemptCount < j.spec.maxAttempts)
    && (j.uncertain <==> j.status.SubmitUnknown?)
    && (j.status.Running? <==> j.leaseOwner.Some?)
    && (j.status.Running? <==> j.leaseExpiresAt.Some?)
    && (j.resultType.Some? <==> j.resultId.Some?)
    && (j.resultId.Some? ==> j.resultId.value > 0 && j.status.Succeeded?)
    && (j.completedAt.Some? <==> !(j.status.Queued? || j.status.Paused? || j.status.Running?))
    && (j.errorCode.Some? <== j.status.Failed? || j.status.SubmitUnknown?)
    && (j.errorCode.None? <== j.status.Running? || j.status.Succeeded?)
    && AttemptsAgree(j)
    && BoundaryRecorded(j)
  }

  predicate Inv(jobs: seq<Job>) {
    && (forall i :: 0 <= i < |jobs| ==> JobInv(jobs[i]))
    && RunningKeysUnique(jobs)
    && IdempotencyKeysUnique(jobs)
  }

  // ----- one row -----

  lemma ExpireKeeps(j: Job, now: Time)
    requires JobInv(j) && j.status.Running?
    ensures JobInv(ExpireJob(j, now))
  {
  }

  lemma ClaimKeeps(j: Job, owner: string, expiresAt: Time, now: Time)
    requires JobInv(j) && j.status.Queued?
    ensures JobInv(ClaimJob(j, owner, expiresAt, now))
  {
    var j' := ClaimJob(j, owner, expiresAt, now);
    assert forall k :: 0 <= k < |j.attempts| ==> j'.attempts[k] == j.attempts[k];
  }

  lemma PerformKeeps(j: Job, call: LeaseCall, now: Time)
    requires JobInv(j) && j.status.Running? && ValidCall(call) && Accepts(Latest(j), call)
    ensures JobInv(Perform(j, call, now))
  {
    match call
    case Heartbeat(seconds, calls, external) => HeartbeatKeeps(j, now + seconds, calls, external, now);
    case Complete(c) => CompleteKeeps(j, c, now);
    case Fail(code, calls, external, state) =>
      assert Latest(j).external ==> CertainState(state);
      FailKeeps(j, code, calls, state, now);
    case MarkUnknown(code, calls, name, operation) => UnknownKeeps(j, code, calls, name, operation, now);
  }

  lemma HeartbeatKeeps(j: Job, expiresAt: Time, calls: Option<nat>, external: bool, now: Time)
    requires JobInv(j) && j.status.Running?
    ensures JobInv(HeartbeatJob(j, expiresAt, calls, external, now))
  {
  }

  lemma CompleteKeeps(j: Job, c: Completion, now: Time)
    requires JobInv(j) && j.status.Running? && ValidCompletion(c)
    ensures JobInv(CompleteJob(j, c, now))
  {
  }

  lemma FailKeeps(j: Job, code: string, calls: nat, state: SubmissionState, now: Time)
    requires JobInv(j) && j.status.Running? && (Latest(j).external ==> CertainState(state))
    ensures JobInv(FailJob(j, code, calls, state, now))
  {
  }

  lemma UnknownKeeps(j: Job, code: string, calls: nat, name: Option<string>, operation: Option<string>, now: Time)
    requires JobInv(j) && j.status.Running?
    ensures JobInv(UnknownJob(j, code, calls, name, operation, now))
  {
  }

  lemma ControlKeeps(j: Job, action: Control, now: Time)
    requires JobInv(j)
    ensures JobInv(ControlJob(j, action, now).0)
  {
  }

  // ----- the table -----

  lemma RecoverKeeps(jobs: seq<Job>, now: Time)
    requires Inv(jobs)
    ensures Inv(Recover(jobs, now))
  {
    var done := Recover(jobs, now);
    forall i | 0 <= i < |jobs| ensures JobInv(done[i]) {
      if Expired(jobs[i], now) { ExpireKeeps(jobs[i], now); }
    }
    RecoverKeepsKeys(jobs, now);
  }

  /** Recovery starts nothing and renames nothing. */
  lemma RecoverKeepsKeys(jobs: seq<Job>, now: Time)
    requires RunningKeysUnique(jobs) && IdempotencyKeysUnique(jobs)
    ensures RunningKeysUnique(Recover(jobs, now)) && IdempotencyKeysUnique(Recover(jobs, now))
  {
    var done := Recover(jobs, now);
    forall i | 0 <= i < |jobs| ensures done[i].spec == jobs[i].spec && (done[i].status.Running? ==> jobs[i].status.Running?) {
    }
  }

  /** Replacing one row is safe when it keeps its identity and does not newly start running. */
  lemma ReplaceKeeps(jobs: seq<Job>, id: nat, j: Job)
    requires Inv(jobs) && id < |jobs| && JobInv(j) && j.spec == jobs[id].spec
    requires j.status.Running? ==> jobs[id].status.Running? || !KeyBusy(jobs, id)
    ensures Inv(jobs[id := j])
  {
    var jobs' := jobs[id := j];
    assert forall i :: 0 <= i < |jobs| && i != id ==> jobs'[i] == jobs[i];
    forall a, b | 0 <= a < b < |jobs'| && jobs'[a].status.Running? && jobs'[b].status.Running?
                  && jobs'[a].spec.concurrencyKey.Some?
      ensures jobs'[a].spec.concurrencyKey != jobs'[b].spec.concurrencyKey
    {
      if a == id { assert jobs[b].status.Running?; }
      if b == id { assert jobs[a].status.Running?; }
    }
  }

  /** Recovery never makes a key busy. */
  lemma RecoverFreesKeys(jobs: seq<Job>, now: Time, c: nat)
    requires c < |jobs| && !KeyBusy(jobs, c)
    ensures !KeyBusy(Recover(jobs, now), c)
  {
    var done := Recover(jobs, now);
    forall o | 0 <= o < |jobs| && done[o].status.Running? ensures jobs[o].status.Running? {
    }
    forall i | 0 <= i < |jobs| ensures done[i].spec == jobs[i].spec {
    }
  }

  /** A row that the UPDATE sees as QUEUED is untouched by the recovery of the same transaction or already written by it. */
  lemma QueuedRowIsRecovered(jobs: seq<Job>, autoflush: bool, now: Time, c: nat)
    requires c < |jobs| && (if autoflush then Recover(jobs, now) else jobs)[c].status.Queued?
    ensures Recover(jobs, now)[c].status.Queued?
    ensures Recover(jobs, now)[c] == (if autoflush then Recover(jobs, now) else jobs)[c]
    ensures !KeyBusy(if autoflush then Recover(jobs, now) else jobs, c) ==> !KeyBusy(Recover(jobs, now), c)
  {
    if !KeyBusy(if autoflush then Recover(jobs, now) else jobs, c) && !autoflush {
      RecoverFreesKeys(jobs, now, c);
    }
  }

  lemma ClaimedKeeps(done: seq<Job>, c: nat, owner: string, expiresAt: Time, now: Time)
    requires Inv(done) && c < |done| && done[c].status.Queued? && !KeyBusy(done, c)
    ensures Inv(done[c := ClaimJob(done[c], owner, expiresAt, now)])
  {
    assert JobInv(done[c]);
    ClaimKeeps(done[c], owner, expiresAt, now);
    ReplaceKeeps(done, c, ClaimJob(done[c], owner, expiresAt, now));
  }

  /** The guarded UPDATE alone protects the table: the candidate may come from any stale view. */
  lemma ClaimTryKeeps(jobs: seq<Job>, autoflush: bool, view: seq<Job>, data: ClaimRequest, now: Time)
    requires Inv(jobs)
    ensures Inv(ClaimTry(jobs, autoflush, view, data, now).0)
    ensures ClaimTry(jobs, autoflush, view, data, now).1 != ConstraintFailure
  {
    RecoverKeeps(jobs, now);
    var candidate := Candidate(view, data.types);
    var done := Recover(jobs, now);
    if candidate.Some? && candidate.value < |jobs| && (if autoflush then done else jobs)[candidate.value].status.Queued? {
      var c := candidate.value;
      QueuedRowIsRecovered(jobs, autoflush, now, c);
      assert JobInv(done[c]);
      if !KeyBusy(if autoflush then done else jobs, c) {
        ClaimedKeeps(done, c, data.worker, now + data.leaseSeconds, now);
      }
    }
  }

  lemma CreateKeeps(jobs: seq<Job>, seen: nat, spec: JobSpec)
    requires Inv(jobs)
    ensures Inv(Create(jobs, seen, spec).0)
  {
  }

  lemma LeasedKeeps(jobs: seq<Job>, id: nat, worker: string, call: LeaseCall, now: Time)
    requires Inv(jobs)
    ensures Inv(Leased(jobs, id, worker, call, now).0)
  {
    RecoverKeeps(jobs, now);
    if Leased(jobs, id, worker, call, now).1 == Done {
      PerformKeeps(jobs[id], call, now);
      ReplaceKeeps(jobs, id, Perform(jobs[id], call, now));
    }
  }

  lemma ControlledKeeps(jobs: seq<Job>, id: nat, action: Control, now: Time)
    requires Inv(jobs)
    ensures Inv(Controlled(jobs, id, action, now).0)
  {
    if id < |jobs| {
      ControlKeeps(jobs[id], action, now);
      ReplaceKeeps(jobs, id, ControlJob(jobs[id], action, now).0);
    }
  }

  /** Every transaction keeps the invariant, including rejected calls that commit a recovery. */
  lemma ApplyKeeps(jobs: seq<Job>, op: Op)
    requires Inv(jobs)
    ensures Inv(After(jobs, op))
  {
    match op
    case CreateOp(seen, spec) => CreateKeeps(jobs, seen, spec);
    case ControlOp(id, action, now) => ControlledKeeps(jobs, id, action, now);
    case ClaimOp(autoflush, view, request, now) => ClaimTryKeeps(jobs, autoflush, view, request, now);
    case LeaseOp(id, worker, call, now) =>
      LeasedKeeps(jobs, id, worker, call, now);
    case RecoverOp(now) => RecoverKeeps(jobs, now);
  }

  lemma {:induction false} RunKeeps(jobs: seq<Job>, ops: seq<Op>)
    requires Inv(jobs)
    ensures Inv(Run(jobs, ops))
    decreases |ops|
  {
    if ops != [] {
      ApplyKeeps(jobs, ops[0]);
      RunKeeps(After(jobs, ops[0]), ops[1..]);
    }
  }

  /** The invariant is at least as strong as the CHECK constraints and the two unique indexes. */
  lemma ConstraintsHold(ops: seq<Op>)
    ensures var jobs := Run([], ops);
      && RunningKeysUnique(jobs) && IdempotencyKeysUnique(jobs)
      && forall i :: 0 <= i < |jobs| ==> RowConstraints(jobs[i])
  {
    RunKeeps([], ops);
    var jobs := Run([], ops);
    forall i | 0 <= i < |jobs| ensures RowConstraints(jobs[i]) {
      assert JobInv(jobs[i]);
    }
  }
}
