/** The queue service: its methods rewrite the job table in place, one transaction at a time. */
module ExecutionQueue {
  import opened Wrappers
  import opened Tables
  import opened ExecutionRecords
  import opened QueueSpec
  import opened QueueInvariant
  import opened ClaimOrder

  class ExecutionQueueService {
    var jobs: seq<Job>
    const autoflush: bool

    ghost predicate Valid()
      reads this
    {
      Inv(jobs)
    }

    constructor (autoflush: bool)
      ensures Valid() && jobs == [] && this.autoflush == autoflush
    {
      this.autoflush := autoflush;
      jobs := [];
    }

    method Create(seen: nat, spec: JobSpec) returns (reply: Reply)
      requires Valid()
      modifies this`jobs
      ensures Valid() && (jobs, reply) == QueueSpec.Create(old(jobs), seen, spec)
    {
      CreateKeeps(jobs, seen, spec);
      if |spec.idempotencyKey| < MIN_KEY_LENGTH || spec.maxAttempts < 1 {
        return Rejected(422);
      }
      var existing := Find(jobs, JobKeyOf, spec.idempotencyKey, if seen < |jobs| then seen else |jobs|);
      if existing.Some? {
        return ReuseReply(jobs, existing.value, spec.inputDigest);
      }
      // The unique index refuses the insert when a concurrent caller was first.
      var concurrent := Find(jobs, JobKeyOf, spec.idempotencyKey, |jobs|);
      if concurrent.Some? {
        return ReuseReply(jobs, concurrent.value, spec.inputDigest);
      }
      reply := Created(|jobs|);
      jobs := jobs + [NewJob(spec)];
    }

    method Control(id: nat, action: Control, now: Time) returns (reply: Reply)
      requires Valid()
      modifies this`jobs
      ensures Valid() && (jobs, reply) == Controlled(old(jobs), id, action, now)
    {
      ApplyKeeps(jobs, ControlOp(id, action, now));
      if id >= |jobs| {
        return Rejected(404);
      }
      var job := jobs[id];
      assert jobs == jobs[id := job];
      match action {
        case Pause =>
          if job.status.Paused? { return Done; }
          if !job.status.Queued? { return Rejected(409); }
          job := job.(status := Paused);
        case Resume =>
          if job.status.Queued? { return Done; }
          if !job.status.Paused? { return Rejected(409); }
          job := job.(status := Queued);
        case Cancel =>
          if job.status.Cancelled? { return Done; }
          if !job.status.Queued? && !job.status.Paused? { return Rejected(409); }
          job := job.(status := Cancelled);
          job := job.(completedAt := Some(now));
        case Retry =>
          if !job.status.Failed? || job.uncertain { return Rejected(409); }
          if job.attemptCount >= job.spec.maxAttempts { return Rejected(409); }
          job := job.(status := Queued);
          job := job.(errorCode := None);
          job := job.(completedAt := None);
      }
      jobs := jobs[id := job];
      reply := Done;
    }

    /** What the sweep writes to one expired row and to its latest attempt. */
    static method ExpireRow(row: Job, now: Time) returns (job: Job)
      ensures job == ExpireJob(row, now)
    {
      job := row;
      var external := ExternalPossible(job);
      job := job.(leaseOwner := None);
      job := job.(leaseExpiresAt := None);
      job := job.(completedAt := Some(now));
      if external {
        job := job.(status := SubmitUnknown, uncertain := true, errorCode := Some(LEASE_EXPIRED_EXTERNAL));
        if |job.attempts| > 0 {
          job := job.(attempts := WithLatest(job, Latest(job).(
            status := AttemptSubmitUnknown, external := true, state := OutcomeUnknown,
            errorCode := job.errorCode, completedAt := Some(now))));
        }
      } else {
        job := job.(uncertain := false, errorCode := Some(LEASE_EXPIRED));
        if |job.attempts| > 0 {
          job := job.(attempts := WithLatest(job, Latest(job).(
            status := AttemptLeaseExpired, state := NotSubmitted,
            errorCode := job.errorCode, completedAt := Some(now))));
        }
        if job.attemptCount < job.spec.maxAttempts {
          job := job.(status := Queued, completedAt := None);
        } else {
          job := job.(status := Failed);
        }
      }
    }

    /** The sweep over the table, row by row in identity order; the list of recovered jobs is returned. */
    method Sweep(now: Time) returns (recovered: seq<nat>)
      modifies this`jobs
      ensures jobs == Recover(old(jobs), now)
      ensures forall i :: i in recovered <==> 0 <= i < |old(jobs)| && Expired(old(jobs)[i], now)
    {
      ghost var target := Recover(jobs, now);
      recovered := [];
      var i := 0;
      while i < |jobs|
        invariant 0 <= i <= |jobs| == |target|
        invariant forall k :: 0 <= k < i ==> jobs[k] == target[k]
        invariant forall k :: i <= k < |jobs| ==> jobs[k] == old(jobs)[k]
        invariant forall k :: k in recovered <==> 0 <= k < i && Expired(old(jobs)[k], now)
      {
        if Expired(jobs[i], now) {
          var job := ExpireRow(jobs[i], now);
          jobs := jobs[i := job];
          recovered := recovered + [i];
        }
        i := i + 1;
      }
    }

    method RecoverExpiredLeases(now: Time) returns (recovered: seq<nat>)
      requires Valid()
      modifies this`jobs
      ensures Valid() && jobs == Recover(old(jobs), now)
      ensures forall i :: i in recovered <==> 0 <= i < |old(jobs)| && Expired(old(jobs)[i], now)
    {
      RecoverKeeps(jobs, now);
      recovered := Sweep(now);
    }

    /** What the UPDATE writes to a claimed row, and the attempt that is added. */
    static method TakeRow(row: Job, data: ClaimRequest, now: Time) returns (job: Job)
      ensures job == ClaimJob(row, data.worker, now + data.leaseSeconds, now)
    {
      job := row.(status := Running, attemptCount := row.attemptCount + 1,
                  leaseOwner := Some(data.worker), leaseExpiresAt := Some(now + data.leaseSeconds),
                  errorCode := None, completedAt := None, uncertain := false);
      job := job.(attempts := job.attempts + [NewAttempt(job.attemptCount, now)]);
    }

    /** One transaction of a claim: recover, select, update under the guard, add the attempt. */
    method ClaimOnce(view: seq<Job>, data: ClaimRequest, now: Time) returns (reply: Reply)
      requires Valid()
      modifies this`jobs
      ensures Valid() && (jobs, reply) == ClaimTry(old(jobs), autoflush, view, data, now)
    {
      ClaimTryKeeps(jobs, autoflush, view, data, now);
      reply := TryClaim(view, data, now);
    }

    method TryClaim(view: seq<Job>, data: ClaimRequest, now: Time) returns (reply: Reply)
      modifies this`jobs
      ensures ClaimTry(old(jobs), autoflush, view, data, now).1 != ConstraintFailure ==>
        (jobs, reply) == ClaimTry(old(jobs), autoflush, view, data, now)
    {
      var before := jobs;
      var _ := Sweep(now);
      var stored := if autoflush then jobs else before;
      var candidate := Candidate(view, data.types);
      if candidate.None? || candidate.value >= |stored| || !stored[candidate.value].status.Queued? {
        return NoJob;
      }
      var c := candidate.value;
      if KeyBusy(stored, c) {
        jobs := before;  // the index refuses; rolling back also undoes the recovery
        return KeyConflict;
      }
      var job := TakeRow(jobs[c], data, now);
      jobs := jobs[c := job];
      reply := Claimed(c);
    }

    /** One try, after what others committed since the one before. */
    method NextTry(data: ClaimRequest, read: ClaimRead) returns (reply: Reply)
      requires Valid()
      modifies this`jobs
      ensures Valid() && (jobs, reply) == TryOf(autoflush, data)(Run(old(jobs), read.others), read)
      ensures reply == KeyConflict ==> jobs == Run(old(jobs), read.others)
      ensures reply == NoJob || reply == KeyConflict || reply.Claimed?
    {
      RunKeeps(jobs, read.others);
      jobs := Run(jobs, read.others);
      ClaimTryKeeps(jobs, autoflush, read.view, data, read.now);
      reply := ClaimOnce(read.view, data, read.now);
    }

    /** Claim with at most MAX_CLAIM_CONCURRENCY_RETRIES + 1 tries; others may commit before each of them. */
    method Claim(data: ClaimRequest, tries: seq<ClaimRead>) returns (reply: Reply)
      requires Valid() && |tries| == MAX_CLAIM_CONCURRENCY_RETRIES + 1
      modifies this`jobs
      ensures Valid() && (jobs, reply) == ClaimLoop(old(jobs), TryOf(autoflush, data), tries)
      ensures reply == NoJob || reply.Claimed?
    {
      var retry := 0;
      ghost var attempt := TryOf(autoflush, data);
      while retry <= MAX_CLAIM_CONCURRENCY_RETRIES
        invariant 0 <= retry <= MAX_CLAIM_CONCURRENCY_RETRIES && Valid()
        invariant ClaimLoop(old(jobs), attempt, tries) == ClaimLoop(jobs, attempt, tries[retry..])
        decreases |tries| - retry
      {
        LoopUnfolds(jobs, attempt, tries[retry..]);
        assert tries[retry..][0] == tries[retry] && tries[retry..][1..] == tries[retry + 1..];
        reply := NextTry(data, tries[retry]);
        if reply != KeyConflict {
          return;
        }
        if retry == MAX_CLAIM_CONCURRENCY_RETRIES {
          return NoJob;
        }
        retry := retry + 1;
      }
      assert false;
      reply := NoJob;
    }

    /** The lookup shared by heartbeat, completion and failure; an expired lease commits a recovery. */
    method OwnedRunning(id: nat, worker: string, now: Time) returns (found: Option<Attempt>, code: nat)
      requires Valid()
      modifies this`jobs
      ensures Valid()
      ensures found.Some? ==> jobs == old(jobs) && id < |jobs| && OwnsLive(jobs[id], worker, now)
                              && |jobs[id].attempts| > 0 && found.value == Latest(jobs[id])
      ensures found.None? <==> id >= |old(jobs)| || !OwnsLive(old(jobs)[id], worker, now)
      ensures found.None? ==> jobs == if id < |old(jobs)| && old(jobs)[id].status.Running?
                                         && old(jobs)[id].leaseOwner == Some(worker) then Recover(old(jobs), now) else old(jobs)
      ensures found.None? ==> code == if id < |old(jobs)| then 409 else 404
    {
      if id >= |jobs| {
        return None, 404;
      }
      assert JobInv(jobs[id]);
      if !jobs[id].status.Running? {
        return None, 409;
      }
      if jobs[id].leaseOwner != Some(worker) {
        return None, 409;
      }
      if jobs[id].leaseExpiresAt.None? || jobs[id].leaseExpiresAt.value <= now {
        var _ := RecoverExpiredLeases(now);
        return None, 409;
      }
      return Some(Latest(jobs[id])), 200;
    }

    /** The owner's row after a heartbeat: counters, boundary, lease. */
    static method BeatRow(row: Job, seconds: int, calls: Option<nat>, external: bool, now: Time) returns (job: Job)
      requires |row.attempts| > 0
      ensures job == HeartbeatJob(row, now + seconds, calls, external, now)
    {
      job := row;
      var attempt := Latest(row);
      if calls.Some? { attempt := attempt.(calls := calls.value); }
      if external {
        attempt := attempt.(external := true, state := OutcomeUnknown);
        if job.submittedAt.None? { job := job.(submittedAt := Some(now)); }
      }
      job := job.(leaseExpiresAt := Some(now + seconds), attempts := WithLatest(job, attempt));
    }

    method Heartbeat(id: nat, worker: string, seconds: int, calls: Option<nat>, external: bool, now: Time)
      returns (reply: Reply)
      requires Valid()
      modifies this`jobs
      ensures Valid()
      ensures (jobs, reply) == Leased(old(jobs), id, worker, QueueSpec.Heartbeat(seconds, calls, external), now)
    {
      LeasedKeeps(jobs, id, worker, QueueSpec.Heartbeat(seconds, calls, external), now);
      if !ValidLease(seconds) { return Rejected(422); }
      var found, code := OwnedRunning(id, worker, now);
      if found.None? { return Rejected(code); }
      assert JobInv(jobs[id]);
      if calls.Some? && calls.value < found.value.calls { return Rejected(409); }
      assert Accepts(Latest(jobs[id]), QueueSpec.Heartbeat(seconds, calls, external));
      var job := BeatRow(jobs[id], seconds, calls, external, now);
      jobs := jobs[id := job];
      reply := Done;
    }

    static method CompleteRow(row: Job, data: Completion, now: Time) returns (job: Job)
      requires |row.attempts| > 0
      ensures job == CompleteJob(row, data, now)
    {
      job := row;
      var attempt := Latest(row).(calls := data.calls);
      job := job.(providerName := data.providerName, operationId := data.operationId,
                  resultType := data.resultType, resultId := data.resultId);
      if data.operationId.Some? && job.submittedAt.None? { job := job.(submittedAt := Some(now)); }
      job := job.(status := Succeeded, completedAt := Some(now));
      job := job.(leaseOwner := None, leaseExpiresAt := None, uncertain := false);
      attempt := attempt.(status := AttemptSucceeded,
                          state := if data.calls > 0 || attempt.external then ResponseReceived else NotStarted,
                          completedAt := Some(now));
      job := job.(attempts := WithLatest(job, attempt));
    }

    method Complete(id: nat, worker: string, data: Completion, now: Time) returns (reply: Reply)
      requires Valid()
      modifies this`jobs
      ensures Valid() && (jobs, reply) == Leased(old(jobs), id, worker, QueueSpec.Complete(data), now)
    {
      LeasedKeeps(jobs, id, worker, QueueSpec.Complete(data), now);
      if !ValidCompletion(data) { return Rejected(422); }
      var found, code := OwnedRunning(id, worker, now);
      if found.None? { return Rejected(code); }
      assert JobInv(jobs[id]);
      if data.calls < found.value.calls { return Rejected(409); }
      var job := CompleteRow(jobs[id], data, now);
      jobs := jobs[id := job];
      reply := Done;
    }

    static method FailRow(row: Job, errorCode: string, calls: nat, state: SubmissionState, now: Time) returns (job: Job)
      requires |row.attempts| > 0
      ensures job == FailJob(row, errorCode, calls, state, now)
    {
      var attempt := Latest(row).(calls := calls);
      job := row.(status := Failed, completedAt := Some(now), errorCode := Some(errorCode));
      job := job.(leaseOwner := None, leaseExpiresAt := None, uncertain := false);
      attempt := attempt.(status := AttemptFailed, state := state, completedAt := Some(now), errorCode := Some(errorCode));
      job := job.(attempts := WithLatest(job, attempt));
    }

    method Fail(id: nat, worker: string, errorCode: string, calls: nat, external: bool, state: SubmissionState, now: Time)
      returns (reply: Reply)
      requires Valid()
      modifies this`jobs
      ensures Valid()
      ensures (jobs, reply) == Leased(old(jobs), id, worker, QueueSpec.Fail(errorCode, calls, external, state), now)
    {
      LeasedKeeps(jobs, id, worker, QueueSpec.Fail(errorCode, calls, external, state), now);
      if !IsErrorCode(errorCode) || state == OutcomeUnknown { return Rejected(422); }
      var found, code := OwnedRunning(id, worker, now);
      if found.None? { return Rejected(code); }
      assert JobInv(jobs[id]);
      if (external || found.value.external) && !CertainState(state) { return Rejected(409); }
      if calls < found.value.calls { return Rejected(409); }
      var job := FailRow(jobs[id], errorCode, calls, state, now);
      jobs := jobs[id := job];
      reply := Done;
    }

    static method UnknownRow(row: Job, errorCode: string, calls: nat, name: Option<string>, operation: Option<string>, now: Time)
      returns (job: Job)
      requires |row.attempts| > 0
      ensures job == UnknownJob(row, errorCode, calls, name, operation, now)
    {
      var attempt := Latest(row).(calls := calls);
      attempt := attempt.(external := true, state := OutcomeUnknown, status := AttemptSubmitUnknown,
                          completedAt := Some(now), errorCode := Some(errorCode));
      job := row.(status := SubmitUnknown, uncertain := true, errorCode := Some(errorCode),
                  providerName := name, operationId := operation);
      if job.submittedAt.None? { job := job.(submittedAt := Some(now)); }
      job := job.(completedAt := Some(now), leaseOwner := None, leaseExpiresAt := None);
      job := job.(attempts := WithLatest(job, attempt));
    }

    method MarkSubmitUnknown(id: nat, worker: string, errorCode: string, calls: nat,
                             name: Option<string>, operation: Option<string>, now: Time) returns (reply: Reply)
      requires Valid()
      modifies this`jobs
      ensures Valid()
      ensures (jobs, reply) == Leased(old(jobs), id, worker, QueueSpec.MarkUnknown(errorCode, calls, name, operation), now)
    {
      LeasedKeeps(jobs, id, worker, QueueSpec.MarkUnknown(errorCode, calls, name, operation), now);
      if !IsErrorCode(errorCode) { return Rejected(422); }
      var found, code := OwnedRunning(id, worker, now);
      if found.None? { return Rejected(code); }
      assert JobInv(jobs[id]);
      if calls < found.value.calls { return Rejected(409); }
      var job := UnknownRow(jobs[id], errorCode, calls, name, operation, now);
      jobs := jobs[id := job];
      reply := Done;
    }
  }
}
