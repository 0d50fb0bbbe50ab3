/** Properties of whole runs of the queue: history, bounded work, and fencing. */
module QueueRuns {
  import opened Wrappers
  import opened ExecutionRecords
  import opened QueueSpec
  import opened QueueInvariant

  /** The only ways in which one transaction can change one row. */
  predicate RowMove(j: Job, j': Job, op: Op, id: nat, reply: Reply) {
    || j' == j
    || (Clock(op).Some? && Expired(j, Clock(op).value) && j' == ExpireJob(j, Clock(op).value))
    || (op.ClaimOp? && reply == Claimed(id) && j.status.Queued?
        && j' == ClaimJob(j, op.request.worker, op.claimNow + op.request.leaseSeconds, op.claimNow))
    || (op.ClaimOp? && reply == Claimed(id) && Expired(j, op.claimNow) && ExpireJob(j, op.claimNow).status.Queued?
        && j' == ClaimJob(ExpireJob(j, op.claimNow), op.request.worker, op.claimNow + op.request.leaseSeconds, op.claimNow))
    || (op.LeaseOp? && op.leaseId == id && reply == Done && OwnsLive(j, op.worker, op.leaseNow)
        && ValidCall(op.call) && |j.attempts| > 0 && Accepts(Latest(j), op.call) && j' == Perform(j, op.call, op.leaseNow))
    || (op.ControlOp? && op.controlId == id && j' == ControlJob(j, op.action, op.controlNow).0)
  }

  lemma RowMoves(jobs: seq<Job>, op: Op, i: nat)
    requires i < |jobs|
    ensures i < |After(jobs, op)| && RowMove(jobs[i], After(jobs, op)[i], op, i, Apply(jobs, op).1)
    ensures Apply(jobs, op).1 == Claimed(i) ==> After(jobs, op)[i] != jobs[i]
  {
    if op.ClaimOp? && Apply(jobs, op).1.Claimed? {
      var c := Apply(jobs, op).1.id;
      QueuedRowIsRecovered(jobs, op.autoflush, op.claimNow, c);
      var j := Recover(jobs, op.claimNow)[c];
      assert |ClaimJob(j, op.request.worker, op.claimNow + op.request.leaseSeconds, op.claimNow).attempts| == |j.attempts| + 1;
      assert |j.attempts| == |jobs[c].attempts|;
    }
  }

  // ----- history only grows -----

  predicate Absorbing(s: JobStatus) { s.Succeeded? || s.SubmitUnknown? || s.Cancelled? }

  predicate AttemptEvolves(a: Attempt, b: Attempt) {
    && a.number == b.number && a.startedAt == b.startedAt && a.calls <= b.calls
    && (a.external ==> b.external)
    && (!a.status.AttemptRunning? ==> a == b)
  }

  /** Closed attempts are immutable, boundaries are permanent, terminal rows are frozen. */
  predicate Evolves(j: Job, j': Job) {
    && j.spec == j'.spec
    && j.attemptCount <= j'.attemptCount
    && |j.attempts| <= |j'.attempts|
    && (forall k :: 0 <= k < |j.attempts| ==> AttemptEvolves(j.attempts[k], j'.attempts[k]))
    && (j.submittedAt.Some? ==> j'.submittedAt == j.submittedAt)
    && (Absorbing(j.status) ==> j' == j)
  }

  lemma EvolvesFurther(j: Job, m: Job, j': Job)
    requires Evolves(j, m) && Evolves(m, j')
    ensures Evolves(j, j')
  {
    forall k | 0 <= k < |j.attempts| ensures AttemptEvolves(j.attempts[k], j'.attempts[k]) {
      assert AttemptEvolves(j.attempts[k], m.attempts[k]) && AttemptEvolves(m.attempts[k], j'.attempts[k]);
    }
  }

  lemma ExpireEvolves(j: Job, now: Time)
    requires JobInv(j) && Expired(j, now)
    ensures Evolves(j, ExpireJob(j, now))
  {
  }

  lemma ClaimEvolves(j: Job, owner: string, expiresAt: Time, now: Time)
    requires JobInv(j) && j.status.Queued?
    ensures Evolves(j, ClaimJob(j, owner, expiresAt, now))
  {
  }

  lemma PerformEvolves(j: Job, call: LeaseCall, now: Time)
    requires JobInv(j) && j.status.Running? && ValidCall(call) && Accepts(Latest(j), call)
    ensures Evolves(j, Perform(j, call, now))
  {
  }

  lemma ControlEvolves(j: Job, action: Control, now: Time)
    requires JobInv(j)
    ensures Evolves(j, ControlJob(j, action, now).0)
  {
  }

  lemma MoveEvolves(j: Job, j': Job, op: Op, id: nat, reply: Reply)
    requires JobInv(j) && RowMove(j, j', op, id, reply)
    ensures Evolves(j, j')
  {
    if j' == j {
    } else if Clock(op).Some? && Expired(j, Clock(op).value) && j' == ExpireJob(j, Clock(op).value) {
      ExpireEvolves(j, Clock(op).value);
    } else if op.ClaimOp? {
      var owner, expiresAt, now := op.request.worker, op.claimNow + op.request.leaseSeconds, op.claimNow;
      var m := if j.status.Queued? then j else ExpireJob(j, now);
      if !j.status.Queued? {
        ExpireEvolves(j, now);
        ExpireKeeps(j, now);
      }
      ClaimEvolves(m, owner, expiresAt, now);
      EvolvesFurther(j, m, j');
    } else if op.LeaseOp? {
      PerformEvolves(j, op.call, op.leaseNow);
    } else {
      ControlEvolves(j, op.action, op.controlNow);
    }
  }

  lemma ApplyEvolves(jobs: seq<Job>, op: Op, i: nat)
    requires Inv(jobs) && i < |jobs|
    ensures i < |After(jobs, op)| && Evolves(jobs[i], After(jobs, op)[i])
  {
    RowMoves(jobs, op, i);
    assert JobInv(jobs[i]);
    MoveEvolves(jobs[i], After(jobs, op)[i], op, i, Apply(jobs, op).1);
  }

  /** Over any run the history of a job only grows. */
  lemma {:induction false} RunEvolves(jobs: seq<Job>, ops: seq<Op>, i: nat)
    requires Inv(jobs) && i < |jobs|
    ensures i < |Run(jobs, ops)| && Evolves(jobs[i], Run(jobs, ops)[i])
    decreases |ops|
  {
    if ops != [] {
      ApplyEvolves(jobs, ops[0], i);
      ApplyKeeps(jobs, ops[0]);
      RunEvolves(After(jobs, ops[0]), ops[1..], i);
      EvolvesFurther(jobs[i], After(jobs, ops[0])[i], Run(jobs, ops)[i]);
    }
  }

  // ----- explicit control -----

  /**
   Control calls answer 200 or 409 and change nothing on 409; they never touch a running job, its
   outcome or any history; and repeating one that was accepted is accepted and changes nothing,
   except for a retry, which is refused until the job has failed again.
   */
  lemma ControlLaws(j: Job, action: Control, now: Time, later: Time)
    requires JobInv(j)
    ensures var (j', reply) := ControlJob(j, action, now);
      && (reply == Done || reply == Rejected(409))
      && (reply != Done ==> j' == j)
      && (j.status.Running? || j.status.Succeeded? || j.status.SubmitUnknown? ==> j' == j)
      && j'.attempts == j.attempts && j'.submittedAt == j.submittedAt && j'.attemptCount == j.attemptCount
      && (reply == Done ==> ControlJob(j', action, later) == (j', if action.Retry? then Rejected(409) else Done))
    ensures ControlJob(j, Retry, now).1 == Done <==> j.status.Failed? && j.attemptCount < j.spec.maxAttempts
    ensures ControlJob(j, Pause, now).1 == Done <==> j.status.Queued? || j.status.Paused?
    ensures ControlJob(j, Resume, now).1 == Done <==> j.status.Queued? || j.status.Paused?
    ensures ControlJob(j, Cancel, now).1 == Done <==> j.status.Queued? || j.status.Paused? || j.status.Cancelled?
  {
  }

  /** Resuming undoes pausing. */
  lemma ResumeUndoesPause(j: Job, now: Time, later: Time)
    requires j.status.Queued?
    ensures ControlJob(j, Pause, now).0.status.Paused?
    ensures ControlJob(ControlJob(j, Pause, now).0, Resume, later) == (j, Done)
  {
  }

  // ----- the submission boundary -----

  /** Recovery looks at three columns; in a reachable table they say the same as submitted_at alone. */
  lemma RecoveryTestIsSubmittedAt(j: Job, now: Time)
    requires JobInv(j) && Expired(j, now)
    ensures ExternalPossible(j) <==> j.submittedAt.Some?
    ensures j.submittedAt.Some? <==> ExpireJob(j, now).status.SubmitUnknown?
    ensures j.submittedAt.None? && j.attemptCount < j.spec.maxAttempts <==> ExpireJob(j, now).status.Queued?
    ensures j.submittedAt.None? && j.attemptCount == j.spec.maxAttempts <==> ExpireJob(j, now).status.Failed?
  {
    assert Latest(j) == j.attempts[|j.attempts| - 1];
  }

  /**
   Once any attempt has crossed the boundary, no later expiry of the job puts it back in the
   queue: it ends as SUBMIT_UNKNOWN, whatever happened in between.
   */
  lemma NoRequeueAfterBoundary(jobs: seq<Job>, ops: seq<Op>, i: nat, k: nat, now: Time)
    requires Inv(jobs) && i < |jobs| && k < |jobs[i].attempts| && jobs[i].attempts[k].external
    ensures i < |Run(jobs, ops)|
    ensures Expired(Run(jobs, ops)[i], now) ==> ExpireJob(Run(jobs, ops)[i], now).status.SubmitUnknown?
  {
    RunEvolves(jobs, ops, i);
    RunKeeps(jobs, ops);
    assert JobInv(jobs[i]);
    var j := Run(jobs, ops)[i];
    assert JobInv(j);
    if Expired(j, now) { RecoveryTestIsSubmittedAt(j, now); }
  }

  /** After any run, a closed attempt never hides a possible submission of unknown outcome. */
  lemma FailureIsCertain(ops: seq<Op>, i: nat, k: nat)
    requires i < |Run([], ops)| && k < |Run([], ops)[i].attempts|
    ensures var a := Run([], ops)[i].attempts[k];
      && (a.status.AttemptFailed? && a.external ==> CertainState(a.state))
      && (a.status.AttemptLeaseExpired? ==> !a.external)
      && (a.external && !CertainState(a.state) ==>
            k == |Run([], ops)[i].attempts| - 1 && !a.status.AttemptFailed? && !a.status.AttemptLeaseExpired?)
  {
    RunKeeps([], ops);
    assert JobInv(Run([], ops)[i]);
  }

  /** An uncertain job is never changed again: no claim, retry, cancel or recovery touches it. */
  lemma UncertainForever(jobs: seq<Job>, ops: seq<Op>, i: nat)
    requires Inv(jobs) && i < |jobs| && jobs[i].uncertain
    ensures i < |Run(jobs, ops)| && Run(jobs, ops)[i] == jobs[i]
  {
    RunEvolves(jobs, ops, i);
    assert JobInv(jobs[i]);
  }

  // ----- a retried job keeps its boundary -----

  /** A table of one eligible job: a claim that reads it takes the job. */
  lemma LoneClaim(j: Job, worker: string, seconds: int, now: Time)
    requires j.status.Queued? && j.attemptCount < j.spec.maxAttempts && j.spec.estimatedCost == 0 && ValidLease(seconds)
    ensures Apply([j], ClaimOp(false, [j], ClaimRequest(worker, seconds, []), now))
            == ([ClaimJob(j, worker, now + seconds, now)], Claimed(0))
  {
    assert !KeyBusy([j], 0) && Eligible([j], [], 0);
    assert CandidateAmong([j], [], 0).None?;
    assert Candidate([j], []) == Some(0);
    assert Recover([j], now) == [j];
    assert [j][0 := ClaimJob(j, worker, now + seconds, now)] == [ClaimJob(j, worker, now + seconds, now)];
  }

  lemma RunThree(jobs: seq<Job>, a: Op, b: Op, c: Op)
    ensures Run(jobs, [a, b, c]) == After(After(After(jobs, a), b), c)
  {
    assert [a, b, c][1..] == [b, c] && [b, c][1..] == [c] && [c][1..] == [];
    assert Run(After(After(jobs, a), b), [c]) == After(After(After(jobs, a), b), c);
    assert Run(After(jobs, a), [b, c]) == After(After(After(jobs, a), b), c);
  }

  /** One attempt: a claim at `now`, the boundary a second later, and a refusal by the provider after another. */
  function RefusedAttempt(j: Job, worker: string, now: Time): seq<Op> {
    [ClaimOp(false, [j], ClaimRequest(worker, 30, []), now),
     LeaseOp(0, worker, Heartbeat(30, Some(1), true), now + 1),
     LeaseOp(0, worker, Fail("REFUSED", 1, true, ExplicitFailure), now + 2)]
  }

  function Refused(j: Job, worker: string, now: Time): Job {
    var claimed := ClaimJob(j, worker, now + 30, now);
    FailJob(HeartbeatJob(claimed, now + 31, Some(1), true, now + 1), "REFUSED", 1, ExplicitFailure, now + 2)
  }

  lemma RefusedAttemptRun(j: Job, worker: string, now: Time)
    requires j.status.Queued? && j.attemptCount < j.spec.maxAttempts && j.spec.estimatedCost == 0
    ensures Run([j], RefusedAttempt(j, worker, now)) == [Refused(j, worker, now)]
    ensures Refused(j, worker, now).status.Failed? && Refused(j, worker, now).submittedAt.Some?
    ensures Refused(j, worker, now).attemptCount == j.attemptCount + 1 && !Refused(j, worker, now).uncertain
    ensures Refused(j, worker, now).operationId == j.operationId && Refused(j, worker, now).spec == j.spec
  {
    var ops := RefusedAttempt(j, worker, now);
    var claimed := ClaimJob(j, worker, now + 30, now);
    var beaten := HeartbeatJob(claimed, now + 31, Some(1), true, now + 1);
    LoneClaim(j, worker, 30, now);
    assert Latest(claimed) == NewAttempt(j.attemptCount + 1, now);
    assert After([claimed], ops[1]) == [beaten];
    assert Latest(beaten).calls == 1 && Latest(beaten).status.AttemptRunning?;
    assert IsErrorCode("REFUSED");
    assert After([beaten], ops[2]) == [Refused(j, worker, now)];
    RunThree([j], ops[0], ops[1], ops[2]);
  }

  /** Retry, claim again, and let the lease run out without a single provider call. */
  lemma RetriedThenExpired(j: Job, worker: string, now: Time)
    requires j.status.Failed? && !j.uncertain && j.attemptCount < j.spec.maxAttempts && j.spec.estimatedCost == 0
    requires j.submittedAt.Some?
    ensures var queued := j.(status := Queued, errorCode := None, completedAt := None);
      var done := Run([j], [ControlOp(0, Retry, now), ClaimOp(false, [queued], ClaimRequest(worker, 30, []), now), RecoverOp(now + 30)]);
      && |done| == 1 && done[0].status.SubmitUnknown? && done[0].uncertain
      && |done[0].attempts| == |j.attempts| + 1 && Latest(done[0]).calls == 0
  {
    var queued := j.(status := Queued, errorCode := None, completedAt := None);
    var claim := ClaimOp(false, [queued], ClaimRequest(worker, 30, []), now);
    assert After([j], ControlOp(0, Retry, now)) == [queued];
    LoneClaim(queued, worker, 30, now);
    RunThree([j], ControlOp(0, Retry, now), claim, RecoverOp(now + 30));
  }

  lemma {:induction false} RunAppends(jobs: seq<Job>, a: seq<Op>, b: seq<Op>)
    ensures Run(jobs, a + b) == Run(Run(jobs, a), b)
    decreases |a|
  {
    if a == [] {
      assert a + b == b;
    } else {
      assert (a + b)[1..] == a[1..] + b;
      RunAppends(After(jobs, a[0]), a[1..], b);
    }
  }

  /**
   A run that ends in doubt although its last attempt never called the provider: the provider refused the
   first attempt, an operator retried, and the lease of the second attempt ran out.
   */
  lemma RetryMayEndInDoubt(spec: JobSpec, worker: string) returns (ops: seq<Op>)
    requires |spec.idempotencyKey| >= MIN_KEY_LENGTH && spec.maxAttempts >= 2 && spec.estimatedCost == 0
    ensures var done := Run([], ops);
      && |done| == 1 && done[0].status.SubmitUnknown? && done[0].uncertain
      && |done[0].attempts| == 2 && done[0].attempts[1].calls == 0
  {
    var j := NewJob(spec);
    var failed := Refused(j, worker, 0);
    var queued := failed.(status := Queued, errorCode := None, completedAt := None);
    var create, attempt := [CreateOp(0, spec)], RefusedAttempt(j, worker, 0);
    var again := [ControlOp(0, Retry, 3), ClaimOp(false, [queued], ClaimRequest(worker, 30, []), 3), RecoverOp(3 + 30)];
    assert create[1..] == [] && Run([], create) == [j];
    RefusedAttemptRun(j, worker, 0);
    RetriedThenExpired(failed, worker, 3);
    RunAppends([], create, attempt + again);
    RunAppends([j], attempt, again);
    ops := create + (attempt + again);
  }

  // ----- bounded work -----

  function Rank(s: JobStatus): nat {
    match s
    case Running => 3
    case Failed => 2
    case Queued => 1
    case Paused => 1
    case _ => 0
  }

  function Measure(j: Job): int { 3 * (j.spec.maxAttempts - j.attemptCount) + Rank(j.status) }

  /** A change of status or attempt count other than pausing and resuming. */
  predicate Progressed(j: Job, j': Job) {
    j.attemptCount != j'.attemptCount
    || (j.status != j'.status && !(Rank(j.status) == 1 && Rank(j'.status) == 1))
  }

  lemma MoveDrops(j: Job, j': Job, op: Op, id: nat, reply: Reply)
    requires JobInv(j) && RowMove(j, j', op, id, reply)
    ensures Measure(j') <= Measure(j) && (Progressed(j, j') ==> Measure(j') < Measure(j))
    ensures !(op.ClaimOp? && reply == Claimed(id)) ==> j'.attemptCount == j.attemptCount
  {
  }

  /** The measure never grows, drops with every transition, and attempts are counted by claims. */
  lemma MeasureDrops(jobs: seq<Job>, op: Op, i: nat)
    requires Inv(jobs) && i < |jobs|
    ensures i < |After(jobs, op)|
    ensures var j, j' := jobs[i], After(jobs, op)[i];
      && 0 <= Measure(j') <= Measure(j)
      && (Progressed(j, j') ==> Measure(j') < Measure(j))
      && (j'.attemptCount == j.attemptCount + if Apply(jobs, op).1 == Claimed(i) then 1 else 0)
  {
    RowMoves(jobs, op, i);
    ApplyKeeps(jobs, op);
    assert JobInv(jobs[i]) && JobInv(After(jobs, op)[i]);
    MoveDrops(jobs[i], After(jobs, op)[i], op, i, Apply(jobs, op).1);
    if Apply(jobs, op).1 == Claimed(i) { ClaimCounts(jobs, op, i); }
  }

  lemma ClaimCounts(jobs: seq<Job>, op: Op, i: nat)
    requires i < |jobs| && Apply(jobs, op).1 == Claimed(i)
    ensures i < |After(jobs, op)| && After(jobs, op)[i].attemptCount == jobs[i].attemptCount + 1
  {
    QueuedRowIsRecovered(jobs, op.autoflush, op.claimNow, i);
  }

  function Progress(jobs: seq<Job>, ops: seq<Op>, i: nat): nat
    decreases |ops|
  {
    if ops == [] then 0
    else
      var jobs' := After(jobs, ops[0]);
      Progress(jobs', ops[1..], i)
      + (if i < |jobs| && i < |jobs'| && Progressed(jobs[i], jobs'[i]) then 1 else 0)
  }

  function Claims(jobs: seq<Job>, ops: seq<Op>, i: nat): nat
    decreases |ops|
  {
    if ops == [] then 0
    else Claims(After(jobs, ops[0]), ops[1..], i) + (if Apply(jobs, ops[0]).1 == Claimed(i) then 1 else 0)
  }

  /** Any run gives a job only boundedly many transitions, and counts its claims exactly. */
  lemma {:induction false} WorkIsBounded(jobs: seq<Job>, ops: seq<Op>, i: nat)
    requires Inv(jobs) && i < |jobs|
    ensures Progress(jobs, ops, i) <= Measure(jobs[i])
    ensures i < |Run(jobs, ops)|
    ensures Claims(jobs, ops, i) == Run(jobs, ops)[i].attemptCount - jobs[i].attemptCount
    ensures Run(jobs, ops)[i].spec == jobs[i].spec
    decreases |ops|
  {
    assert JobInv(jobs[i]);
    if ops != [] {
      MeasureDrops(jobs, ops[0], i);
      ApplyEvolves(jobs, ops[0], i);
      ApplyKeeps(jobs, ops[0]);
      WorkIsBounded(After(jobs, ops[0]), ops[1..], i);
    }
  }

  /** From its creation a job makes at most 3 * max_attempts + 1 transitions and max_attempts claims. */
  lemma FreshJobBound(jobs: seq<Job>, ops: seq<Op>, i: nat)
    requires Inv(jobs) && i < |jobs| && jobs[i] == NewJob(jobs[i].spec)
    ensures Progress(jobs, ops, i) <= 3 * jobs[i].spec.maxAttempts + 1
    ensures Claims(jobs, ops, i) <= jobs[i].spec.maxAttempts
  {
    WorkIsBounded(jobs, ops, i);
    RunKeeps(jobs, ops);
    assert JobInv(Run(jobs, ops)[i]);
  }

  // ----- fencing -----

  /** The three lease tests split every instant the same way, the expiry instant included. */
  lemma LeaseTestsAgree(j: Job, worker: string, now: Time)
    requires JobInv(j) && j.status.Running? && j.leaseOwner == Some(worker)
    ensures Expired(j, now) <==> !OwnsLive(j, worker, now)
    ensures LeaseActive(j, now) <==> OwnsLive(j, worker, now)
    ensures OwnsLive(j, worker, now) <==> now < j.leaseExpiresAt.value
  {
  }

  /** A lease call by anyone but the live owner does nothing, or nothing but recovery. */
  lemma OutsidersOnlyRecover(jobs: seq<Job>, id: nat, worker: string, call: LeaseCall, now: Time)
    requires Inv(jobs) && (id < |jobs| ==> !OwnsLive(jobs[id], worker, now))
    ensures Leased(jobs, id, worker, call, now).1.Rejected?
    ensures Leased(jobs, id, worker, call, now).0 == jobs || Leased(jobs, id, worker, call, now).0 == Recover(jobs, now)
    ensures id < |jobs| && jobs[id].leaseOwner != Some(worker) ==> Leased(jobs, id, worker, call, now).0 == jobs
  {
  }

  predicate ByOthersBefore(ops: seq<Op>, worker: string, limit: Time) {
    forall k :: 0 <= k < |ops| ==> Actor(ops[k]) != Some(worker) && (Clock(ops[k]).Some? ==> Clock(ops[k]).value < limit)
  }

  /** While its lease lasts, nothing that anyone else does can change a worker's job. */
  lemma {:induction false} LiveLeaseIsExclusive(jobs: seq<Job>, ops: seq<Op>, i: nat)
    requires Inv(jobs) && i < |jobs| && jobs[i].status.Running?
    requires JobInv(jobs[i]) && ByOthersBefore(ops, jobs[i].leaseOwner.value, jobs[i].leaseExpiresAt.value)
    ensures i < |Run(jobs, ops)| && Run(jobs, ops)[i] == jobs[i]
    decreases |ops|
  {
    if ops != [] {
      RowMoves(jobs, ops[0], i);
      assert After(jobs, ops[0])[i] == jobs[i];
      ApplyKeeps(jobs, ops[0]);
      assert ByOthersBefore(ops[1..], jobs[i].leaseOwner.value, jobs[i].leaseExpiresAt.value);
      LiveLeaseIsExclusive(After(jobs, ops[0]), ops[1..], i);
    }
  }

  // ----- heartbeats -----

  /**
   The background heartbeat may carry a count read before a newer one was stored.  The live
   owner's heartbeat is refused exactly then, and the worker treats the refusal as a lost lease.
   */
  lemma LiveHeartbeatRefusedIff(jobs: seq<Job>, id: nat, worker: string, seconds: int, calls: nat, external: bool, now: Time)
    requires Inv(jobs) && id < |jobs| && OwnsLive(jobs[id], worker, now) && ValidLease(seconds) && |jobs[id].attempts| > 0
    ensures Leased(jobs, id, worker, Heartbeat(seconds, Some(calls), external), now).1 ==
            if calls < Latest(jobs[id]).calls then Rejected(409) else Done
  {
    assert JobInv(jobs[id]);
  }
}
