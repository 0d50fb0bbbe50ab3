/** Safety of every interleaving of workers, crashes, lease expiries and explicit retries. */
module WorkerSafety {
  import opened Wrappers
  import opened ExecutionRecords
  import opened QueueSpec
  import opened QueueInvariant
  import opened QueueRuns
  import opened ExecutionContracts
  import opened WorkerSystem

  lemma Reachable(steps: seq<Step>)
    ensures SysInv(RunSystem(INITIAL, steps))
  {
    RunSystemKeeps(INITIAL, steps);
  }

  // ----- one open submission -----

  predicate Submitted(s: System, i: nat, n: nat) { (i, n) in s.submissions }

  /** The attempt really submitted and its record does not settle what came of it. */
  predicate OpenSubmission(s: System, i: nat, n: nat) {
    && Submitted(s, i, n)
    && i < |s.jobs| && 1 <= n <= |s.jobs[i].attempts|
    && var a := s.jobs[i].attempts[n - 1];
       !(a.status.AttemptSucceeded? || (a.status.AttemptFailed? && CertainState(a.state)))
  }

  lemma SubmittedIsRecorded(s: System, i: nat, n: nat)
    requires SysInv(s) && Submitted(s, i, n)
    ensures && i < |s.jobs| && 1 <= n <= |s.jobs[i].attempts|
            && s.jobs[i].attempts[n - 1].external && s.jobs[i].submittedAt.Some?
            && !s.jobs[i].attempts[n - 1].status.AttemptLeaseExpired?
            && (s.jobs[i].attempts[n - 1].status.AttemptFailed? ==> CertainState(s.jobs[i].attempts[n - 1].state))
  {
    var p := (i, n);
    assert p in s.submissions;
    assert p.0 < |s.jobs|;
    assert JobInv(s.jobs[i]);
  }

  /** The record of an attempt that really submitted never says that nothing was submitted. */
  lemma SubmittedAttemptIsRecorded(steps: seq<Step>, i: nat, n: nat)
    requires Submitted(RunSystem(INITIAL, steps), i, n)
    ensures var s := RunSystem(INITIAL, steps);
      && i < |s.jobs| && 1 <= n <= |s.jobs[i].attempts|
      && s.jobs[i].attempts[n - 1].external && s.jobs[i].submittedAt.Some?
      && !s.jobs[i].attempts[n - 1].status.AttemptLeaseExpired?
      && (s.jobs[i].attempts[n - 1].status.AttemptFailed? ==> CertainState(s.jobs[i].attempts[n - 1].state))
  {
    Reachable(steps);
    SubmittedIsRecorded(RunSystem(INITIAL, steps), i, n);
  }

  /**
   At most one attempt of a job has really submitted without a settled outcome; it is the last
   attempt, and the job is then RUNNING or SUBMIT_UNKNOWN.
   */
  lemma AtMostOneOpenSubmission(steps: seq<Step>, i: nat, n: nat, m: nat)
    requires OpenSubmission(RunSystem(INITIAL, steps), i, n)
    ensures var s := RunSystem(INITIAL, steps);
      && n == |s.jobs[i].attempts|
      && (s.jobs[i].status.Running? || s.jobs[i].status.SubmitUnknown?)
      && (OpenSubmission(s, i, m) ==> m == n)
  {
    var s := RunSystem(INITIAL, steps);
    SubmittedAttemptIsRecorded(steps, i, n);
    Reachable(steps);
    assert JobInv(s.jobs[i]);
    if OpenSubmission(s, i, m) { SubmittedAttemptIsRecorded(steps, i, m); }
  }

  /** An armed worker's attempt is the job's last, and still its own or already set aside. */
  lemma ArmedAttemptIsOpen(j: Job, w: string, k: Worker)
    requires JobInv(j) && TiedRow(j, w, k) && k.armed
    ensures k.attempt == |j.attempts| && ((j.status.Running? && j.leaseOwner == Some(w)) || j.status.SubmitUnknown?)
  {
    var a := j.attempts[k.attempt - 1];
    assert !a.status.AttemptLeaseExpired?;
  }

  /**
   When a real submission happens its attempt is not settled: the job is still this worker's,
   or has already been set aside as SUBMIT_UNKNOWN.
   */
  lemma SubmissionsHappenOnlyWhileOpen(steps: seq<Step>, w: string)
    requires var s := RunSystem(INITIAL, steps); Next(s, Submit(w)) != s
    ensures var s := RunSystem(INITIAL, steps); var k := Get(s, w);
      && Next(s, Submit(w)).submissions == s.submissions + {(k.job, k.attempt)}
      && k.job < |s.jobs| && k.attempt == |s.jobs[k.job].attempts|
      && ((s.jobs[k.job].status.Running? && s.jobs[k.job].leaseOwner == Some(w)) || s.jobs[k.job].status.SubmitUnknown?)
  {
    Reachable(steps);
    var s := RunSystem(INITIAL, steps);
    var k := Get(s, w);
    assert w in s.workers && !k.phase.Idle? && k.armed;
    assert Tied(s.jobs, w, k) && JobInv(s.jobs[k.job]);
    ArmedAttemptIsOpen(s.jobs[k.job], w, k);
  }

  // ----- the queue's own theorems hold of the system -----

  function Ops(s: System, steps: seq<Step>): seq<Op>
    decreases |steps|
  {
    if steps == [] then []
    else (if StepOp(s, steps[0]).Some? then [StepOp(s, steps[0]).value] else []) + Ops(Next(s, steps[0]), steps[1..])
  }

  lemma {:induction false} RunAppend(jobs: seq<Job>, op: Op, ops: seq<Op>)
    ensures Run(jobs, [op] + ops) == Run(After(jobs, op), ops)
  {
    assert ([op] + ops)[1..] == ops;
  }

  /** What workers and clients do to the table together is a run of queue transactions. */
  lemma {:induction false} SystemIsQueueRun(s: System, steps: seq<Step>)
    ensures RunSystem(s, steps).jobs == Run(s.jobs, Ops(s, steps))
    decreases |steps|
  {
    if steps != [] {
      SystemIsQueueRun(Next(s, steps[0]), steps[1..]);
      var op := StepOp(s, steps[0]);
      if op.Some? {
        RunAppend(s.jobs, op.value, Ops(Next(s, steps[0]), steps[1..]));
        assert Next(s, steps[0]).jobs == After(s.jobs, op.value);
      } else {
        assert [] + Ops(Next(s, steps[0]), steps[1..]) == Ops(Next(s, steps[0]), steps[1..]);
      }
    }
  }

  // ----- submissions cost explicit retries -----

  function PlainFailures(a: seq<Attempt>): nat {
    if a == [] then 0
    else PlainFailures(a[..|a| - 1]) + (if a[|a| - 1].status.AttemptFailed? then 1 else 0)
  }

  /** Plain failures that have already been answered by a retry. */
  function Answered(j: Job): int {
    PlainFailures(j.attempts)
    - (if j.status.Failed? && |j.attempts| > 0 && Latest(j).status.AttemptFailed? then 1 else 0)
  }

  function AnsweredAt(jobs: seq<Job>, i: nat): int { if i < |jobs| then Answered(jobs[i]) else 0 }

  predicate AcceptedRetry(jobs: seq<Job>, op: Op, i: nat) {
    op.ControlOp? && op.controlId == i && op.action.Retry? && Apply(jobs, op).1 == Done
  }

  function Retries(jobs: seq<Job>, ops: seq<Op>, i: nat): nat
    decreases |ops|
  {
    if ops == [] then 0
    else Retries(After(jobs, ops[0]), ops[1..], i) + (if AcceptedRetry(jobs, ops[0], i) then 1 else 0)
  }

  lemma LatestReplaced(j: Job, a: Attempt)
    requires |j.attempts| > 0
    ensures PlainFailures(WithLatest(j, a)) == PlainFailures(j.attempts)
            - (if Latest(j).status.AttemptFailed? then 1 else 0) + (if a.status.AttemptFailed? then 1 else 0)
  {
    assert WithLatest(j, a)[..|j.attempts| - 1] == j.attempts[..|j.attempts| - 1];
  }

  lemma ExpiryAnswers(j: Job, now: Time)
    requires JobInv(j) && Expired(j, now)
    ensures Answered(ExpireJob(j, now)) == Answered(j)
  {
    LatestReplaced(j, Latest(ExpireJob(j, now)));
  }

  lemma ClaimAnswers(j: Job, owner: string, expiresAt: Time, now: Time)
    requires JobInv(j) && j.status.Queued?
    ensures Answered(ClaimJob(j, owner, expiresAt, now)) == Answered(j)
  {
    var a := ClaimJob(j, owner, expiresAt, now).attempts;
    assert a[..|a| - 1] == j.attempts;
  }

  lemma CallAnswers(j: Job, call: LeaseCall, now: Time)
    requires JobInv(j) && j.status.Running?
    ensures Answered(Perform(j, call, now)) == Answered(j)
  {
    LatestReplaced(j, Latest(Perform(j, call, now)));
  }

  /** How one move of a row changes the plain failures that a retry has answered. */
  lemma MoveAnswers(j: Job, j': Job, op: Op, id: nat, reply: Reply)
    requires JobInv(j) && RowMove(j, j', op, id, reply)
    ensures Answered(j') <= Answered(j) + if op.ControlOp? && op.controlId == id && op.action.Retry? && j' != j then 1 else 0
  {
    if j' == j {
    } else if Clock(op).Some? && Expired(j, Clock(op).value) && j' == ExpireJob(j, Clock(op).value) {
      ExpiryAnswers(j, Clock(op).value);
    } else if op.ClaimOp? {
      var owner, expiresAt, now := op.request.worker, op.claimNow + op.request.leaseSeconds, op.claimNow;
      if j.status.Queued? && j' == ClaimJob(j, owner, expiresAt, now) {
        ClaimAnswers(j, owner, expiresAt, now);
      } else {
        ExpiryAnswers(j, now);
        ExpireKeeps(j, now);
        ClaimAnswers(ExpireJob(j, now), owner, expiresAt, now);
      }
    } else if op.LeaseOp? {
      CallAnswers(j, op.call, op.leaseNow);
    } else {
      assert j' == ControlJob(j, op.action, op.controlNow).0 && j'.attempts == j.attempts;
    }
  }

  lemma OpAnswers(jobs: seq<Job>, op: Op, i: nat)
    requires Inv(jobs)
    ensures AnsweredAt(After(jobs, op), i) <= AnsweredAt(jobs, i) + if AcceptedRetry(jobs, op, i) then 1 else 0
  {
    if i < |jobs| {
      RowMoves(jobs, op, i);
      assert JobInv(jobs[i]);
      MoveAnswers(jobs[i], After(jobs, op)[i], op, i, Apply(jobs, op).1);
    } else if i < |After(jobs, op)| {
      assert op.CreateOp?;
    }
  }

  lemma {:induction false} RunAnswers(jobs: seq<Job>, ops: seq<Op>, i: nat)
    requires Inv(jobs)
    ensures AnsweredAt(Run(jobs, ops), i) <= AnsweredAt(jobs, i) + Retries(jobs, ops, i)
    decreases |ops|
  {
    if ops != [] {
      OpAnswers(jobs, ops[0], i);
      ApplyKeeps(jobs, ops[0]);
      RunAnswers(After(jobs, ops[0]), ops[1..], i);
    }
  }

  predicate IsPlainFailure(a: seq<Attempt>, n: nat)
    requires 1 <= n <= |a|
  {
    a[n - 1].status.AttemptFailed?
  }

  function FailedNumbers(a: seq<Attempt>): set<nat> {
    set n: nat | 1 <= n <= |a| && IsPlainFailure(a, n)
  }

  lemma {:induction false} FailedNumbersCount(a: seq<Attempt>)
    ensures |FailedNumbers(a)| == PlainFailures(a)
  {
    if a != [] {
      var b := a[..|a| - 1];
      FailedNumbersCount(b);
      if a[|a| - 1].status.AttemptFailed? {
        assert FailedNumbers(a) == FailedNumbers(b) + {|a|};
      } else {
        assert FailedNumbers(a) == FailedNumbers(b);
      }
    }
  }

  /** The attempts of job i that really submitted. */
  function SubmittedNumbers(s: System, i: nat): set<nat> { set p | p in s.submissions && p.0 == i :: p.1 }

  lemma SubsetIsNoLarger<T>(a: set<T>, b: set<T>)
    requires a <= b
    ensures |a| <= |b|
    decreases |a|
  {
    if a != {} {
      var x :| x in a;
      SubsetIsNoLarger(a - {x}, b - {x});
    }
  }

  /** Among attempts that are flagged, at most one is neither a plain failure nor expired. */
  lemma FewSubmissions(j: Job, numbers: set<nat>)
    requires JobInv(j) && |j.attempts| > 0
    requires forall n :: n in numbers ==> 1 <= n <= |j.attempts| && !j.attempts[n - 1].status.AttemptLeaseExpired?
    ensures |numbers| <= 1 + Answered(j)
  {
    var failed := FailedNumbers(j.attempts);
    FailedNumbersCount(j.attempts);
    var last := if Latest(j).status.AttemptFailed? then {} else {|j.attempts|};
    SubsetIsNoLarger(numbers, failed + last);
    assert |failed + last| <= |failed| + |last|;
  }

  lemma SubmissionsAreFew(s: System, i: nat)
    requires SysInv(s) && SubmittedNumbers(s, i) != {}
    ensures |SubmittedNumbers(s, i)| <= 1 + AnsweredAt(s.jobs, i)
  {
    var numbers := SubmittedNumbers(s, i);
    var some :| some in numbers;
    SubmittedIsRecorded(s, i, some);
    assert JobInv(s.jobs[i]);
    forall n | n in numbers
      ensures 1 <= n <= |s.jobs[i].attempts| && !s.jobs[i].attempts[n - 1].status.AttemptLeaseExpired?
    {
      SubmittedIsRecorded(s, i, n);
    }
    FewSubmissions(s.jobs[i], numbers);
  }

  /**
   Only an explicit, accepted retry can lead to a second real submission: a job submits in at
   most one attempt more than the number of retries it was granted.
   */
  lemma SubmissionsNeedRetries(steps: seq<Step>, i: nat)
    ensures |SubmittedNumbers(RunSystem(INITIAL, steps), i)| <= 1 + Retries([], Ops(INITIAL, steps), i)
  {
    var s := RunSystem(INITIAL, steps);
    if SubmittedNumbers(s, i) != {} {
      Reachable(steps);
      SubmissionsAreFew(s, i);
      SystemIsQueueRun(INITIAL, steps);
      RunAnswers([], Ops(INITIAL, steps), i);
    }
  }

  // ----- reporting -----

  /** A worker's tie to its row, as long as the row's lease is live and the worker's. */
  lemma TieGivesDominance(s: System, w: string, now: Time)
    requires SysInv(s) && w in s.workers && !s.workers[w].phase.Idle?
    requires s.workers[w].job < |s.jobs| && OwnsLive(s.jobs[s.workers[w].job], w, now)
    ensures var k := s.workers[w]; var j := s.jobs[k.job];
      LocalInv(k) && |j.attempts| > 0 && Dominates(Latest(j), k.calls, k.external)
  {
    var k := s.workers[w];
    assert Tied(s.jobs, w, k) && LocalInv(k);
    assert JobInv(s.jobs[k.job]);
  }

  /**
   Refinement of worker to queue: in every reachable state a worker that is ready to report,
   and whose lease is live, has its report accepted, unless the result cannot be expressed.
   */
  lemma LiveReportIsAccepted(steps: seq<Step>, w: string, now: Time)
    requires var s := RunSystem(INITIAL, steps);
      && Call(s, Report(w, now, NoFault)).Some?
      && Get(s, w).job < |s.jobs| && OwnsLive(s.jobs[Get(s, w).job], w, now)
    ensures var s := RunSystem(INITIAL, steps); var k := Get(s, w);
      && (k.phase.Returned? || k.phase.Confirmed?)
      && Answer(s, Report(w, now, NoFault)) ==
         if Unreportable(k.phase.result, k.external) then Rejected(422) else Done
  {
    Reachable(steps);
    var s := RunSystem(INITIAL, steps);
    var k := Get(s, w);
    assert w in s.workers && (k.phase.Returned? || k.phase.Confirmed?);
    TieGivesDominance(s, w, now);
    FinalCallAcceptedIff(s.jobs, k.job, w, k.phase.result, k.calls, k.external, now);
  }

  /** Storing the doubt ahead of an uncertain report is likewise accepted while the lease is live. */
  lemma LiveDoubtIsAccepted(steps: seq<Step>, w: string, seconds: int, now: Time)
    requires var s := RunSystem(INITIAL, steps);
      && Call(s, ConfirmDoubt(w, seconds, now, NoFault)).Some?
      && Get(s, w).job < |s.jobs| && OwnsLive(s.jobs[Get(s, w).job], w, now) && ValidLease(seconds)
    ensures var s := RunSystem(INITIAL, steps);
      Answer(s, ConfirmDoubt(w, seconds, now, NoFault)) == Done
  {
    Reachable(steps);
    var s := RunSystem(INITIAL, steps);
    var k := Get(s, w);
    assert w in s.workers && k.phase.Returned?;
    TieGivesDominance(s, w, now);
    LiveHeartbeatRefusedIff(s.jobs, k.job, w, seconds, k.calls, true, now);
  }

  // ----- a lease can be given up while it is still held -----

  /** A live owner's heartbeat, accepted or refused, leaves the lease live. */
  lemma BeatKeepsLive(jobs: seq<Job>, id: nat, w: string, seconds: int, b: Beat, now: Time)
    requires Inv(jobs) && id < |jobs| && OwnsLive(jobs[id], w, now) && ValidLease(seconds) && |jobs[id].attempts| > 0
    ensures var (jobs', reply) := Leased(jobs, id, w, Heartbeat(seconds, Some(b.calls), b.external), now);
      && |jobs'| == |jobs| && OwnsLive(jobs'[id], w, now)
      && reply == if b.calls < Latest(jobs[id]).calls then Rejected(409) else Done
  {
    LiveHeartbeatRefusedIff(jobs, id, w, seconds, b.calls, b.external, now);
  }

  lemma SendBeatEffect(s: System, w: string, seconds: int, now: Time, fault: Fault)
    requires w in s.workers && !s.workers[w].phase.Idle? && s.workers[w].beat.Some?
    ensures var k := s.workers[w]; var s' := Next(s, SendBeat(w, seconds, now, fault));
      var sent := Sent(s.jobs, k.job, w, Heartbeat(seconds, Some(k.beat.value.calls), k.beat.value.external), now, fault);
      && s'.jobs == sent.0 && w in s'.workers
      && s'.workers[w] == k.(beat := None, leaseLost := k.leaseLost || sent.1 != Done)
  {
  }

  /**
   A background heartbeat makes the worker believe its live lease lost exactly when it fails without an
   answer, or when a newer count was stored after the heartbeat thread read its counters, which it does
   before it takes the heartbeat lock.  Either way the queue goes on granting the lease.
   */
  lemma BeatLosesLiveLeaseIff(steps: seq<Step>, w: string, seconds: int, now: Time, fault: Fault)
    requires var s := RunSystem(INITIAL, steps); var k := Get(s, w);
      && w in s.workers && !k.phase.Idle? && k.beat.Some? && !k.leaseLost && ValidLease(seconds)
      && k.job < |s.jobs| && OwnsLive(s.jobs[k.job], w, now) && |s.jobs[k.job].attempts| > 0
    ensures var s := RunSystem(INITIAL, steps); var k := Get(s, w); var s' := Next(s, SendBeat(w, seconds, now, fault));
      && (Get(s', w).leaseLost <==> fault != NoFault || k.beat.value.calls < Latest(s.jobs[k.job]).calls)
      && k.job < |s'.jobs| && OwnsLive(s'.jobs[k.job], w, now)
  {
    Reachable(steps);
    var s := RunSystem(INITIAL, steps);
    var k := Get(s, w);
    SendBeatEffect(s, w, seconds, now, fault);
    BeatKeepsLive(s.jobs, k.job, w, seconds, k.beat.value, now);
  }

  /** One job claimed at time 0 for 30 seconds. */
  function JustClaimed(spec: JobSpec, w: string): System {
    System([ClaimJob(NewJob(spec), w, 30, 0)], map[w := Worker(Handling, 0, 1, 0, false, false, false, false, None)], {})
  }

  lemma FirstClaim(spec: JobSpec, w: string)
    requires spec.estimatedCost == 0 && spec.maxAttempts >= 1
    ensures ClaimTry([NewJob(spec)], false, [NewJob(spec)], ClaimRequest(w, 30, []), 0)
            == ([ClaimJob(NewJob(spec), w, 30, 0)], Claimed(0))
  {
    LoneClaim(NewJob(spec), w, 30, 0);
  }

  lemma RunTwo(s: System, a: Step, b: Step)
    ensures RunSystem(s, [a, b]) == Next(Next(s, a), b)
  {
    assert [a, b][1..] == [b] && [b][1..] == [];
    assert RunSystem(Next(s, a), [b]) == Next(Next(s, a), b);
  }

  lemma EnqueueAndStart(spec: JobSpec, w: string)
    requires |spec.idempotencyKey| >= MIN_KEY_LENGTH && spec.maxAttempts >= 1
    ensures RunSystem(INITIAL, [External(CreateOp(0, spec)), Start(w)]) == System([NewJob(spec)], map[w := FRESH], {})
  {
    RunTwo(INITIAL, External(CreateOp(0, spec)), Start(w));
    assert Next(INITIAL, External(CreateOp(0, spec))) == System([NewJob(spec)], map[], {});
  }

  lemma ClaimRun(spec: JobSpec, w: string)
    requires |spec.idempotencyKey| >= MIN_KEY_LENGTH && spec.maxAttempts >= 1 && spec.estimatedCost == 0
    ensures RunSystem(INITIAL, [External(CreateOp(0, spec)), Start(w), Claim(w, false, [NewJob(spec)], 30, 0, NoFault)])
            == JustClaimed(spec, w)
  {
    var s, claim := System([NewJob(spec)], map[w := FRESH], {}), Claim(w, false, [NewJob(spec)], 30, 0, NoFault);
    EnqueueAndStart(spec, w);
    FirstClaim(spec, w);
    assert Next(s, claim) == JustClaimed(spec, w);
    RunSystemAppend(INITIAL, [External(CreateOp(0, spec)), Start(w)], [claim]);
    assert [claim][1..] == [];
    assert RunSystem(s, [claim]) == JustClaimed(spec, w);
    assert [External(CreateOp(0, spec)), Start(w)] + [claim] == [External(CreateOp(0, spec)), Start(w), claim];
  }

  /** The heartbeat thread has read the counters, and the handler has raised them. */
  function RaisedMeanwhile(spec: JobSpec, w: string): System {
    System([ClaimJob(NewJob(spec), w, 30, 0)],
           map[w := Worker(Persisting, 0, 1, 1, false, false, false, false, Some(Beat(0, false)))], {})
  }

  lemma ReadThenRaise(spec: JobSpec, w: string)
    ensures RunSystem(JustClaimed(spec, w), [ReadBeat(w), RaiseCounters(w, true, false)]) == RaisedMeanwhile(spec, w)
  {
    RunTwo(JustClaimed(spec, w), ReadBeat(w), RaiseCounters(w, true, false));
    assert Next(JustClaimed(spec, w), ReadBeat(w)).workers[w] ==
           Worker(Handling, 0, 1, 0, false, false, false, false, Some(Beat(0, false)));
  }

  lemma StoreThenSend(spec: JobSpec, w: string)
    ensures var s := RunSystem(RaisedMeanwhile(spec, w), [StoreBoundary(w, 30, 1, NoFault), SendBeat(w, 30, 2, NoFault)]);
      && w in s.workers && s.workers[w].leaseLost && |s.jobs| == 1 && OwnsLive(s.jobs[0], w, 3)
  {
    var s, row := RaisedMeanwhile(spec, w), ClaimJob(NewJob(spec), w, 30, 0);
    RunTwo(s, StoreBoundary(w, 30, 1, NoFault), SendBeat(w, 30, 2, NoFault));
    assert row.attempts == [NewAttempt(1, 0)];
    var stored := Next(s, StoreBoundary(w, 30, 1, NoFault));
    assert stored.jobs == [HeartbeatJob(row, 31, Some(1), false, 1)];
    assert Latest(stored.jobs[0]).calls == 1;
    assert stored.workers[w].beat == Some(Beat(0, false));
  }

  /** The heartbeat thread reads, the handler raises and stores a call, the thread sends what it read. */
  lemma StaleBeatRun(spec: JobSpec, w: string)
    ensures var s := RunSystem(JustClaimed(spec, w),
                               [ReadBeat(w), RaiseCounters(w, true, false), StoreBoundary(w, 30, 1, NoFault), SendBeat(w, 30, 2, NoFault)]);
      && w in s.workers && s.workers[w].leaseLost && |s.jobs| == 1 && OwnsLive(s.jobs[0], w, 3)
  {
    var a, b := [ReadBeat(w), RaiseCounters(w, true, false)], [StoreBoundary(w, 30, 1, NoFault), SendBeat(w, 30, 2, NoFault)];
    ReadThenRaise(spec, w);
    StoreThenSend(spec, w);
    RunSystemAppend(JustClaimed(spec, w), a, b);
    assert a + b == [ReadBeat(w), RaiseCounters(w, true, false), StoreBoundary(w, 30, 1, NoFault), SendBeat(w, 30, 2, NoFault)];
  }

  lemma {:induction false} RunSystemAppend(s: System, a: seq<Step>, b: seq<Step>)
    ensures RunSystem(s, a + b) == RunSystem(RunSystem(s, a), b)
    decreases |a|
  {
    if a == [] {
      assert a + b == b;
    } else {
      assert (a + b)[1..] == a[1..] + b;
      RunSystemAppend(Next(s, a[0]), a[1..], b);
    }
  }

  /** That case is reachable: a run that ends with the worker giving up a lease the queue still grants it. */
  lemma StaleBeatLosesLiveLease(spec: JobSpec, w: string) returns (steps: seq<Step>)
    requires |spec.idempotencyKey| >= MIN_KEY_LENGTH && spec.maxAttempts >= 1 && spec.estimatedCost == 0
    ensures var s := RunSystem(INITIAL, steps);
      && w in s.workers && s.workers[w].leaseLost && |s.jobs| == 1 && OwnsLive(s.jobs[0], w, 3)
  {
    var a := [External(CreateOp(0, spec)), Start(w), Claim(w, false, [NewJob(spec)], 30, 0, NoFault)];
    var b := [ReadBeat(w), RaiseCounters(w, true, false), StoreBoundary(w, 30, 1, NoFault), SendBeat(w, 30, 2, NoFault)];
    ClaimRun(spec, w);
    StaleBeatRun(spec, w);
    RunSystemAppend(INITIAL, a, b);
    steps := a + b;
  }

  // ----- a valid result that cannot be reported -----

  const UNREPORTABLE := HandlerResult(HandlerFailed, Some("REFUSED"), None, None, None, None, Some(OutcomeUnknown))

  /**
   A run in which a handler returns a result that its own checks accept and no request can express: the
   report raises under a live lease, the worker is done, and the job stays RUNNING until its lease expires.
   */
  lemma UnreportableResultIsReachable(spec: JobSpec, w: string) returns (steps: seq<Step>)
    requires |spec.idempotencyKey| >= MIN_KEY_LENGTH && spec.maxAttempts >= 1 && spec.estimatedCost == 0
    ensures var s := RunSystem(INITIAL, steps);
      && w in s.workers && s.workers[w].phase == Returned(UNREPORTABLE)
      && ValidResult(UNREPORTABLE) && Unreportable(UNREPORTABLE, s.workers[w].external)
      && |s.jobs| == 1 && OwnsLive(s.jobs[0], w, 1)
      && Answer(s, Report(w, 1, NoFault)) == Rejected(422)
      && Next(s, Report(w, 1, NoFault)).jobs == s.jobs && Get(Next(s, Report(w, 1, NoFault)), w) == FRESH
  {
    var a, b := [External(CreateOp(0, spec)), Start(w), Claim(w, false, [NewJob(spec)], 30, 0, NoFault)], [HandlerEnds(w, UNREPORTABLE)];
    ClaimRun(spec, w);
    RunSystemAppend(INITIAL, a, b);
    steps := a + b;
    assert b[1..] == [];
    assert RunSystem(JustClaimed(spec, w), b) == Next(JustClaimed(spec, w), b[0]);
    EndsUnreportable(spec, w);
  }

  lemma EndsUnreportable(spec: JobSpec, w: string)
    ensures ValidResult(UNREPORTABLE)
    ensures var s := Next(JustClaimed(spec, w), HandlerEnds(w, UNREPORTABLE));
      && s.jobs == [ClaimJob(NewJob(spec), w, 30, 0)]
      && s.workers == map[w := Worker(Returned(UNREPORTABLE), 0, 1, 0, false, false, false, false, None)]
      && OwnsLive(s.jobs[0], w, 1)
      && Answer(s, Report(w, 1, NoFault)) == Rejected(422)
      && Next(s, Report(w, 1, NoFault)).jobs == s.jobs && Get(Next(s, Report(w, 1, NoFault)), w) == FRESH
  {
    assert IsErrorCode("REFUSED");
    var s := Next(JustClaimed(spec, w), HandlerEnds(w, UNREPORTABLE));
    assert Leased(s.jobs, 0, w, FinalCall(UNREPORTABLE, 0, false), 1) == (s.jobs, Rejected(422));
  }
}
