/** Handler results, the handler's context, and how a worker turns a result into a queue call. */
module ExecutionContracts {
  import opened Wrappers
  import opened ExecutionRecords
  import opened QueueSpec
  import opened QueueInvariant
  import opened QueueRuns
  import EQ = ExecutionQueue

  datatype HandlerStatus = HandlerSucceeded | HandlerFailed | HandlerSubmitUnknown

  datatype HandlerResult = HandlerResult(
    status: HandlerStatus,
    errorCode: Option<string>,
    providerName: Option<string>,
    operationId: Option<string>,
    resultType: Option<string>,
    resultId: Option<nat>,
    state: Option<SubmissionState>)

  /** The checks of the result's constructor. */
  predicate ValidResult(r: HandlerResult) {
    && (r.resultType.Some? <==> r.resultId.Some?)
    && (r.resultId.Some? ==> r.resultId.value > 0 && r.status.HandlerSucceeded?)
    && r.state != Some(NotStarted)
    && (r.status.HandlerSubmitUnknown? ==> r.state == None || r.state == Some(OutcomeUnknown))
    && (r.status.HandlerSucceeded? ==> r.errorCode.None?)
    && (!r.status.HandlerSucceeded? ==> r.errorCode.Some? && IsErrorCode(r.errorCode.value))
  }

  function Certain(r: HandlerResult): bool { r.state.Some? && CertainState(r.state.value) }

  /** The queue call that reports a result, given the counters of the context. */
  function FinalCall(r: HandlerResult, calls: nat, external: bool): LeaseCall {
    if r.status.HandlerSucceeded? then
      Complete(Completion(r.providerName, r.operationId, calls, r.resultType, r.resultId))
    else if r.status.HandlerSubmitUnknown? || (external && !Certain(r)) then
      MarkUnknown(r.errorCode.GetOr("HANDLER_RESULT_UNCERTAIN"), calls, r.providerName, r.operationId)
    else
      Fail(r.errorCode.GetOr("HANDLER_EXECUTION_FAILED"), calls, external, r.state.GetOr(NotStarted))
  }

  /** The one valid result that no failure request can carry. */
  predicate Unreportable(r: HandlerResult, external: bool) {
    r.status.HandlerFailed? && r.state == Some(OutcomeUnknown) && !external
  }

  /** The worker's counters dominate what the queue has stored for its attempt. */
  predicate Dominates(a: Attempt, calls: nat, external: bool) {
    a.calls <= calls && (a.external ==> external)
  }

  /**
   While the lease is live, reporting a valid result is accepted if and only if the result
   can be expressed as a request at all.
   */
  lemma FinalCallAcceptedIff(jobs: seq<Job>, id: nat, worker: string, r: HandlerResult, calls: nat, external: bool, now: Time)
    requires Inv(jobs) && id < |jobs| && OwnsLive(jobs[id], worker, now) && ValidResult(r)
    requires |jobs[id].attempts| > 0 && Dominates(Latest(jobs[id]), calls, external)
    ensures Leased(jobs, id, worker, FinalCall(r, calls, external), now).1 ==
            if Unreportable(r, external) then Rejected(422) else Done
  {
    assert JobInv(jobs[id]);
  }

  /**
   What an accepted report leaves behind: success only for a success, plain failure only when
   nothing was submitted or the provider's answer is certain, and doubt otherwise.
   */
  lemma FinalCallRecords(jobs: seq<Job>, id: nat, worker: string, r: HandlerResult, calls: nat, external: bool, now: Time)
    requires Inv(jobs) && id < |jobs| && OwnsLive(jobs[id], worker, now) && ValidResult(r)
    requires |jobs[id].attempts| > 0 && Dominates(Latest(jobs[id]), calls, external) && !Unreportable(r, external)
    ensures var j := Leased(jobs, id, worker, FinalCall(r, calls, external), now).0[id];
      && |j.attempts| == |jobs[id].attempts| && |j.attempts| > 0
      && Latest(j).calls == calls
      && (j.status.Succeeded? <==> r.status.HandlerSucceeded?)
      && (j.status.Failed? <==> r.status.HandlerFailed? && (!external || Certain(r)))
      && (j.status.SubmitUnknown? <==> r.status.HandlerSubmitUnknown? || (r.status.HandlerFailed? && external && !Certain(r)))
      && (j.uncertain ==> Latest(j).external && j.submittedAt.Some?)
  {
    assert JobInv(jobs[id]);
  }

  /** Every column of an accepted report comes from the handler's result. */
  lemma FinalCallColumns(jobs: seq<Job>, id: nat, worker: string, r: HandlerResult, calls: nat, external: bool, now: Time)
    requires Inv(jobs) && id < |jobs| && OwnsLive(jobs[id], worker, now) && ValidResult(r)
    requires |jobs[id].attempts| > 0 && Dominates(Latest(jobs[id]), calls, external) && !Unreportable(r, external)
    ensures var j, n := Leased(jobs, id, worker, FinalCall(r, calls, external), now).0[id], |jobs[id].attempts|;
      && |j.attempts| == n && j.completedAt == Some(now) && j.leaseOwner.None?
      && var a := j.attempts[n - 1];
      && a.completedAt == Some(now) && a.calls == calls && j.errorCode == r.errorCode && (!r.status.HandlerSucceeded? ==> a.errorCode == r.errorCode)
      && (r.status.HandlerSucceeded? ==>
            && j.providerName == r.providerName && j.operationId == r.operationId
            && j.resultType == r.resultType && j.resultId == r.resultId && a.status.AttemptSucceeded?)
      && (j.status.Failed? ==>
            && a.status.AttemptFailed? && a.state == (if r.state.Some? then r.state.value else NotStarted)
            && j.providerName == jobs[id].providerName && j.operationId == jobs[id].operationId)
      && (j.status.SubmitUnknown? ==>
            && a.status.AttemptSubmitUnknown? && a.state.OutcomeUnknown? && a.external
            && j.providerName == r.providerName && j.operationId == r.operationId)
  {
    assert JobInv(jobs[id]);
  }

  /** How a handler call can end, other than by a lost lease. */
  datatype Ending = ReturnedResult(r: HandlerResult) | NotAResult | Unregistered | InvalidInput | StopRaised | OtherRaised

  function FailedResult(code: string): HandlerResult {
    HandlerResult(HandlerFailed, Some(code), None, None, None, None, None)
  }

  function UnknownResult(code: string): HandlerResult {
    HandlerResult(HandlerSubmitUnknown, Some(code), None, None, None, None, Some(OutcomeUnknown))
  }

  /** The code of a result that the worker makes up. */
  function CodeOf(e: Ending, external: bool): string {
    match e
    case ReturnedResult(_) => ""
    case NotAResult => "INVALID_HANDLER_RESULT"
    case Unregistered => "UNREGISTERED_JOB_TYPE"
    case InvalidInput => "INVALID_JOB_INPUT"
    case StopRaised => if external then "WORKER_STOPPED_AFTER_EXTERNAL_SUBMISSION" else "WORKER_STOPPED"
    case OtherRaised => if external then "HANDLER_EXECUTION_UNCERTAIN" else "HANDLER_EXECUTION_FAILED"
  }

  /** The result that is reported, given whether the context had allowed a submission. */
  function ResultOf(e: Ending, external: bool): HandlerResult {
    match e
    case ReturnedResult(r) => r
    case StopRaised => if external then UnknownResult(CodeOf(e, external)) else FailedResult(CodeOf(e, external))
    case OtherRaised => if external then UnknownResult(CodeOf(e, external)) else FailedResult(CodeOf(e, external))
    case _ => FailedResult(CodeOf(e, external))
  }

  lemma StopCodes()
    ensures IsErrorCode("WORKER_STOPPED_AFTER_EXTERNAL_SUBMISSION")
    ensures IsErrorCode("WORKER_STOPPED")
  {
  }

  lemma RaiseCodes()
    ensures IsErrorCode("HANDLER_EXECUTION_UNCERTAIN")
    ensures IsErrorCode("HANDLER_EXECUTION_FAILED")
  {
  }

  lemma RefusalCodes()
    ensures IsErrorCode("INVALID_HANDLER_RESULT")
    ensures IsErrorCode("UNREGISTERED_JOB_TYPE")
    ensures IsErrorCode("INVALID_JOB_INPUT")
  {
  }

  /**
   However a handler breaks off, what is reported is a valid, expressible result, which records
   doubt exactly when a submission was possible and never a success.
   */
  lemma BrokenOffMeansDoubtIffExternal(e: Ending, calls: nat, external: bool)
    requires !e.ReturnedResult?
    ensures var r := ResultOf(e, external);
      && ValidResult(r) && !Unreportable(r, external)
      && (FinalCall(r, calls, external).MarkUnknown? <==> external)
      && (FinalCall(r, calls, external).Fail? <==> !external)
  {
    if e.StopRaised? {
      StopCodes();
    } else if e.OtherRaised? {
      RaiseCodes();
    } else {
      RefusalCodes();
    }
  }

  /** What each ending is reported as; a returned result is reported as it is. */
  lemma EndingsAreReportedAs(r: HandlerResult)
    ensures forall external :: ResultOf(ReturnedResult(r), external) == r
    ensures forall external :: ResultOf(NotAResult, external) == FailedResult("INVALID_HANDLER_RESULT")
    ensures forall external :: ResultOf(Unregistered, external) == FailedResult("UNREGISTERED_JOB_TYPE")
    ensures forall external :: ResultOf(InvalidInput, external) == FailedResult("INVALID_JOB_INPUT")
    ensures ResultOf(StopRaised, true) == UnknownResult("WORKER_STOPPED_AFTER_EXTERNAL_SUBMISSION")
    ensures ResultOf(StopRaised, false) == FailedResult("WORKER_STOPPED")
    ensures ResultOf(OtherRaised, true) == UnknownResult("HANDLER_EXECUTION_UNCERTAIN")
    ensures ResultOf(OtherRaised, false) == FailedResult("HANDLER_EXECUTION_FAILED")
  {
  }

  // ----- calls that may fail without an answer -----

  /** A transaction may fail for its caller, by a locked database say, before or after it is committed. */
  datatype Fault = NoFault | BeforeCommit | AfterCommit

  const UNANSWERED := Rejected(500)

  /** A lease call as the worker sees it. */
  function Sent(jobs: seq<Job>, id: nat, worker: string, call: LeaseCall, now: Time, fault: Fault): (seq<Job>, Reply) {
    match fault
    case NoFault => Leased(jobs, id, worker, call, now)
    case BeforeCommit => (jobs, UNANSWERED)
    case AfterCommit => (Leased(jobs, id, worker, call, now).0, UNANSWERED)
  }

  // ----- the worker's own objects -----

  datatype BoundaryOutcome = Passed(count: nat) | LeaseLost | StopRequested

  datatype RunStatus = NoJobClaimed | JobSucceeded | JobFailed | JobSubmitUnknown | LostLease | Raised

  /** What the handler's context holds. */
  datatype Counters = Counters(calls: nat, external: bool, leaseLost: bool, stopped: bool)

  /** None when the handler may go on. */
  function Checked(c: Counters): Option<BoundaryOutcome> {
    if c.leaseLost then Some(LeaseLost) else if c.stopped then Some(StopRequested) else None
  }

  function Raise(c: Counters, counted: bool, maySubmit: bool): Counters {
    c.(calls := c.calls + (if counted then 1 else 0), external := c.external || maySubmit || !counted)
  }

  /** Effect of a boundary on the queue and on the context. */
  function Crossed(jobs: seq<Job>, id: nat, worker: string, seconds: int, c: Counters,
                   counted: bool, maySubmit: bool, now: Time, fault: Fault): (seq<Job>, Counters)
  {
    if Checked(c).Some? then (jobs, c)
    else
      var raised := Raise(c, counted, maySubmit);
      var (jobs', reply) := Sent(jobs, id, worker, Heartbeat(seconds, Some(raised.calls), raised.external), now, fault);
      (jobs', raised.(leaseLost := reply != Done))
  }

  /** The live owner's counters are in the row, and its lease is renewed. */
  predicate Stored(jobs: seq<Job>, jobs': seq<Job>, id: nat, worker: string, seconds: int, calls: nat, now: Time) {
    && id < |jobs| == |jobs'| && OwnsLive(jobs[id], worker, now)
    && |jobs[id].attempts| > 0 && |jobs'[id].attempts| > 0
    && jobs'[id].leaseOwner == Some(worker) && jobs'[id].leaseExpiresAt == Some(now + seconds)
    && Latest(jobs'[id]).calls == calls
  }

  /** What a boundary does, without reference to how the counters are raised. */
  lemma CrossedEffect(jobs: seq<Job>, id: nat, worker: string, seconds: int, c: Counters,
                      counted: bool, maySubmit: bool, now: Time, fault: Fault)
    requires Inv(jobs)
    ensures var (jobs', c') := Crossed(jobs, id, worker, seconds, c, counted, maySubmit, now, fault);
      var passed := !c'.leaseLost && !c'.stopped;
      && c'.stopped == c.stopped && (counted && !maySubmit ==> c'.external == c.external)
      && (passed ==> Stored(jobs, jobs', id, worker, seconds, c'.calls, now))
      && (passed ==> c'.calls == c.calls + (if counted then 1 else 0))
      && (passed && (maySubmit || !counted) ==> c'.external && Latest(jobs'[id]).external && jobs'[id].submittedAt.Some?)
      && (passed && counted && !maySubmit && !c.external ==>
            Latest(jobs'[id]).external == Latest(jobs[id]).external && jobs'[id].submittedAt == jobs[id].submittedAt)
      && (passed <==> !c.leaseLost && !c.stopped && fault.NoFault?
                      && Leased(jobs, id, worker, Heartbeat(seconds, Some(c'.calls), c'.external), now).1 == Done)
  {
    if id < |jobs| { assert JobInv(jobs[id]); }
  }

  /** The clocks and faults that the two transactions of _finalize meet. */
  datatype Finish = Finish(seconds: int, beatNow: Time, beatFault: Fault, now: Time, fault: Fault)

  /** Effect of _finalize on the queue. */
  function Finalized(jobs: seq<Job>, id: nat, worker: string, r: HandlerResult, calls: nat, external: bool, f: Finish)
    : (seq<Job>, RunStatus)
  {
    var confirm := r.status.HandlerSubmitUnknown? && !external;
    var (jobs1, beat) :=
      if confirm then Sent(jobs, id, worker, Heartbeat(f.seconds, Some(calls), true), f.beatNow, f.beatFault) else (jobs, Done);
    if beat != Done then (jobs1, LostLease)
    else
      var call := FinalCall(r, calls, external || confirm);
      var (jobs2, reply) := Sent(jobs1, id, worker, call, f.now, f.fault);
      (jobs2,
       if reply == Done then
         (match call case Complete(_) => JobSucceeded case MarkUnknown(_, _, _, _) => JobSubmitUnknown case _ => JobFailed)
       else if reply == Rejected(409) then LostLease
       else Raised)
  }

  class ExecutionContext {
    const jobId: nat
    var calls: nat
    var external: bool
    var leaseLost: bool
    var stopRequested: bool

    constructor (jobId: nat)
      ensures this.jobId == jobId && State() == Counters(0, false, false, false)
    {
      this.jobId := jobId;
      calls, external, leaseLost, stopRequested := 0, false, false, false;
    }

    function State(): Counters
      reads this
    {
      Counters(calls, external, leaseLost, stopRequested)
    }

    /** Send the counters; any refusal and any failure mean that the lease is lost. */
    method Beat(queue: EQ.ExecutionQueueService, worker: string, seconds: int, count: nat, possible: bool, now: Time, fault: Fault)
      requires queue.Valid()
      modifies this`leaseLost, queue`jobs
      ensures queue.Valid()
      ensures var (jobs, reply) := Sent(old(queue.jobs), jobId, worker, Heartbeat(seconds, Some(count), possible), now, fault);
        queue.jobs == jobs && leaseLost == (old(leaseLost) || reply != Done)
    {
      var reply := UNANSWERED;
      if !fault.BeforeCommit? {
        reply := queue.Heartbeat(jobId, worker, seconds, Some(count), possible, now);
      }
      if reply != Done || fault.AfterCommit? { leaseLost := true; }
    }

    /**
     The write-ahead boundary.  `counted` is a provider call, otherwise a local persist that
     cannot be undone.  When it passes before a possible submission, the queue has stored that
     possibility, under this worker's renewed lease, before the caller can act on it; and it passes
     whenever the lease is live and nothing else stops it.
     */
    method Boundary(queue: EQ.ExecutionQueueService, worker: string, seconds: int, counted: bool, maySubmit: bool, now: Time, fault: Fault)
      returns (r: BoundaryOutcome)
      requires queue.Valid()
      modifies this, queue`jobs
      ensures queue.Valid()
      ensures (queue.jobs, State()) ==
              Crossed(old(queue.jobs), jobId, worker, seconds, old(State()), counted, maySubmit, now, fault)
      ensures r == if leaseLost then LeaseLost else if stopRequested then StopRequested else Passed(calls)
      ensures r.Passed? ==> Stored(old(queue.jobs), queue.jobs, jobId, worker, seconds, calls, now)
      ensures r.Passed? ==> r.count == calls == old(calls) + (if counted then 1 else 0)
      ensures r.Passed? && (maySubmit || !counted) ==>
        Latest(queue.jobs[jobId]).external && queue.jobs[jobId].submittedAt.Some?
      ensures counted && !maySubmit ==> external == old(external)
      ensures r.Passed? && counted && !maySubmit && !old(external) ==>
        Latest(queue.jobs[jobId]).external == Latest(old(queue.jobs)[jobId]).external
        && queue.jobs[jobId].submittedAt == old(queue.jobs)[jobId].submittedAt
      ensures r.Passed? <==> !old(leaseLost) && !old(stopRequested) && fault.NoFault?
                             && Leased(old(queue.jobs), jobId, worker, Heartbeat(seconds, Some(calls), external), now).1 == Done
    {
      ghost var before, state := queue.jobs, State();
      CrossedEffect(before, jobId, worker, seconds, state, counted, maySubmit, now, fault);
      r := Cross(queue, worker, seconds, counted, maySubmit, now, fault);
    }

    method Cross(queue: EQ.ExecutionQueueService, worker: string, seconds: int, counted: bool, maySubmit: bool, now: Time, fault: Fault)
      returns (r: BoundaryOutcome)
      requires queue.Valid()
      modifies this, queue`jobs
      ensures queue.Valid()
      ensures (queue.jobs, State()) ==
              Crossed(old(queue.jobs), jobId, worker, seconds, old(State()), counted, maySubmit, now, fault)
      ensures r == Checked(State()).GetOr(Passed(calls))
    {
      if Checked(State()).Some? { return Checked(State()).value; }
      if counted { calls := calls + 1; }
      if maySubmit || !counted { external := true; }
      Beat(queue, worker, seconds, calls, external, now, fault);
      if Checked(State()).Some? { return Checked(State()).value; }
      return Passed(calls);
    }

    /**
     The end of _execute_claimed: choose the result by how the handler ended (None stands for a lost
     lease that reached the handler), then report it unless the lease is known to be lost.
     */
    method Conclude(queue: EQ.ExecutionQueueService, worker: string, ending: Option<Ending>, f: Finish) returns (status: RunStatus)
      requires queue.Valid() && (ending.Some? && ending.value.ReturnedResult? ==> ValidResult(ending.value.r))
      modifies this`leaseLost, queue`jobs
      ensures queue.Valid()
      ensures old(leaseLost) || ending.None? ==> status == LostLease && queue.jobs == old(queue.jobs)
      ensures !old(leaseLost) && ending.Some? ==>
        (queue.jobs, status) ==
        Finalized(old(queue.jobs), jobId, worker, ResultOf(ending.value, external), calls, external, f)
    {
      if ending.None? || leaseLost { return LostLease; }
      var result;
      match ending.value {
        case StopRaised =>
          result := if external then UnknownResult("WORKER_STOPPED_AFTER_EXTERNAL_SUBMISSION") else FailedResult("WORKER_STOPPED");
        case OtherRaised =>
          result := if external then UnknownResult("HANDLER_EXECUTION_UNCERTAIN") else FailedResult("HANDLER_EXECUTION_FAILED");
        case Unregistered => result := FailedResult("UNREGISTERED_JOB_TYPE");
        case InvalidInput => result := FailedResult("INVALID_JOB_INPUT");
        case NotAResult => result := FailedResult("INVALID_HANDLER_RESULT");
        case ReturnedResult(r) => result := r;
      }
      assert result == ResultOf(ending.value, external);
      if !ending.value.ReturnedResult? { BrokenOffMeansDoubtIffExternal(ending.value, calls, external); }
      status := Finalize(queue, worker, result, f);
    }

    /** Report a result; the heartbeat thread has been joined, so nothing else uses the lease. */
    method Finalize(queue: EQ.ExecutionQueueService, worker: string, r: HandlerResult, f: Finish) returns (status: RunStatus)
      requires queue.Valid() && ValidResult(r) && !leaseLost
      modifies this`leaseLost, queue`jobs
      ensures queue.Valid()
      ensures (queue.jobs, status) == Finalized(old(queue.jobs), jobId, worker, r, calls, external, f)
      ensures leaseLost <==> status == LostLease
    {
      var possible := external;
      if r.status.HandlerSubmitUnknown? && !possible {
        Beat(queue, worker, f.seconds, calls, true, f.beatNow, f.beatFault);
        if leaseLost { return LostLease; }
        possible := true;
      }
      if f.fault.BeforeCommit? { return Raised; }
      var reply;
      if r.status.HandlerSucceeded? {
        reply := queue.Complete(jobId, worker, Completion(r.providerName, r.operationId, calls, r.resultType, r.resultId), f.now);
        status := JobSucceeded;
      } else if r.status.HandlerSubmitUnknown? || (possible && !Certain(r)) {
        reply := queue.MarkSubmitUnknown(jobId, worker, r.errorCode.GetOr("HANDLER_RESULT_UNCERTAIN"), calls,
                                         r.providerName, r.operationId, f.now);
        status := JobSubmitUnknown;
      } else {
        reply := queue.Fail(jobId, worker, r.errorCode.GetOr("HANDLER_EXECUTION_FAILED"), calls, possible,
                            r.state.GetOr(NotStarted), f.now);
        status := JobFailed;
      }
      if f.fault.AfterCommit? { return Raised; }
      if reply == Rejected(409) {
        leaseLost := true;
        status := LostLease;
      } else if reply != Done {
        status := Raised;
      }
    }
  }
}
