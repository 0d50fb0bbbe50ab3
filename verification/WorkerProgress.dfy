/**
 What a worker gets done as long as nothing fails and its lease is live, from every state that satisfies the
 system invariant, hence from every reachable state.
 */
module WorkerProgress {
  import opened Wrappers
  import opened ExecutionRecords
  import opened QueueSpec
  import opened QueueInvariant
  import opened QueueRuns
  import opened ExecutionContracts
  import opened WorkerSystem
  import opened WorkerSafety
  import QE = QueueEffects
  import WR = WorkerRefinement

  /** A busy worker whose lease is live. */
  predicate Holds(s: System, w: string, now: Time) {
    && w in s.workers && !s.workers[w].phase.Idle?
    && s.workers[w].job < |s.jobs| && OwnsLive(s.jobs[s.workers[w].job], w, now)
  }

  /** A claim that is answered makes the worker handle the job's new attempt, with nothing counted yet. */
  lemma ClaimStartsWork(s: System, w: string, autoflush: bool, view: seq<Job>, seconds: int, now: Time, c: nat)
    requires w in s.workers && s.workers[w].phase.Idle? && !s.workers[w].stopped
    requires SysInv(s) && ValidLease(seconds) && ClaimTry(s.jobs, autoflush, view, ClaimRequest(w, seconds, []), now).1 == Claimed(c)
    ensures var s' := Next(s, Claim(w, autoflush, view, seconds, now, NoFault));
      && c < |s'.jobs| && w in s'.workers && |s'.jobs[c].attempts| > 0
      && s'.workers[w] == Worker(Handling, c, |s'.jobs[c].attempts|, 0, false, false, false, false, None)
      && (forall t: Time :: OwnsLive(s'.jobs[c], w, t) <==> t < now + seconds)
      && s'.jobs[c].attempts[|s'.jobs[c].attempts| - 1] ==
         Attempt(|s'.jobs[c].attempts|, AttemptRunning, now, None, None, 0, false, NotStarted)
  {
    var data := ClaimRequest(w, seconds, []);
    QE.ClaimEffect(s.jobs, autoflush, view, data, now, c);
    ClaimTryKeeps(s.jobs, autoflush, view, data, now);
    assert JobInv(ClaimTry(s.jobs, autoflush, view, data, now).0[c]);
  }

  /** A worker that is busy or was asked to stop claims nothing. */
  lemma NoClaimWhileBusyOrStopped(s: System, w: string, autoflush: bool, view: seq<Job>, seconds: int, now: Time, fault: Fault)
    requires !(w in s.workers && s.workers[w].phase.Idle? && !s.workers[w].stopped)
    ensures Next(s, Claim(w, autoflush, view, seconds, now, fault)) == s
  {
  }

  /**
   A boundary before a possible submission is stored under a live lease: the worker may then submit, the
   attempt is flagged, the job is marked, and the lease is renewed.
   */
  lemma BoundaryArms(s: System, w: string, seconds: int, counted: bool, maySubmit: bool, now: Time)
    requires SysInv(s) && Holds(s, w, now) && s.workers[w].phase.Handling? && !s.workers[w].leaseLost && !s.workers[w].stopped
    requires ValidLease(seconds) && (maySubmit || !counted)
    ensures var k := s.workers[w];
      var s' := Next(Next(s, RaiseCounters(w, counted, maySubmit)), StoreBoundary(w, seconds, now, NoFault));
      && w in s'.workers && s'.workers[w].phase.Handling? && s'.workers[w].armed && !s'.workers[w].leaseLost
      && s'.workers[w].job == k.job && s'.workers[w].attempt == k.attempt
      && s'.workers[w].calls == k.calls + (if counted then 1 else 0)
      && k.job < |s'.jobs| && 1 <= k.attempt == |s'.jobs[k.job].attempts|
      && s'.jobs[k.job].attempts[k.attempt - 1].external && s'.jobs[k.job].submittedAt.Some?
      && s'.jobs[k.job].attempts[k.attempt - 1].calls == s'.workers[w].calls
      && s'.jobs[k.job].leaseExpiresAt == Some(now + seconds)
      && Next(s', Submit(w)).submissions == s'.submissions + {(k.job, k.attempt)}
  {
    var k := s.workers[w];
    var c := Counters(k.calls, k.external, false, false);
    BoundaryIsAccepted(s, w, seconds, counted, maySubmit, now);
    WR.BoundaryIsTwoSteps(s, w, c, seconds, counted, maySubmit, now, NoFault);
    CrossedEffect(s.jobs, k.job, w, seconds, c, counted, maySubmit, now, NoFault);
    SubmitIsEnabled(Next(Next(s, RaiseCounters(w, counted, maySubmit)), StoreBoundary(w, seconds, now, NoFault)), w);
  }

  lemma SubmitIsEnabled(s: System, w: string)
    requires w in s.workers && s.workers[w].phase.Handling? && s.workers[w].armed
    ensures Next(s, Submit(w)).submissions == s.submissions + {(s.workers[w].job, s.workers[w].attempt)}
  {
  }

  lemma BoundaryIsAccepted(s: System, w: string, seconds: int, counted: bool, maySubmit: bool, now: Time)
    requires SysInv(s) && Holds(s, w, now) && ValidLease(seconds) && !s.workers[w].leaseLost && !s.workers[w].stopped
    ensures var k := s.workers[w]; var c := Counters(k.calls, k.external, false, false);
      var (jobs', c') := Crossed(s.jobs, k.job, w, seconds, c, counted, maySubmit, now, NoFault);
      !c'.leaseLost && !c'.stopped && |jobs'| == |s.jobs| && 1 <= k.attempt == |jobs'[k.job].attempts|
  {
    var k := s.workers[w];
    var c := Counters(k.calls, k.external, false, false);
    TieGivesDominance(s, w, now);
    assert Tied(s.jobs, w, k) && JobInv(s.jobs[k.job]);
    var raised := Raise(c, counted, maySubmit);
    QE.LeaseReplyExact(s.jobs, k.job, w, Heartbeat(seconds, Some(raised.calls), raised.external), now);
    QE.AcceptedCall(s.jobs, k.job, w, Heartbeat(seconds, Some(raised.calls), raised.external), now);
  }

  /** Once a worker may have submitted, every expiry of its job, at any later time, ends in SUBMIT_UNKNOWN. */
  lemma ArmedJobIsNeverRequeued(s: System, w: string, more: seq<Step>, now: Time)
    requires SysInv(s) && w in s.workers && !s.workers[w].phase.Idle? && s.workers[w].armed
    ensures var i, t := s.workers[w].job, RunSystem(s, more);
      && i < |t.jobs|
      && (t.jobs[i].status.Running? && t.jobs[i].leaseExpiresAt.Some? && t.jobs[i].leaseExpiresAt.value <= now ==>
            Recover(t.jobs, now)[i].status.SubmitUnknown? && Recover(t.jobs, now)[i].uncertain)
  {
    var k := s.workers[w];
    assert Tied(s.jobs, w, k);
    SystemIsQueueRun(s, more);
    FlaggedIsNeverRequeued(s.jobs, Ops(s, more), k.job, k.attempt - 1, now);
  }

  lemma FlaggedIsNeverRequeued(jobs: seq<Job>, ops: seq<Op>, i: nat, k: nat, now: Time)
    requires Inv(jobs) && i < |jobs| && k < |jobs[i].attempts| && jobs[i].attempts[k].external
    ensures var t := Run(jobs, ops);
      && i < |t|
      && (t[i].status.Running? && t[i].leaseExpiresAt.Some? && t[i].leaseExpiresAt.value <= now ==>
            Recover(t, now)[i].status.SubmitUnknown? && Recover(t, now)[i].uncertain)
  {
    NoRequeueAfterBoundary(jobs, ops, i, k, now);
    RunKeeps(jobs, ops);
    QE.ExpiryEffect(Run(jobs, ops), now, i);
  }

  lemma ReadEffect(s: System, w: string)
    requires w in s.workers && (s.workers[w].phase.Handling? || s.workers[w].phase.Persisting?) && s.workers[w].beat.None?
    ensures var k, s' := s.workers[w], Next(s, ReadBeat(w));
      s'.jobs == s.jobs && w in s'.workers && s'.workers[w] == k.(beat := Some(Beat(k.calls, k.external)))
  {
  }

  /** The heartbeat thread's beat renews the lease unless a newer count was stored since it read. */
  lemma BackgroundBeatRenews(s: System, w: string, seconds: int, now: Time)
    requires SysInv(s) && Holds(s, w, now) && (s.workers[w].phase.Handling? || s.workers[w].phase.Persisting?) && s.workers[w].beat.None?
    requires ValidLease(seconds)
    ensures var k := s.workers[w];
      var s' := Next(Next(s, ReadBeat(w)), SendBeat(w, seconds, now, NoFault));
      && w in s'.workers && s'.workers[w] == k && k.job < |s'.jobs|
      && s'.jobs[k.job].leaseExpiresAt == Some(now + seconds) && s'.jobs[k.job].leaseOwner == Some(w)
  {
    var k := s.workers[w];
    TieGivesDominance(s, w, now);
    var call := Heartbeat(seconds, Some(k.calls), k.external);
    QE.LeaseReplyExact(s.jobs, k.job, w, call, now);
    QE.HeartbeatEffect(s.jobs, k.job, w, seconds, Some(k.calls), k.external, now);
    var s1 := Next(s, ReadBeat(w));
    ReadEffect(s, w);
    SendBeatEffect(s1, w, seconds, now, NoFault);
  }

  /** A valid result that the handler returns is the one the worker goes on to report, unless the lease is lost. */
  lemma ResultIsTaken(s: System, w: string, r: HandlerResult)
    requires w in s.workers && s.workers[w].phase.Handling? && s.workers[w].beat.None? && ValidResult(r)
    ensures var s' := Next(s, HandlerEnds(w, r));
      && s'.jobs == s.jobs && w in s'.workers
      && if s.workers[w].leaseLost then s'.workers[w].phase.Idle? else s'.workers[w] == s.workers[w].(phase := Returned(r))
  {
  }

  /** The lease is live for the final call, and for the heartbeat ahead of it if there is one. */
  predicate LiveToReport(s: System, w: string, r: HandlerResult, f: Finish) {
    if r.status.HandlerSubmitUnknown? && !Get(s, w).external then
      Holds(s, w, f.beatNow) && ValidLease(f.seconds) && f.now < f.beatNow + f.seconds
    else Holds(s, w, f.now)
  }

  /**
   What a handler returned is recorded on the job, as a success, a plain failure
   or a doubt, and the worker is free for the next job.
   */
  lemma ResultIsRecorded(s: System, w: string, r: HandlerResult, f: Finish)
    requires SysInv(s)
      && w in s.workers && s.workers[w].phase == Returned(r) && LiveToReport(s, w, r, f)
      && !Unreportable(r, s.workers[w].external) && f.beatFault.NoFault? && f.fault.NoFault?
    ensures var k := s.workers[w];
      var s' := Next(Next(s, ConfirmDoubt(w, f.seconds, f.beatNow, f.beatFault)), Report(w, f.now, f.fault));
      && w in s'.workers && s'.workers[w].phase.Idle? && k.job < |s'.jobs|
      && var j := s'.jobs[k.job];
      && j.completedAt == Some(f.now) && j.errorCode == r.errorCode
      && (j.status.Succeeded? <==> r.status.HandlerSucceeded?)
      && (j.status.Failed? <==> r.status.HandlerFailed? && (!k.external || (r.state.Some? && CertainState(r.state.value))))
      && (j.status.Succeeded? || j.status.Failed? || j.status.SubmitUnknown?)
      && (j.status.Succeeded? ==> j.resultType == r.resultType && j.resultId == r.resultId)
      && (!j.status.Failed? ==> j.providerName == r.providerName && j.operationId == r.operationId)
  {
    var k := s.workers[w];
    assert LocalInv(k);
    WR.FinalizedIsTwoSteps(s, w, r, f);
    if r.status.HandlerSubmitUnknown? && !k.external {
      DoubtIsRecorded(s, w, r, f);
    } else {
      TieGivesDominance(s, w, f.now);
      FinalCallAcceptedIff(s.jobs, k.job, w, r, k.calls, k.external, f.now);
      FinalCallRecords(s.jobs, k.job, w, r, k.calls, k.external, f.now);
      FinalCallColumns(s.jobs, k.job, w, r, k.calls, k.external, f.now);
    }
  }

  /** A doubt that no boundary announced is stored by a heartbeat first. */
  lemma DoubtIsRecorded(s: System, w: string, r: HandlerResult, f: Finish)
    requires SysInv(s) && w in s.workers && s.workers[w].phase == Returned(r) && LiveToReport(s, w, r, f)
    requires r.status.HandlerSubmitUnknown? && !s.workers[w].external && f.beatFault.NoFault? && f.fault.NoFault?
    ensures var k := s.workers[w]; var jobs' := Finalized(s.jobs, k.job, w, r, k.calls, k.external, f).0;
      && k.job < |jobs'| && jobs'[k.job].status.SubmitUnknown? && jobs'[k.job].completedAt == Some(f.now)
      && jobs'[k.job].errorCode == r.errorCode
      && jobs'[k.job].providerName == r.providerName && jobs'[k.job].operationId == r.operationId
  {
    var k := s.workers[w];
    assert LocalInv(k);
    TieGivesDominance(s, w, f.beatNow);
    var beat := Heartbeat(f.seconds, Some(k.calls), true);
    QE.LeaseReplyExact(s.jobs, k.job, w, beat, f.beatNow);
    QE.HeartbeatEffect(s.jobs, k.job, w, f.seconds, Some(k.calls), true, f.beatNow);
    LeasedKeeps(s.jobs, k.job, w, beat, f.beatNow);
    var jobs1 := Leased(s.jobs, k.job, w, beat, f.beatNow).0;
    assert OwnsLive(jobs1[k.job], w, f.now);
    FinalCallAcceptedIff(jobs1, k.job, w, r, k.calls, true, f.now);
    FinalCallRecords(jobs1, k.job, w, r, k.calls, true, f.now);
    FinalCallColumns(jobs1, k.job, w, r, k.calls, true, f.now);
  }
}
