/** The worker's objects take the steps of the system: a boundary is two of them, and so is a report. */
module WorkerRefinement {
  import opened Wrappers
  import opened ExecutionRecords
  import opened QueueSpec
  import opened ExecutionContracts
  import opened WorkerSystem

  /** The context's counters are the worker's. */
  predicate Matches(k: Worker, c: Counters) {
    k.calls == c.calls && k.external == c.external && k.leaseLost == c.leaseLost && k.stopped == c.stopped
  }

  /** Everything but one worker and the table is as before. */
  predicate OnlyWorker(s: System, s': System, w: string) {
    s'.submissions == s.submissions && s'.workers.Keys == s.workers.Keys && s'.workers - {w} == s.workers - {w}
  }

  /** A boundary raises the counters and then stores them; it arms the worker exactly if it passes with a possible submission. */
  lemma BoundaryIsTwoSteps(s: System, w: string, c: Counters, seconds: int, counted: bool, maySubmit: bool, now: Time, fault: Fault)
    requires w in s.workers && s.workers[w].phase.Handling? && Matches(s.workers[w], c)
    ensures var k := s.workers[w];
      var s' := Next(Next(s, RaiseCounters(w, counted, maySubmit)), StoreBoundary(w, seconds, now, fault));
      var (jobs, c') := Crossed(s.jobs, k.job, w, seconds, c, counted, maySubmit, now, fault);
      && s'.jobs == jobs && OnlyWorker(s, s', w)
      && s'.workers[w].phase.Handling? && Matches(s'.workers[w], c')
      && s'.workers[w].job == k.job && s'.workers[w].attempt == k.attempt && s'.workers[w].beat == k.beat
      && (s'.workers[w].armed <==> k.armed || (Checked(c').None? && c'.external))
  {
    var k := s.workers[w];
    var s1 := Next(s, RaiseCounters(w, counted, maySubmit));
    if Checked(c).Some? {
      assert s1.workers[w] == k;
    } else {
      assert s1.workers[w].phase.Persisting? && Matches(s1.workers[w], Raise(c, counted, maySubmit)) && s1.jobs == s.jobs;
    }
  }

  lemma ConfirmStep(s: System, w: string, r: HandlerResult, seconds: int, now: Time, fault: Fault)
    requires w in s.workers && s.workers[w].phase == Returned(r)
    ensures var k, s' := s.workers[w], Next(s, ConfirmDoubt(w, seconds, now, fault));
      if r.status.HandlerSubmitUnknown? && !k.external then
        var (jobs, reply) := Sent(s.jobs, k.job, w, Heartbeat(seconds, Some(k.calls), true), now, fault);
        s' == Put(s, w, if reply == Done then k.(phase := Confirmed(r), external := true) else FRESH.(stopped := k.stopped)).(jobs := jobs)
      else s' == s
  {
  }

  /** Ready to make the final call. */
  predicate ReadyToReport(k: Worker, r: HandlerResult) {
    k.phase == Confirmed(r) || (k.phase == Returned(r) && !(r.status.HandlerSubmitUnknown? && !k.external))
  }

  lemma ReportStep(s: System, w: string, r: HandlerResult, now: Time, fault: Fault)
    requires w in s.workers
    ensures var k, s' := s.workers[w], Next(s, Report(w, now, fault));
      && (ReadyToReport(k, r) ==>
            s' == Put(s, w, FRESH.(stopped := k.stopped)).(jobs := Sent(s.jobs, k.job, w, FinalCall(r, k.calls, k.external), now, fault).0))
      && (k.phase.Idle? ==> s' == s)
  {
  }

  /** A report stores the doubt if there is one to store, and then makes the final call. */
  lemma FinalizedIsTwoSteps(s: System, w: string, r: HandlerResult, f: Finish)
    requires w in s.workers && s.workers[w].phase == Returned(r)
    ensures var k := s.workers[w];
      var s' := Next(Next(s, ConfirmDoubt(w, f.seconds, f.beatNow, f.beatFault)), Report(w, f.now, f.fault));
      && s'.jobs == Finalized(s.jobs, k.job, w, r, k.calls, k.external, f).0 && OnlyWorker(s, s', w)
      && s'.workers[w] == FRESH.(stopped := k.stopped)
  {
    var s1 := Next(s, ConfirmDoubt(w, f.seconds, f.beatNow, f.beatFault));
    ConfirmStep(s, w, r, f.seconds, f.beatNow, f.beatFault);
    ReportStep(s1, w, r, f.now, f.fault);
  }
}
