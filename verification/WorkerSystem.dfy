/**
 Many workers, one queue.  Each worker's handler thread and heartbeat thread, the queue's
 control calls, and crashes are interleaved step by step.  The ghost record `submissions`
 holds every attempt during which a handler really made an external submission.
 */
module WorkerSystem {
  import opened Wrappers
  import opened ExecutionRecords
  import opened QueueSpec
  import opened QueueInvariant
  import opened QueueRuns
  import opened ExecutionContracts

  datatype Phase =
    | Idle
    | Handling                              // the handler is running
    | Persisting                            // counters raised, boundary not yet stored
    | Returned(result: HandlerResult)       // handler ended, heartbeat thread joined
    | Confirmed(result: HandlerResult)      // doubt stored ahead of the report

  datatype Beat = Beat(calls: nat, external: bool)

  datatype Worker = Worker(
    phase: Phase,
    job: nat,
    attempt: nat,
    calls: nat,
    external: bool,
    armed: bool,            // a boundary with a possible submission has passed
    leaseLost: bool,
    stopped: bool,
    beat: Option<Beat>)     // counters read by the heartbeat thread and not yet sent

  const FRESH := Worker(Idle, 0, 0, 0, false, false, false, false, None)

  datatype System = System(jobs: seq<Job>, workers: map<string, Worker>, submissions: set<(nat, nat)>)

  /** A transaction of a worker may fail without an answer, before or after it is committed. */
  datatype Step =
    | External(op: Op)              // any transaction of anyone but the registered workers
    | Start(w: string)
    | Claim(w: string, autoflush: bool, view: seq<Job>, seconds: int, now: Time, fault: Fault)
    | RaiseCounters(w: string, counted: bool, maySubmit: bool)
    | StoreBoundary(w: string, seconds: int, now: Time, fault: Fault)
    | Submit(w: string)
    | ReadBeat(w: string)
    | SendBeat(w: string, seconds: int, now: Time, fault: Fault)
    | HandlerEnds(w: string, result: HandlerResult)
    | ConfirmDoubt(w: string, seconds: int, now: Time, fault: Fault)
    | Report(w: string, now: Time, fault: Fault)
    | RequestStop(w: string)
    | Crash(w: string)

  function Get(s: System, w: string): Worker { if w in s.workers then s.workers[w] else FRESH }

  function Put(s: System, w: string, k: Worker): System { s.(workers := s.workers[w := k]) }

  /** The queue transaction that a step asks for, if it asks for one. */
  function Call(s: System, step: Step): Option<Op> {
    match step
    case External(op) => if Actor(op).None? || Actor(op).value !in s.workers then Some(op) else None
    case Claim(w, autoflush, view, seconds, now, _) =>
      if w in s.workers && Get(s, w).phase.Idle? && !Get(s, w).stopped then
        Some(ClaimOp(autoflush, view, ClaimRequest(w, seconds, []), now))
      else None
    case StoreBoundary(w, seconds, now, _) =>
      var k := Get(s, w);
      if k.phase.Persisting? then Some(LeaseOp(k.job, w, Heartbeat(seconds, Some(k.calls), k.external), now)) else None
    case SendBeat(w, seconds, now, _) =>
      var k := Get(s, w);
      if !k.phase.Idle? && k.beat.Some? then
        Some(LeaseOp(k.job, w, Heartbeat(seconds, Some(k.beat.value.calls), k.beat.value.external), now))
      else None
    case ConfirmDoubt(w, seconds, now, _) =>
      var k := Get(s, w);
      if k.phase.Returned? && k.phase.result.status.HandlerSubmitUnknown? && !k.external then
        Some(LeaseOp(k.job, w, Heartbeat(seconds, Some(k.calls), true), now))
      else None
    case Report(w, now, _) =>
      var k := Get(s, w);
      if k.phase.Confirmed? || (k.phase.Returned? && !(k.phase.result.status.HandlerSubmitUnknown? && !k.external)) then
        Some(LeaseOp(k.job, w, FinalCall(k.phase.result, k.calls, k.external), now))
      else None
    case _ => None
  }

  /** Steps of a worker that ask for a queue transaction; they do nothing when it is not enabled. */
  predicate NeedsOp(step: Step) {
    step.Claim? || step.StoreBoundary? || step.SendBeat? || step.ConfirmDoubt? || step.Report?
  }

  function FaultOf(step: Step): Fault { if NeedsOp(step) then step.fault else NoFault }

  /** The queue transaction that is committed. */
  function StepOp(s: System, step: Step): Option<Op> {
    if FaultOf(step).BeforeCommit? then None else Call(s, step)
  }

  function TableAfter(s: System, step: Step): seq<Job> {
    if StepOp(s, step).Some? then After(s.jobs, StepOp(s, step).value) else s.jobs
  }

  /** What the worker hears. */
  function Answer(s: System, step: Step): Reply {
    if FaultOf(step) != NoFault then UNANSWERED
    else if Call(s, step).Some? then Apply(s.jobs, Call(s, step).value).1
    else Done
  }

  /** The worker's own state after a step; `reply` answers its queue transaction, `jobs` is the table after it. */
  function Local(k: Worker, step: Step, jobs: seq<Job>, reply: Reply): Worker {
    match step
    case Claim(_, _, _, _, _, _) =>
      if reply.Claimed? && reply.id < |jobs| then
        Worker(Handling, reply.id, jobs[reply.id].attemptCount, 0, false, false, false, k.stopped, None)
      else k
    case RaiseCounters(_, counted, maySubmit) =>
      if k.phase.Handling? && !k.leaseLost && !k.stopped then
        k.(phase := Persisting, calls := k.calls + (if counted then 1 else 0), external := k.external || maySubmit || !counted)
      else k
    case StoreBoundary(_, _, _, _) =>
      if reply != Done then k.(phase := Handling, leaseLost := true)
      else k.(phase := Handling, armed := k.armed || (k.external && !k.leaseLost && !k.stopped))
    case ReadBeat(_) =>
      if (k.phase.Handling? || k.phase.Persisting?) && k.beat.None? then k.(beat := Some(Beat(k.calls, k.external))) else k
    case SendBeat(_, _, _, _) =>
      if reply != Done then k.(beat := None, leaseLost := true) else k.(beat := None)
    case HandlerEnds(_, result) =>
      if k.phase.Handling? && k.beat.None? && ValidResult(result) then
        (if k.leaseLost then FRESH.(stopped := k.stopped) else k.(phase := Returned(result)))
      else k
    case ConfirmDoubt(_, _, _, _) =>
      if reply != Done then FRESH.(stopped := k.stopped)
      else if k.phase.Returned? then k.(phase := Confirmed(k.phase.result), external := true)
      else k
    case Report(_, _, _) => FRESH.(stopped := k.stopped)
    case RequestStop(_) => k.(stopped := true)
    case Crash(_) => FRESH
    case _ => k
  }

  function Next(s: System, step: Step): System {
    if step.External? then s.(jobs := TableAfter(s, step))
    else if step.Start? then (if step.w in s.workers then s else Put(s, step.w, FRESH))
    else if step.Submit? then
      var k := Get(s, step.w);
      if k.phase.Handling? && k.armed then s.(submissions := s.submissions + {(k.job, k.attempt)}) else s
    else if step.w !in s.workers || (NeedsOp(step) && Call(s, step).None?) then s
    else Put(s, step.w, Local(Get(s, step.w), step, TableAfter(s, step), Answer(s, step))).(jobs := TableAfter(s, step))
  }

  function RunSystem(s: System, steps: seq<Step>): System
    decreases |steps|
  {
    if steps == [] then s else RunSystem(Next(s, steps[0]), steps[1..])
  }

  const INITIAL := System([], map[], {})

  // ----- invariant -----

  /** How a busy worker relates to the row of its job. */
  predicate TiedRow(j: Job, w: string, k: Worker) {
    && 1 <= k.attempt <= |j.attempts|
    && var a := j.attempts[k.attempt - 1];
    && (a.status.AttemptRunning? || a.status.AttemptLeaseExpired? || a.status.AttemptSubmitUnknown?)
    && (a.status.AttemptRunning? ==> j.leaseOwner == Some(w) && Dominates(a, k.calls, k.external))
    && (j.leaseOwner == Some(w) ==> k.attempt == |j.attempts|)
    && (k.armed ==> a.external)
  }

  /** What a busy worker knows about itself. */
  predicate LocalInv(k: Worker) {
    && (k.beat.Some? ==> k.beat.value.calls <= k.calls && (k.beat.value.external ==> k.external))
    && (k.phase.Returned? ==> ValidResult(k.phase.result) && k.beat.None? && !k.leaseLost)
    && (k.phase.Confirmed? ==> ValidResult(k.phase.result) && k.beat.None? && k.external)
  }

  predicate Tied(jobs: seq<Job>, w: string, k: Worker) {
    k.job < |jobs| && TiedRow(jobs[k.job], w, k)
  }

  predicate SubmissionsRecorded(jobs: seq<Job>, submissions: set<(nat, nat)>) {
    forall p :: p in submissions ==>
      p.0 < |jobs| && 1 <= p.1 <= |jobs[p.0].attempts| && jobs[p.0].attempts[p.1 - 1].external
  }

  predicate SysInv(s: System) {
    && Inv(s.jobs)
    && (forall w :: w in s.workers && !s.workers[w].phase.Idle? ==>
          LocalInv(s.workers[w]) && Tied(s.jobs, w, s.workers[w]))
    && SubmissionsRecorded(s.jobs, s.submissions)
  }

  lemma ExpiryKeepsTie(j: Job, w: string, k: Worker, now: Time)
    requires JobInv(j) && TiedRow(j, w, k) && Expired(j, now)
    ensures TiedRow(ExpireJob(j, now), w, k) && ExpireJob(j, now).leaseOwner.None?
  {
    if k.attempt == |j.attempts| { assert Latest(j) == j.attempts[k.attempt - 1]; }
  }

  lemma ClaimByOtherKeepsTie(j: Job, w: string, k: Worker, owner: string, expiresAt: Time, now: Time)
    requires TiedRow(j, w, k) && owner != w && j.attempts[k.attempt - 1].status != AttemptRunning
    ensures TiedRow(ClaimJob(j, owner, expiresAt, now), w, k)
  {
    assert ClaimJob(j, owner, expiresAt, now).attempts[k.attempt - 1] == j.attempts[k.attempt - 1];
  }

  lemma CallByOtherKeepsTie(j: Job, w: string, k: Worker, call: LeaseCall, now: Time)
    requires JobInv(j) && TiedRow(j, w, k) && j.status.Running? && j.leaseOwner != Some(w)
    ensures TiedRow(Perform(j, call, now), w, k)
  {
    assert k.attempt < |j.attempts|;
    assert Perform(j, call, now).attempts[k.attempt - 1] == j.attempts[k.attempt - 1];
  }

  /** A move of a row on someone else's behalf cannot break a worker's tie to it. */
  lemma OthersMoveKeepsTie(j: Job, j': Job, op: Op, id: nat, reply: Reply, w: string, k: Worker)
    requires JobInv(j) && TiedRow(j, w, k) && RowMove(j, j', op, id, reply) && Actor(op) != Some(w)
    ensures TiedRow(j', w, k)
  {
    if j' == j {
    } else if Clock(op).Some? && Expired(j, Clock(op).value) && j' == ExpireJob(j, Clock(op).value) {
      ExpiryKeepsTie(j, w, k, Clock(op).value);
    } else if op.ClaimOp? {
      var owner, expiresAt, now := op.request.worker, op.claimNow + op.request.leaseSeconds, op.claimNow;
      if j.status.Queued? && j' == ClaimJob(j, owner, expiresAt, now) {
        ClaimByOtherKeepsTie(j, w, k, owner, expiresAt, now);
      } else {
        ExpiryKeepsTie(j, w, k, now);
        ClaimByOtherKeepsTie(ExpireJob(j, now), w, k, owner, expiresAt, now);
      }
    } else if op.LeaseOp? {
      CallByOtherKeepsTie(j, w, k, op.call, op.leaseNow);
    } else {
      assert j' == ControlJob(j, op.action, op.controlNow).0;
    }
  }

  /** A transaction on someone else's behalf cannot break a worker's tie. */
  lemma OthersKeepTie(jobs: seq<Job>, op: Op, w: string, k: Worker)
    requires Inv(jobs) && Tied(jobs, w, k) && Actor(op) != Some(w)
    ensures Tied(After(jobs, op), w, k)
  {
    RowMoves(jobs, op, k.job);
    assert JobInv(jobs[k.job]);
    OthersMoveKeepsTie(jobs[k.job], After(jobs, op)[k.job], op, k.job, Apply(jobs, op).1, w, k);
  }

  lemma BeatRowKeepsTie(j: Job, w: string, k: Worker, expiresAt: Time, calls: nat, external: bool, now: Time)
    requires JobInv(j) && TiedRow(j, w, k) && j.leaseOwner == Some(w) && calls <= k.calls && (external ==> k.external)
    ensures var j' := HeartbeatJob(j, expiresAt, Some(calls), external, now);
      TiedRow(j', w, k) && (external ==> j'.attempts[k.attempt - 1].external)
  {
    assert Latest(j) == j.attempts[k.attempt - 1];
  }

  /** The worker's own heartbeat, with counters no higher than its own, keeps the tie. */
  lemma OwnBeatKeepsTie(jobs: seq<Job>, w: string, k: Worker, seconds: int, calls: nat, external: bool, now: Time)
    requires Inv(jobs) && Tied(jobs, w, k) && calls <= k.calls && (external ==> k.external)
    ensures var op := LeaseOp(k.job, w, Heartbeat(seconds, Some(calls), external), now);
      && Tied(After(jobs, op), w, k)
      && (Apply(jobs, op).1 == Done && external ==> After(jobs, op)[k.job].attempts[k.attempt - 1].external)
  {
    var op := LeaseOp(k.job, w, Heartbeat(seconds, Some(calls), external), now);
    var j, j' := jobs[k.job], After(jobs, op)[k.job];
    RowMoves(jobs, op, k.job);
    assert JobInv(j);
    if Apply(jobs, op).1 == Done {
      BeatRowKeepsTie(j, w, k, now + seconds, calls, external, now);
    } else if j' != j {
      ExpiryKeepsTie(j, w, k, now);
    }
  }

  lemma ClaimTies(jobs: seq<Job>, op: Op, k: Worker)
    requires Inv(jobs) && op.ClaimOp? && Apply(jobs, op).1.Claimed?
    requires k.phase.Handling? && k.job == Apply(jobs, op).1.id && k.job < |After(jobs, op)|
    requires k.attempt == After(jobs, op)[k.job].attemptCount && k.calls == 0 && !k.external && !k.armed && k.beat.None?
    ensures Tied(After(jobs, op), op.request.worker, k)
  {
    QueuedRowIsRecovered(jobs, op.autoflush, op.claimNow, k.job);
    ApplyKeeps(jobs, op);
    assert JobInv(After(jobs, op)[k.job]);
  }

  lemma SubmissionsKept(jobs: seq<Job>, op: Op, submissions: set<(nat, nat)>)
    requires Inv(jobs) && SubmissionsRecorded(jobs, submissions)
    ensures SubmissionsRecorded(After(jobs, op), submissions)
  {
    forall p | p in submissions
      ensures p.0 < |After(jobs, op)| && 1 <= p.1 <= |After(jobs, op)[p.0].attempts|
              && After(jobs, op)[p.0].attempts[p.1 - 1].external
    {
      ApplyEvolves(jobs, op, p.0);
      assert AttemptEvolves(jobs[p.0].attempts[p.1 - 1], After(jobs, op)[p.0].attempts[p.1 - 1]);
    }
  }

  /** A step that runs no transaction leaves the stepping worker tied. */
  lemma QuietStepTies(jobs: seq<Job>, k: Worker, step: Step)
    requires !step.External? && !step.Submit? && !step.Start? && !NeedsOp(step)
    requires !k.phase.Idle? && LocalInv(k) && Tied(jobs, step.w, k)
    ensures var k' := Local(k, step, jobs, Done); !k'.phase.Idle? ==> LocalInv(k') && Tied(jobs, step.w, k')
  {
  }

  lemma ClaimStepTies(s: System, step: Step)
    requires SysInv(s) && step.Claim? && step.w in s.workers && Call(s, step).Some?
    ensures var k := Local(s.workers[step.w], step, TableAfter(s, step), Answer(s, step));
      !k.phase.Idle? ==> LocalInv(k) && Tied(TableAfter(s, step), step.w, k)
  {
    if Answer(s, step).Claimed? {
      ClaimTies(s.jobs, Call(s, step).value, Local(s.workers[step.w], step, TableAfter(s, step), Answer(s, step)));
    }
  }

  predicate BeatStep(k: Worker, step: Step, calls: nat, external: bool) {
    || (step.StoreBoundary? && k.phase.Persisting? && calls == k.calls && external == k.external)
    || (step.SendBeat? && k.beat == Some(Beat(calls, external)))
    || (step.ConfirmDoubt? && k.phase.Returned? && calls == k.calls && external)
  }

  /** The local half of a heartbeat step, over whatever table the heartbeat left. */
  lemma LocalAfterBeat(jobs: seq<Job>, k: Worker, step: Step, calls: nat, external: bool, reply: Reply)
    requires BeatStep(k, step, calls, external) && !k.phase.Idle? && LocalInv(k)
    requires Tied(jobs, step.w, if step.ConfirmDoubt? then k.(external := true) else k)
    requires reply == Done && external ==> jobs[k.job].attempts[k.attempt - 1].external
    ensures var k' := Local(k, step, jobs, reply); !k'.phase.Idle? ==> LocalInv(k') && Tied(jobs, step.w, k')
  {
  }

  /** A heartbeat step, whichever thread sends it, whether it is committed and whatever the sender hears. */
  lemma BeatStepTies(s: System, step: Step, seconds: int, calls: nat, external: bool, now: Time)
    requires SysInv(s) && NeedsOp(step) && step.w in s.workers && BeatStep(s.workers[step.w], step, calls, external)
    requires var k := s.workers[step.w];
      !k.phase.Idle? && Call(s, step) == Some(LeaseOp(k.job, step.w, Heartbeat(seconds, Some(calls), external), now))
    ensures var k := Local(s.workers[step.w], step, TableAfter(s, step), Answer(s, step));
      !k.phase.Idle? ==> LocalInv(k) && Tied(TableAfter(s, step), step.w, k)
  {
    var k := s.workers[step.w];
    OwnBeatKeepsTie(s.jobs, step.w, if step.ConfirmDoubt? then k.(external := true) else k, seconds, calls, external, now);
    LocalAfterBeat(TableAfter(s, step), k, step, calls, external, Answer(s, step));
  }

  /** The stepping worker after a step that asks for a transaction. */
  lemma ActiveStepTies(s: System, step: Step)
    requires SysInv(s) && NeedsOp(step) && step.w in s.workers && Call(s, step).Some?
    ensures var k := Local(s.workers[step.w], step, TableAfter(s, step), Answer(s, step));
      !k.phase.Idle? ==> LocalInv(k) && Tied(TableAfter(s, step), step.w, k)
  {
    var k := s.workers[step.w];
    match step
    case Claim(_, _, _, _, _, _) => ClaimStepTies(s, step);
    case StoreBoundary(_, seconds, now, _) => BeatStepTies(s, step, seconds, k.calls, k.external, now);
    case SendBeat(_, seconds, now, _) => BeatStepTies(s, step, seconds, k.beat.value.calls, k.beat.value.external, now);
    case ConfirmDoubt(_, seconds, now, _) => BeatStepTies(s, step, seconds, k.calls, true, now);
    case Report(_, _, _) =>
  }

  lemma NextKeepsQueue(s: System, step: Step)
    requires SysInv(s)
    ensures Inv(Next(s, step).jobs) && SubmissionsRecorded(Next(s, step).jobs, Next(s, step).submissions)
  {
    var op := StepOp(s, step);
    if op.Some? {
      ApplyKeeps(s.jobs, op.value);
      SubmissionsKept(s.jobs, op.value, s.submissions);
    }
    if step.Submit? {
      var k := Get(s, step.w);
      if k.phase.Handling? && k.armed { assert Tied(s.jobs, step.w, k); }
    }
  }

  /** A step of worker v's own. */
  predicate Acts(step: Step, v: string) { !step.External? && !step.Submit? && !step.Start? && step.w == v }

  lemma BystanderKept(s: System, step: Step, v: string)
    requires v in Next(s, step).workers && !Next(s, step).workers[v].phase.Idle? && !(Acts(step, v) && v in s.workers)
    ensures v in s.workers && Next(s, step).workers[v] == s.workers[v]
  {
  }

  lemma NextKeepsWorker(s: System, step: Step, v: string)
    requires SysInv(s) && v in Next(s, step).workers && !Next(s, step).workers[v].phase.Idle?
    ensures LocalInv(Next(s, step).workers[v]) && Tied(Next(s, step).jobs, v, Next(s, step).workers[v])
  {
    var op := StepOp(s, step);
    if Acts(step, v) && v in s.workers {
      if NeedsOp(step) {
        if Call(s, step).Some? { ActiveStepTies(s, step); }
      } else if !s.workers[v].phase.Idle? {
        QuietStepTies(s.jobs, s.workers[v], step);
      }
    } else {
      BystanderKept(s, step, v);
      if op.Some? { OthersKeepTie(s.jobs, op.value, v, s.workers[v]); }
    }
  }

  /** Every step of every thread keeps the system invariant. */
  lemma NextKeeps(s: System, step: Step)
    requires SysInv(s)
    ensures SysInv(Next(s, step))
  {
    NextKeepsQueue(s, step);
    forall v | v in Next(s, step).workers && !Next(s, step).workers[v].phase.Idle?
      ensures LocalInv(Next(s, step).workers[v]) && Tied(Next(s, step).jobs, v, Next(s, step).workers[v])
    {
      NextKeepsWorker(s, step, v);
    }
  }

  lemma {:induction false} RunSystemKeeps(s: System, steps: seq<Step>)
    requires SysInv(s)
    ensures SysInv(RunSystem(s, steps))
    decreases |steps|
  {
    if steps != [] {
      NextKeeps(s, steps[0]);
      RunSystemKeeps(Next(s, steps[0]), steps[1..]);
    }
  }
}
