/** Enqueuing script generation jobs: the call quota is reserved in the transaction that creates the job. */
module ScriptQuota {
  import opened Wrappers
  import opened Tables
  import opened ExecutionRecords
  import opened QueueSpec
  import opened QueueInvariant
  import opened QueueRuns
  import opened Keys

  const SCRIPT_JOB_TYPE := "qwen.video_script.generate.v1"
  const SCRIPT_SOURCE := "batch_video_variant"

  datatype Budget = Budget(quota: nat, reserved: nat)

  /** batchOf gives each variant its batch; budgets are the two quota columns of each batch. */
  datatype State = State(jobs: seq<Job>, batchOf: seq<nat>, budgets: seq<Budget>)

  /** `ready` and `matches` are the verdicts of the preflight that enqueue runs again. */
  datatype EnqueueRequest = EnqueueRequest(
    variant: nat, clientKey: string, inputDigest: string, cost: nat, expired: bool, ready: bool, matches: bool, now: Time)

  function JobKey(sha: string -> string, req: EnqueueRequest): string {
    SCRIPT_JOB_TYPE + ":" + sha(VariantKey(req.variant, req.clientKey))
  }

  function JobSpecOf(sha: string -> string, req: EnqueueRequest): JobSpec {
    JobSpec(SCRIPT_JOB_TYPE, SCRIPT_SOURCE, req.variant, req.inputDigest, JobKey(sha, req), 0,
            Some("qwen-video-script-variant-" + Decimal(req.variant)), req.cost, true, 1, req.now)
  }

  /** The lookup of an earlier job with this key, among the first n rows. */
  function Existing(jobs: seq<Job>, n: nat, sha: string -> string, req: EnqueueRequest): Option<Reply>
    requires n <= |jobs|
  {
    var found := Find(jobs, JobKeyOf, JobKey(sha, req), n);
    if found.None? then None
    else
      var spec := jobs[found.value].spec;
      if spec.jobType != SCRIPT_JOB_TYPE || spec.sourceType != SCRIPT_SOURCE || spec.sourceId != req.variant
         || spec.inputDigest != req.inputDigest then Some(Rejected(409))
      else Some(Reused(found.value))
  }

  function Min(a: nat, b: nat): nat { if a < b then a else b }

  /**
   One enqueue.  The first lookup sees `seen` rows and the lookup inside job creation sees
   `createSeen` rows; whenever no job is created the session closes without a commit.
   */
  function Enqueue(s: State, sha: string -> string, seen: nat, createSeen: nat, req: EnqueueRequest): (State, Reply) {
    var early := Existing(s.jobs, Min(seen, |s.jobs|), sha, req);
    var late := Existing(s.jobs, |s.jobs|, sha, req);
    if early.Some? then (s, early.value)
    else if req.expired then (s, Rejected(409))
    else if !req.ready then (s, if late.Some? then late.value else Rejected(409))
    else if !req.matches then (s, Rejected(409))
    else if req.variant >= |s.batchOf| || s.batchOf[req.variant] >= |s.budgets| then (s, Rejected(404))
    else
      var b := s.batchOf[req.variant];
      if s.budgets[b].reserved >= s.budgets[b].quota then (s, if late.Some? then late.value else Rejected(409))
      else
        var (jobs, reply) := Create(s.jobs, createSeen, JobSpecOf(sha, req));
        if reply.Created? then
          (State(jobs, s.batchOf, s.budgets[b := Budget(s.budgets[b].quota, s.budgets[b].reserved + 1)]), reply)
        else (s, reply)  // the reservation is never committed
  }

  // ----- exactly when a job is created -----

  predicate KeyTaken(jobs: seq<Job>, key: string) { exists i :: 0 <= i < |jobs| && jobs[i].spec.idempotencyKey == key }

  /** The request passes every check that does not depend on the lookups, and its batch has a call left. */
  predicate WithinQuota(s: State, req: EnqueueRequest) {
    && !req.expired && req.ready && req.matches
    && req.variant < |s.batchOf| && s.batchOf[req.variant] < |s.budgets|
    && s.budgets[s.batchOf[req.variant]].reserved < s.budgets[s.batchOf[req.variant]].quota
  }

  /** One job for the variant and one reserved call were added, and nothing else changed. */
  predicate JobReserved(s: State, s': State, key: string, req: EnqueueRequest)
    requires req.variant < |s.batchOf| && s.batchOf[req.variant] < |s.budgets|
  {
    var n, b := |s.jobs|, s.batchOf[req.variant];
    && |s'.jobs| == n + 1 && s'.jobs[..n] == s.jobs && s'.batchOf == s.batchOf
    && |s'.budgets| == |s.budgets| && (forall c :: 0 <= c < |s.budgets| && c != b ==> s'.budgets[c] == s.budgets[c])
    && s'.budgets[b].quota == s.budgets[b].quota && s'.budgets[b].reserved == s.budgets[b].reserved + 1
    && var j := s'.jobs[n];
    && j.status.Queued? && j.attemptCount == 0 && j.attempts == [] && j.leaseOwner.None? && j.submittedAt.None? && !j.uncertain
    && j.spec.jobType == "qwen.video_script.generate.v1" && j.spec.sourceType == "batch_video_variant"
    && j.spec.sourceId == req.variant && j.spec.inputDigest == req.inputDigest && j.spec.idempotencyKey == key
    && j.spec.concurrencyKey == Some("qwen-video-script-variant-" + Decimal(req.variant))
    && j.spec.estimatedCost == req.cost && j.spec.costConfirmed && j.spec.maxAttempts == 1
    && j.spec.priority == 0 && j.spec.createdAt == req.now
  }

  /**
   A job is created exactly when no job has the request's key, it is unexpired, ready and matching, its variant
   and batch exist, and the batch has a call left; whatever the lookups saw.  Otherwise nothing changes.
   */
  lemma EnqueueExact(s: State, sha: string -> string, seen: nat, createSeen: nat, req: EnqueueRequest)
    ensures var (s', reply) := Enqueue(s, sha, seen, createSeen, req);
      && (reply.Created? <==> !KeyTaken(s.jobs, JobKey(sha, req)) && WithinQuota(s, req))
      && (reply.Created? ==> reply == Created(|s.jobs|) && JobReserved(s, s', JobKey(sha, req), req))
      && (!reply.Created? ==> s' == s)
  {
    KeyTakenIff(s.jobs, JobKey(sha, req), Min(seen, |s.jobs|));
    KeyTakenIff(s.jobs, JobKey(sha, req), Min(createSeen, |s.jobs|));
  }

  lemma KeyTakenIff(jobs: seq<Job>, key: string, n: nat)
    requires n <= |jobs|
    ensures KeyTaken(jobs, key) <==> Find(jobs, JobKeyOf, key, |jobs|).Some?
    ensures Find(jobs, JobKeyOf, key, n).Some? ==> KeyTaken(jobs, key)
  {
    if i :| 0 <= i < |jobs| && jobs[i].spec.idempotencyKey == key { assert JobKeyOf(jobs[i]) == key; }
  }

  /** The code of every refusal of a request whose key is new. */
  lemma EnqueueCodes(s: State, sha: string -> string, seen: nat, createSeen: nat, req: EnqueueRequest)
    requires !KeyTaken(s.jobs, JobKey(sha, req)) && !WithinQuota(s, req)
    ensures Enqueue(s, sha, seen, createSeen, req).1 ==
      if !req.expired && req.ready && req.matches
         && !(req.variant < |s.batchOf| && s.batchOf[req.variant] < |s.budgets|) then Rejected(404) else Rejected(409)
  {
    KeyTakenIff(s.jobs, JobKey(sha, req), Min(seen, |s.jobs|));
    KeyTakenIff(s.jobs, JobKey(sha, req), Min(createSeen, |s.jobs|));
  }

  /** The same job: type, source, variant and digest agree. */
  predicate SameRequest(j: Job, req: EnqueueRequest) {
    && j.spec.jobType == "qwen.video_script.generate.v1" && j.spec.sourceType == "batch_video_variant"
    && j.spec.sourceId == req.variant && j.spec.inputDigest == req.inputDigest
  }

  /** The reply to a request whose key job i has, by what the first lookup saw. */
  lemma TakenKeyReply(s: State, sha: string -> string, seen: nat, createSeen: nat, req: EnqueueRequest, i: nat)
    requires IdempotencyKeysUnique(s.jobs) && i < |s.jobs| && s.jobs[i].spec.idempotencyKey == JobKey(sha, req)
    requires req.variant < |s.batchOf| && s.batchOf[req.variant] < |s.budgets|
    ensures var (s', reply) := Enqueue(s, sha, seen, createSeen, req);
      var again := if SameRequest(s.jobs[i], req) then Reused(i) else Rejected(409);
      && s' == s
      && if i < seen then reply == again
         else if req.expired then reply == Rejected(409)
         else if !req.ready then reply == again
         else if !req.matches then reply == Rejected(409)
         else if s.budgets[s.batchOf[req.variant]].reserved >= s.budgets[s.batchOf[req.variant]].quota then reply == again
         else reply == if s.jobs[i].spec.inputDigest == req.inputDigest then Reused(i) else Rejected(409)
  {
    LookupIsExact(s.jobs, i, Min(seen, |s.jobs|));
    LookupIsExact(s.jobs, i, Min(createSeen, |s.jobs|));
    LookupIsExact(s.jobs, i, |s.jobs|);
  }

  // ----- conservation -----

  predicate IsScriptJob(s: State, b: nat, j: Job) {
    && j.spec.jobType == SCRIPT_JOB_TYPE && j.spec.sourceType == SCRIPT_SOURCE
    && j.spec.sourceId < |s.batchOf| && s.batchOf[j.spec.sourceId] == b
  }

  function ScriptJobs(s: State, b: nat): set<nat> {
    set i: nat | i < |s.jobs| && IsScriptJob(s, b, s.jobs[i])
  }

  predicate QuotaInv(s: State) {
    && Inv(s.jobs)
    && (forall b :: 0 <= b < |s.budgets| ==> s.budgets[b].reserved <= s.budgets[b].quota)
    && (forall b: nat :: b < |s.budgets| ==> |ScriptJobs(s, b)| == s.budgets[b].reserved)
  }

  datatype QuotaStep =
    | EnqueueStep(sha: string -> string, seen: nat, createSeen: nat, req: EnqueueRequest)
    | OtherStep(op: Op)            // any queue transaction; creation of script jobs is this service's alone
    | NewBatchStep(quota: nat)
    | NewVariantStep(batch: nat)

  /** A variant row is inserted with the next identity, so no script job can name it yet. */
  predicate Enabled(s: State, step: QuotaStep) {
    match step
    case OtherStep(op) => op.CreateOp? ==> op.spec.jobType != SCRIPT_JOB_TYPE
    case NewVariantStep(b) => b < |s.budgets|
    case _ => true
  }

  function Next(s: State, step: QuotaStep): State {
    if !Enabled(s, step) then s
    else
      match step
      case EnqueueStep(sha, seen, createSeen, req) => Enqueue(s, sha, seen, createSeen, req).0
      case OtherStep(op) => s.(jobs := After(s.jobs, op))
      case NewBatchStep(quota) => s.(budgets := s.budgets + [Budget(quota, 0)])
      case NewVariantStep(b) => s.(batchOf := s.batchOf + [b])
  }

  function RunQuota(s: State, steps: seq<QuotaStep>): State
    decreases |steps|
  {
    if steps == [] then s else RunQuota(Next(s, steps[0]), steps[1..])
  }

  /** Every script job names a variant that exists, and every variant a batch that exists. */
  predicate Linked(s: State) {
    && (forall v :: 0 <= v < |s.batchOf| ==> s.batchOf[v] < |s.budgets|)
    && (forall i :: 0 <= i < |s.jobs| && s.jobs[i].spec.jobType == SCRIPT_JOB_TYPE ==> s.jobs[i].spec.sourceId < |s.batchOf|)
  }

  lemma CountAfterCreate(s: State, s': State, spec: JobSpec, b: nat, c: nat)
    requires s'.jobs == s.jobs + [NewJob(spec)] && s'.batchOf == s.batchOf
    requires IsScriptJob(s, b, NewJob(spec))
    ensures |ScriptJobs(s', c)| == |ScriptJobs(s, c)| + if c == b then 1 else 0
  {
    if c == b {
      assert ScriptJobs(s', c) == ScriptJobs(s, c) + {|s.jobs|};
    } else {
      assert ScriptJobs(s', c) == ScriptJobs(s, c);
    }
  }

  /** One job is created for a variant, and one call reserved for it in the variant's batch. */
  predicate Reserves(s: State, s': State, spec: JobSpec, variant: nat) {
    && variant < |s.batchOf| && s.batchOf[variant] < |s.budgets|
    && IsScriptJob(s, s.batchOf[variant], NewJob(spec))
    && var b := s.batchOf[variant];
       s.budgets[b].reserved < s.budgets[b].quota
       && s'.jobs == s.jobs + [NewJob(spec)] && s'.batchOf == s.batchOf
       && s'.budgets == s.budgets[b := Budget(s.budgets[b].quota, s.budgets[b].reserved + 1)]
  }

  lemma ReserveKeeps(s: State, s': State, spec: JobSpec, variant: nat)
    requires QuotaInv(s) && Linked(s) && Inv(s'.jobs) && Reserves(s, s', spec, variant)
    ensures QuotaInv(s') && Linked(s')
  {
    forall c: nat | c < |s.budgets| ensures |ScriptJobs(s', c)| == s'.budgets[c].reserved {
      CountAfterCreate(s, s', spec, s.batchOf[variant], c);
    }
  }

  /** An enqueue that changes the state creates one job and reserves one call for it. */
  lemma EnqueueReserves(s: State, sha: string -> string, seen: nat, createSeen: nat, req: EnqueueRequest)
    ensures var (s', reply) := Enqueue(s, sha, seen, createSeen, req);
      if reply.Created? then
        && Reserves(s, s', JobSpecOf(sha, req), req.variant)
        && Create(s.jobs, createSeen, JobSpecOf(sha, req)) == (s'.jobs, reply)
      else s' == s
  {
  }

  lemma EnqueueKeeps(s: State, sha: string -> string, seen: nat, createSeen: nat, req: EnqueueRequest)
    requires QuotaInv(s) && Linked(s)
    ensures QuotaInv(Enqueue(s, sha, seen, createSeen, req).0) && Linked(Enqueue(s, sha, seen, createSeen, req).0)
  {
    EnqueueReserves(s, sha, seen, createSeen, req);
    CreateKeeps(s.jobs, createSeen, JobSpecOf(sha, req));
    if Enqueue(s, sha, seen, createSeen, req).1.Created? {
      ReserveKeeps(s, Enqueue(s, sha, seen, createSeen, req).0, JobSpecOf(sha, req), req.variant);
    }
  }

  lemma OtherKeeps(s: State, op: Op)
    requires QuotaInv(s) && Linked(s) && (op.CreateOp? ==> op.spec.jobType != SCRIPT_JOB_TYPE)
    ensures QuotaInv(s.(jobs := After(s.jobs, op))) && Linked(s.(jobs := After(s.jobs, op)))
  {
    var s' := s.(jobs := After(s.jobs, op));
    ApplyKeeps(s.jobs, op);
    assert |s.jobs| <= |s'.jobs|;
    forall i | 0 <= i < |s.jobs| ensures s'.jobs[i].spec == s.jobs[i].spec { ApplyEvolves(s.jobs, op, i); }
    forall i | |s.jobs| <= i < |s'.jobs| ensures s'.jobs[i].spec.jobType != SCRIPT_JOB_TYPE { assert op.CreateOp?; }
    forall b: nat | b < |s.budgets| ensures |ScriptJobs(s', b)| == s.budgets[b].reserved {
      assert ScriptJobs(s', b) == ScriptJobs(s, b);
    }
  }

  lemma NextKeepsQuota(s: State, step: QuotaStep)
    requires QuotaInv(s) && Linked(s)
    ensures QuotaInv(Next(s, step)) && Linked(Next(s, step))
  {
    var s' := Next(s, step);
    if Enabled(s, step) {
      match step
      case EnqueueStep(sha, seen, createSeen, req) => EnqueueKeeps(s, sha, seen, createSeen, req);
      case OtherStep(op) => OtherKeeps(s, op);
      case NewBatchStep(quota) =>
        forall b: nat | b < |s'.budgets| ensures |ScriptJobs(s', b)| == s'.budgets[b].reserved {
          if b < |s.budgets| {
            assert ScriptJobs(s', b) == ScriptJobs(s, b);
          } else {
            assert ScriptJobs(s', b) == {};
          }
        }
      case NewVariantStep(c) =>
        forall b: nat | b < |s'.budgets| ensures |ScriptJobs(s', b)| == s'.budgets[b].reserved {
          assert ScriptJobs(s', b) == ScriptJobs(s, b);
        }
    }
  }

  lemma {:induction false} RunQuotaKeeps(s: State, steps: seq<QuotaStep>)
    requires QuotaInv(s) && Linked(s)
    ensures QuotaInv(RunQuota(s, steps)) && Linked(RunQuota(s, steps))
    decreases |steps|
  {
    if steps != [] {
      NextKeepsQuota(s, steps[0]);
      RunQuotaKeeps(Next(s, steps[0]), steps[1..]);
    }
  }

  /** Reserved calls are exactly the script jobs that exist, and never more than the quota. */
  lemma QuotaIsConserved(steps: seq<QuotaStep>, b: nat)
    requires b < |RunQuota(State([], [], []), steps).budgets|
    ensures var s := RunQuota(State([], [], []), steps);
      |ScriptJobs(s, b)| == s.budgets[b].reserved <= s.budgets[b].quota
  {
    assert QuotaInv(State([], [], []));
    RunQuotaKeeps(State([], [], []), steps);
  }

  // ----- replay -----

  /** A lookup finds the one job with its key as soon as it can see it. */
  lemma LookupIsExact(jobs: seq<Job>, i: nat, n: nat)
    requires IdempotencyKeysUnique(jobs) && i < |jobs| && n <= |jobs|
    ensures Find(jobs, JobKeyOf, jobs[i].spec.idempotencyKey, n) == if i < n then Some(i) else None
  {
    forall k | 0 <= k < |jobs| && k != i ensures jobs[k].spec.idempotencyKey != jobs[i].spec.idempotencyKey {
      if k < i { assert IdempotencyKeysUnique(jobs); }
    }
  }

  lemma NextKeepsSpec(s: State, step: QuotaStep, i: nat)
    requires QuotaInv(s) && i < |s.jobs|
    ensures i < |Next(s, step).jobs| && Next(s, step).jobs[i].spec == s.jobs[i].spec
  {
    match step
    case EnqueueStep(sha, seen, createSeen, req) => EnqueueReserves(s, sha, seen, createSeen, req);
    case OtherStep(op) => ApplyEvolves(s.jobs, op, i);
    case _ =>
  }

  lemma {:induction false} RunKeepsSpecs(s: State, steps: seq<QuotaStep>, i: nat)
    requires QuotaInv(s) && Linked(s) && i < |s.jobs|
    ensures i < |RunQuota(s, steps).jobs| && RunQuota(s, steps).jobs[i].spec == s.jobs[i].spec
    decreases |steps|
  {
    if steps != [] {
      NextKeepsSpec(s, steps[0], i);
      NextKeepsQuota(s, steps[0]);
      RunKeepsSpecs(Next(s, steps[0]), steps[1..], i);
    }
  }

  lemma ReplayReply(t: State, sha: string -> string, seen: nat, createSeen: nat, again: EnqueueRequest, i: nat)
    requires IdempotencyKeysUnique(t.jobs) && i < |t.jobs|
    requires t.jobs[i].spec.jobType == SCRIPT_JOB_TYPE && t.jobs[i].spec.sourceType == SCRIPT_SOURCE
    requires t.jobs[i].spec.sourceId == again.variant && t.jobs[i].spec.inputDigest == again.inputDigest
    requires t.jobs[i].spec.idempotencyKey == JobKey(sha, again)
    requires again.variant < |t.batchOf| && t.batchOf[again.variant] < |t.budgets|
    ensures var (t', reply) := Enqueue(t, sha, seen, createSeen, again);
      && t' == t
      && (reply == Reused(i) || reply == Rejected(409))
      && (seen > i ==> reply == Reused(i))
  {
    LookupIsExact(t.jobs, i, Min(seen, |t.jobs|));
    LookupIsExact(t.jobs, i, Min(createSeen, |t.jobs|));
    LookupIsExact(t.jobs, i, |t.jobs|);
  }

  /**
   After a job was created for a request, repeating the request, at any later time and with
   any stale reads, reserves nothing and creates nothing; once the lookup sees the job, it is
   that job which comes back.
   */
  lemma ReplayReservesNothing(s: State, steps: seq<QuotaStep>, sha: string -> string, seen: nat, createSeen: nat,
                              again: EnqueueRequest, seen': nat, createSeen': nat, req: EnqueueRequest)
    requires QuotaInv(s) && Linked(s) && Enqueue(s, sha, seen, createSeen, req).1.Created?
    requires again.variant == req.variant && again.clientKey == req.clientKey && again.inputDigest == req.inputDigest
    ensures var s1 := Enqueue(s, sha, seen, createSeen, req).0;
      var t := RunQuota(s1, steps);
      var (t', reply) := Enqueue(t, sha, seen', createSeen', again);
      && t' == t
      && (reply == Reused(|s.jobs|) || reply == Rejected(409))
      && (seen' > |s.jobs| ==> reply == Reused(|s.jobs|))
  {
    var s1 := Enqueue(s, sha, seen, createSeen, req).0;
    EnqueueReserves(s, sha, seen, createSeen, req);
    EnqueueKeeps(s, sha, seen, createSeen, req);
    RunQuotaKeeps(s1, steps);
    RunKeepsSpecs(s1, steps, |s.jobs|);
    ReplayAfterRun(RunQuota(s1, steps), sha, seen', createSeen', again, |s.jobs|, JobSpecOf(sha, req));
  }

  lemma ReplayAfterRun(t: State, sha: string -> string, seen: nat, createSeen: nat, again: EnqueueRequest, i: nat, spec: JobSpec)
    requires QuotaInv(t) && Linked(t) && i < |t.jobs| && t.jobs[i].spec == spec
    requires spec.jobType == SCRIPT_JOB_TYPE && spec.sourceType == SCRIPT_SOURCE
    requires spec.sourceId == again.variant && spec.inputDigest == again.inputDigest && spec.idempotencyKey == JobKey(sha, again)
    ensures var (t', reply) := Enqueue(t, sha, seen, createSeen, again);
      && t' == t
      && (reply == Reused(i) || reply == Rejected(409))
      && (seen > i ==> reply == Reused(i))
  {
    ReplayReply(t, sha, seen, createSeen, again, i);
  }

  /** Distinct variants or client keys never share a job key, as long as the digest does not collide on them. */
  lemma JobKeysSeparate(sha: string -> string, a: EnqueueRequest, b: EnqueueRequest)
    requires JobKey(sha, a) == JobKey(sha, b)
    requires sha(VariantKey(a.variant, a.clientKey)) == sha(VariantKey(b.variant, b.clientKey))
             ==> VariantKey(a.variant, a.clientKey) == VariantKey(b.variant, b.clientKey)
    ensures a.variant == b.variant && a.clientKey == b.clientKey
  {
    var prefix := SCRIPT_JOB_TYPE + ":";
    assert sha(VariantKey(a.variant, a.clientKey)) == JobKey(sha, a)[|prefix|..];
    assert sha(VariantKey(b.variant, b.clientKey)) == JobKey(sha, b)[|prefix|..];
    VariantKeyInjective(a.variant, a.clientKey, b.variant, b.clientKey);
  }

  class QwenVideoScriptJobService {
    var state: State

    ghost predicate Valid()
      reads this
    {
      QuotaInv(state) && Linked(state)
    }

    constructor ()
      ensures Valid() && state == State([], [], [])
    {
      state := State([], [], []);
    }

    /** Reserve first, then create; a request that creates nothing rolls the reservation back. */
    method EnqueueJob(sha: string -> string, seen: nat, createSeen: nat, req: EnqueueRequest) returns (reply: Reply)
      requires Valid()
      modifies this
      ensures Valid() && (state, reply) == Enqueue(old(state), sha, seen, createSeen, req)
      ensures state != old(state) ==> reply.Created?
      ensures reply.Created? <==> !KeyTaken(old(state).jobs, JobKey(sha, req)) && WithinQuota(old(state), req)
      ensures reply.Created? ==> JobReserved(old(state), state, JobKey(sha, req), req)
    {
      EnqueueExact(state, sha, seen, createSeen, req);
      EnqueueKeeps(state, sha, seen, createSeen, req);
      reply := TryEnqueue(sha, seen, createSeen, req);
    }

    method TryEnqueue(sha: string -> string, seen: nat, createSeen: nat, req: EnqueueRequest) returns (reply: Reply)
      modifies this
      ensures (state, reply) == Enqueue(old(state), sha, seen, createSeen, req)
      ensures state != old(state) ==> reply.Created?
    {
      var saved := state;
      var existing := Existing(state.jobs, Min(seen, |state.jobs|), sha, req);
      if existing.Some? { return existing.value; }
      if req.expired { return Rejected(409); }
      if !req.ready {
        var concurrent := Existing(state.jobs, |state.jobs|, sha, req);
        return if concurrent.Some? then concurrent.value else Rejected(409);
      }
      if !req.matches { return Rejected(409); }
      if req.variant >= |state.batchOf| || state.batchOf[req.variant] >= |state.budgets| { return Rejected(404); }
      var b := state.batchOf[req.variant];
      if state.budgets[b].reserved < state.budgets[b].quota {
        state := state.(budgets := state.budgets[b := state.budgets[b].(reserved := state.budgets[b].reserved + 1)]);
      } else {
        var concurrent := Existing(state.jobs, |state.jobs|, sha, req);
        return if concurrent.Some? then concurrent.value else Rejected(409);
      }
      var created := Create(state.jobs, createSeen, JobSpecOf(sha, req));
      reply := created.1;
      if reply.Created? {
        state := state.(jobs := created.0);
      } else {
        state := saved;
      }
    }
  }
}
