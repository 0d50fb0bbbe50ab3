/** Batches of variant jobs on top of the queue, and the concurrency cap that slots give them. */
module BatchVideo {
  import opened Wrappers
  import opened Tables
  import opened ExecutionRecords
  import opened QueueSpec
  import opened QueueInvariant
  import opened QueueRuns
  import opened Keys
  import opened BatchPreflight
  import opened Sorting

  const PREPARE_JOB_TYPE := "video.batch.variant.prepare.v1"

  datatype Variant = Variant(id: nat, plan: Plan, jobId: nat)

  datatype Batch = Batch(digest: string, key: string, maxConcurrency: nat, variants: seq<Variant>)

  datatype State = State(jobs: seq<Job>, batches: seq<Batch>, nextVariant: nat)

  /** SHA-256 over canonical JSON, as three functions of the payloads it is applied to. */
  datatype Digests = Digests(source: Plan -> string, request: Frozen -> string, preflight: (string, Time) -> string)

  datatype CreateRequest = CreateRequest(
    body: BatchRequest, key: string, requestDigest: string, preflightDigest: string, expiresAt: Time)

  datatype BatchReply = BatchCreated(id: nat) | BatchReused(id: nat) | BatchRejected(code: nat) | BatchRaised

  // ----- creation -----

  function BatchKeyOf(b: Batch): string { b.key }

  function BatchDigestOf(b: Batch): string { b.digest }

  function PrepareKey(requestDigest: string, sourceDigest: string): string {
    "batch-prepare:" + requestDigest + ":" + sourceDigest
  }

  /** The slot that the variant at a given ordinal shares with every max_concurrency-th other. */
  function Slot(ordinal: nat, m: nat): (r: nat)
    requires m > 0
    ensures r < m
  {
    ordinal % m
  }

  /** The job of the plan at position `ordinal` of the batch that becomes number `batch`. */
  function VariantJob(h: Digests, batch: nat, ordinal: nat, variant: nat, plan: Plan, req: CreateRequest, now: Time): Job
    requires req.body.maxConcurrency > 0
  {
    NewJob(JobSpec(PREPARE_JOB_TYPE, "batch_video_variant", variant, h.source(plan),
                   PrepareKey(req.requestDigest, h.source(plan)), req.body.priority,
                   Some(SlotKey(batch, Slot(ordinal, req.body.maxConcurrency))), 0, true, 1, now))
  }

  function NewJobs(h: Digests, s: State, plans: seq<Plan>, req: CreateRequest, now: Time): (jobs: seq<Job>)
    requires req.body.maxConcurrency > 0
    ensures |jobs| == |plans|
  {
    seq(|plans|, k requires 0 <= k < |plans| =>
      VariantJob(h, |s.batches|, k, s.nextVariant + k, plans[k], req, now))
  }

  function NewBatch(s: State, plans: seq<Plan>, req: CreateRequest): Batch {
    Batch(req.requestDigest, req.key, req.body.maxConcurrency,
          seq(|plans|, k requires 0 <= k < |plans| => Variant(s.nextVariant + k, plans[k], |s.jobs| + k)))
  }

  /** Both lookups of create, by key first; they see only the first `seen` batches. */
  function Lookup(batches: seq<Batch>, seen: nat, req: CreateRequest): Option<BatchReply> {
    var n := if seen < |batches| then seen else |batches|;
    var byKey, byDigest := Find(batches, BatchKeyOf, req.key, n), Find(batches, BatchDigestOf, req.requestDigest, n);
    if byKey.Some? then
      Some(if batches[byKey.value].digest == req.requestDigest then BatchReused(byKey.value) else BatchRejected(409))
    else if byDigest.Some? then Some(BatchReused(byDigest.value))
    else None
  }

  function Creation(s: State, h: Digests, products: Catalogue, seen: nat, req: CreateRequest, now: Time): (State, BatchReply) {
    if !ValidRequest(req.body) || |req.key| < MIN_KEY_LENGTH then (s, BatchRejected(422))
    else if Lookup(s.batches, seen, req).Some? then (s, Lookup(s.batches, seen, req).value)
    else if req.expiresAt <= now then (s, BatchRejected(409))
    else
      match Preflight(req.body, products)
      case Refused(code) => (s, BatchRejected(code))
      case Ready(frozen) =>
        if h.request(frozen) != req.requestDigest || h.preflight(req.requestDigest, req.expiresAt) != req.preflightDigest then
          (s, BatchRejected(409))
        else
          var again := Lookup(s.batches, |s.batches|, req);
          var jobs := s.jobs + NewJobs(h, s, frozen.plans, req, now);
          if again.Some? then (s, again.value)                          // unique key or digest, rolled back
          else if !IdempotencyKeysUnique(jobs) then (s, BatchRaised)    // unique job key, rolled back
          else (State(jobs, s.batches + [NewBatch(s, frozen.plans, req)], s.nextVariant + |frozen.plans|), BatchCreated(|s.batches|))
  }

  // ----- control -----

  /** The loop over a batch's variants, each change being the queue's own control call. */
  function ControlAll(jobs: seq<Job>, variants: seq<Variant>, action: Control, now: Time): (r: seq<Job>)
    ensures |r| == |jobs|
  {
    if variants == [] then jobs
    else
      var before := ControlAll(jobs, variants[..|variants| - 1], action, now);
      var id := variants[|variants| - 1].jobId;
      if id < |jobs| then before[id := ControlJob(before[id], action, now).0] else before
  }

  // ----- invariant -----

  predicate VariantPlaced(jobs: seq<Job>, b: nat, batch: Batch, k: nat)
    requires k < |batch.variants|
  {
    && batch.maxConcurrency > 0
    && batch.variants[k].jobId < |jobs|
    && jobs[batch.variants[k].jobId].spec.concurrencyKey == Some(SlotKey(b, Slot(k, batch.maxConcurrency)))
    && jobs[batch.variants[k].jobId].spec.sourceId == batch.variants[k].id
    && jobs[batch.variants[k].jobId].spec.jobType == PREPARE_JOB_TYPE
    && jobs[batch.variants[k].jobId].spec.maxAttempts == 1
  }

  predicate BatchPlaced(jobs: seq<Job>, b: nat, batch: Batch) {
    && 1 <= batch.maxConcurrency <= |batch.variants| <= MAX_BATCH_VARIANTS
    && (forall k :: 0 <= k < |batch.variants| ==> VariantPlaced(jobs, b, batch, k))
    && (forall k, l :: 0 <= k < l < |batch.variants| ==> batch.variants[k].jobId < batch.variants[l].jobId)
    && (forall k, l :: 0 <= k < l < |batch.variants| ==> batch.variants[k].plan != batch.variants[l].plan)
  }

  predicate BatchesUnique(batches: seq<Batch>) {
    forall a, b :: 0 <= a < b < |batches| ==> batches[a].key != batches[b].key && batches[a].digest != batches[b].digest
  }

  predicate StateInv(s: State) {
    && Inv(s.jobs)
    && (forall b :: 0 <= b < |s.batches| ==> BatchPlaced(s.jobs, b, s.batches[b]))
    && BatchesUnique(s.batches)
  }

  /** Identities and keys never change, so placement survives every queue transaction. */
  predicate Extends(jobs: seq<Job>, jobs': seq<Job>) {
    |jobs| <= |jobs'| && forall i :: 0 <= i < |jobs| ==> jobs'[i].spec == jobs[i].spec
  }

  lemma PlacementSurvives(jobs: seq<Job>, jobs': seq<Job>, b: nat, batch: Batch)
    requires BatchPlaced(jobs, b, batch) && Extends(jobs, jobs')
    ensures BatchPlaced(jobs', b, batch)
  {
    forall k | 0 <= k < |batch.variants| ensures VariantPlaced(jobs', b, batch, k) {
      assert VariantPlaced(jobs, b, batch, k);
    }
  }

  lemma ApplyExtends(jobs: seq<Job>, op: Op)
    requires Inv(jobs)
    ensures Extends(jobs, After(jobs, op))
  {
    forall i | 0 <= i < |jobs| ensures i < |After(jobs, op)| && After(jobs, op)[i].spec == jobs[i].spec {
      ApplyEvolves(jobs, op, i);
    }
    if |jobs| > 0 { ApplyEvolves(jobs, op, 0); }
    AfterIsNotShorter(jobs, op);
  }

  lemma AfterIsNotShorter(jobs: seq<Job>, op: Op)
    ensures |jobs| <= |After(jobs, op)|
  {
  }

  lemma InsertKeeps(jobs: seq<Job>, more: seq<Job>)
    requires Inv(jobs) && IdempotencyKeysUnique(jobs + more)
    requires forall k :: 0 <= k < |more| ==> more[k].spec.maxAttempts >= 1 && more[k] == NewJob(more[k].spec)
    ensures Inv(jobs + more) && Extends(jobs, jobs + more)
  {
    var all := jobs + more;
    assert forall i :: |jobs| <= i < |all| ==> all[i] == more[i - |jobs|];
    forall i | 0 <= i < |all| ensures JobInv(all[i]) {
      if i < |jobs| { assert JobInv(jobs[i]); }
    }
    forall a, b | 0 <= a < b < |all| && all[a].status.Running? && all[b].status.Running? && all[a].spec.concurrencyKey.Some?
      ensures all[a].spec.concurrencyKey != all[b].spec.concurrencyKey
    {
      assert b < |jobs|;
    }
  }

  lemma AddBatchKeeps(s: State, more: seq<Job>, batch: Batch, nextVariant: nat)
    requires StateInv(s) && Inv(s.jobs + more) && BatchPlaced(s.jobs + more, |s.batches|, batch)
    requires forall b :: 0 <= b < |s.batches| ==> s.batches[b].key != batch.key && s.batches[b].digest != batch.digest
    ensures StateInv(State(s.jobs + more, s.batches + [batch], nextVariant))
  {
    var jobs, batches := s.jobs + more, s.batches + [batch];
    forall b | 0 <= b < |batches| ensures BatchPlaced(jobs, b, batches[b]) {
      if b < |s.batches| { PlacementSurvives(s.jobs, jobs, b, s.batches[b]); }
    }
  }

  lemma NewBatchPlaced(s: State, h: Digests, plans: seq<Plan>, req: CreateRequest, now: Time)
    requires 1 <= req.body.maxConcurrency <= |plans| <= MAX_BATCH_VARIANTS && Distinct(plans)
    ensures BatchPlaced(s.jobs + NewJobs(h, s, plans, req, now), |s.batches|, NewBatch(s, plans, req))
  {
    var jobs, batch := s.jobs + NewJobs(h, s, plans, req, now), NewBatch(s, plans, req);
    forall k | 0 <= k < |plans| ensures VariantPlaced(jobs, |s.batches|, batch, k) {
      assert jobs[|s.jobs| + k] == NewJobs(h, s, plans, req, now)[k];
    }
  }

  lemma CreateKeepsState(s: State, h: Digests, products: Catalogue, seen: nat, req: CreateRequest, now: Time)
    requires StateInv(s)
    ensures StateInv(Creation(s, h, products, seen, req, now).0)
  {
    CreationInserts(s, h, products, seen, req, now);
    if Creation(s, h, products, seen, req, now).1.BatchCreated? {
      PreflightIsCanonical(req.body, products);
      InsertBatchKeeps(s, h, Preflight(req.body, products).frozen.plans, req, now);
    }
  }

  /** A creation that changes the state inserts one batch with its jobs, all keys being free. */
  lemma CreationInserts(s: State, h: Digests, products: Catalogue, seen: nat, req: CreateRequest, now: Time)
    ensures var (s', reply) := Creation(s, h, products, seen, req, now);
      if reply.BatchCreated? then
        && ValidRequest(req.body) && Preflight(req.body, products).Ready? && Lookup(s.batches, |s.batches|, req).None?
        && reply == BatchCreated(|s.batches|)
        && var plans := Preflight(req.body, products).frozen.plans;
           IdempotencyKeysUnique(s.jobs + NewJobs(h, s, plans, req, now))
           && s' == State(s.jobs + NewJobs(h, s, plans, req, now), s.batches + [NewBatch(s, plans, req)], s.nextVariant + |plans|)
      else s' == s
  {
    LookupNeverCreates(s.batches, seen, req);
    LookupNeverCreates(s.batches, |s.batches|, req);
  }

  lemma InsertBatchKeeps(s: State, h: Digests, plans: seq<Plan>, req: CreateRequest, now: Time)
    requires StateInv(s) && 1 <= req.body.maxConcurrency <= |plans| <= MAX_BATCH_VARIANTS && Distinct(plans)
    requires IdempotencyKeysUnique(s.jobs + NewJobs(h, s, plans, req, now)) && Lookup(s.batches, |s.batches|, req).None?
    ensures StateInv(State(s.jobs + NewJobs(h, s, plans, req, now), s.batches + [NewBatch(s, plans, req)], s.nextVariant + |plans|))
  {
    var more := NewJobs(h, s, plans, req, now);
    InsertKeeps(s.jobs, more);
    NewBatchPlaced(s, h, plans, req, now);
    AddBatchKeeps(s, more, NewBatch(s, plans, req), s.nextVariant + |plans|);
  }

  lemma {:induction false} ControlAllKeeps(jobs: seq<Job>, variants: seq<Variant>, action: Control, now: Time)
    requires Inv(jobs)
    ensures Inv(ControlAll(jobs, variants, action, now)) && Extends(jobs, ControlAll(jobs, variants, action, now))
  {
    if variants != [] {
      var init, id := variants[..|variants| - 1], variants[|variants| - 1].jobId;
      ControlAllKeeps(jobs, init, action, now);
      var before := ControlAll(jobs, init, action, now);
      if id < |jobs| {
        assert JobInv(before[id]);
        ControlKeeps(before[id], action, now);
        ReplaceKeeps(before, id, ControlJob(before[id], action, now).0);
      }
    }
  }

  // ----- what control does to a batch -----

  /** A job after a control action on its batch: the action where its status allows it, nothing elsewhere. */
  predicate ActedOn(j: Job, j': Job, action: Control, now: Time) {
    match action
    case Pause => j' == if j.status.Queued? then j.(status := Paused) else j
    case Resume => j' == if j.status.Paused? then j.(status := Queued) else j
    case Cancel =>
      j' == if j.status.Queued? || j.status.Paused? then j.(status := Cancelled, completedAt := Some(now)) else j
    case Retry => j' == j
  }

  predicate IdsIncrease(variants: seq<Variant>) {
    forall k, l :: 0 <= k < l < |variants| ==> variants[k].jobId < variants[l].jobId
  }

  predicate HasJob(variants: seq<Variant>, i: nat) { exists k :: 0 <= k < |variants| && variants[k].jobId == i }

  lemma ControlJobActs(j: Job, action: Control, now: Time)
    requires !action.Retry?
    ensures ActedOn(j, ControlJob(j, action, now).0, action, now)
  {
  }

  lemma {:induction false} ControlAllActs(jobs: seq<Job>, variants: seq<Variant>, action: Control, now: Time, i: nat)
    requires !action.Retry? && IdsIncrease(variants) && i < |jobs|
    ensures var jobs' := ControlAll(jobs, variants, action, now);
      if HasJob(variants, i) then ActedOn(jobs[i], jobs'[i], action, now) else jobs'[i] == jobs[i]
  {
    if variants != [] {
      var init, last := variants[..|variants| - 1], variants[|variants| - 1];
      ControlAllActs(jobs, init, action, now, i);
      ControlJobActs(jobs[i], action, now);
      HasJobSplits(variants, i);
      assert i == last.jobId ==> !HasJob(init, i);
    }
  }

  lemma HasJobSplits(variants: seq<Variant>, i: nat)
    requires variants != []
    ensures HasJob(variants, i) <==> HasJob(variants[..|variants| - 1], i) || variants[|variants| - 1].jobId == i
  {
    var init := variants[..|variants| - 1];
    if HasJob(init, i) {
      var k :| 0 <= k < |init| && init[k].jobId == i;
      assert variants[k].jobId == i;
    }
    if k :| 0 <= k < |variants| && variants[k].jobId == i {
      if k < |init| { assert init[k].jobId == i; }
    }
  }

  /** A control action reaches every job of its batch, and no other row of any table. */
  ghost predicate BatchActedOn(s: State, s': State, b: nat, action: Control, now: Time)
    requires b < |s.batches|
  {
    && s'.batches == s.batches && s'.nextVariant == s.nextVariant && |s'.jobs| == |s.jobs|
    && (forall k :: 0 <= k < |s.batches[b].variants| ==>
          var i := s.batches[b].variants[k].jobId; i < |s.jobs| && ActedOn(s.jobs[i], s'.jobs[i], action, now))
    && (forall i: nat :: i < |s.jobs| && !HasJob(s.batches[b].variants, i) ==> s'.jobs[i] == s.jobs[i])
  }

  lemma ControlReachesTheBatch(s: State, b: nat, action: Control, now: Time)
    requires StateInv(s) && b < |s.batches| && !action.Retry?
    ensures BatchActedOn(s, Next(s, ControlStep(b, action, now)), b, action, now)
  {
    var batch := s.batches[b];
    assert BatchPlaced(s.jobs, b, batch);
    forall k | 0 <= k < |batch.variants|
      ensures var i := batch.variants[k].jobId;
        i < |s.jobs| && ActedOn(s.jobs[i], ControlAll(s.jobs, batch.variants, action, now)[i], action, now)
    {
      assert VariantPlaced(s.jobs, b, batch, k) && HasJob(batch.variants, batch.variants[k].jobId);
      ControlAllActs(s.jobs, batch.variants, action, now, batch.variants[k].jobId);
    }
    forall i: nat | i < |s.jobs| && !HasJob(batch.variants, i)
      ensures ControlAll(s.jobs, batch.variants, action, now)[i] == s.jobs[i]
    {
      ControlAllActs(s.jobs, batch.variants, action, now, i);
    }
  }

  /** After a batch is cancelled none of its jobs is waiting; after a pause none can be claimed; after a resume none is paused. */
  lemma NothingIsLeftBehind(s: State, s': State, b: nat, action: Control, now: Time, k: nat)
    requires b < |s.batches| && BatchActedOn(s, s', b, action, now) && k < |s.batches[b].variants|
    ensures var j := s'.jobs[s'.batches[b].variants[k].jobId];
      && (action.Cancel? ==> !j.status.Queued? && !j.status.Paused?)
      && (action.Pause? ==> !j.status.Queued?)
      && (action.Resume? ==> !j.status.Paused?)
  {
  }

  // ----- runs -----

  datatype BatchStep =
    | QueueStep(op: Op)
    | CreateStep(h: Digests, products: Catalogue, seen: nat, req: CreateRequest, createNow: Time)
    | ControlStep(batch: nat, action: Control, controlNow: Time)

  function Next(s: State, step: BatchStep): State {
    match step
    case QueueStep(op) => s.(jobs := After(s.jobs, op))
    case CreateStep(h, products, seen, req, now) => Creation(s, h, products, seen, req, now).0
    case ControlStep(b, action, now) =>
      if b < |s.batches| && !action.Retry? then s.(jobs := ControlAll(s.jobs, s.batches[b].variants, action, now)) else s
  }

  function RunBatches(s: State, steps: seq<BatchStep>): State
    decreases |steps|
  {
    if steps == [] then s else RunBatches(Next(s, steps[0]), steps[1..])
  }

  const EMPTY := State([], [], 0)

  lemma NextKeepsState(s: State, step: BatchStep)
    requires StateInv(s)
    ensures StateInv(Next(s, step))
    ensures |s.batches| <= |Next(s, step).batches| && Next(s, step).batches[..|s.batches|] == s.batches
  {
    match step
    case QueueStep(op) =>
      ApplyKeeps(s.jobs, op);
      ApplyExtends(s.jobs, op);
      forall b | 0 <= b < |s.batches| ensures BatchPlaced(After(s.jobs, op), b, s.batches[b]) {
        PlacementSurvives(s.jobs, After(s.jobs, op), b, s.batches[b]);
      }
    case CreateStep(h, products, seen, req, now) => CreateKeepsState(s, h, products, seen, req, now);
    case ControlStep(c, action, now) =>
      if c < |s.batches| {
        var jobs' := ControlAll(s.jobs, s.batches[c].variants, action, now);
        ControlAllKeeps(s.jobs, s.batches[c].variants, action, now);
        forall b | 0 <= b < |s.batches| ensures BatchPlaced(jobs', b, s.batches[b]) {
          PlacementSurvives(s.jobs, jobs', b, s.batches[b]);
        }
      }
  }

  lemma {:induction false} RunBatchesKeeps(s: State, steps: seq<BatchStep>)
    requires StateInv(s)
    ensures StateInv(RunBatches(s, steps))
    ensures |s.batches| <= |RunBatches(s, steps).batches| && RunBatches(s, steps).batches[..|s.batches|] == s.batches
    decreases |steps|
  {
    if steps != [] {
      NextKeepsState(s, steps[0]);
      RunBatchesKeeps(Next(s, steps[0]), steps[1..]);
      var m, e := Next(s, steps[0]).batches, RunBatches(s, steps).batches;
      assert e[..|s.batches|] == e[..|m|][..|s.batches|];
    }
  }

  // ----- the cap -----

  /** The positions of the variants of a batch whose jobs are running. */
  function RunningVariants(jobs: seq<Job>, batch: Batch): set<nat> {
    set k: nat | k < |batch.variants| && batch.variants[k].jobId < |jobs| && jobs[batch.variants[k].jobId].status.Running?
  }

  ghost predicate SlotsDiffer(s: set<nat>, m: nat)
    requires m > 0
  {
    forall x, y :: x in s && y in s && x != y ==> Slot(x, m) != Slot(y, m)
  }

  function Slots(s: set<nat>, m: nat): set<nat>
    requires m > 0
  {
    set x | x in s :: Slot(x, m)
  }

  lemma Pigeonhole(s: set<nat>, m: nat)
    requires m > 0 && SlotsDiffer(s, m)
    ensures |s| <= m
  {
    SlotsCount(s, m);
    Below(Slots(s, m), m);
  }

  lemma {:induction false} SlotsCount(s: set<nat>, m: nat)
    requires m > 0 && SlotsDiffer(s, m)
    ensures |Slots(s, m)| == |s|
    decreases |s|
  {
    if s != {} {
      var x :| x in s;
      var t := s - {x};
      SlotsCount(t, m);
      assert s == t + {x};
      assert Slots(s, m) == Slots(t, m) + {Slot(x, m)};
    }
  }

  lemma {:induction false} Below(s: set<nat>, m: nat)
    requires forall x :: x in s ==> x < m
    ensures |s| <= m
  {
    if m > 0 { Below(s - {m - 1}, m - 1); } else { assert s == {}; }
  }

  /** In every reachable state a batch runs at most max_concurrency jobs at once. */
  lemma BatchCap(steps: seq<BatchStep>, b: nat)
    requires b < |RunBatches(EMPTY, steps).batches|
    ensures var s := RunBatches(EMPTY, steps);
      |RunningVariants(s.jobs, s.batches[b])| <= s.batches[b].maxConcurrency
  {
    RunBatchesKeeps(EMPTY, steps);
    var s := RunBatches(EMPTY, steps);
    var batch := s.batches[b];
    var running := RunningVariants(s.jobs, batch);
    assert BatchPlaced(s.jobs, b, batch);
    forall x, y | x in running && y in running && x != y ensures Slot(x, batch.maxConcurrency) != Slot(y, batch.maxConcurrency) {
      assert VariantPlaced(s.jobs, b, batch, x) && VariantPlaced(s.jobs, b, batch, y);
      var i, j := batch.variants[x].jobId, batch.variants[y].jobId;
      assert i != j;
      assert s.jobs[i].status.Running? && s.jobs[j].status.Running?;
    }
    Pigeonhole(running, batch.maxConcurrency);
  }

  /** Jobs of different batches never compete for a key. */
  lemma BatchesShareNoKey(steps: seq<BatchStep>, b: nat, c: nat, k: nat, l: nat)
    requires var s := RunBatches(EMPTY, steps);
      b < |s.batches| && c < |s.batches| && b != c && k < |s.batches[b].variants| && l < |s.batches[c].variants|
    ensures var s := RunBatches(EMPTY, steps);
      var i, j := s.batches[b].variants[k].jobId, s.batches[c].variants[l].jobId;
      i < |s.jobs| && j < |s.jobs| && s.jobs[i].spec.concurrencyKey != s.jobs[j].spec.concurrencyKey
  {
    RunBatchesKeeps(EMPTY, steps);
    var s := RunBatches(EMPTY, steps);
    assert BatchPlaced(s.jobs, b, s.batches[b]) && BatchPlaced(s.jobs, c, s.batches[c]);
    assert VariantPlaced(s.jobs, b, s.batches[b], k) && VariantPlaced(s.jobs, c, s.batches[c], l);
    var x, y := Slot(k, s.batches[b].maxConcurrency), Slot(l, s.batches[c].maxConcurrency);
    if SlotKey(b, x) == SlotKey(c, y) { SlotKeyInjective(b, x, c, y); }
  }

  /** How many of the first n ordinals land in slot r. */
  function SlotLoad(n: nat, m: nat, r: nat): nat
    requires m > 0
  {
    if n == 0 then 0 else SlotLoad(n - 1, m, r) + (if Slot(n - 1, m) == r then 1 else 0)
  }

  lemma Multiple(k: int, m: nat)
    ensures k >= 1 ==> k * m >= m
    ensures k <= -1 ==> k * m + m <= 0
  {
  }

  lemma SlotOf(q: nat, r: nat, m: nat)
    requires r < m
    ensures Slot(q * m + r, m) == r
  {
    var n := q * m + r;
    var k := n / m - q;
    assert k * m == (n / m) * m - q * m == r - n % m;
    Multiple(k, m);
  }

  lemma {:induction false} SlotLoadExact(q: nat, t: nat, m: nat, r: nat)
    requires r < m && t <= m
    ensures SlotLoad(q * m + t, m, r) == q + (if r < t then 1 else 0)
    decreases q, t
  {
    if t > 0 {
      SlotLoadExact(q, t - 1, m, r);
      SlotOf(q, t - 1, m);
    } else if q > 0 {
      assert q * m == (q - 1) * m + m;
      SlotLoadExact(q - 1, m, m, r);
    }
  }

  /** The slots of a batch carry loads that differ by at most one. */
  lemma SlotsAreBalanced(n: nat, m: nat, r: nat, t: nat)
    requires r < m && t < m
    ensures SlotLoad(n, m, r) <= SlotLoad(n, m, t) + 1
  {
    assert n == (n / m) * m + n % m;
    SlotLoadExact(n / m, n % m, m, r);
    SlotLoadExact(n / m, n % m, m, t);
  }

  /** The ordinals among the first n that land in slot r. */
  function OrdinalsIn(n: nat, m: nat, r: nat): set<nat>
    requires m > 0
  {
    set k: nat | k < n && Slot(k, m) == r
  }

  lemma {:induction false} SlotLoadCounts(n: nat, m: nat, r: nat)
    requires m > 0
    ensures |OrdinalsIn(n, m, r)| == SlotLoad(n, m, r)
  {
    if n > 0 {
      SlotLoadCounts(n - 1, m, r);
      var before, after, last := OrdinalsIn(n - 1, m, r), OrdinalsIn(n, m, r), n - 1;
      if Slot(last, m) == r {
        assert after == before + {last};
      } else {
        assert after == before;
      }
    }
  }

  /** The variants of a batch whose jobs carry the key of slot r. */
  function VariantsOnKey(jobs: seq<Job>, b: nat, batch: Batch, r: nat): set<nat> {
    set k: nat | k < |batch.variants| && batch.variants[k].jobId < |jobs|
                 && jobs[batch.variants[k].jobId].spec.concurrencyKey == Some(SlotKey(b, r))
  }

  /** In every reachable state the keys of a batch carry numbers of jobs that differ by at most one. */
  lemma BatchKeysAreBalanced(steps: seq<BatchStep>, b: nat, r: nat, t: nat)
    requires b < |RunBatches(EMPTY, steps).batches|
    requires var m := RunBatches(EMPTY, steps).batches[b].maxConcurrency; r < m && t < m
    ensures var s := RunBatches(EMPTY, steps);
      |VariantsOnKey(s.jobs, b, s.batches[b], r)| <= |VariantsOnKey(s.jobs, b, s.batches[b], t)| + 1
  {
    RunBatchesKeeps(EMPTY, steps);
    var s := RunBatches(EMPTY, steps);
    var batch := s.batches[b];
    VariantsOnKeyAreOrdinals(s.jobs, b, batch, r);
    VariantsOnKeyAreOrdinals(s.jobs, b, batch, t);
    SlotLoadCounts(|batch.variants|, batch.maxConcurrency, r);
    SlotLoadCounts(|batch.variants|, batch.maxConcurrency, t);
    SlotsAreBalanced(|batch.variants|, batch.maxConcurrency, r, t);
  }

  lemma VariantsOnKeyAreOrdinals(jobs: seq<Job>, b: nat, batch: Batch, r: nat)
    requires BatchPlaced(jobs, b, batch)
    ensures VariantsOnKey(jobs, b, batch, r) == OrdinalsIn(|batch.variants|, batch.maxConcurrency, r)
  {
    forall k: nat | k < |batch.variants|
      ensures k in VariantsOnKey(jobs, b, batch, r) <==> k in OrdinalsIn(|batch.variants|, batch.maxConcurrency, r)
    {
      assert VariantPlaced(jobs, b, batch, k);
      var slot := Slot(k, batch.maxConcurrency);
      if SlotKey(b, slot) == SlotKey(b, r) { SlotKeyInjective(b, slot, b, r); }
    }
  }

  // ----- idempotency -----

  /** The lookups over all batches find a batch with this key or digest, and answer by which of them it is. */
  lemma LookupFinds(batches: seq<Batch>, b: nat, req: CreateRequest)
    requires BatchesUnique(batches) && b < |batches|
    requires req.key == batches[b].key || req.requestDigest == batches[b].digest
    ensures Lookup(batches, |batches|, req) ==
            Some(if req.requestDigest != batches[b].digest then BatchRejected(409)
                 else if exists c :: 0 <= c < |batches| && batches[c].key == req.key && c != b then BatchRejected(409)
                 else BatchReused(b))
  {
    var byKey, byDigest := Find(batches, BatchKeyOf, req.key, |batches|), Find(batches, BatchDigestOf, req.requestDigest, |batches|);
    if req.key == batches[b].key {
      assert byKey == Some(b);
    } else {
      assert byDigest == Some(b);
    }
  }

  lemma LookupNeverCreates(batches: seq<Batch>, seen: nat, req: CreateRequest)
    ensures seen >= |batches| ==> Lookup(batches, seen, req) == Lookup(batches, |batches|, req)
    ensures Lookup(batches, seen, req).Some? ==> !Lookup(batches, seen, req).value.BatchCreated?
  {
  }

  /** Once a batch exists, no run of creations makes another with its key or its digest. */
  lemma CreateIsIdempotent(s: State, steps: seq<BatchStep>, b: nat, h: Digests, products: Catalogue,
                           seen: nat, req: CreateRequest, now: Time)
    requires StateInv(s) && b < |s.batches|
    requires req.key == s.batches[b].key || req.requestDigest == s.batches[b].digest
    ensures var t := RunBatches(s, steps); var (t', reply) := Creation(t, h, products, seen, req, now);
      && t' == t && !reply.BatchCreated?
      && (ValidRequest(req.body) && |req.key| >= MIN_KEY_LENGTH && seen >= |t.batches| ==>
            reply == if req.requestDigest != s.batches[b].digest then BatchRejected(409)
                     else if exists c :: 0 <= c < |t.batches| && t.batches[c].key == req.key && c != b then BatchRejected(409)
                     else BatchReused(b))
  {
    RunBatchesKeeps(s, steps);
    var t := RunBatches(s, steps);
    assert t.batches[b] == t.batches[..|s.batches|][b] == s.batches[b];
    LookupFinds(t.batches, b, req);
    LookupNeverCreates(t.batches, seen, req);
    LookupNeverCreates(t.batches, |t.batches|, req);
  }

  lemma PrepareKeyInjective(digest: string, a: string, b: string)
    requires PrepareKey(digest, a) == PrepareKey(digest, b)
    ensures a == b
  {
    var prefix := "batch-prepare:" + digest + ":";
    assert a == PrepareKey(digest, a)[|prefix|..] && b == PrepareKey(digest, b)[|prefix|..];
  }

  predicate NoCollision(h: Digests, plans: seq<Plan>) {
    forall i, j :: 0 <= i < j < |plans| ==> h.source(plans[i]) != h.source(plans[j])
  }

  predicate JobKeysFree(jobs: seq<Job>, h: Digests, digest: string, plans: seq<Plan>) {
    forall i, k :: 0 <= i < |jobs| && 0 <= k < |plans| ==> jobs[i].spec.idempotencyKey != PrepareKey(digest, h.source(plans[k]))
  }

  lemma FreshJobKeys(s: State, h: Digests, plans: seq<Plan>, req: CreateRequest, now: Time)
    requires Inv(s.jobs) && req.body.maxConcurrency > 0
    requires NoCollision(h, plans) && JobKeysFree(s.jobs, h, req.requestDigest, plans)
    ensures IdempotencyKeysUnique(s.jobs + NewJobs(h, s, plans, req, now))
  {
    var more := NewJobs(h, s, plans, req, now);
    var all := s.jobs + more;
    forall a, b | 0 <= a < b < |all| ensures all[a].spec.idempotencyKey != all[b].spec.idempotencyKey {
      if |s.jobs| <= a {
        var x, y := h.source(plans[a - |s.jobs|]), h.source(plans[b - |s.jobs|]);
        if PrepareKey(req.requestDigest, x) == PrepareKey(req.requestDigest, y) {
          PrepareKeyInjective(req.requestDigest, x, y);
        }
      }
    }
  }

  lemma CollisionBreaksUniqueness(s: State, h: Digests, plans: seq<Plan>, req: CreateRequest, now: Time)
    requires req.body.maxConcurrency > 0 && !(NoCollision(h, plans) && JobKeysFree(s.jobs, h, req.requestDigest, plans))
    ensures !IdempotencyKeysUnique(s.jobs + NewJobs(h, s, plans, req, now))
  {
    var all := s.jobs + NewJobs(h, s, plans, req, now);
    if !NoCollision(h, plans) {
      var i, j :| 0 <= i < j < |plans| && h.source(plans[i]) == h.source(plans[j]);
      assert all[|s.jobs| + i].spec.idempotencyKey == all[|s.jobs| + j].spec.idempotencyKey;
    } else {
      var i, k :| 0 <= i < |s.jobs| && 0 <= k < |plans| && s.jobs[i].spec.idempotencyKey == PrepareKey(req.requestDigest, h.source(plans[k]));
      assert all[i].spec.idempotencyKey == all[|s.jobs| + k].spec.idempotencyKey;
    }
  }

  /** The row of a variant's job when it is created. */
  predicate PreparesVariant(j: Job, h: Digests, b: nat, k: nat, variant: nat, plan: Plan, req: CreateRequest, now: Time) {
    && j.status.Queued? && j.attemptCount == 0 && j.attempts == [] && j.leaseOwner.None? && j.submittedAt.None? && !j.uncertain
    && j.spec.jobType == "video.batch.variant.prepare.v1" && j.spec.sourceType == "batch_video_variant" && j.spec.sourceId == variant
    && j.spec.inputDigest == h.source(plan)
    && j.spec.idempotencyKey == "batch-prepare:" + req.requestDigest + ":" + h.source(plan)
    && j.spec.priority == req.body.priority && j.spec.estimatedCost == 0 && j.spec.costConfirmed
    && j.spec.maxAttempts == 1 && j.spec.createdAt == now
    && req.body.maxConcurrency > 0 && j.spec.concurrencyKey == Some(SlotKey(b, k % req.body.maxConcurrency))
  }

  /** One batch was added, with one variant and one job for each plan, in order; nothing else changed. */
  predicate BatchInserted(s: State, s': State, h: Digests, plans: seq<Plan>, req: CreateRequest, now: Time) {
    var b := |s.batches|;
    && |s'.batches| == b + 1 && s'.batches[..b] == s.batches
    && |s'.jobs| == |s.jobs| + |plans| && s'.jobs[..|s.jobs|] == s.jobs && s'.nextVariant == s.nextVariant + |plans|
    && s'.batches[b].digest == req.requestDigest && s'.batches[b].key == req.key
    && s'.batches[b].maxConcurrency == req.body.maxConcurrency && |s'.batches[b].variants| == |plans|
    && forall k :: 0 <= k < |plans| ==>
         && s'.batches[b].variants[k] == Variant(s.nextVariant + k, plans[k], |s.jobs| + k)
         && PreparesVariant(s'.jobs[|s.jobs| + k], h, b, k, s.nextVariant + k, plans[k], req, now)
  }

  lemma NewBatchInserted(s: State, s': State, h: Digests, plans: seq<Plan>, req: CreateRequest, now: Time)
    requires req.body.maxConcurrency > 0
    requires s' == State(s.jobs + NewJobs(h, s, plans, req, now), s.batches + [NewBatch(s, plans, req)], s.nextVariant + |plans|)
    ensures BatchInserted(s, s', h, plans, req, now)
  {
    var b := |s.batches|;
    forall k | 0 <= k < |plans|
      ensures s'.batches[b].variants[k] == Variant(s.nextVariant + k, plans[k], |s.jobs| + k)
              && PreparesVariant(s'.jobs[|s.jobs| + k], h, b, k, s.nextVariant + k, plans[k], req, now)
    {
      assert s'.jobs[|s.jobs| + k] == VariantJob(h, b, k, s.nextVariant + k, plans[k], req, now);
      VariantJobColumns(h, b, k, s.nextVariant + k, plans[k], req, now);
    }
  }

  lemma VariantJobColumns(h: Digests, b: nat, k: nat, variant: nat, plan: Plan, req: CreateRequest, now: Time)
    requires req.body.maxConcurrency > 0
    ensures PreparesVariant(VariantJob(h, b, k, variant, plan, req, now), h, b, k, variant, plan, req, now)
  {
  }

  predicate KeyOrDigestTaken(batches: seq<Batch>, req: CreateRequest) {
    exists b :: 0 <= b < |batches| && (batches[b].key == req.key || batches[b].digest == req.requestDigest)
  }

  lemma LookupFindsIffTaken(batches: seq<Batch>, seen: nat, req: CreateRequest)
    ensures Lookup(batches, |batches|, req).Some? <==> KeyOrDigestTaken(batches, req)
    ensures Lookup(batches, seen, req).Some? ==> KeyOrDigestTaken(batches, req)
  {
    var byKey, byDigest := Find(batches, BatchKeyOf, req.key, |batches|), Find(batches, BatchDigestOf, req.requestDigest, |batches|);
    if b :| 0 <= b < |batches| && (batches[b].key == req.key || batches[b].digest == req.requestDigest) {
      assert BatchKeyOf(batches[b]) == req.key || BatchDigestOf(batches[b]) == req.requestDigest;
    }
  }

  /** Well formed, new, not expired, accepted again by the preflight with the same digests, and its job keys are free. */
  predicate Creatable(s: State, h: Digests, products: Catalogue, req: CreateRequest, now: Time) {
    var checked := Preflight(req.body, products);
    && ValidRequest(req.body) && |req.key| >= 8 && !KeyOrDigestTaken(s.batches, req) && now < req.expiresAt
    && checked.Ready?
    && h.request(checked.frozen) == req.requestDigest && h.preflight(req.requestDigest, req.expiresAt) == req.preflightDigest
    && NoCollision(h, checked.frozen.plans) && JobKeysFree(s.jobs, h, req.requestDigest, checked.frozen.plans)
  }

  /** Exactly when a batch is created; then it is there with its variants and jobs, and otherwise nothing changes. */
  lemma CreationExact(s: State, h: Digests, products: Catalogue, seen: nat, req: CreateRequest, now: Time)
    requires StateInv(s)
    ensures var (s', reply) := Creation(s, h, products, seen, req, now);
      && (reply.BatchCreated? <==> Creatable(s, h, products, req, now))
      && (!reply.BatchCreated? ==> s' == s)
      && (reply.BatchCreated? ==> reply == BatchCreated(|s.batches|)
                                  && BatchInserted(s, s', h, Preflight(req.body, products).frozen.plans, req, now))
  {
    CreationReplies(s, h, products, seen, req, now);
    if ValidRequest(req.body) && Preflight(req.body, products).Ready? {
      KeysUniqueIff(s, h, Preflight(req.body, products).frozen.plans, req, now);
    }
    CreationWrites(s, h, products, seen, req, now);
  }

  lemma CreationWrites(s: State, h: Digests, products: Catalogue, seen: nat, req: CreateRequest, now: Time)
    ensures var (s', reply) := Creation(s, h, products, seen, req, now);
      reply.BatchCreated? ==>
        && Preflight(req.body, products).Ready? && reply == BatchCreated(|s.batches|)
        && BatchInserted(s, s', h, Preflight(req.body, products).frozen.plans, req, now)
  {
    CreationInserts(s, h, products, seen, req, now);
    var result := Creation(s, h, products, seen, req, now);
    if result.1.BatchCreated? { NewBatchInserted(s, result.0, h, Preflight(req.body, products).frozen.plans, req, now); }
  }

  /** The code of every refusal of a request whose key and digest are new. */
  lemma CreationCodes(s: State, h: Digests, products: Catalogue, seen: nat, req: CreateRequest, now: Time)
    requires StateInv(s) && !KeyOrDigestTaken(s.batches, req) && !Creatable(s, h, products, req, now)
    ensures var reply, checked := Creation(s, h, products, seen, req, now).1, Preflight(req.body, products);
      reply == if !ValidRequest(req.body) || |req.key| < 8 then BatchRejected(422)
               else if req.expiresAt <= now then BatchRejected(409)
               else if checked.Refused? then BatchRejected(checked.code)
               else if h.request(checked.frozen) != req.requestDigest
                       || h.preflight(req.requestDigest, req.expiresAt) != req.preflightDigest then BatchRejected(409)
               else BatchRaised
  {
    CreationReplies(s, h, products, seen, req, now);
    if ValidRequest(req.body) && Preflight(req.body, products).Ready? {
      KeysUniqueIff(s, h, Preflight(req.body, products).frozen.plans, req, now);
    }
  }

  lemma KeysUniqueIff(s: State, h: Digests, plans: seq<Plan>, req: CreateRequest, now: Time)
    requires Inv(s.jobs) && req.body.maxConcurrency > 0
    ensures IdempotencyKeysUnique(s.jobs + NewJobs(h, s, plans, req, now)) <==>
            NoCollision(h, plans) && JobKeysFree(s.jobs, h, req.requestDigest, plans)
  {
    if NoCollision(h, plans) && JobKeysFree(s.jobs, h, req.requestDigest, plans) {
      FreshJobKeys(s, h, plans, req, now);
    } else {
      CollisionBreaksUniqueness(s, h, plans, req, now);
    }
  }

  lemma CreationReplies(s: State, h: Digests, products: Catalogue, seen: nat, req: CreateRequest, now: Time)
    ensures var (s', reply) := Creation(s, h, products, seen, req, now);
      var checked := Preflight(req.body, products);
      && (!reply.BatchCreated? ==> s' == s)
      && if !ValidRequest(req.body) || |req.key| < 8 then reply == BatchRejected(422)
         else if KeyOrDigestTaken(s.batches, req) then !reply.BatchCreated?
         else if req.expiresAt <= now then reply == BatchRejected(409)
         else if checked.Refused? then reply == BatchRejected(checked.code)
         else if h.request(checked.frozen) != req.requestDigest || h.preflight(req.requestDigest, req.expiresAt) != req.preflightDigest
         then reply == BatchRejected(409)
         else
           var plans := checked.frozen.plans;
           if !IdempotencyKeysUnique(s.jobs + NewJobs(h, s, plans, req, now)) then reply == BatchRaised
           else reply == BatchCreated(|s.batches|)
                && s' == State(s.jobs + NewJobs(h, s, plans, req, now), s.batches + [NewBatch(s, plans, req)], s.nextVariant + |plans|)
  {
    LookupFindsIffTaken(s.batches, seen, req);
    LookupNeverCreates(s.batches, seen, req);
    LookupNeverCreates(s.batches, |s.batches|, req);
  }

  // ----- status -----

  datatype VariantStatus = Waiting | VariantPaused | VariantRunning | ReadyForScript | VariantFailed | VariantCancelled

  datatype BatchStatus =
    | BatchWaiting | BatchReady | BatchFailed | BatchCancelled | BatchRunning | PartialFailed | MixedTerminal | BatchPaused

  function StatusOf(s: JobStatus): VariantStatus {
    match s
    case Queued => Waiting
    case Paused => VariantPaused
    case Running => VariantRunning
    case Succeeded => ReadyForScript
    case Failed => VariantFailed
    case SubmitUnknown => VariantFailed
    case Cancelled => VariantCancelled
  }

  predicate AllAre(statuses: seq<VariantStatus>, v: VariantStatus) { forall x :: x in statuses ==> x == v }

  function Aggregate(statuses: seq<VariantStatus>): BatchStatus {
    if statuses == [] then BatchWaiting
    else if AllAre(statuses, Waiting) then BatchWaiting
    else if AllAre(statuses, ReadyForScript) then BatchReady
    else if AllAre(statuses, VariantFailed) then BatchFailed
    else if AllAre(statuses, VariantCancelled) then BatchCancelled
    else if VariantRunning in statuses then BatchRunning
    else if VariantFailed in statuses then PartialFailed
    else if forall x :: x in statuses ==> x == ReadyForScript || x == VariantFailed || x == VariantCancelled then MixedTerminal
    else if VariantPaused in statuses then BatchPaused
    else BatchRunning
  }

  /** What the less obvious aggregates mean. */
  lemma AggregateMeaning(s: seq<VariantStatus>)
    requires s != []
    ensures Aggregate(s) == MixedTerminal <==>
            ReadyForScript in s && VariantCancelled in s && forall v :: v in s ==> v == ReadyForScript || v == VariantCancelled
    ensures Aggregate(s) == PartialFailed <==>
            VariantFailed in s && VariantRunning !in s && exists v :: v in s && v != VariantFailed
    ensures Aggregate(s) == BatchPaused <==>
            VariantPaused in s && VariantRunning !in s && VariantFailed !in s
    ensures Aggregate(s) == BatchRunning <==>
            VariantRunning in s
            || (Waiting in s && VariantFailed !in s && VariantPaused !in s && (ReadyForScript in s || VariantCancelled in s))
  {
    assert s[0] in s;
  }

  /** The status of a variant is that of its job; without a job it is the one it was created with. */
  function StatusesOf(jobs: seq<Job>, batch: Batch): (r: seq<VariantStatus>)
    ensures |r| == |batch.variants|
    ensures forall k :: 0 <= k < |r| ==>
      r[k] == if batch.variants[k].jobId < |jobs| then StatusOf(jobs[batch.variants[k].jobId].status) else Waiting
  {
    seq(|batch.variants|, k requires 0 <= k < |batch.variants| =>
      if batch.variants[k].jobId < |jobs| then StatusOf(jobs[batch.variants[k].jobId].status) else Waiting)
  }

  function StatusOfBatch(s: State, b: nat): BatchStatus
    requires b < |s.batches|
  {
    Aggregate(StatusesOf(s.jobs, s.batches[b]))
  }

  // ----- a final status is final -----

  /** A job that nothing can change any more: it ended, and if it failed it has no attempt left. */
  predicate Ended(j: Job) { Absorbing(j.status) || (j.status.Failed? && j.attemptCount >= j.spec.maxAttempts) }

  lemma ControlKeepsEnded(j: Job, action: Control, now: Time)
    requires Ended(j)
    ensures ControlJob(j, action, now).0 == j
  {
  }

  lemma {:induction false} ControlAllKeepsEnded(jobs: seq<Job>, variants: seq<Variant>, action: Control, now: Time, i: nat)
    requires i < |jobs| && Ended(jobs[i])
    ensures ControlAll(jobs, variants, action, now)[i] == jobs[i]
  {
    if variants != [] {
      ControlAllKeepsEnded(jobs, variants[..|variants| - 1], action, now, i);
      ControlKeepsEnded(jobs[i], action, now);
    }
  }

  lemma ApplyKeepsEnded(jobs: seq<Job>, op: Op, i: nat)
    requires i < |jobs| && Ended(jobs[i])
    ensures i < |After(jobs, op)| && After(jobs, op)[i] == jobs[i]
  {
    RowMoves(jobs, op, i);
    if op.ControlOp? { ControlKeepsEnded(jobs[i], op.action, op.controlNow); }
  }

  lemma NextKeepsEnded(s: State, step: BatchStep, i: nat)
    requires i < |s.jobs| && Ended(s.jobs[i])
    ensures i < |Next(s, step).jobs| && Next(s, step).jobs[i] == s.jobs[i]
  {
    match step
    case QueueStep(op) => ApplyKeepsEnded(s.jobs, op, i);
    case CreateStep(_, _, _, _, _) =>
    case ControlStep(b, action, now) =>
      if b < |s.batches| { ControlAllKeepsEnded(s.jobs, s.batches[b].variants, action, now, i); }
  }

  lemma {:induction false} RunKeepsEnded(s: State, steps: seq<BatchStep>, i: nat)
    requires i < |s.jobs| && Ended(s.jobs[i])
    ensures i < |RunBatches(s, steps).jobs| && RunBatches(s, steps).jobs[i] == s.jobs[i]
    decreases |steps|
  {
    if steps != [] {
      NextKeepsEnded(s, steps[0], i);
      RunKeepsEnded(Next(s, steps[0]), steps[1..], i);
    }
  }

  predicate Final(status: BatchStatus) { status == BatchReady || status == BatchFailed || status == BatchCancelled || status == MixedTerminal }

  /** Every variant of a batch in a final status has ended. */
  lemma FinalMeansEnded(s: State, b: nat, k: nat)
    requires StateInv(s) && b < |s.batches| && Final(StatusOfBatch(s, b)) && k < |s.batches[b].variants|
    ensures var id := s.batches[b].variants[k].jobId; id < |s.jobs| && Ended(s.jobs[id])
  {
    var v, batch := StatusesOf(s.jobs, s.batches[b]), s.batches[b];
    assert BatchPlaced(s.jobs, b, batch) && VariantPlaced(s.jobs, b, batch, k);
    var j := s.jobs[batch.variants[k].jobId];
    assert JobInv(j) && (j.status.Failed? ==> |j.attempts| > 0);
    AggregateMeaning(v);
    assert v[k] in v;
  }

  /**
   Once a reachable batch reports READY, FAILED, CANCELLED or MIXED_TERMINAL, no later call, a retry
   included, changes that status or any of the batch's jobs.
   */
  lemma FinalStatusIsFinal(steps: seq<BatchStep>, more: seq<BatchStep>, b: nat)
    requires b < |RunBatches(EMPTY, steps).batches| && Final(StatusOfBatch(RunBatches(EMPTY, steps), b))
    ensures var s := RunBatches(EMPTY, steps); var t := RunBatches(s, more);
      && b < |t.batches| && t.batches[b] == s.batches[b] && StatusOfBatch(t, b) == StatusOfBatch(s, b)
      && forall k :: 0 <= k < |s.batches[b].variants| ==>
           var id := s.batches[b].variants[k].jobId; id < |s.jobs| && id < |t.jobs| && t.jobs[id] == s.jobs[id]
  {
    RunBatchesKeeps(EMPTY, steps);
    var s := RunBatches(EMPTY, steps);
    var t := RunBatches(s, more);
    RunBatchesKeeps(s, more);
    assert t.batches[b] == t.batches[..|s.batches|][b] == s.batches[b];
    forall k | 0 <= k < |s.batches[b].variants|
      ensures var id := s.batches[b].variants[k].jobId; id < |s.jobs| && id < |t.jobs| && t.jobs[id] == s.jobs[id]
    {
      FinalMeansEnded(s, b, k);
      RunKeepsEnded(s, more, s.batches[b].variants[k].jobId);
    }
    assert StatusesOf(t.jobs, t.batches[b]) == StatusesOf(s.jobs, s.batches[b]);
  }

  predicate AllJobs(s: State, b: nat, statuses: set<JobStatus>)
    requires b < |s.batches|
  {
    forall k :: 0 <= k < |s.batches[b].variants| ==>
      s.batches[b].variants[k].jobId < |s.jobs| && s.jobs[s.batches[b].variants[k].jobId].status in statuses
  }

  lemma AllJobsAre(s: State, b: nat, x: VariantStatus, statuses: set<JobStatus>)
    requires b < |s.batches| && BatchPlaced(s.jobs, b, s.batches[b])
    requires forall j: JobStatus :: j in statuses <==> StatusOf(j) == x
    ensures AllJobs(s, b, statuses) <==> AllAre(StatusesOf(s.jobs, s.batches[b]), x)
  {
    var batch := s.batches[b];
    var v := StatusesOf(s.jobs, batch);
    forall k | 0 <= k < |v|
      ensures batch.variants[k].jobId < |s.jobs| && (s.jobs[batch.variants[k].jobId].status in statuses <==> v[k] == x)
    {
      assert VariantPlaced(s.jobs, b, batch, k);
    }
    if AllAre(v, x) { assert forall k :: 0 <= k < |v| ==> v[k] in v; }
  }

  /** What the status of a reachable batch says about its jobs. */
  lemma BatchStatusMeaning(steps: seq<BatchStep>, b: nat)
    requires b < |RunBatches(EMPTY, steps).batches|
    ensures var s := RunBatches(EMPTY, steps); var status := StatusOfBatch(s, b);
      && (status == BatchReady <==> AllJobs(s, b, {JobStatus.Succeeded}))
      && (status == BatchFailed <==> AllJobs(s, b, {JobStatus.Failed, JobStatus.SubmitUnknown}))
      && (status == BatchCancelled <==> AllJobs(s, b, {JobStatus.Cancelled}))
      && (status == BatchWaiting <==> AllJobs(s, b, {JobStatus.Queued}))
      && (RunningVariants(s.jobs, s.batches[b]) != {} ==> status == BatchRunning)
  {
    RunBatchesKeeps(EMPTY, steps);
    var s := RunBatches(EMPTY, steps);
    PlacedStatusMeaning(s, b);
    if RunningVariants(s.jobs, s.batches[b]) != {} { RunningIsReported(s, b); }
  }

  lemma PlacedStatusMeaning(s: State, b: nat)
    requires b < |s.batches| && BatchPlaced(s.jobs, b, s.batches[b])
    ensures var status := StatusOfBatch(s, b);
      && (status == BatchReady <==> AllJobs(s, b, {JobStatus.Succeeded}))
      && (status == BatchFailed <==> AllJobs(s, b, {JobStatus.Failed, JobStatus.SubmitUnknown}))
      && (status == BatchCancelled <==> AllJobs(s, b, {JobStatus.Cancelled}))
      && (status == BatchWaiting <==> AllJobs(s, b, {JobStatus.Queued}))
  {
    assert StatusesOf(s.jobs, s.batches[b]) != [];
    UniformStatuses(StatusesOf(s.jobs, s.batches[b]));
    ReadyJobs(s, b);
    FailedJobs(s, b);
    CancelledJobs(s, b);
    WaitingJobs(s, b);
  }

  lemma CancelledJobs(s: State, b: nat)
    requires b < |s.batches| && BatchPlaced(s.jobs, b, s.batches[b])
    ensures AllJobs(s, b, {JobStatus.Cancelled}) <==> AllAre(StatusesOf(s.jobs, s.batches[b]), VariantCancelled)
  {
    AllJobsAre(s, b, VariantCancelled, {JobStatus.Cancelled});
  }

  lemma WaitingJobs(s: State, b: nat)
    requires b < |s.batches| && BatchPlaced(s.jobs, b, s.batches[b])
    ensures AllJobs(s, b, {JobStatus.Queued}) <==> AllAre(StatusesOf(s.jobs, s.batches[b]), Waiting)
  {
    AllJobsAre(s, b, Waiting, {JobStatus.Queued});
  }

  lemma ReadyJobs(s: State, b: nat)
    requires b < |s.batches| && BatchPlaced(s.jobs, b, s.batches[b])
    ensures AllJobs(s, b, {JobStatus.Succeeded}) <==> AllAre(StatusesOf(s.jobs, s.batches[b]), ReadyForScript)
  {
    AllJobsAre(s, b, ReadyForScript, {JobStatus.Succeeded});
  }

  lemma FailedJobs(s: State, b: nat)
    requires b < |s.batches| && BatchPlaced(s.jobs, b, s.batches[b])
    ensures AllJobs(s, b, {JobStatus.Failed, JobStatus.SubmitUnknown}) <==> AllAre(StatusesOf(s.jobs, s.batches[b]), VariantFailed)
  {
    AllJobsAre(s, b, VariantFailed, {JobStatus.Failed, JobStatus.SubmitUnknown});
  }

  predicate SomeJob(s: State, b: nat, statuses: set<JobStatus>)
    requires b < |s.batches|
  {
    exists k :: 0 <= k < |s.batches[b].variants|
      && s.batches[b].variants[k].jobId < |s.jobs| && s.jobs[s.batches[b].variants[k].jobId].status in statuses
  }

  lemma SomeJobIs(s: State, b: nat, x: VariantStatus, statuses: set<JobStatus>)
    requires b < |s.batches| && BatchPlaced(s.jobs, b, s.batches[b])
    requires forall j: JobStatus :: j in statuses <==> StatusOf(j) == x
    ensures SomeJob(s, b, statuses) <==> x in StatusesOf(s.jobs, s.batches[b])
  {
    var batch := s.batches[b];
    var v := StatusesOf(s.jobs, batch);
    forall k | 0 <= k < |v|
      ensures batch.variants[k].jobId < |s.jobs| && (s.jobs[batch.variants[k].jobId].status in statuses <==> v[k] == x)
    {
      assert VariantPlaced(s.jobs, b, batch, k);
    }
  }

  /** In every reachable state, what the statuses of a mixed batch say about its jobs. */
  lemma MixedStatusMeaning(steps: seq<BatchStep>, b: nat)
    requires b < |RunBatches(EMPTY, steps).batches|
    ensures var s := RunBatches(EMPTY, steps); var status := StatusOfBatch(s, b);
      var running, failed := SomeJob(s, b, {JobStatus.Running}), SomeJob(s, b, {JobStatus.Failed, JobStatus.SubmitUnknown});
      && (running ==> status == BatchRunning)
      && (status == PartialFailed <==> failed && !running && !AllJobs(s, b, {JobStatus.Failed, JobStatus.SubmitUnknown}))
      && (status == BatchPaused <==> SomeJob(s, b, {JobStatus.Paused}) && !running && !failed)
      && (status == MixedTerminal ==> SomeJob(s, b, {JobStatus.Succeeded}) && SomeJob(s, b, {JobStatus.Cancelled})
                                      && !running && !failed && !SomeJob(s, b, {JobStatus.Paused}) && !SomeJob(s, b, {JobStatus.Queued}))
  {
    RunBatchesKeeps(EMPTY, steps);
    var s := RunBatches(EMPTY, steps);
    assert BatchPlaced(s.jobs, b, s.batches[b]);
    AggregateMeaning(StatusesOf(s.jobs, s.batches[b]));
    StatusesSeen(s, b);
    FailedJobs(s, b);
  }

  lemma StatusesSeen(s: State, b: nat)
    requires b < |s.batches| && BatchPlaced(s.jobs, b, s.batches[b])
    ensures var v := StatusesOf(s.jobs, s.batches[b]);
      && (SomeJob(s, b, {JobStatus.Running}) <==> VariantRunning in v)
      && (SomeJob(s, b, {JobStatus.Paused}) <==> VariantPaused in v)
      && (SomeJob(s, b, {JobStatus.Queued}) <==> Waiting in v)
      && (SomeJob(s, b, {JobStatus.Succeeded}) <==> ReadyForScript in v)
      && (SomeJob(s, b, {JobStatus.Cancelled}) <==> VariantCancelled in v)
      && (SomeJob(s, b, {JobStatus.Failed, JobStatus.SubmitUnknown}) <==> VariantFailed in v)
  {
    SomeJobIs(s, b, VariantRunning, {JobStatus.Running});
    SomeJobIs(s, b, VariantPaused, {JobStatus.Paused});
    SomeJobIs(s, b, Waiting, {JobStatus.Queued});
    SomeJobIs(s, b, ReadyForScript, {JobStatus.Succeeded});
    SomeJobIs(s, b, VariantCancelled, {JobStatus.Cancelled});
    SomeJobIs(s, b, VariantFailed, {JobStatus.Failed, JobStatus.SubmitUnknown});
  }

  lemma UniformStatuses(v: seq<VariantStatus>)
    requires v != []
    ensures Aggregate(v) == BatchReady <==> AllAre(v, ReadyForScript)
    ensures Aggregate(v) == BatchFailed <==> AllAre(v, VariantFailed)
    ensures Aggregate(v) == BatchCancelled <==> AllAre(v, VariantCancelled)
    ensures Aggregate(v) == BatchWaiting <==> AllAre(v, Waiting)
  {
    assert v[0] in v;
  }

  lemma RunningIsReported(s: State, b: nat)
    requires b < |s.batches| && RunningVariants(s.jobs, s.batches[b]) != {}
    ensures StatusOfBatch(s, b) == BatchRunning
  {
    var v := StatusesOf(s.jobs, s.batches[b]);
    var k :| k in RunningVariants(s.jobs, s.batches[b]);
    assert v[k] == VariantRunning && v[k] in v;
    AggregateMeaning(v);
  }

  class BatchVideoJobService {
    var state: State

    ghost predicate Valid()
      reads this
    {
      StateInv(state)
    }

    constructor ()
      ensures Valid() && state == EMPTY
    {
      state := EMPTY;
    }

    /**
     The loop of create: one variant and one job per plan, in order; `conflict` says that the unique
     job key refused an insert, after which nothing of the loop is kept.
     */
    static method InsertJobs(s: State, h: Digests, plans: seq<Plan>, req: CreateRequest, now: Time)
      returns (jobs: seq<Job>, variants: seq<Variant>, conflict: bool)
      requires req.body.maxConcurrency > 0 && IdempotencyKeysUnique(s.jobs)
      ensures conflict <==> !IdempotencyKeysUnique(s.jobs + NewJobs(h, s, plans, req, now))
      ensures !conflict ==> jobs == s.jobs + NewJobs(h, s, plans, req, now) && variants == NewBatch(s, plans, req).variants
    {
      jobs, variants, conflict := s.jobs, [], false;
      ghost var all, placed := s.jobs + NewJobs(h, s, plans, req, now), NewBatch(s, plans, req).variants;
      for ordinal := 0 to |plans|
        invariant jobs == all[..|s.jobs| + ordinal] && variants == placed[..ordinal]
        invariant IdempotencyKeysUnique(jobs)
      {
        var plan := plans[ordinal];
        var variant := Variant(s.nextVariant + ordinal, plan, |jobs|);
        var job := VariantJob(h, |s.batches|, ordinal, variant.id, plan, req, now);
        assert job == all[|s.jobs| + ordinal];
        var taken := Find(jobs, JobKeyOf, job.spec.idempotencyKey, |jobs|);
        if taken.Some? {
          assert all[taken.value] == jobs[taken.value];
          return jobs, variants, true;
        }
        jobs := jobs + [job];
        variants := variants + [variant];
      }
      assert all[..|all|] == all;
    }

    /** Look up, check the preflight again, then insert the batch with its variants and jobs in one transaction. */
    method CreateBatch(h: Digests, products: Catalogue, seen: nat, req: CreateRequest, now: Time) returns (reply: BatchReply)
      requires Valid()
      modifies this
      ensures Valid() && (state, reply) == Creation(old(state), h, products, seen, req, now)
    {
      CreateKeepsState(state, h, products, seen, req, now);
      if !ValidRequest(req.body) || |req.key| < MIN_KEY_LENGTH { return BatchRejected(422); }
      var existing := Lookup(state.batches, seen, req);
      if existing.Some? { return existing.value; }
      if req.expiresAt <= now { return BatchRejected(409); }
      var checked := BatchVideoPreflightService.Run(req.body, products);
      if checked.Refused? { return BatchRejected(checked.code); }
      if h.request(checked.frozen) != req.requestDigest || h.preflight(req.requestDigest, req.expiresAt) != req.preflightDigest {
        return BatchRejected(409);
      }
      var concurrent := Lookup(state.batches, |state.batches|, req);
      if concurrent.Some? { return concurrent.value; }
      var plans := checked.frozen.plans;
      var jobs, variants, conflict := InsertJobs(state, h, plans, req, now);
      if conflict { return BatchRaised; }
      var batch := Batch(req.requestDigest, req.key, req.body.maxConcurrency, variants);
      state := State(jobs, state.batches + [batch], state.nextVariant + |plans|);
      reply := BatchCreated(|state.batches| - 1);
    }

    method ControlRow(id: nat, action: Control, now: Time)
      requires id < |state.jobs| && !action.Retry?
      modifies this
      ensures state == old(state).(jobs := old(state).jobs[id := ControlJob(old(state).jobs[id], action, now).0])
    {
      var job := state.jobs[id];
      assert state.jobs == state.jobs[id := job];
      if action.Pause? && job.status.Queued? {
        job := job.(status := Paused);
      } else if action.Resume? && job.status.Paused? {
        job := job.(status := Queued);
      } else if action.Cancel? && (job.status.Queued? || job.status.Paused?) {
        job := job.(status := Cancelled, completedAt := Some(now));
      }
      state := state.(jobs := state.jobs[id := job]);
    }

    /** Pause, resume or cancel every variant's job that the action applies to. */
    method ControlBatch(b: nat, action: Control, now: Time) returns (code: nat)
      requires Valid() && !action.Retry?
      modifies this
      ensures Valid() && state == Next(old(state), ControlStep(b, action, now))
      ensures if b < |old(state).batches| then BatchActedOn(old(state), state, b, action, now) else state == old(state)
      ensures code == if b < |state.batches| then 200 else 404
    {
      NextKeepsState(state, ControlStep(b, action, now));
      if b >= |state.batches| { return 404; }
      ControlReachesTheBatch(state, b, action, now);
      ControlVariants(state.batches[b].variants, action, now);
      code := 200;
    }

    method ControlVariants(variants: seq<Variant>, action: Control, now: Time)
      requires !action.Retry?
      modifies this
      ensures state == old(state).(jobs := ControlAll(old(state).jobs, variants, action, now))
    {
      for k := 0 to |variants|
        invariant state == old(state).(jobs := ControlAll(old(state).jobs, variants[..k], action, now))
      {
        assert variants[..k + 1][..k] == variants[..k];
        if variants[k].jobId < |state.jobs| { ControlRow(variants[k].jobId, action, now); }
      }
      assert variants[..|variants|] == variants;
    }
  }
}
