/** Which job a claim takes, and when it takes none. */
module ClaimOrder {
  import opened Wrappers
  import opened ExecutionRecords
  import opened QueueSpec
  import opened QueueInvariant
  import opened QueueRuns

  predicate IsBest(jobs: seq<Job>, types: seq<string>, c: nat) {
    && Eligible(jobs, types, c)
    && forall o :: 0 <= o < |jobs| && o != c && Eligible(jobs, types, o) ==> Before(jobs, c, o)
  }

  predicate NoneEligible(jobs: seq<Job>, types: seq<string>) {
    forall o :: 0 <= o < |jobs| ==> !Eligible(jobs, types, o)
  }

  lemma BeforeIsStrictTotal(jobs: seq<Job>, a: nat, b: nat, c: nat)
    requires a < |jobs| && b < |jobs| && c < |jobs|
    ensures !Before(jobs, a, a)
    ensures a != b ==> (Before(jobs, a, b) <==> !Before(jobs, b, a))
    ensures Before(jobs, a, b) && Before(jobs, b, c) ==> Before(jobs, a, c)
  {
  }

  lemma {:induction false} CandidateAmongIsBest(jobs: seq<Job>, types: seq<string>, n: nat)
    requires n <= |jobs|
    ensures var r := CandidateAmong(jobs, types, n);
      && (r.None? ==> forall o :: 0 <= o < n ==> !Eligible(jobs, types, o))
      && (r.Some? ==> Eligible(jobs, types, r.value))
      && (r.Some? ==> forall o :: 0 <= o < n && o != r.value && Eligible(jobs, types, o) ==> Before(jobs, r.value, o))
  {
    if n > 0 {
      CandidateAmongIsBest(jobs, types, n - 1);
      var best, r := CandidateAmong(jobs, types, n - 1), CandidateAmong(jobs, types, n);
      if best.Some? && r.Some? {
        forall o | 0 <= o < n && o != r.value && Eligible(jobs, types, o) ensures Before(jobs, r.value, o) {
          BeforeIsStrictTotal(jobs, r.value, best.value, o);
        }
      }
    }
  }

  /** The candidate is the unique best eligible row of what was read; there is none only if no row is eligible. */
  lemma CandidateIsBest(jobs: seq<Job>, types: seq<string>, c: nat)
    requires c < |jobs|
    ensures Candidate(jobs, types) == Some(c) <==> IsBest(jobs, types, c)
    ensures Candidate(jobs, types).None? <==> NoneEligible(jobs, types)
  {
    CandidateAmongIsBest(jobs, types, |jobs|);
    var r := Candidate(jobs, types);
    if r.Some? && IsBest(jobs, types, c) && r.value != c {
      BeforeIsStrictTotal(jobs, r.value, c, c);
    }
  }

  /** The rows that the UPDATE of an undisturbed claim reads. */
  function Stored(jobs: seq<Job>, autoflush: bool, now: Time): seq<Job> {
    if autoflush then Recover(jobs, now) else jobs
  }

  /** An undisturbed claim: the candidate comes from the rows the UPDATE itself sees. */
  function AtomicClaim(jobs: seq<Job>, autoflush: bool, data: ClaimRequest, now: Time): (seq<Job>, Reply) {
    ClaimTry(jobs, autoflush, Stored(jobs, autoflush, now), data, now)
  }

  /** Why a queued job was passed over. */
  predicate FilteredOut(jobs: seq<Job>, types: seq<string>, o: nat)
    requires o < |jobs|
  {
    || (types != [] && jobs[o].spec.jobType !in types)
    || (jobs[o].spec.estimatedCost > 0 && !jobs[o].spec.costConfirmed)
    || KeyBusy(jobs, o)
  }

  lemma QueuedEligibility(jobs: seq<Job>, types: seq<string>, o: nat)
    requires Inv(jobs) && o < |jobs|
    ensures Eligible(jobs, types, o) <==> jobs[o].status.Queued? && !FilteredOut(jobs, types, o)
  {
    assert JobInv(jobs[o]);
  }

  lemma StoredKeepsInv(jobs: seq<Job>, autoflush: bool, now: Time)
    requires Inv(jobs)
    ensures Inv(Stored(jobs, autoflush, now)) && |Stored(jobs, autoflush, now)| == |jobs|
  {
    RecoverKeeps(jobs, now);
  }

  /** What the reply of an undisturbed claim says. */
  lemma AtomicClaimReply(jobs: seq<Job>, autoflush: bool, data: ClaimRequest, now: Time)
    requires Inv(jobs)
    ensures var stored, reply := Stored(jobs, autoflush, now), AtomicClaim(jobs, autoflush, data, now).1;
      && (forall c :: 0 <= c < |jobs| ==> (reply == Claimed(c) <==> IsBest(stored, data.types, c)))
      && (reply == NoJob <==> forall o :: 0 <= o < |jobs| && stored[o].status.Queued? ==> FilteredOut(stored, data.types, o))
      && (reply == NoJob || reply.Claimed?)
  {
    var stored, reply := Stored(jobs, autoflush, now), AtomicClaim(jobs, autoflush, data, now).1;
    StoredKeepsInv(jobs, autoflush, now);
    var r := Candidate(stored, data.types);
    CandidateAmongIsBest(stored, data.types, |stored|);
    if r.Some? {
      assert Eligible(stored, data.types, r.value);
      assert reply == Claimed(r.value);
      QueuedEligibility(stored, data.types, r.value);
    } else {
      assert reply == NoJob;
      forall o | 0 <= o < |jobs| && stored[o].status.Queued? ensures FilteredOut(stored, data.types, o) {
        QueuedEligibility(stored, data.types, o);
      }
    }
    forall c | 0 <= c < |jobs| ensures reply == Claimed(c) <==> IsBest(stored, data.types, c) {
      CandidateIsBest(stored, data.types, c);
    }
  }

  /** Queued, of a wanted type, paid for, and with no other running job on its key. */
  predicate Claimable(jobs: seq<Job>, types: seq<string>, o: nat) {
    && o < |jobs| && jobs[o].status.Queued?
    && (types == [] || jobs[o].spec.jobType in types)
    && (jobs[o].spec.estimatedCost == 0 || jobs[o].spec.costConfirmed)
    && (jobs[o].spec.concurrencyKey.Some? ==>
          forall r :: 0 <= r < |jobs| && r != o && jobs[r].status.Running? ==> jobs[r].spec.concurrencyKey != jobs[o].spec.concurrencyKey)
  }

  /** Highest priority first; among equals the oldest; among those the lowest identity. */
  predicate InFrontOf(x: JobSpec, c: nat, y: JobSpec, o: nat) {
    x.priority > y.priority
    || (x.priority == y.priority && x.createdAt < y.createdAt)
    || (x.priority == y.priority && x.createdAt == y.createdAt && c < o)
  }

  /** An undisturbed claim takes the claimable job that is in front of all others, and none only if there is none. */
  lemma ClaimTakesTheFirst(jobs: seq<Job>, autoflush: bool, data: ClaimRequest, now: Time)
    requires Inv(jobs)
    ensures var rows, reply := if autoflush then Recover(jobs, now) else jobs, AtomicClaim(jobs, autoflush, data, now).1;
      && (forall c: nat :: reply == Claimed(c) <==>
            Claimable(rows, data.types, c)
            && forall o :: 0 <= o < |rows| && o != c && Claimable(rows, data.types, o) ==> InFrontOf(rows[c].spec, c, rows[o].spec, o))
      && (reply == NoJob <==> forall o :: 0 <= o < |rows| ==> !Claimable(rows, data.types, o))
  {
    var rows, reply := Stored(jobs, autoflush, now), AtomicClaim(jobs, autoflush, data, now).1;
    StoredKeepsInv(jobs, autoflush, now);
    AtomicClaimReply(jobs, autoflush, data, now);
    forall o | 0 <= o < |rows| ensures Claimable(rows, data.types, o) <==> Eligible(rows, data.types, o) {
      QueuedEligibility(rows, data.types, o);
    }
    forall c: nat ensures reply == Claimed(c) <==>
      Claimable(rows, data.types, c)
      && forall o :: 0 <= o < |rows| && o != c && Claimable(rows, data.types, o) ==> InFrontOf(rows[c].spec, c, rows[o].spec, o)
    {
      if c < |rows| {
        forall o | 0 <= o < |rows| ensures Before(rows, c, o) <==> InFrontOf(rows[c].spec, c, rows[o].spec, o) { }
      } else {
        CandidateAmongIsBest(rows, data.types, |rows|);
      }
    }
    forall o | 0 <= o < |rows| ensures !Claimable(rows, data.types, o) <==> (rows[o].status.Queued? ==> FilteredOut(rows, data.types, o)) {
      QueuedEligibility(rows, data.types, o);
    }
  }

  /** What a claim replies, and whether its recovery is kept, for a candidate from any view. */
  lemma ClaimReplyExact(jobs: seq<Job>, autoflush: bool, view: seq<Job>, data: ClaimRequest, now: Time)
    requires Inv(jobs)
    ensures var rows, c := if autoflush then Recover(jobs, now) else jobs, Candidate(view, data.types);
      var (jobs', reply) := ClaimTry(jobs, autoflush, view, data, now);
      if c.None? || c.value >= |jobs| || !rows[c.value].status.Queued? then jobs' == Recover(jobs, now) && reply == NoJob
      else if rows[c.value].spec.concurrencyKey.Some?
              && exists r :: 0 <= r < |jobs| && r != c.value && rows[r].status.Running?
                             && rows[r].spec.concurrencyKey == rows[c.value].spec.concurrencyKey
      then jobs' == jobs && reply == KeyConflict
      else reply == Claimed(c.value)
  {
    ClaimTryKeeps(jobs, autoflush, view, data, now);
  }

  /** After a claim that commits, no running job has a lease at or before its clock. */
  lemma NoExpiredLeaseAfterClaim(jobs: seq<Job>, autoflush: bool, view: seq<Job>, data: ClaimRequest, now: Time, i: nat)
    requires Inv(jobs) && ValidLease(data.leaseSeconds) && i < |jobs|
    requires ClaimTry(jobs, autoflush, view, data, now).1 != KeyConflict
    ensures i < |ClaimTry(jobs, autoflush, view, data, now).0|
    ensures !Expired(ClaimTry(jobs, autoflush, view, data, now).0[i], now)
  {
    ClaimTryKeeps(jobs, autoflush, view, data, now);
    assert JobInv(jobs[i]);
  }

  /** Whatever the candidate read, a claimed job was queued and alone on its key, and starts one new attempt. */
  lemma ClaimedIsExclusive(jobs: seq<Job>, autoflush: bool, view: seq<Job>, data: ClaimRequest, now: Time, c: nat)
    requires Inv(jobs) && ClaimTry(jobs, autoflush, view, data, now).1 == Claimed(c)
    ensures c < |jobs|
    ensures var stored, jobs' := Stored(jobs, autoflush, now), ClaimTry(jobs, autoflush, view, data, now).0;
      && stored[c].status.Queued?
      && OwnsLive(jobs'[c], data.worker, now) == (data.leaseSeconds > 0)
      && |jobs'[c].attempts| == |stored[c].attempts| + 1
      && (forall o :: 0 <= o < |jobs'| && o != c && jobs'[o].status.Running? && jobs'[c].spec.concurrencyKey.Some?
            ==> jobs'[o].spec.concurrencyKey != jobs'[c].spec.concurrencyKey)
      && (forall o :: 0 <= o < |jobs'| && o != c ==> jobs'[o] == Recover(jobs, now)[o])
  {
    QueuedRowIsRecovered(jobs, autoflush, now, c);
    ClaimTryKeeps(jobs, autoflush, view, data, now);
    var jobs' := ClaimTry(jobs, autoflush, view, data, now).0;
    forall o | 0 <= o < |jobs'| && o != c && jobs'[o].status.Running? && jobs'[c].spec.concurrencyKey.Some?
      ensures jobs'[o].spec.concurrencyKey != jobs'[c].spec.concurrencyKey
    {
      if o < c { assert RunningKeysUnique(jobs'); } else { assert RunningKeysUnique(jobs'); }
    }
  }

  /**
   With the production session factory the recovered rows are not written before the UPDATE,
   so a job that a claim itself puts back in the queue is never the job it takes.
   */
  lemma RecoveredJobWaitsForNextClaim(jobs: seq<Job>, view: seq<Job>, data: ClaimRequest, now: Time, i: nat)
    requires i < |jobs| && Expired(jobs[i], now)
    ensures ClaimTry(jobs, false, view, data, now).1 != Claimed(i)
  {
  }

  /** A claim that reads fresh rows in an autoflushing session can take such a job at once. */
  lemma RecoveredJobMayBeTakenWithAutoflush(spec: JobSpec, data: ClaimRequest, now: Time)
    requires spec.maxAttempts >= 2 && spec.estimatedCost == 0 && data.types == [] && spec.concurrencyKey.None?
    ensures var running := ClaimJob(NewJob(spec), "worker-one", now, now - 5);
      && AtomicClaim([running], true, data, now).1 == Claimed(0)
      && AtomicClaim([running], false, data, now).1 == NoJob
      && AtomicClaim([running], false, data, now).0 == [ExpireJob(running, now)]
  {
    var running := ClaimJob(NewJob(spec), "worker-one", now, now - 5);
    var jobs := [running];
    assert jobs[0].attempts == [NewAttempt(1, now - 5)];
    var done := Recover(jobs, now);
    assert done == [ExpireJob(running, now)];
    assert !KeyBusy(done, 0);
    assert Eligible(done, data.types, 0);
    CandidateIsBest(done, data.types, 0);
    CandidateIsBest(jobs, data.types, 0);
    assert IsBest(done, data.types, 0);
    assert NoneEligible(jobs, data.types);
  }

  // ----- the bounded claim loop -----

  /** What happens at one try of the loop: what others commit before it, the rows its candidate reads, its clock. */
  datatype ClaimRead = ClaimRead(others: seq<Op>, view: seq<Job>, now: Time)

  type Attempting = (seq<Job>, ClaimRead) -> (seq<Job>, Reply)

  function TryOf(autoflush: bool, data: ClaimRequest): Attempting {
    (jobs, read: ClaimRead) => ClaimTry(jobs, autoflush, read.view, data, read.now)
  }

  /** Tries in order; only a conflict on the running-key index leads to another try. */
  function ClaimLoop(jobs: seq<Job>, attempt: Attempting, tries: seq<ClaimRead>): (seq<Job>, Reply)
    requires tries != []
    decreases |tries|
  {
    var found := Run(jobs, tries[0].others);
    var (jobs', reply) := attempt(found, tries[0]);
    if reply != KeyConflict then (jobs', reply)
    else if |tries| == 1 then (found, NoJob)
    else ClaimLoop(found, attempt, tries[1..])
  }

  lemma LoopUnfolds(jobs: seq<Job>, attempt: Attempting, tries: seq<ClaimRead>)
    requires tries != []
    ensures var found := Run(jobs, tries[0].others);
      ClaimLoop(jobs, attempt, tries) ==
      if attempt(found, tries[0]).1 != KeyConflict then attempt(found, tries[0])
      else if |tries| == 1 then (found, NoJob)
      else ClaimLoop(found, attempt, tries[1..])
  {
  }

  /** The table that try k finds when the tries before it left nothing. */
  function Found(jobs: seq<Job>, tries: seq<ClaimRead>, k: nat): seq<Job>
    requires k < |tries|
  {
    Run(if k == 0 then jobs else Found(jobs, tries, k - 1), tries[k].others)
  }

  function TryAt(jobs: seq<Job>, attempt: Attempting, tries: seq<ClaimRead>, k: nat): (seq<Job>, Reply)
    requires k < |tries|
  {
    attempt(Found(jobs, tries, k), tries[k])
  }

  lemma {:induction false} FoundLater(jobs: seq<Job>, tries: seq<ClaimRead>, k: nat)
    requires k + 1 < |tries|
    ensures Found(jobs, tries, k + 1) == Found(Run(jobs, tries[0].others), tries[1..], k)
  {
    if k > 0 { FoundLater(jobs, tries, k - 1); }
  }

  /**
   Whatever others commit between its tries, the loop acts as one of them, all tries before it having met
   a conflict and left nothing, or gives up after the last one with what others did and nothing else.
   */
  lemma {:induction false} ClaimLoopIsOneTry(jobs: seq<Job>, attempt: Attempting, tries: seq<ClaimRead>) returns (k: nat)
    requires tries != []
    ensures k <= |tries|
    ensures forall m :: 0 <= m < k ==> TryAt(jobs, attempt, tries, m).1 == KeyConflict
    ensures k < |tries| ==> TryAt(jobs, attempt, tries, k).1 != KeyConflict
                            && ClaimLoop(jobs, attempt, tries) == TryAt(jobs, attempt, tries, k)
    ensures k == |tries| ==> ClaimLoop(jobs, attempt, tries) == (Found(jobs, tries, |tries| - 1), NoJob)
    decreases |tries|
  {
    if TryAt(jobs, attempt, tries, 0).1 != KeyConflict {
      k := 0;
    } else if |tries| == 1 {
      k := 1;
    } else {
      var found, later := Run(jobs, tries[0].others), tries[1..];
      var rest := ClaimLoopIsOneTry(found, attempt, later);
      k := rest + 1;
      forall m | 0 <= m < |later| ensures TryAt(jobs, attempt, tries, m + 1) == TryAt(found, attempt, later, m) {
        FoundLater(jobs, tries, m);
      }
      forall m | 0 <= m < k ensures TryAt(jobs, attempt, tries, m).1 == KeyConflict {
        if m > 0 { assert TryAt(found, attempt, later, m - 1).1 == KeyConflict; }
      }
      if rest == |later| { FoundLater(jobs, tries, rest - 1); }
    }
  }
}
