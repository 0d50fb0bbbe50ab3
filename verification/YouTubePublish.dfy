/**
 Publishing a video: the request commits its task, commits UPLOADING, calls the provider and
 commits what came of it.  Requests interleave, and any of them may die between two commits.
 */
module YouTubePublish {
  import opened Wrappers
  import opened Tables

  type Time = int

  datatype TaskStatus = TaskCreated | Uploading | Submitted | Processing | TaskSucceeded | TaskFailed | TaskSubmitUnknown

  datatype Task = Task(
    key: string, digest: string, status: TaskStatus, videoId: Option<string>, uncertain: bool,
    submittedAt: Option<Time>, completedAt: Option<Time>, errorCode: Option<string>)

  function NewTask(key: string, digest: string): Task {
    Task(key, digest, TaskCreated, None, false, None, None, None)
  }

  /** What the provider call ended with. */
  datatype UploadOutcome =
    | Uploaded(videoId: string)
    | SessionUncertain(code: string)
    | ProviderError(code: string, uncertain: bool)
    | OtherError

  /** Where a publish or refresh request stands between two of its commits. */
  datatype Phase =
    | Inserted(task: nat)
    | Calling(task: nat)
    | Returned(task: nat, outcome: UploadOutcome)
    | Refreshing(task: nat)

  /** `uploads` records every provider upload that really started, `outcomes` how it ended. */
  datatype State = State(tasks: seq<Task>, requests: map<nat, Phase>, uploads: multiset<nat>, outcomes: map<nat, UploadOutcome>)

  datatype PublishReply = Begun(id: nat) | Reused(id: nat) | Rejected(code: nat)

  function TaskKeyOf(t: Task): string { t.key }

  function Lookup(tasks: seq<Task>, seen: nat, key: string, digest: string): Option<PublishReply> {
    var found := Find(tasks, TaskKeyOf, key, if seen < |tasks| then seen else |tasks|);
    if found.None? then None
    else Some(if tasks[found.value].digest == digest then Reused(found.value) else Rejected(409))
  }

  /** Look up (seeing only the first `seen` tasks), insert, and fall back on the unique key. */
  function Begin(s: State, r: nat, seen: nat, key: string, digest: string, preflightOk: bool): (State, PublishReply) {
    var early, late := Lookup(s.tasks, seen, key, digest), Lookup(s.tasks, |s.tasks|, key, digest);
    if !preflightOk then (s, Rejected(409))
    else if early.Some? then (s, early.value)
    else if late.Some? then (s, late.value)
    else
      (s.(tasks := s.tasks + [NewTask(key, digest)], requests := s.requests[r := Inserted(|s.tasks|)]), Begun(|s.tasks|))
  }

  /** The outcome as it is written to the task. */
  function Recorded(t: Task, outcome: UploadOutcome, now: Time): Task {
    match outcome
    case Uploaded(id) => t.(videoId := Some(id), status := Submitted, uncertain := false, errorCode := None)
    case SessionUncertain(code) => t.(status := TaskSubmitUnknown, uncertain := true, errorCode := Some(code))
    case ProviderError(code, uncertain) =>
      t.(status := if uncertain then TaskSubmitUnknown else TaskFailed, uncertain := uncertain, errorCode := Some(code),
         completedAt := if uncertain then t.completedAt else Some(now))
    case OtherError => t.(status := TaskSubmitUnknown, uncertain := true, errorCode := Some("upload_result_uncertain"))
  }

  /** The provider reports one of three states of an uploaded video. */
  datatype VideoState = StillProcessing | Done | Broken

  function Refreshed(t: Task, v: VideoState, code: Option<string>, now: Time): Task {
    match v
    case StillProcessing => t.(status := Processing, errorCode := code)
    case Done => t.(status := TaskSucceeded, errorCode := code, completedAt := Some(now))
    case Broken => t.(status := TaskFailed, errorCode := code, completedAt := Some(now))
  }

  datatype Step =
    | BeginStep(r: nat, seen: nat, key: string, digest: string, preflightOk: bool)
    | AuthorizeStep(r: nat, authorized: bool, code: string, now: Time)
    | UploadStep(r: nat, outcome: UploadOutcome)
    | RecordStep(r: nat, now: Time)
    | RefreshStep(r: nat, task: nat)
    | RefreshDone(r: nat, answer: Option<VideoState>, errorCode: Option<string>, now: Time)
    | CrashStep(r: nat)

  predicate Plausible(o: UploadOutcome) { o.Uploaded? ==> o.videoId != "" }

  function Next(s: State, step: Step): State {
    match step
    case BeginStep(r, seen, key, digest, ok) => if r in s.requests then s else Begin(s, r, seen, key, digest, ok).0
    case AuthorizeStep(r, authorized, code, now) =>
      if r !in s.requests || !s.requests[r].Inserted? || s.requests[r].task >= |s.tasks| then s
      else
        var id := s.requests[r].task;
        if authorized then
          s.(tasks := s.tasks[id := s.tasks[id].(status := Uploading, submittedAt := Some(now))],
             requests := s.requests[r := Calling(id)])
        else
          s.(tasks := s.tasks[id := s.tasks[id].(status := TaskFailed, uncertain := false, errorCode := Some(code),
                                                 completedAt := Some(now))],
             requests := s.requests - {r})
    case UploadStep(r, outcome) =>
      if r !in s.requests || !s.requests[r].Calling? || !Plausible(outcome) then s
      else
        var id := s.requests[r].task;
        s.(uploads := s.uploads + multiset{id}, outcomes := s.outcomes[id := outcome],
           requests := s.requests[r := Returned(id, outcome)])
    case RecordStep(r, now) =>
      if r !in s.requests || !s.requests[r].Returned? || s.requests[r].task >= |s.tasks| then s
      else
        var id := s.requests[r].task;
        s.(tasks := s.tasks[id := Recorded(s.tasks[id], s.requests[r].outcome, now)], requests := s.requests - {r})
    case RefreshStep(r, id) =>
      if r in s.requests || id >= |s.tasks| || !(s.tasks[id].status.Submitted? || s.tasks[id].status.Processing?)
         || s.tasks[id].videoId.None? then s
      else s.(requests := s.requests[r := Refreshing(id)])
    case RefreshDone(r, answer, code, now) =>
      if r !in s.requests || !s.requests[r].Refreshing? || s.requests[r].task >= |s.tasks| then s
      else
        var id := s.requests[r].task;
        s.(tasks := if answer.None? then s.tasks else s.tasks[id := Refreshed(s.tasks[id], answer.value, code, now)],
           requests := s.requests - {r})
    case CrashStep(r) => s.(requests := s.requests - {r})
  }

  function Run(s: State, steps: seq<Step>): State
    decreases |steps|
  {
    if steps == [] then s else Run(Next(s, steps[0]), steps[1..])
  }

  const EMPTY := State([], map[], multiset{}, map[])

  // ----- invariant -----

  predicate Publishing(p: Phase) { !p.Refreshing? }

  predicate Settled(t: TaskStatus) { t.Submitted? || t.Processing? || t.TaskSucceeded? || t.TaskFailed? }

  /** What a task's columns say about each other and about the upload that really happened. */
  predicate TaskInv(t: Task, uploads: nat) {
    && (t.uncertain <==> t.status.TaskSubmitUnknown?)
    && (t.status.Submitted? || t.status.Processing? || t.status.TaskSucceeded? ==>
          t.videoId.Some? && t.videoId.value != "" && uploads == 1)
    && (t.status.TaskSubmitUnknown? ==> uploads == 1)
    && (t.status.TaskCreated? ==> uploads == 0)
    && uploads <= 1
    && (uploads == 1 ==> t.submittedAt.Some?)
    && (t.videoId.Some? ==> Settled(t.status))
  }

  /** What a request in flight may rely on. */
  predicate PhaseInv(tasks: seq<Task>, uploads: multiset<nat>, p: Phase) {
    && p.task < |tasks|
    && (p.Inserted? ==> tasks[p.task].status.TaskCreated?)
    && (p.Calling? ==> tasks[p.task].status.Uploading? && uploads[p.task] == 0 && tasks[p.task].submittedAt.Some?)
    && (p.Returned? ==> tasks[p.task].status.Uploading? && uploads[p.task] == 1 && Plausible(p.outcome))
    && (p.Refreshing? ==> tasks[p.task].videoId.Some? && Settled(tasks[p.task].status) && tasks[p.task].videoId.value != ""
                          && uploads[p.task] == 1)
  }

  /** No two publish requests hold the same task. */
  predicate Exclusive(requests: map<nat, Phase>) {
    forall r, q :: r in requests && q in requests && r != q && Publishing(requests[r]) && Publishing(requests[q])
      ==> requests[r].task != requests[q].task
  }

  predicate KeysDistinct(tasks: seq<Task>) {
    forall a, b :: 0 <= a < b < |tasks| ==> tasks[a].key != tasks[b].key
  }

  predicate PublishInv(s: State) {
    && (forall i :: 0 <= i < |s.tasks| ==> TaskInv(s.tasks[i], s.uploads[i]))
    && KeysDistinct(s.tasks)
    && (forall i :: i in s.uploads ==> i < |s.tasks|)
    && (forall r :: r in s.requests ==> PhaseInv(s.tasks, s.uploads, s.requests[r]))
    && Exclusive(s.requests)
  }

  /** A task that some publish request holds has no video yet, so no refresh can be in flight for it. */
  lemma HeldTaskIsNotShared(s: State, r: nat, q: nat)
    requires PublishInv(s) && r in s.requests && q in s.requests && r != q && Publishing(s.requests[r])
    ensures s.requests[q].task != s.requests[r].task
  {
    assert PhaseInv(s.tasks, s.uploads, s.requests[r]) && PhaseInv(s.tasks, s.uploads, s.requests[q]);
  }

  /** Only the row of the task that request r holds changes, and r either keeps it or is gone. */
  predicate HolderStep(s: State, s': State, r: nat) {
    && r in s.requests && Publishing(s.requests[r])
    && |s'.tasks| == |s.tasks| && s.requests[r].task < |s.tasks|
    && var id := s.requests[r].task;
    && (forall i :: 0 <= i < |s.tasks| && i != id ==> s'.tasks[i] == s.tasks[i] && s'.uploads[i] == s.uploads[i])
    && s'.tasks[id].key == s.tasks[id].key
    && (forall i :: i in s'.uploads ==> i in s.uploads || i == id)
    && (s'.requests == s.requests - {r}
        || (r in s'.requests && s'.requests == s.requests[r := s'.requests[r]]
            && s'.requests[r].task == id && Publishing(s'.requests[r])))
  }

  lemma HolderStepKeeps(s: State, s': State, r: nat)
    requires PublishInv(s) && HolderStep(s, s', r)
    requires TaskInv(s'.tasks[s.requests[r].task], s'.uploads[s.requests[r].task])
    requires r in s'.requests ==> PhaseInv(s'.tasks, s'.uploads, s'.requests[r])
    ensures PublishInv(s')
  {
    forall q | q in s'.requests && q != r ensures q in s.requests && PhaseInv(s'.tasks, s'.uploads, s'.requests[q]) {
      HeldTaskIsNotShared(s, r, q);
      assert PhaseInv(s.tasks, s.uploads, s.requests[q]);
    }
    assert KeysDistinct(s'.tasks);
    assert Exclusive(s'.requests);
  }

  lemma BeginKeeps(s: State, step: Step)
    requires PublishInv(s) && step.BeginStep?
    ensures PublishInv(Next(s, step))
  {
    var s' := Next(s, step);
    if s' != s {
      assert s.uploads[|s.tasks|] == 0;
      forall q | q in s'.requests ensures PhaseInv(s'.tasks, s'.uploads, s'.requests[q]) {
        if q != step.r { assert PhaseInv(s.tasks, s.uploads, s.requests[q]); }
      }
      forall q | q in s.requests ensures s.requests[q].task < |s.tasks| {
        assert PhaseInv(s.tasks, s.uploads, s.requests[q]);
      }
    }
  }

  lemma AuthorizeKeeps(s: State, step: Step)
    requires PublishInv(s) && step.AuthorizeStep?
    ensures PublishInv(Next(s, step))
  {
    if step.r in s.requests && s.requests[step.r].Inserted? {
      assert PhaseInv(s.tasks, s.uploads, s.requests[step.r]);
      assert TaskInv(s.tasks[s.requests[step.r].task], s.uploads[s.requests[step.r].task]);
      HolderStepKeeps(s, Next(s, step), step.r);
    }
  }

  lemma UploadKeeps(s: State, step: Step)
    requires PublishInv(s) && step.UploadStep?
    ensures PublishInv(Next(s, step))
  {
    if step.r in s.requests && s.requests[step.r].Calling? && Plausible(step.outcome) {
      assert PhaseInv(s.tasks, s.uploads, s.requests[step.r]);
      assert TaskInv(s.tasks[s.requests[step.r].task], s.uploads[s.requests[step.r].task]);
      HolderStepKeeps(s, Next(s, step), step.r);
    }
  }

  lemma RecordKeeps(s: State, step: Step)
    requires PublishInv(s) && step.RecordStep?
    ensures PublishInv(Next(s, step))
  {
    if step.r in s.requests && s.requests[step.r].Returned? {
      assert PhaseInv(s.tasks, s.uploads, s.requests[step.r]);
      assert TaskInv(s.tasks[s.requests[step.r].task], s.uploads[s.requests[step.r].task]);
      HolderStepKeeps(s, Next(s, step), step.r);
    }
  }

  lemma RefreshStartKeeps(s: State, step: Step)
    requires PublishInv(s) && step.RefreshStep?
    ensures PublishInv(Next(s, step))
  {
    if step.task < |s.tasks| { assert TaskInv(s.tasks[step.task], s.uploads[step.task]); }
    assert Exclusive(Next(s, step).requests);
  }

  /** A row that a refresh rewrites is one that no publish request holds. */
  lemma RefreshRowKeeps(s: State, id: nat, t: Task, r: nat)
    requires PublishInv(s) && id < |s.tasks| && TaskInv(t, s.uploads[id])
    requires t.key == s.tasks[id].key && t.videoId == s.tasks[id].videoId && t.videoId.Some?
    requires Settled(t.status) && Settled(s.tasks[id].status)
    ensures PublishInv(s.(tasks := s.tasks[id := t], requests := s.requests - {r}))
  {
    var s' := s.(tasks := s.tasks[id := t], requests := s.requests - {r});
    forall q | q in s'.requests ensures PhaseInv(s'.tasks, s'.uploads, s'.requests[q]) {
      assert PhaseInv(s.tasks, s.uploads, s.requests[q]);
    }
    assert KeysDistinct(s'.tasks) && Exclusive(s'.requests);
  }

  lemma RefreshDoneKeeps(s: State, step: Step)
    requires PublishInv(s) && step.RefreshDone?
    ensures PublishInv(Next(s, step))
  {
    if step.r in s.requests && s.requests[step.r].Refreshing? {
      var id := s.requests[step.r].task;
      assert PhaseInv(s.tasks, s.uploads, s.requests[step.r]);
      assert TaskInv(s.tasks[id], s.uploads[id]);
      if step.answer.Some? {
        RefreshRowKeeps(s, id, Refreshed(s.tasks[id], step.answer.value, step.errorCode, step.now), step.r);
      }
    }
  }

  lemma NextKeeps(s: State, step: Step)
    requires PublishInv(s)
    ensures PublishInv(Next(s, step))
  {
    match step
    case BeginStep(_, _, _, _, _) => BeginKeeps(s, step);
    case AuthorizeStep(_, _, _, _) => AuthorizeKeeps(s, step);
    case UploadStep(_, _) => UploadKeeps(s, step);
    case RecordStep(_, _) => RecordKeeps(s, step);
    case RefreshStep(_, _) => RefreshStartKeeps(s, step);
    case RefreshDone(_, _, _, _) => RefreshDoneKeeps(s, step);
    case CrashStep(_) =>
  }

  lemma {:induction false} RunKeeps(s: State, steps: seq<Step>)
    requires PublishInv(s)
    ensures PublishInv(Run(s, steps))
    decreases |steps|
  {
    if steps != [] {
      NextKeeps(s, steps[0]);
      RunKeeps(Next(s, steps[0]), steps[1..]);
    }
  }

  // ----- theorems -----

  /** The uploads that ran under one idempotency key. */
  function UploadsOf(s: State, key: string): nat {
    var found := Find(s.tasks, TaskKeyOf, key, |s.tasks|);
    if found.None? then 0 else s.uploads[found.value]
  }

  /** However requests interleave and die, the provider upload runs at most once per idempotency key. */
  lemma AtMostOneUploadPerKey(steps: seq<Step>, key: string)
    ensures UploadsOf(Run(EMPTY, steps), key) <= 1
    ensures forall i :: i in Run(EMPTY, steps).uploads ==> i < |Run(EMPTY, steps).tasks|
    ensures forall i :: 0 <= i < |Run(EMPTY, steps).tasks| && Run(EMPTY, steps).tasks[i].key == key ==>
              Run(EMPTY, steps).uploads[i] == UploadsOf(Run(EMPTY, steps), key)
  {
    RunKeeps(EMPTY, steps);
    var s := Run(EMPTY, steps);
    var found := Find(s.tasks, TaskKeyOf, key, |s.tasks|);
    if found.Some? {
      assert TaskInv(s.tasks[found.value], s.uploads[found.value]);
      forall i | 0 <= i < |s.tasks| && s.tasks[i].key == key ensures i == found.value {
      }
    }
  }

  /** What the status of a task says in every reachable state. */
  lemma StatusMeaning(steps: seq<Step>, i: nat)
    requires i < |Run(EMPTY, steps).tasks|
    ensures var s := Run(EMPTY, steps); var t := s.tasks[i];
      && (t.uncertain <==> t.status.TaskSubmitUnknown?)
      && (t.status.Submitted? || t.status.Processing? || t.status.TaskSucceeded? ==>
            t.videoId.Some? && t.videoId.value != "" && s.uploads[i] == 1)
      && (s.uploads[i] > 0 ==> t.submittedAt.Some? && !t.status.TaskCreated?)
  {
    RunKeeps(EMPTY, steps);
    assert TaskInv(Run(EMPTY, steps).tasks[i], Run(EMPTY, steps).uploads[i]);
  }

  lemma UnknownIsNotHeld(s: State, i: nat)
    requires PublishInv(s) && i < |s.tasks| && s.tasks[i].status.TaskSubmitUnknown?
    ensures forall r :: r in s.requests ==> s.requests[r].task != i
  {
    forall r | r in s.requests ensures s.requests[r].task != i { assert PhaseInv(s.tasks, s.uploads, s.requests[r]); }
  }

  /** A task of unknown outcome stays as it is, and is never uploaded again. */
  lemma {:induction false} UnknownForever(s: State, steps: seq<Step>, i: nat)
    requires PublishInv(s) && i < |s.tasks| && s.tasks[i].status.TaskSubmitUnknown?
    ensures i < |Run(s, steps).tasks| && Run(s, steps).tasks[i] == s.tasks[i] && Run(s, steps).uploads[i] == s.uploads[i]
    decreases |steps|
  {
    if steps != [] {
      UnknownIsNotHeld(s, i);
      OtherRowsStay(s, steps[0], i);
      NextKeeps(s, steps[0]);
      UnknownForever(Next(s, steps[0]), steps[1..], i);
    }
  }

  /** Repeating a key never begins a second task, whatever the lookups saw. */
  lemma RepeatIsReused(s: State, r: nat, seen: nat, key: string, digest: string, i: nat)
    requires PublishInv(s) && i < |s.tasks| && s.tasks[i].key == key
    ensures Begin(s, r, seen, key, digest, true) == (s, if s.tasks[i].digest == digest then Reused(i) else Rejected(409))
  {
    forall k | 0 <= k < |s.tasks| && s.tasks[k].key == key ensures k == i {
    }
  }

  // ----- what a crash after the upload leaves -----

  predicate Uncertain(o: UploadOutcome) { o.SessionUncertain? || o.OtherError? || (o.ProviderError? && o.uncertain) }

  /** The task says how its upload ended. */
  predicate Told(t: Task, o: UploadOutcome) {
    if Uncertain(o) then t.status.TaskSubmitUnknown?
    else if o.Uploaded? then t.videoId == Some(o.videoId) && Settled(t.status)
    else t.status.TaskFailed? && t.videoId.None?
  }

  /** Every upload that ended is told by its task, or its task is still UPLOADING. */
  predicate TruthInv(s: State) {
    && (forall i :: 0 <= i < |s.tasks| ==> (s.uploads[i] > 0 <==> i in s.outcomes))
    && (forall i :: 0 <= i < |s.tasks| && i in s.outcomes ==> s.tasks[i].status.Uploading? || Told(s.tasks[i], s.outcomes[i]))
    && (forall i :: i in s.outcomes ==> i < |s.tasks|)
    && (forall r :: r in s.requests && s.requests[r].Returned? ==>
          s.requests[r].task in s.outcomes && s.outcomes[s.requests[r].task] == s.requests[r].outcome)
  }

  lemma UploadKeepsTruth(s: State, r: nat, outcome: UploadOutcome)
    requires PublishInv(s) && TruthInv(s)
    ensures TruthInv(Next(s, UploadStep(r, outcome)))
  {
    var s' := Next(s, UploadStep(r, outcome));
    if s' != s {
      var id := s.requests[r].task;
      assert PhaseInv(s.tasks, s.uploads, s.requests[r]);
      forall q | q in s'.requests && s'.requests[q].Returned?
        ensures s'.requests[q].task in s'.outcomes && s'.outcomes[s'.requests[q].task] == s'.requests[q].outcome
      {
        if q != r { HeldTaskIsNotShared(s, r, q); }
      }
    }
  }

  lemma RecordKeepsTruth(s: State, r: nat, now: Time)
    requires PublishInv(s) && TruthInv(s)
    ensures TruthInv(Next(s, RecordStep(r, now)))
  {
    if r in s.requests && s.requests[r].Returned? {
      var id := s.requests[r].task;
      assert PhaseInv(s.tasks, s.uploads, s.requests[r]) && TaskInv(s.tasks[id], s.uploads[id]);
      assert Told(Recorded(s.tasks[id], s.requests[r].outcome, now), s.outcomes[id]);
    }
  }

  lemma RefreshKeepsTruth(s: State, r: nat, answer: Option<VideoState>, code: Option<string>, now: Time)
    requires PublishInv(s) && TruthInv(s)
    ensures TruthInv(Next(s, RefreshDone(r, answer, code, now)))
  {
    if r in s.requests && s.requests[r].Refreshing? && answer.Some? {
      var id := s.requests[r].task;
      assert PhaseInv(s.tasks, s.uploads, s.requests[r]) && TaskInv(s.tasks[id], s.uploads[id]);
      assert Told(Refreshed(s.tasks[id], answer.value, code, now), s.outcomes[id]);
    }
  }

  lemma AddTaskKeepsTruth(s: State, t: Task, r: nat)
    requires TruthInv(s) && s.uploads[|s.tasks|] == 0 && r !in s.requests
    ensures TruthInv(s.(tasks := s.tasks + [t], requests := s.requests[r := Inserted(|s.tasks|)]))
  {
  }

  lemma BeginKeepsTruth(s: State, step: Step)
    requires PublishInv(s) && TruthInv(s) && step.BeginStep?
    ensures TruthInv(Next(s, step))
  {
    if Next(s, step) != s {
      assert s.uploads[|s.tasks|] == 0;
      AddTaskKeepsTruth(s, NewTask(step.key, step.digest), step.r);
    }
  }

  lemma AuthorizeKeepsTruth(s: State, step: Step)
    requires PublishInv(s) && TruthInv(s) && step.AuthorizeStep?
    ensures TruthInv(Next(s, step))
  {
    if step.r in s.requests && s.requests[step.r].Inserted? {
      var id := s.requests[step.r].task;
      assert PhaseInv(s.tasks, s.uploads, s.requests[step.r]) && TaskInv(s.tasks[id], s.uploads[id]);
      assert id !in s.outcomes && Next(s, step).outcomes == s.outcomes;
    }
  }

  lemma NextKeepsTruth(s: State, step: Step)
    requires PublishInv(s) && TruthInv(s)
    ensures TruthInv(Next(s, step))
  {
    match step
    case UploadStep(r, outcome) => UploadKeepsTruth(s, r, outcome);
    case RecordStep(r, now) => RecordKeepsTruth(s, r, now);
    case RefreshDone(r, answer, code, now) => RefreshKeepsTruth(s, r, answer, code, now);
    case RefreshStep(_, _) =>
    case CrashStep(_) =>
    case BeginStep(_, _, _, _, _) => BeginKeepsTruth(s, step);
    case AuthorizeStep(_, _, _, _) => AuthorizeKeepsTruth(s, step);
  }

  lemma {:induction false} RunKeepsTruth(s: State, steps: seq<Step>)
    requires PublishInv(s) && TruthInv(s)
    ensures TruthInv(Run(s, steps))
    decreases |steps|
  {
    if steps != [] {
      NextKeeps(s, steps[0]);
      NextKeepsTruth(s, steps[0]);
      RunKeepsTruth(Next(s, steps[0]), steps[1..]);
    }
  }

  /** In every reachable state, UPLOADING is the only status under which how an upload ended may be hidden. */
  lemma OnlyUploadingHidesAnOutcome(steps: seq<Step>, i: nat)
    requires i < |Run(EMPTY, steps).tasks| && Run(EMPTY, steps).uploads[i] > 0
    ensures var s := Run(EMPTY, steps);
      && i in s.outcomes
      && (!s.tasks[i].status.Uploading? ==> Told(s.tasks[i], s.outcomes[i]))
      && (s.tasks[i].status.TaskSubmitUnknown? ==> Uncertain(s.outcomes[i]))
      && (s.tasks[i].status.Uploading? ==> !s.tasks[i].uncertain && s.tasks[i].videoId.None?)
  {
    RunKeeps(EMPTY, steps);
    RunKeepsTruth(EMPTY, steps);
    assert TaskInv(Run(EMPTY, steps).tasks[i], Run(EMPTY, steps).uploads[i]);
  }

  /** A task in UPLOADING whose request is gone. */
  predicate Stranded(s: State, i: nat) {
    && i < |s.tasks| && s.tasks[i].status.Uploading?
    && forall r :: r in s.requests ==> s.requests[r].task != i
  }

  /** A step only changes the row of the task that its own request holds. */
  lemma OtherRowsStay(s: State, step: Step, i: nat)
    requires PublishInv(s) && i < |s.tasks| && (step.r in s.requests ==> s.requests[step.r].task != i)
    ensures var s' := Next(s, step); i < |s'.tasks| && s'.tasks[i] == s.tasks[i] && s'.uploads[i] == s.uploads[i]
  {
    if step.r in s.requests { assert PhaseInv(s.tasks, s.uploads, s.requests[step.r]); }
  }

  /** A request holds the task it held, or a new one, or one that a refresh may ask about. */
  lemma RequestsTake(s: State, step: Step, r: nat)
    requires r in Next(s, step).requests
    ensures var id := Next(s, step).requests[r].task;
      || (r in s.requests && id == s.requests[r].task)
      || id == |s.tasks|
      || (id < |s.tasks| && (s.tasks[id].status.Submitted? || s.tasks[id].status.Processing?))
  {
  }

  lemma NextKeepsStranded(s: State, step: Step, i: nat)
    requires PublishInv(s) && Stranded(s, i)
    ensures var s' := Next(s, step); Stranded(s', i) && s'.tasks[i] == s.tasks[i] && s'.uploads[i] == s.uploads[i]
  {
    OtherRowsStay(s, step, i);
    forall r | r in Next(s, step).requests ensures Next(s, step).requests[r].task != i { RequestsTake(s, step, r); }
  }

  /** Nothing ever moves it again: no publish, no refresh, no recovery. */
  lemma {:induction false} StrandedForever(s: State, steps: seq<Step>, i: nat)
    requires PublishInv(s) && Stranded(s, i)
    ensures var t := Run(s, steps); Stranded(t, i) && t.tasks[i] == s.tasks[i] && t.uploads[i] == s.uploads[i]
    decreases |steps|
  {
    if steps != [] {
      NextKeeps(s, steps[0]);
      NextKeepsStranded(s, steps[0], i);
      StrandedForever(Next(s, steps[0]), steps[1..], i);
    }
  }

  /** A run that strands a task after its upload: the process dies before the second commit. */
  lemma CrashStrandsATask(key: string, digest: string)
    ensures var s := Run(EMPTY, [BeginStep(0, 0, key, digest, true), AuthorizeStep(0, true, "", 1),
                                 UploadStep(0, Uploaded("video")), CrashStep(0)]);
      && |s.tasks| == 1 && Stranded(s, 0) && s.uploads[0] == 1 && 0 in s.outcomes && s.outcomes[0] == Uploaded("video")
      && !s.tasks[0].uncertain && s.tasks[0].videoId.None?
  {
    var steps := [BeginStep(0, 0, key, digest, true), AuthorizeStep(0, true, "", 1), UploadStep(0, Uploaded("video")), CrashStep(0)];
    var s1 := Next(EMPTY, steps[0]);
    assert s1 == State([NewTask(key, digest)], map[0 := Inserted(0)], multiset{}, map[]);
    var uploading := NewTask(key, digest).(status := Uploading, submittedAt := Some(1));
    var s2 := Next(s1, steps[1]);
    assert s2 == State([uploading], map[0 := Calling(0)], multiset{}, map[]);
    var s3 := Next(s2, steps[2]);
    assert s3 == State([uploading], map[0 := Returned(0, Uploaded("video"))], multiset{0}, map[0 := Uploaded("video")]);
    var s4 := Next(s3, steps[3]);
    assert s4 == State([uploading], map[], multiset{0}, map[0 := Uploaded("video")]);
    assert steps[1..][1..] == steps[2..] && steps[2..][1..] == steps[3..] && steps[3..][1..] == [];
    assert Run(s3, steps[3..]) == s4;
    assert Run(s2, steps[2..]) == s4;
    assert Run(s1, steps[1..]) == s4;
  }

  // ----- what each commit writes -----

  /** Every task but one is as before. */
  predicate OnlyTask(s: State, s': State, id: nat) {
    |s'.tasks| == |s.tasks| && id < |s.tasks| && forall i :: 0 <= i < |s.tasks| && i != id ==> s'.tasks[i] == s.tasks[i]
  }

  /** A task begins exactly when the preflight holds and its key is new, whatever the lookup saw. */
  lemma BeginExact(s: State, r: nat, seen: nat, key: string, digest: string, preflightOk: bool)
    requires KeysDistinct(s.tasks)
    ensures var (s', reply) := Begin(s, r, seen, key, digest, preflightOk);
      if !preflightOk then s' == s && reply == Rejected(409)
      else if i :| 0 <= i < |s.tasks| && s.tasks[i].key == key then
        s' == s && reply == if s.tasks[i].digest == digest then Reused(i) else Rejected(409)
      else
        && reply == Begun(|s.tasks|) && s'.uploads == s.uploads && s'.outcomes == s.outcomes
        && s'.tasks == s.tasks + [Task(key, digest, TaskCreated, None, false, None, None, None)]
        && s'.requests == s.requests[r := Inserted(|s.tasks|)]
  {
    if i :| 0 <= i < |s.tasks| && s.tasks[i].key == key { assert TaskKeyOf(s.tasks[i]) == key; }
  }

  /** Without a token the task has failed; with one it is UPLOADING and marked before the provider is called. */
  lemma AuthorizeEffect(s: State, r: nat, authorized: bool, code: string, now: Time)
    requires PublishInv(s) && r in s.requests && s.requests[r].Inserted?
    ensures var s', id := Next(s, AuthorizeStep(r, authorized, code, now)), s.requests[r].task;
      && OnlyTask(s, s', id) && s'.uploads == s.uploads && s'.outcomes == s.outcomes
      && var t, t' := s.tasks[id], s'.tasks[id];
      if authorized then
        s'.requests == s.requests[r := Calling(id)]
        && t' == Task(t.key, t.digest, Uploading, t.videoId, t.uncertain, Some(now), t.completedAt, t.errorCode)
      else
        s'.requests == s.requests - {r}
        && t' == Task(t.key, t.digest, TaskFailed, t.videoId, false, t.submittedAt, Some(now), Some(code))
  {
    assert PhaseInv(s.tasks, s.uploads, s.requests[r]);
  }

  /** The call itself commits nothing; it happens once and ends in one way. */
  lemma UploadEffect(s: State, r: nat, outcome: UploadOutcome)
    requires r in s.requests && s.requests[r].Calling? && (outcome.Uploaded? ==> outcome.videoId != "")
    ensures var s', id := Next(s, UploadStep(r, outcome)), s.requests[r].task;
      && s'.tasks == s.tasks && s'.uploads == s.uploads + multiset{id} && s'.outcomes == s.outcomes[id := outcome]
      && s'.requests == s.requests[r := Returned(id, outcome)]
  {
  }

  /** How each way in which the call ended is written. */
  lemma RecordEffect(s: State, r: nat, now: Time)
    requires PublishInv(s) && r in s.requests && s.requests[r].Returned?
    ensures var s', id := Next(s, RecordStep(r, now)), s.requests[r].task;
      && OnlyTask(s, s', id) && s'.requests == s.requests - {r} && s'.uploads == s.uploads && s'.outcomes == s.outcomes
      && var t, t' := s.tasks[id], s'.tasks[id];
      t' == match s.requests[r].outcome
            case Uploaded(video) => Task(t.key, t.digest, Submitted, Some(video), false, t.submittedAt, t.completedAt, None)
            case SessionUncertain(code) =>
              Task(t.key, t.digest, TaskSubmitUnknown, t.videoId, true, t.submittedAt, t.completedAt, Some(code))
            case ProviderError(code, uncertain) =>
              if uncertain then Task(t.key, t.digest, TaskSubmitUnknown, t.videoId, true, t.submittedAt, t.completedAt, Some(code))
              else Task(t.key, t.digest, TaskFailed, t.videoId, false, t.submittedAt, Some(now), Some(code))
            case OtherError =>
              Task(t.key, t.digest, TaskSubmitUnknown, t.videoId, true, t.submittedAt, t.completedAt, Some("upload_result_uncertain"))
  {
    assert PhaseInv(s.tasks, s.uploads, s.requests[r]);
  }

  /** Which status each answer of the provider gets. */
  lemma RefreshEffect(s: State, r: nat, answer: Option<VideoState>, code: Option<string>, now: Time)
    requires PublishInv(s) && r in s.requests && s.requests[r].Refreshing?
    ensures var s', id := Next(s, RefreshDone(r, answer, code, now)), s.requests[r].task;
      && OnlyTask(s, s', id) && s'.requests == s.requests - {r} && s'.uploads == s.uploads && s'.outcomes == s.outcomes
      && var t, t' := s.tasks[id], s'.tasks[id];
      t' == match answer
            case None => t
            case Some(StillProcessing) =>
              Task(t.key, t.digest, Processing, t.videoId, t.uncertain, t.submittedAt, t.completedAt, code)
            case Some(Done) =>
              Task(t.key, t.digest, TaskSucceeded, t.videoId, t.uncertain, t.submittedAt, Some(now), code)
            case Some(Broken) =>
              Task(t.key, t.digest, TaskFailed, t.videoId, t.uncertain, t.submittedAt, Some(now), code)
  {
    assert PhaseInv(s.tasks, s.uploads, s.requests[r]);
  }

  class YouTubePublishingService {
    var state: State

    ghost predicate Valid()
      reads this
    {
      PublishInv(state)
    }

    constructor ()
      ensures Valid() && state == EMPTY
    {
      state := EMPTY;
    }

    /** Look the key up, or insert the task; this is the first commit of a publish request. */
    method BeginTask(r: nat, seen: nat, key: string, digest: string, preflightOk: bool) returns (reply: PublishReply)
      requires Valid() && r !in state.requests
      modifies this
      ensures Valid() && (state, reply) == Begin(old(state), r, seen, key, digest, preflightOk)
    {
      BeginKeeps(state, BeginStep(r, seen, key, digest, preflightOk));
      if !preflightOk { return Rejected(409); }
      var existing := Lookup(state.tasks, seen, key, digest);
      if existing.Some? { return existing.value; }
      var concurrent := Lookup(state.tasks, |state.tasks|, key, digest);
      if concurrent.Some? { return concurrent.value; }
      reply := Begun(|state.tasks|);
      state := state.(tasks := state.tasks + [NewTask(key, digest)], requests := state.requests[r := Inserted(|state.tasks|)]);
    }

    /** Obtain the access token; commits FAILED without one, and UPLOADING before any upload. */
    method Authorize(r: nat, authorized: bool, code: string, now: Time)
      requires Valid() && r in state.requests && state.requests[r].Inserted?
      modifies this
      ensures Valid() && state == Next(old(state), AuthorizeStep(r, authorized, code, now))
    {
      AuthorizeKeeps(state, AuthorizeStep(r, authorized, code, now));
      assert PhaseInv(state.tasks, state.uploads, state.requests[r]);
      var id := state.requests[r].task;
      var task := state.tasks[id];
      if !authorized {
        task := task.(status := TaskFailed, uncertain := false);
        task := task.(errorCode := Some(code), completedAt := Some(now));
        state := state.(tasks := state.tasks[id := task], requests := state.requests - {r});
      } else {
        task := task.(status := Uploading);
        task := task.(submittedAt := Some(now));
        state := state.(tasks := state.tasks[id := task], requests := state.requests[r := Calling(id)]);
      }
    }

    /** The provider call; nothing is committed before it returns. */
    method Upload(r: nat, outcome: UploadOutcome)
      requires Valid() && r in state.requests && state.requests[r].Calling? && Plausible(outcome)
      modifies this
      ensures Valid() && state == Next(old(state), UploadStep(r, outcome))
      ensures r in state.requests && state.requests[r].Returned?
    {
      UploadKeeps(state, UploadStep(r, outcome));
      var id := state.requests[r].task;
      state := state.(uploads := state.uploads + multiset{id}, outcomes := state.outcomes[id := outcome],
                      requests := state.requests[r := Returned(id, outcome)]);
    }

    /** The commit of what the call ended with. */
    method Record(r: nat, now: Time)
      requires Valid() && r in state.requests && state.requests[r].Returned?
      modifies this
      ensures Valid() && state == Next(old(state), RecordStep(r, now))
    {
      RecordKeeps(state, RecordStep(r, now));
      assert PhaseInv(state.tasks, state.uploads, state.requests[r]);
      var id := state.requests[r].task;
      var task := state.tasks[id];
      match state.requests[r].outcome {
        case SessionUncertain(code) =>
          task := task.(status := TaskSubmitUnknown, uncertain := true, errorCode := Some(code));
        case ProviderError(code, uncertain) =>
          task := task.(status := if uncertain then TaskSubmitUnknown else TaskFailed);
          task := task.(uncertain := uncertain, errorCode := Some(code));
          if !uncertain { task := task.(completedAt := Some(now)); }
        case OtherError =>
          task := task.(status := TaskSubmitUnknown, uncertain := true, errorCode := Some("upload_result_uncertain"));
        case Uploaded(videoId) =>
          task := task.(videoId := Some(videoId));
          task := task.(status := Submitted, uncertain := false, errorCode := None);
      }
      state := state.(tasks := state.tasks[id := task], requests := state.requests - {r});
    }

    /** Ask whether a video that was submitted is ready; refused for every other task. */
    method BeginRefresh(r: nat, id: nat) returns (accepted: bool)
      requires Valid() && r !in state.requests
      modifies this
      ensures Valid() && state == Next(old(state), RefreshStep(r, id))
      ensures state == if accepted then old(state).(requests := old(state).requests[r := Refreshing(id)]) else old(state)
      ensures accepted <==> id < |state.tasks| && (state.tasks[id].status.Submitted? || state.tasks[id].status.Processing?)
    {
      RefreshStartKeeps(state, RefreshStep(r, id));
      if id >= |state.tasks| { return false; }
      assert TaskInv(state.tasks[id], state.uploads[id]);
      var task := state.tasks[id];
      if !(task.status.Submitted? || task.status.Processing?) || task.videoId.None? { return false; }
      state := state.(requests := state.requests[r := Refreshing(id)]);
      accepted := true;
    }

    /** The commit of the provider's answer; without an answer nothing is written. */
    method FinishRefresh(r: nat, answer: Option<VideoState>, code: Option<string>, now: Time)
      requires Valid() && r in state.requests && state.requests[r].Refreshing?
      modifies this
      ensures Valid() && state == Next(old(state), RefreshDone(r, answer, code, now))
    {
      RefreshDoneKeeps(state, RefreshDone(r, answer, code, now));
      assert PhaseInv(state.tasks, state.uploads, state.requests[r]);
      var id := state.requests[r].task;
      if answer.None? {
        state := state.(requests := state.requests - {r});
        return;
      }
      var task := state.tasks[id];
      match answer.value {
        case StillProcessing => task := task.(status := Processing);
        case Done => task := task.(status := TaskSucceeded);
        case Broken => task := task.(status := TaskFailed);
      }
      task := task.(errorCode := code);
      if task.status.TaskSucceeded? || task.status.TaskFailed? { task := task.(completedAt := Some(now)); }
      state := state.(tasks := state.tasks[id := task], requests := state.requests - {r});
    }
  }
}
