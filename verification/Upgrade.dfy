/** The upgrade itself, under the lock: what is true at every crash point and after every outcome. */
module Upgrade {
  import opened Wrappers
  import opened Migration

  /** Everything the environment decides during one upgrade. */
  datatype World = World(
    engine: Engine,
    stamp: string,                       // timestamp that names the backup
    token: string,                       // identity written into the lock
    busyStart: bool, busyBackup: bool,   // connections met by the offline checks
    busyRestore: bool, busyReplace: bool,
    backupChunks: seq<Bytes>, restoreChunks: seq<Bytes>,
    stampRun: AlembicRun, upgradeRun: AlembicRun)

  datatype Outcome =
    | Upgraded(previous: string, kind: string, backedUp: bool)
    | LockRefused
    | NotStarted                      // raised before the protected part: offline check, first query or backup
    | IncompatibleSchema
    | MigrationFailed(restored: bool)
    | RestoreFailed

  predicate Existed(files: Files) { Database in files && files[Database].Data? && files[Database].bytes != "" }

  /** Copies write something, and what carries the database's name is a file. */
  predicate Prepared(files: Files, w: World) {
    && w.backupChunks != [] && w.restoreChunks != []
    && (Database in files ==> files[Database].Data?)
  }

  function Touched(w: World): set<Path> { BackupPaths(w.stamp) + {Database, Journal, RestoreTemp} }

  /**
   The bytes that the upgrade started with are still where an operator can find them: at the source,
   or in a complete, sound backup.  Unless an earlier manifest had the same name, the manifest tells which.
   */
  ghost predicate Safe(files: Files, w: World, start: Files)
    requires Existed(start)
  {
    var original := start[Database].bytes;
    || (Database in files && files[Database] == Data(original)
        && (Manifest(w.stamp) !in start ==> Manifest(w.stamp) !in files))
    || (BackedUp(files, w.stamp, original) && w.engine.intact(original))
  }

  /** That holds in every state since the disk held n states. */
  ghost predicate AlwaysSafe(history: seq<Files>, n: nat, w: World, start: Files)
    requires Existed(start)
  {
    forall k :: n <= k < |history| ==> Safe(history[k], w, start)
  }

  lemma ConfinedWidens(history: seq<Files>, n: nat, base: Files, small: set<Path>, large: set<Path>)
    requires Confined(history, n, base, small) && small <= large
    ensures Confined(history, n, base, large)
  {
  }

  /** Confinement relative to an intermediate state is confinement relative to the first. */
  lemma ConfinedChains(history: seq<Files>, n: nat, m: nat, base: Files, middle: Files, touched: set<Path>)
    requires n <= m && Confined(history[..if m < |history| then m else |history|], n, base, touched)
    requires Confined(history, m, middle, touched) && SameExcept(middle, base, touched)
    ensures Confined(history, n, base, touched)
  {
    forall k | n <= k < |history| ensures SameExcept(history[k], base, touched) {
      if k < m {
        assert history[..if m < |history| then m else |history|][k] == history[k];
      } else {
        forall p | p !in touched ensures SameAt(history[k], base, p) {
          assert SameAt(history[k], middle, p) && SameAt(middle, base, p);
        }
      }
    }
  }

  lemma StillBackedUp(files: Files, base: Files, stamp: string, original: Bytes, touched: set<Path>)
    requires BackedUp(base, stamp, original) && SameExcept(files, base, touched)
    requires Backup(stamp) !in touched && Manifest(stamp) !in touched
    ensures BackedUp(files, stamp, original)
  {
    assert SameAt(files, base, Backup(stamp)) && SameAt(files, base, Manifest(stamp));
  }

  /** Steps that leave the backup alone are safe at every point. */
  lemma SafeWhileBackedUp(history: seq<Files>, n: nat, base: Files, w: World, start: Files, touched: set<Path>)
    requires Existed(start) && w.engine.intact(start[Database].bytes)
    requires Confined(history, n, base, touched) && BackedUp(base, w.stamp, start[Database].bytes)
    requires Backup(w.stamp) !in touched && Manifest(w.stamp) !in touched
    ensures AlwaysSafe(history, n, w, start)
  {
    forall k | n <= k < |history| ensures Safe(history[k], w, start) {
      StillBackedUp(history[k], base, w.stamp, start[Database].bytes, touched);
    }
  }

  /** Steps that leave the database alone are safe at every point, once every new manifest is complete. */
  lemma SafeWhileUntouched(history: seq<Files>, n: nat, w: World, start: Files, touched: set<Path>)
    requires Existed(start) && Confined(history, n, start, touched) && Database !in touched
    requires Manifest(w.stamp) !in start ==> ManifestsComplete(history, n, w.engine, w.stamp, start[Database].bytes)
    ensures AlwaysSafe(history, n, w, start)
  {
    forall k | n <= k < |history| ensures Safe(history[k], w, start) {
      assert SameAt(history[k], start, Database);
    }
  }

  lemma SafeJoins(history: seq<Files>, n: nat, m: nat, w: World, start: Files)
    requires Existed(start)
    requires n <= m <= |history| && AlwaysSafe(history[..m], n, w, start) && AlwaysSafe(history, m, w, start)
    ensures AlwaysSafe(history, n, w, start)
  {
    forall k | n <= k < |history| ensures Safe(history[k], w, start) {
      if k < m { assert history[..m][k] == history[k]; }
    }
  }

  /** The files Alembic leaves, and whether every run it was asked for succeeded. */
  function Migrated(files: Files, w: World): (Files, bool)
    requires Database in files ==> files[Database].Data?
  {
    match if Existed(files) then PlanFor(w.engine, files[Database].bytes) else UpgradeOnly("empty")
    case Refuse => (files, false)
    case QueryFails => (files, false)
    case UpgradeOnly(_) => (AfterWrites(files, w.upgradeRun.writes), w.upgradeRun.succeeds)
    case StampThenUpgrade(revision) =>
      var stamped := AfterWrites(files, w.stampRun.writes);
      if !w.stampRun.succeeds || revision == HEAD then (stamped, w.stampRun.succeeds)
      else (AfterWrites(stamped, w.upgradeRun.writes), w.upgradeRun.succeeds)
  }

  /** The run succeeded and left the head schema at the head revision. */
  predicate ReachesHead(files: Files, w: World)
    requires Database in files ==> files[Database].Data?
  {
    var (after, ok) := Migrated(files, w);
    ok && Database in after && after[Database].Data? && HeadSchema(w.engine, after[Database].bytes)
  }

  lemma MigratedAgrees(a: Files, b: Files, w: World)
    requires SameAt(a, b, Database) && SameAt(a, b, Journal) && (Database in a ==> a[Database].Data?)
    ensures SameAt(Migrated(a, w).0, Migrated(b, w).0, Database) && SameAt(Migrated(a, w).0, Migrated(b, w).0, Journal)
    ensures Migrated(a, w).1 == Migrated(b, w).1 && ReachesHead(a, w) == ReachesHead(b, w)
  {
    WritesAgree(a, b, w.upgradeRun.writes);
    WritesAgree(a, b, w.stampRun.writes);
    WritesAgree(AfterWrites(a, w.stampRun.writes), AfterWrites(b, w.stampRun.writes), w.upgradeRun.writes);
  }

  lemma MigratedConfined(a: Files, w: World)
    requires Database in a ==> a[Database].Data?
    ensures SameExcept(Migrated(a, w).0, a, {Database, Journal})
  {
    var stamped := AfterWrites(a, w.stampRun.writes);
    WritesConfined(a, w.upgradeRun.writes);
    WritesConfined(a, w.stampRun.writes);
    WritesConfined(stamped, w.upgradeRun.writes);
    SameChains(AfterWrites(stamped, w.upgradeRun.writes), stamped, a, {Database, Journal});
  }

  /** What blocks, decides and undoes a migration is the same for files that agree where it looks. */
  lemma DecisionsAgree(a: Files, b: Files, w: World)
    requires SameAt(a, b, Database) && SameAt(a, b, Journal) && SameAt(a, b, Wal) && SameAt(a, b, Shm)
    requires Existed(a) && w.restoreChunks != []
    ensures Existed(b) && ReachesHead(a, w) == ReachesHead(b, w)
    ensures Sidecars(Migrated(a, w).0) == Sidecars(Migrated(b, w).0) && Restorable(a, w) == Restorable(b, w)
  {
    MigratedAgrees(a, b, w);
    MigratedConfined(a, w);
    MigratedConfined(b, w);
    assert SameAt(Migrated(a, w).0, a, Wal) && SameAt(Migrated(a, w).0, a, Shm);
    assert SameAt(Migrated(b, w).0, b, Wal) && SameAt(Migrated(b, w).0, b, Shm);
  }

  // ----- which runs an upgrade makes, plan by plan -----

  /** The database file is at the head revision and has the head schema. */
  predicate AtHeadNow(files: Files, e: Engine) {
    && Database in files && files[Database].Data?
    && var schema := e.inspect(files[Database].bytes);
       schema.Schema? && schema.revision == Some("0013_qwen_video_script_jobs") && schema.fingerprint == e.expected("0013_qwen_video_script_jobs")
  }

  /**
   What is run on `files`, what that leaves, and when it counts as reaching the head: nothing for a refused or
   unreadable schema; one upgrade run for a versioned, empty or absent file; one stamp run for an unversioned
   file, and after it, if it succeeded and the stamp is not the head, one upgrade run.
   */
  ghost predicate RunByPlan(files: Files, w: World, after: Files, reached: bool)
    requires Database in files ==> files[Database].Data?
  {
    var stamped, upgraded := AfterWrites(files, w.stampRun.writes), AfterWrites(files, w.upgradeRun.writes);
    var both := AfterWrites(stamped, w.upgradeRun.writes);
    if !Existed(files) then
      after == upgraded && (reached <==> w.upgradeRun.succeeds && AtHeadNow(upgraded, w.engine))
    else
      match PlanFor(w.engine, files[Database].bytes)
      case Refuse => after == files && !reached
      case QueryFails => after == files && !reached
      case UpgradeOnly(_) => after == upgraded && (reached <==> w.upgradeRun.succeeds && AtHeadNow(upgraded, w.engine))
      case StampThenUpgrade(revision) =>
        if !w.stampRun.succeeds then after == stamped && !reached
        else if revision == "0013_qwen_video_script_jobs" then after == stamped && (reached <==> AtHeadNow(stamped, w.engine))
        else after == both && (reached <==> w.upgradeRun.succeeds && AtHeadNow(both, w.engine))
  }

  lemma MigratedByPlan(files: Files, w: World)
    requires Database in files ==> files[Database].Data?
    ensures RunByPlan(files, w, Migrated(files, w).0, ReachesHead(files, w))
  {
  }

  /** How the schema that an upgrade found is named in its result. */
  predicate Named(files: Files, w: World, previous: string, kind: string)
    requires Existed(files)
  {
    var plan, schema := PlanFor(w.engine, files[Database].bytes), w.engine.inspect(files[Database].bytes);
    && schema.Schema? && previous == (if schema.revision.Some? then schema.revision.value else "unversioned")
    && (plan.UpgradeOnly? ==> kind == plan.kind) && (plan.StampThenUpgrade? ==> kind == plan.revision)
  }

  /** The outcome of an upgrade that started on `start`, run by run. */
  ghost predicate UpgradedByPlan(start: Files, files: Files, w: World, r: Outcome)
    requires w.backupChunks != [] && w.restoreChunks != [] && (Database in start ==> start[Database].Data?)
  {
    exists after, reached :: RunByPlan(start, w, after, reached)
      && (r.Upgraded? <==> reached && (Existed(start) ==> !Blocked(start, w)))
      && (r.Upgraded? ==> SameAt(files, after, Database))
      && (Existed(start) && r.Upgraded? ==> r.backedUp && Named(start, w, r.previous, r.kind))
      && (!Existed(start) && r.Upgraded? ==> r == Upgraded("unversioned", "empty", false))
  }

  /** The outcome of upgrading a database that holds data, for every environment. */
  predicate OutcomeExact(files: Files, w: World, r: Outcome)
    requires Existed(files) && w.backupChunks != [] && w.restoreChunks != []
  {
    && (r == NotStarted <==> Blocked(files, w))
    && (r == IncompatibleSchema <==> !Blocked(files, w) && PlanFor(w.engine, files[Database].bytes).Refuse?)
    && (r.Upgraded? <==> !Blocked(files, w) && ReachesHead(files, w))
    && (r == MigrationFailed(true) <==> Fails(files, w) && Restorable(files, w))
    && (r == RestoreFailed <==> Fails(files, w) && !Restorable(files, w))
    && r != LockRefused && r != MigrationFailed(false)
  }

  /** Alembic was run, or could not be asked to, and the head was not reached. */
  predicate Fails(files: Files, w: World)
    requires Existed(files) && w.backupChunks != []
  {
    !Blocked(files, w) && !PlanFor(w.engine, files[Database].bytes).Refuse? && !ReachesHead(files, w)
  }

  lemma OutcomesAgree(a: Files, b: Files, w: World, r: Outcome)
    requires SameAt(a, b, Database) && SameAt(a, b, Journal) && SameAt(a, b, Wal) && SameAt(a, b, Shm)
    requires SameAt(a, b, Backup(w.stamp)) && SameAt(a, b, Manifest(w.stamp))
    requires Existed(a) && w.backupChunks != [] && w.restoreChunks != []
    ensures Existed(b) && OutcomeExact(a, w, r) == OutcomeExact(b, w, r)
  {
    DecisionsAgree(a, b, w);
  }

  /** Reasons for which nothing is started. */
  predicate Blocked(files: Files, w: World)
    requires Existed(files) && w.backupChunks != []
  {
    var original := files[Database].bytes;
    || Sidecars(files) || w.busyStart || w.engine.inspect(original).Unreadable?
    || w.busyBackup || !w.engine.intact(original)
    || Backup(w.stamp) in files || Manifest(w.stamp) in files
    || w.backupChunks[|w.backupChunks| - 1] != original
  }

  /** A failed migration can be put back. */
  predicate Restorable(files: Files, w: World)
    requires Existed(files) && w.restoreChunks != []
  {
    && !Sidecars(Migrated(files, w).0) && !w.busyRestore && !w.busyReplace
    && w.restoreChunks[|w.restoreChunks| - 1] == files[Database].bytes
  }

  /** An engine that knows one file, at an early revision, and cannot read any other. */
  function OldOnly(): Engine {
    Engine(b => if b == "old" then Schema(1, Some(BRAND_KIT), BRAND_KIT) else Unreadable, b => true, revision => revision)
  }

  /** An upgrade of that file whose Alembic run fails after the given writes; nothing else goes wrong. */
  function FailingWorld(writes: seq<AlembicWrite>): World {
    World(OldOnly(), "stamp", "token", false, false, false, false, ["old"], ["old"],
          AlembicRun([], true), AlembicRun(writes, false))
  }

  /** A journal that a failed run leaves behind, and nothing else, keeps the original from being put back. */
  lemma JournalBlocksRestore()
    ensures var files: Files := map[Database := Data("old")];
      var left, dropped := FailingWorld([WriteJournal("old"), WriteDatabase("half")]), FailingWorld([WriteDatabase("half")]);
      && Existed(files) && Prepared(files, left) && Prepared(files, dropped)
      && (forall r :: OutcomeExact(files, left, r) <==> r == RestoreFailed)
      && (forall r :: OutcomeExact(files, dropped, r) <==> r == MigrationFailed(true))
  {
    var files: Files := map[Database := Data("old")];
    var left, dropped := FailingWorld([WriteJournal("old"), WriteDatabase("half")]), FailingWorld([WriteDatabase("half")]);
    assert BRAND_KIT == KNOWN[2];
    assert PlanFor(OldOnly(), "old") == UpgradeOnly("versioned");
    assert left.upgradeRun.writes[..1] == [WriteJournal("old")] && [WriteJournal("old")][..0] == [];
    assert [WriteDatabase("half")][..0] == [];
    assert AfterWrites(files, [WriteJournal("old")]) == files[Journal := Data("old")];
    assert Migrated(files, left).0 == files[Journal := Data("old")][Database := Data("half")];
    assert Migrated(files, dropped).0 == files[Database := Data("half")];
    assert Fails(files, left) && Fails(files, dropped);
  }

  datatype RunResult = Reached(kind: string) | SchemaRefused | RunFailed

  /** Decide, run Alembic, verify: the body of the protected part. */
  method MigrateInPlace(disk: Disk, w: World, existed: bool) returns (r: RunResult)
    requires disk.Valid() && (Database in disk.files ==> disk.files[Database].Data?)
    requires existed <==> Existed(disk.files)
    modifies disk
    ensures disk.Valid() && old(disk.history) <= disk.history
    ensures Confined(disk.history, |old(disk.history)|, old(disk.files), {Database, Journal})
    ensures SameExcept(disk.files, old(disk.files), {Database, Journal})
    ensures r.Reached? ==> Database in disk.files && disk.files[Database].Data?
                           && HeadSchema(w.engine, disk.files[Database].bytes)
    ensures r.SchemaRefused? ==> existed && disk.files == old(disk.files)
                                 && PlanFor(w.engine, disk.files[Database].bytes).Refuse?
    ensures r.SchemaRefused? <==> existed && PlanFor(w.engine, old(disk.files)[Database].bytes).Refuse?
    ensures r.Reached? <==> ReachesHead(old(disk.files), w)
    ensures disk.files == Migrated(old(disk.files), w).0
    ensures RunByPlan(old(disk.files), w, disk.files, r.Reached?)
    ensures r.Reached? && !existed ==> r.kind == "empty"
    ensures r.Reached? && existed ==>
      var plan := PlanFor(w.engine, old(disk.files)[Database].bytes);
      (plan.UpgradeOnly? ==> r.kind == plan.kind) && (plan.StampThenUpgrade? ==> r.kind == plan.revision)
  {
    MigratedByPlan(disk.files, w);
    var plan := if existed then PlanFor(w.engine, disk.files[Database].bytes) else UpgradeOnly("empty");
    var kind := "empty";
    match plan {
      case Refuse => return SchemaRefused;
      case QueryFails => return RunFailed;
      case StampThenUpgrade(revision) =>
        kind := revision;
        ghost var n, base := |disk.history|, disk.files;
        var stamped := RunAlembic(disk, w.stampRun);
        if !stamped { return RunFailed; }
        if revision != HEAD {
          ghost var m, middle := |disk.history|, disk.files;
          ghost var sofar := disk.history;
          var ok := RunAlembic(disk, w.upgradeRun);
          assert disk.history[..m] == sofar;
          ConfinedChains(disk.history, n, m, base, middle, {Database, Journal});
          SameChains(disk.files, middle, base, {Database, Journal});
          if !ok { return RunFailed; }
        }
      case UpgradeOnly(k) =>
        kind := k;
        var ok := RunAlembic(disk, w.upgradeRun);
        if !ok { return RunFailed; }
    }
    if Database !in disk.files || !disk.files[Database].Data? { return RunFailed; }
    var schema := w.engine.inspect(disk.files[Database].bytes);
    if schema.Unreadable? || schema.revision != Some(HEAD) { return RunFailed; }
    if schema.fingerprint != w.engine.expected(HEAD) { return RunFailed; }
    r := Reached(kind);
  }

  lemma SameChains(a: Files, b: Files, c: Files, touched: set<Path>)
    requires SameExcept(a, b, touched) && SameExcept(b, c, touched)
    ensures SameExcept(a, c, touched)
  {
    forall p | p !in touched ensures SameAt(a, c, p) { assert SameAt(a, b, p) && SameAt(b, c, p); }
  }

  /** A phase that started in `middle` and left the backup alone extends what held before it. */
  lemma PhaseJoins(history: seq<Files>, n: nat, m: nat, base: Files, middle: Files, now: Files, w: World, touched: set<Path>)
    requires n <= m <= |history| && touched <= {Database, Journal, RestoreTemp}
    requires Existed(base) && w.engine.intact(base[Database].bytes)
    requires Confined(history[..m], n, base, Touched(w)) && SameExcept(middle, base, Touched(w))
    requires AlwaysSafe(history[..m], n, w, base) && BackedUp(middle, w.stamp, base[Database].bytes)
    requires Confined(history, m, middle, touched) && SameExcept(now, middle, touched)
    ensures Confined(history, n, base, Touched(w)) && SameExcept(now, base, Touched(w))
    ensures AlwaysSafe(history, n, w, base) && BackedUp(now, w.stamp, base[Database].bytes)
  {
    ConfinedWidens(history, m, middle, touched, Touched(w));
    if m == |history| { assert history[..m] == history; }
    ConfinedChains(history, n, m, base, middle, Touched(w));
    SafeWhileBackedUp(history, m, middle, w, base, touched);
    SafeJoins(history, n, m, w, base);
    StillBackedUp(now, middle, w.stamp, base[Database].bytes, touched);
    SameChains(now, middle, base, Touched(w));
  }

  /** The unprotected part: offline check, first query and backup. */
  method Prepare(disk: Disk, w: World) returns (previous: Option<string>)
    requires disk.Valid() && Prepared(disk.files, w) && Existed(disk.files)
    modifies disk
    ensures disk.Valid() && old(disk.history) <= disk.history
    ensures Confined(disk.history, |old(disk.history)|, old(disk.files), BackupPaths(w.stamp))
    ensures SameExcept(disk.files, old(disk.files), BackupPaths(w.stamp))
    ensures Manifest(w.stamp) !in old(disk.files) ==>
      ManifestsComplete(disk.history, |old(disk.history)|, w.engine, w.stamp, old(disk.files)[Database].bytes)
    ensures previous.None? <==> Blocked(old(disk.files), w)
    ensures previous.Some? ==>
      var schema := w.engine.inspect(old(disk.files)[Database].bytes);
      schema.Schema? && previous.value == if schema.revision.Some? then schema.revision.value else "unversioned"
    ensures previous.Some? ==> BackedUp(disk.files, w.stamp, old(disk.files)[Database].bytes)
                               && w.engine.intact(old(disk.files)[Database].bytes)
  {
    if Sidecars(disk.files) || w.busyStart { return None; }
    var schema := w.engine.inspect(disk.files[Database].bytes);
    if schema.Unreadable? { return None; }
    var revision := schema.revision.GetOr(UNVERSIONED);
    var saved := CreateBackup(disk, w.engine, w.stamp, revision, w.busyBackup, w.backupChunks);
    previous := if saved then Some(revision) else None;
  }

  /** Upgrade of a database that holds data. */
  method UpgradeExisting(disk: Disk, w: World) returns (r: Outcome)
    requires disk.Valid() && Prepared(disk.files, w) && Existed(disk.files)
    modifies disk
    ensures disk.Valid() && old(disk.history) <= disk.history
    ensures Confined(disk.history, |old(disk.history)|, old(disk.files), Touched(w))
    ensures SameExcept(disk.files, old(disk.files), Touched(w))
    ensures AlwaysSafe(disk.history, |old(disk.history)|, w, old(disk.files))
    ensures OutcomeExact(old(disk.files), w, r)
    ensures r.Upgraded? ==> SameAt(disk.files, Migrated(old(disk.files), w).0, Database) && r.backedUp
                            && Named(old(disk.files), w, r.previous, r.kind)
    ensures r == NotStarted || r == IncompatibleSchema || r.MigrationFailed? ==> SameAt(disk.files, old(disk.files), Database)
    ensures r != NotStarted ==> BackedUp(disk.files, w.stamp, old(disk.files)[Database].bytes)
    ensures r.Upgraded? ==> Database in disk.files && disk.files[Database].Data?
                            && HeadSchema(w.engine, disk.files[Database].bytes)
  {
    ghost var n, base := |disk.history|, disk.files;
    var previous := Prepare(disk, w);
    ConfinedWidens(disk.history, n, base, BackupPaths(w.stamp), Touched(w));
    SafeWhileUntouched(disk.history, n, w, base, BackupPaths(w.stamp));
    assert SameAt(disk.files, base, Database) && SameAt(disk.files, base, Journal);
    assert SameAt(disk.files, base, Wal) && SameAt(disk.files, base, Shm);
    if previous.None? {
      BlockedDoesNotReach(base, w);
      return NotStarted;
    }
    r := Migrate(disk, w, previous.value, n, base);
  }

  lemma BlockedDoesNotReach(files: Files, w: World)
    requires Existed(files) && w.backupChunks != [] && w.restoreChunks != [] && Blocked(files, w)
    ensures OutcomeExact(files, w, NotStarted)
  {
  }

  /** The protected part, entered with a complete backup; `base` is the disk n states into its history. */
  method Migrate(disk: Disk, w: World, previous: string, ghost n: nat, ghost base: Files) returns (r: Outcome)
    requires disk.Valid() && w.backupChunks != [] && w.restoreChunks != [] && Existed(base) && !Blocked(base, w)
    requires n <= |disk.history| && Confined(disk.history, n, base, Touched(w)) && SameExcept(disk.files, base, Touched(w))
    requires AlwaysSafe(disk.history, n, w, base)
    requires BackedUp(disk.files, w.stamp, base[Database].bytes) && w.engine.intact(base[Database].bytes)
    requires SameAt(disk.files, base, Database) && SameAt(disk.files, base, Journal)
    requires SameAt(disk.files, base, Wal) && SameAt(disk.files, base, Shm)
    requires var schema := w.engine.inspect(base[Database].bytes);
      schema.Schema? && previous == if schema.revision.Some? then schema.revision.value else "unversioned"
    modifies disk
    ensures r.Upgraded? ==> SameAt(disk.files, Migrated(base, w).0, Database) && r.backedUp && Named(base, w, r.previous, r.kind)
    ensures disk.Valid() && old(disk.history) <= disk.history
    ensures Confined(disk.history, n, base, Touched(w)) && SameExcept(disk.files, base, Touched(w))
    ensures AlwaysSafe(disk.history, n, w, base)
    ensures OutcomeExact(base, w, r)
    ensures r == IncompatibleSchema || r.MigrationFailed? ==> SameAt(disk.files, base, Database)
    ensures r != NotStarted && BackedUp(disk.files, w.stamp, base[Database].bytes)
    ensures r.Upgraded? ==> Database in disk.files && disk.files[Database].Data?
                            && HeadSchema(w.engine, disk.files[Database].bytes)
  {
    ghost var m, backed, sofar := |disk.history|, disk.files, disk.history;
    DecisionsAgree(base, backed, w);
    MigratedAgrees(base, backed, w);
    var result := MigrateInPlace(disk, w, true);
    assert disk.history[..m] == sofar;
    PhaseJoins(disk.history, n, m, base, backed, disk.files, w, {Database, Journal});
    if result.Reached? { return Upgraded(previous, result.kind, true); }
    // A refused schema was only read: the digest check before raising finds the file unchanged.
    if result.SchemaRefused? { return IncompatibleSchema; }
    ghost var q, failed, sofar2 := |disk.history|, disk.files, disk.history;
    var restored := Restore(disk, w.engine, w.stamp, w.busyRestore, w.busyReplace, w.restoreChunks);
    assert disk.history[..q] == sofar2;
    PhaseJoins(disk.history, n, q, base, failed, disk.files, w, {Database, RestoreTemp});
    r := if restored then MigrationFailed(true) else RestoreFailed;
  }

  /** Upgrade of a missing or zero-byte database: nothing to save, and nothing left after a failure. */
  method UpgradeNew(disk: Disk, w: World) returns (r: Outcome)
    requires disk.Valid() && Prepared(disk.files, w) && !Existed(disk.files)
    modifies disk
    ensures disk.Valid() && old(disk.history) <= disk.history
    ensures Confined(disk.history, |old(disk.history)|, old(disk.files), Touched(w))
    ensures SameExcept(disk.files, old(disk.files), {Database, Journal})
    ensures r.Upgraded? ==> !r.backedUp && Database in disk.files && disk.files[Database].Data?
                            && HeadSchema(w.engine, disk.files[Database].bytes)
    ensures !r.Upgraded? ==> r == MigrationFailed(false) && Database !in disk.files && Journal !in disk.files
    ensures r.Upgraded? <==> ReachesHead(old(disk.files), w)
    ensures r.Upgraded? ==> disk.files == Migrated(old(disk.files), w).0 && r == Upgraded("unversioned", "empty", false)
  {
    ghost var n, base := |disk.history|, disk.files;
    var result := MigrateInPlace(disk, w, false);
    ConfinedWidens(disk.history, n, base, {Database, Journal}, Touched(w));
    if result.Reached? { return Upgraded(UNVERSIONED, result.kind, false); }
    disk.Remove(Database);
    disk.Remove(Journal);
    r := MigrationFailed(false);
  }

  /** The lock file is present in every state since the disk held n states. */
  ghost predicate AlwaysLocked(history: seq<Files>, n: nat) {
    forall k :: n <= k < |history| ==> Lock in history[k]
  }

  /** What is promised of an upgrade that was not refused the lock. */
  ghost predicate Promise(start: Files, files: Files, w: World, r: Outcome)
    requires Prepared(start, w)
  {
    && r != LockRefused
    && (r.Upgraded? ==> SameAt(files, Migrated(start, w).0, Database))
    && (r.Upgraded? && Existed(start) ==> r.backedUp && Named(start, w, r.previous, r.kind))
    && (r.Upgraded? && !Existed(start) ==> r == Upgraded("unversioned", "empty", false))
    && (r.Upgraded? ==> Database in files && files[Database].Data? && HeadSchema(w.engine, files[Database].bytes))
    && (Existed(start) ==>
          && OutcomeExact(start, w, r)
          && (r == NotStarted || r == IncompatibleSchema || r.MigrationFailed? ==> SameAt(files, start, Database))
          && (r != NotStarted ==> BackedUp(files, w.stamp, start[Database].bytes)))
    && (!Existed(start) ==>
          && (r.Upgraded? <==> ReachesHead(start, w))
          && (!r.Upgraded? ==> r == MigrationFailed(false) && Database !in files))
  }

  /** The lock file plays no part in the promise. */
  lemma PromiseIgnoresLock(start: Files, start': Files, files: Files, files': Files, w: World, r: Outcome)
    requires Prepared(start, w) && Prepared(start', w) && Promise(start', files', w, r)
    requires SameExcept(start', start, {Lock}) && SameExcept(files', files, {Lock})
    ensures Promise(start, files, w, r)
  {
    assert SameAt(start', start, Database) && SameAt(start', start, Journal) && SameAt(start', start, Wal) && SameAt(start', start, Shm);
    assert SameAt(start', start, Backup(w.stamp)) && SameAt(start', start, Manifest(w.stamp));
    assert SameAt(files', files, Database) && SameAt(files', files, Backup(w.stamp)) && SameAt(files', files, Manifest(w.stamp));
    MigratedAgrees(start', start, w);
    if Existed(start) { OutcomesAgree(start', start, w, r); }
  }

  /** The promise, run by run. */
  lemma PromiseByPlan(start: Files, files: Files, w: World, r: Outcome)
    requires Prepared(start, w) && Promise(start, files, w, r)
    ensures UpgradedByPlan(start, files, w, r)
  {
    MigratedByPlan(start, w);
    if Existed(start) && Blocked(start, w) { BlockedDoesNotReach(start, w); }
    assert RunByPlan(start, w, Migrated(start, w).0, ReachesHead(start, w));
  }

  method UpgradeUnlocked(disk: Disk, w: World) returns (r: Outcome)
    requires disk.Valid() && Prepared(disk.files, w)
    modifies disk
    ensures disk.Valid() && old(disk.history) <= disk.history
    ensures Confined(disk.history, |old(disk.history)|, old(disk.files), Touched(w))
    ensures SameExcept(disk.files, old(disk.files), Touched(w))
    ensures Existed(old(disk.files)) ==> AlwaysSafe(disk.history, |old(disk.history)|, w, old(disk.files))
    ensures Promise(old(disk.files), disk.files, w, r)
  {
    if Database in disk.files && disk.files[Database].Data? && disk.files[Database].bytes != "" {
      r := UpgradeExisting(disk, w);
    } else {
      r := UpgradeNew(disk, w);
    }
  }

  /**
   upgrade_sqlite_database.  The lock is present at every intermediate state, so a second
   upgrade or restore that starts at any of them is refused and leaves the disk as it is.
   */
  method UpgradeDatabase(disk: Disk, w: World) returns (r: Outcome)
    requires disk.Valid() && Prepared(disk.files, w)
    modifies disk
    ensures disk.Valid() && old(disk.history) <= disk.history
    ensures Lock in old(disk.files) <==> r == LockRefused
    ensures r == LockRefused ==> disk.files == old(disk.files) && disk.history == old(disk.history)
    ensures r != LockRefused ==> Lock !in disk.files && AlwaysLocked(disk.history[..|disk.history| - 1], |old(disk.history)|)
    ensures r != LockRefused ==> Promise(old(disk.files), disk.files, w, r)
    ensures r != LockRefused ==> UpgradedByPlan(old(disk.files), disk.files, w, r)
    ensures Existed(old(disk.files)) ==> AlwaysSafe(disk.history, |old(disk.history)|, w, old(disk.files))
  {
    var owned := Acquire(disk, w.token);
    if !owned { return LockRefused; }
    ghost var start, m, base, acquired := old(disk.files), |disk.history|, disk.files, disk.history;
    r := UpgradeUnlocked(disk, w);
    ghost var last, locked := disk.files, disk.history;
    assert SameAt(last, base, Lock);
    Release(disk, w.token);
    PromiseIgnoresLock(start, base, disk.files, last, w, r);
    PromiseByPlan(start, disk.files, w, r);
    LockedPeriod(disk.history, |old(disk.history)|, acquired, locked, start, base, last, w);
  }

  /** Create the lock file exclusively, then write the owner's token into it. */
  method Acquire(disk: Disk, token: string) returns (owned: bool)
    requires disk.Valid()
    modifies disk
    ensures disk.Valid() && old(disk.history) <= disk.history
    ensures owned <==> Lock !in old(disk.files)
    ensures !owned ==> disk.files == old(disk.files) && disk.history == old(disk.history)
    ensures owned ==> disk.files == old(disk.files)[Lock := LockToken(token)] && |disk.history| > |old(disk.history)|
                      && AlwaysLocked(disk.history, |old(disk.history)|)
                      && Confined(disk.history, |old(disk.history)|, old(disk.files), {Lock})
  {
    if Lock in disk.files { return false; }
    disk.Write(Lock, LockToken(""));
    disk.Write(Lock, LockToken(token));
    owned := true;
  }

  /** Unlink the lock only while it still holds the owner's token. */
  method Release(disk: Disk, token: string)
    requires disk.Valid() && Lock in disk.files
    modifies disk
    ensures disk.Valid()
    ensures old(disk.files)[Lock] == LockToken(token) ==>
      disk.files == old(disk.files) - {Lock} && disk.history == old(disk.history) + [disk.files]
    ensures old(disk.files)[Lock] != LockToken(token) ==>
      disk.files == old(disk.files) && disk.history == old(disk.history)
  {
    if disk.files[Lock] == LockToken(token) {
      disk.Remove(Lock);
    }
  }

  /** From acquisition to release the disk is locked, and the original stays safe throughout. */
  lemma LockedPeriod(history: seq<Files>, n: nat, acquired: seq<Files>, locked: seq<Files>,
                     start: Files, base: Files, last: Files, w: World)
    requires n < |acquired| <= |locked| && acquired <= locked && history == locked + [last - {Lock}]
    requires locked[|locked| - 1] == last && base == start[Lock := LockToken(w.token)]
    requires AlwaysLocked(acquired, n) && Confined(acquired, n, start, {Lock})
    requires Confined(locked, |acquired|, base, Touched(w))
    requires Existed(base) ==> AlwaysSafe(locked, |acquired|, w, base)
    ensures AlwaysLocked(history[..|history| - 1], n)
    ensures Existed(start) ==> AlwaysSafe(history, n, w, start)
  {
    assert history[..|history| - 1] == locked;
    StaysLocked(locked, |acquired|, base, Touched(w));
    forall k | n <= k < |locked| ensures Lock in locked[k] {
      if k < |acquired| { assert locked[k] == acquired[k]; }
    }
    if Existed(start) {
      assert locked[..|acquired|] == acquired;
      forall k | n <= k < |acquired| ensures SameAt(acquired[k], start, Manifest(w.stamp)) { }
      SafeWhileUntouched(acquired, n, w, start, {Lock});
      assert AlwaysSafe(locked, |acquired|, w, start) by {
        forall k | |acquired| <= k < |locked| ensures Safe(locked[k], w, start) { assert Safe(locked[k], w, base); }
      }
      SafeJoins(locked, n, |acquired|, w, start);
      UnlockIsSafe(history, n, w, start, last, last - {Lock});
    }
  }

  /** Removing the lock adds one more safe state. */
  lemma UnlockIsSafe(history: seq<Files>, n: nat, w: World, start: Files, last: Files, now: Files)
    requires |history| > n && |history| >= 2 && history[|history| - 1] == now && history[|history| - 2] == last
    requires Existed(start) && |history| - 2 >= n && AlwaysSafe(history[..|history| - 1], n, w, start)
    requires SameExcept(now, last, {Lock})
    ensures AlwaysSafe(history, n, w, start)
  {
    var init := history[..|history| - 1];
    forall k | n <= k < |history| ensures Safe(history[k], w, start) {
      if k < |history| - 1 {
        assert init[k] == history[k];
      } else {
        assert init[k - 1] == last && Safe(last, w, start);
        assert SameAt(now, last, Database) && SameAt(now, last, Backup(w.stamp)) && SameAt(now, last, Manifest(w.stamp));
      }
    }
  }

  lemma StaysLocked(history: seq<Files>, m: nat, base: Files, touched: set<Path>)
    requires Confined(history, m, base, touched) && Lock in base && Lock !in touched
    ensures AlwaysLocked(history, m)
  {
    forall k | m <= k < |history| ensures Lock in history[k] { assert SameAt(history[k], base, Lock); }
  }

  /** restore_backup, under the same lock; for a complete backup it says exactly when it succeeds. */
  method RestoreBackup(disk: Disk, w: World) returns (owned: bool, restored: bool)
    requires disk.Valid() && w.restoreChunks != []
    modifies disk
    ensures disk.Valid() && old(disk.history) <= disk.history
    ensures owned <==> Lock !in old(disk.files)
    ensures !owned ==> !restored && disk.files == old(disk.files) && disk.history == old(disk.history)
    ensures owned ==> Lock !in disk.files
    ensures Confined(disk.history, |old(disk.history)|, old(disk.files), {Lock, Database, RestoreTemp})
    ensures forall original :: BackedUp(old(disk.files), w.stamp, original) && w.engine.intact(original) && owned ==>
      && BackedUp(disk.files, w.stamp, original)
      && (restored <==> !Sidecars(old(disk.files)) && !w.busyRestore && !w.busyReplace
                        && w.restoreChunks[|w.restoreChunks| - 1] == original)
      && (restored ==> Database in disk.files && disk.files[Database] == Data(original))
      && (!restored ==> SameAt(disk.files, old(disk.files), Database))
  {
    owned := Acquire(disk, w.token);
    if !owned { return false, false; }
    ghost var start, base, m, acquired := old(disk.files), disk.files, |disk.history|, disk.history;
    ghost var n, touched := |old(disk.history)|, {Lock, Database, RestoreTemp};
    forall original | BackedUp(start, w.stamp, original) ensures BackedUp(base, w.stamp, original) {
      StillBackedUp(base, start, w.stamp, original, {Lock});
    }
    restored := Restore(disk, w.engine, w.stamp, w.busyRestore, w.busyReplace, w.restoreChunks);
    ghost var last, locked := disk.files, disk.history;
    assert SameAt(last, base, Lock);
    assert locked[..m] == acquired;
    ConfinedWidens(acquired, n, start, {Lock}, touched);
    ConfinedWidens(locked, m, base, {Database, RestoreTemp}, touched);
    ConfinedChains(locked, n, m, start, base, touched);
    Release(disk, w.token);
    assert SameExcept(disk.files, start, touched) by {
      SameChains(last, base, start, touched);
      SameChains(disk.files, last, start, touched);
    }
    forall k | n <= k < |disk.history| ensures SameExcept(disk.history[k], start, touched) {
      if k < |locked| { assert disk.history[k] == locked[k]; }
    }
    forall original | BackedUp(start, w.stamp, original) ensures BackedUp(disk.files, w.stamp, original) {
      StillBackedUp(last, base, w.stamp, original, {Database, RestoreTemp});
      StillBackedUp(disk.files, last, w.stamp, original, {Lock});
    }
  }

  /**
   After an upgrade died in any of its states, an earlier restore included: drop its lock, and restore
   if its manifest is there.  The database then holds the bytes that the upgrade started with, unless the
   restore is refused, and a refused restore leaves them as safe as they were.
   */
  method RecoverAfterCrash(disk: Disk, w: World, ghost start: Files) returns (recovered: bool)
    requires disk.Valid() && w.restoreChunks != []
    requires Existed(start) && Manifest(w.stamp) !in start && Safe(disk.files, w, start)
    modifies disk
    ensures disk.Valid() && Lock !in disk.files
    ensures recovered <==>
      || Manifest(w.stamp) !in old(disk.files)
      || (!Sidecars(old(disk.files)) && !w.busyRestore && !w.busyReplace
          && w.restoreChunks[|w.restoreChunks| - 1] == start[Database].bytes)
    ensures recovered ==> Database in disk.files && disk.files[Database] == start[Database]
    ensures AlwaysSafe(disk.history, |old(disk.history)|, w, start) && Safe(disk.files, w, start)
  {
    ghost var crashed, n := disk.files, |disk.history|;
    disk.Remove(Lock);
    if Manifest(w.stamp) !in disk.files { return true; }
    ghost var unlocked, m := disk.files, |disk.history|;
    StillBackedUp(unlocked, crashed, w.stamp, start[Database].bytes, {Lock});
    var owned;
    owned, recovered := RestoreBackup(disk, w);
    SafeWhileBackedUp(disk.history, m, unlocked, w, start, {Lock, Database, RestoreTemp});
  }
}
