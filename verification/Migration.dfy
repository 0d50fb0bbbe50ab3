/**
 The safe migration of a SQLite file: lock, offline check, byte-exact backup, manifest,
 Alembic, verification and restore.  Alembic is an arbitrary, possibly failing sequence of
 writes.  The disk remembers every state it went through, so that what holds of all new
 states holds at every point at which the process may die.
 */
module Migration {
  import opened Wrappers

  type Bytes = string

  /** The files that an upgrade touches; backups are told apart by their timestamps. */
  datatype Path =
    | Database | Journal | Wal | Shm | Lock | RestoreTemp
    | Backup(stamp: string) | Manifest(stamp: string) | ManifestTemp(stamp: string)
    | Elsewhere(name: string)

  /** A digest is represented by the bytes it was taken of. */
  datatype BackupManifest = BackupManifest(
    sourceSize: nat, sourceDigest: Bytes, sourceRevision: string,
    backup: string, backupSize: nat, backupDigest: Bytes)

  datatype Content = Data(bytes: Bytes) | ManifestOf(manifest: BackupManifest) | LockToken(token: string)

  type Files = map<Path, Content>

  // ----- revisions -----

  const PRE_X2 := "0001_pre_x2_runtime"
  const X2 := "0002_x2_presentation_snapshots"
  const BRAND_KIT := "0003_brand_kit_versions"
  const EXECUTION_QUEUE := "0004_execution_queue"
  const TIKTOK_ACCOUNT := "0007_tiktok_refresh_token_expiry"
  const VIDEO_COMPOSITION := "0009_video_compositions"
  const VIDEO_ENHANCEMENT := "0010_video_composition_enhancements"
  const BATCH_VIDEO := "0011_batch_video_jobs"
  const VIDEO_SCRIPT := "0012_video_script_versions"
  const HEAD := "0013_qwen_video_script_jobs"
  const UNVERSIONED := "unversioned"

  const KNOWN: seq<string> := [PRE_X2, X2, BRAND_KIT, EXECUTION_QUEUE, TIKTOK_ACCOUNT, VIDEO_COMPOSITION,
                               VIDEO_ENHANCEMENT, BATCH_VIDEO, VIDEO_SCRIPT, HEAD]

  /** The revisions whose schema an unversioned database may have, in the order they are tried. */
  const STAMPABLE: seq<string> := [PRE_X2, X2, BRAND_KIT, EXECUTION_QUEUE, TIKTOK_ACCOUNT,
                                   VIDEO_ENHANCEMENT, BATCH_VIDEO, VIDEO_SCRIPT, HEAD]

  /** What opening and inspecting a database file yields. */
  datatype Schema = Unreadable | Schema(tables: nat, revision: Option<string>, fingerprint: string)

  /** SQLite and the reference schemas, as functions. */
  datatype Engine = Engine(inspect: Bytes -> Schema, intact: Bytes -> bool, expected: string -> string)

  function FirstMatch(e: Engine, fingerprint: string, revisions: seq<string>): Option<string> {
    if revisions == [] then None
    else if fingerprint == e.expected(revisions[0]) then Some(revisions[0])
    else FirstMatch(e, fingerprint, revisions[1..])
  }

  function Classify(e: Engine, fingerprint: string): Option<string> { FirstMatch(e, fingerprint, STAMPABLE) }

  // ----- the read-only status -----

  datatype StatusKind = Locked | Missing | Empty | Prior(revision: string) | AtHead | Incompatible

  datatype Status = Status(kind: StatusKind, ready: bool, upgradeRequired: bool)

  function DatabaseStatus(files: Files, e: Engine): Status {
    if Lock in files then Status(Locked, false, false)
    else if Database !in files || !files[Database].Data? then Status(Missing, false, true)
    else if files[Database].bytes == "" then Status(Empty, false, true)
    else
      match e.inspect(files[Database].bytes)
      case Unreadable => Status(Incompatible, false, false)
      case Schema(tables, revision, fingerprint) =>
        if tables == 0 then Status(Empty, false, true)
        else if revision.None? then
          (match Classify(e, fingerprint)
           case Some(r) => Status(Prior(r), false, true)
           case None => Status(Incompatible, false, false))
        else if revision.value !in KNOWN then Status(Incompatible, false, false)
        else if fingerprint != e.expected(revision.value) then Status(Incompatible, false, false)
        else if revision.value == HEAD then Status(AtHead, true, false)
        else Status(Prior(revision.value), false, true)
  }

  // ----- what an upgrade decides to run -----

  datatype Plan = UpgradeOnly(kind: string) | StampThenUpgrade(revision: string) | Refuse | QueryFails

  function PlanFor(e: Engine, bytes: Bytes): Plan {
    match e.inspect(bytes)
    case Unreadable => QueryFails
    case Schema(tables, revision, fingerprint) =>
      if tables == 0 then UpgradeOnly("empty")
      else if revision.None? then
        (match Classify(e, fingerprint) case Some(r) => StampThenUpgrade(r) case None => Refuse)
      else if revision.value !in KNOWN then Refuse
      else if fingerprint != e.expected(revision.value) then Refuse
      else UpgradeOnly("versioned")
  }

  predicate HeadSchema(e: Engine, bytes: Bytes) {
    var s := e.inspect(bytes);
    s.Schema? && s.revision == Some(HEAD) && s.fingerprint == e.expected(HEAD)
  }

  /** The read-only status foretells what an upgrade of the same file will decide. */
  lemma StatusPredictsUpgrade(files: Files, e: Engine)
    requires Lock !in files && Database in files && files[Database].Data? && files[Database].bytes != ""
    ensures var status, plan := DatabaseStatus(files, e), PlanFor(e, files[Database].bytes);
      && (status.kind.Incompatible? <==> plan.Refuse? || plan.QueryFails?)
      && (status.upgradeRequired || status.ready <==> plan.UpgradeOnly? || plan.StampThenUpgrade?)
      && (status.ready <==> HeadSchema(e, files[Database].bytes) && plan == UpgradeOnly("versioned"))
      && (plan.StampThenUpgrade? ==> status.kind == Prior(plan.revision))
  {
  }

  lemma {:induction false} FirstMatchMeaning(e: Engine, fingerprint: string, revisions: seq<string>)
    ensures var r := FirstMatch(e, fingerprint, revisions);
      && (r.Some? ==> r.value in revisions && e.expected(r.value) == fingerprint)
      && (r.None? <==> forall v :: v in revisions ==> e.expected(v) != fingerprint)
      && (r.Some? ==> exists i :: 0 <= i < |revisions| && revisions[i] == r.value
                                  && forall k :: 0 <= k < i ==> e.expected(revisions[k]) != fingerprint)
  {
    if revisions != [] && fingerprint == e.expected(revisions[0]) {
      assert revisions[0] == FirstMatch(e, fingerprint, revisions).value;
    } else if revisions != [] {
      FirstMatchMeaning(e, fingerprint, revisions[1..]);
      assert revisions == [revisions[0]] + revisions[1..];
      var r := FirstMatch(e, fingerprint, revisions);
      if r.Some? {
        var i :| 0 <= i < |revisions[1..]| && revisions[1..][i] == r.value
                 && forall k :: 0 <= k < i ==> e.expected(revisions[1..][k]) != fingerprint;
        assert revisions[i + 1] == r.value;
        forall k | 0 <= k < i + 1 ensures e.expected(revisions[k]) != fingerprint {
          if k > 0 { assert revisions[k] == revisions[1..][k - 1]; }
        }
      }
    }
  }

  /** What an upgrade decides to run, from what it finds in the file. */
  lemma PlanExact(e: Engine, bytes: Bytes)
    ensures var schema, plan := e.inspect(bytes), PlanFor(e, bytes);
      if schema.Unreadable? then plan == QueryFails
      else if schema.tables == 0 then plan == UpgradeOnly("empty")
      else if schema.revision.Some? then
        plan == if schema.revision.value in KNOWN && schema.fingerprint == e.expected(schema.revision.value)
                then UpgradeOnly("versioned") else Refuse
      else if i :| 0 <= i < |STAMPABLE| && e.expected(STAMPABLE[i]) == schema.fingerprint
                   && forall k :: 0 <= k < i ==> e.expected(STAMPABLE[k]) != schema.fingerprint
      then plan == StampThenUpgrade(STAMPABLE[i])
      else plan == Refuse
  {
    var schema := e.inspect(bytes);
    if schema.Schema? && schema.tables > 0 && schema.revision.None? {
      FirstMatchMeaning(e, schema.fingerprint, STAMPABLE);
    }
  }

  /** Every state that the read-only status reports, and the two flags beside it. */
  lemma StatusExact(files: Files, e: Engine)
    ensures var status := DatabaseStatus(files, e);
      && (status.ready <==> status.kind == AtHead)
      && (status.upgradeRequired <==> status.kind == Missing || status.kind == Empty || status.kind.Prior?)
      && (status.kind == Locked <==> Lock in files)
      && (status.kind == Missing <==> Lock !in files && !(Database in files && files[Database].Data?))
      && (Lock !in files && Database in files && files[Database].Data? ==>
            var bytes := files[Database].bytes;
            var schema := e.inspect(bytes);
            && (status.kind == Empty <==> bytes == "" || (schema.Schema? && schema.tables == 0))
            && (bytes != "" ==>
                  && (status.kind == AtHead <==> schema.Schema? && schema.tables > 0 && schema.revision == Some(HEAD)
                                                 && schema.fingerprint == e.expected(HEAD))
                  && (status.kind.Prior? && schema.Schema? && schema.revision.Some? ==> status.kind.revision == schema.revision.value)
                  && (status.kind == Incompatible <==>
                        schema.Unreadable?
                        || (schema.tables > 0 && schema.revision.Some?
                            && (schema.revision.value !in KNOWN || schema.fingerprint != e.expected(schema.revision.value)))
                        || (schema.tables > 0 && schema.revision.None?
                            && forall v :: v in STAMPABLE ==> e.expected(v) != schema.fingerprint))))
  {
    if Lock !in files && Database in files && files[Database].Data? && e.inspect(files[Database].bytes).Schema? {
      FirstMatchMeaning(e, e.inspect(files[Database].bytes).fingerprint, STAMPABLE);
      assert HEAD == KNOWN[9];
    }
  }

  /**
   An unversioned database is accepted exactly when its schema is that of a stampable revision.
   The schema of 0009 is known, and accepted when versioned, but is missing from that list.
   */
  lemma UnversionedAcceptedIff(e: Engine, bytes: Bytes)
    requires e.inspect(bytes).Schema? && e.inspect(bytes).tables > 0 && e.inspect(bytes).revision.None?
    ensures PlanFor(e, bytes).Refuse? <==> forall v :: v in STAMPABLE ==> e.expected(v) != e.inspect(bytes).fingerprint
    ensures PlanFor(e, bytes).StampThenUpgrade? ==>
              e.expected(PlanFor(e, bytes).revision) == e.inspect(bytes).fingerprint && PlanFor(e, bytes).revision in KNOWN
    ensures VIDEO_COMPOSITION in KNOWN && VIDEO_COMPOSITION !in STAMPABLE
    ensures forall v :: v in KNOWN && v != VIDEO_COMPOSITION ==> v in STAMPABLE
  {
    FirstMatchMeaning(e, e.inspect(bytes).fingerprint, STAMPABLE);
    StampableIsKnownButOne();
  }

  /** Of the known revisions all but 0009 can be stamped, and no others. */
  lemma StampableIsKnownButOne()
    ensures VIDEO_COMPOSITION in KNOWN && VIDEO_COMPOSITION !in STAMPABLE
    ensures forall v :: v in KNOWN && v != VIDEO_COMPOSITION <==> v in STAMPABLE
  {
    assert VIDEO_COMPOSITION == KNOWN[5];
    forall v | v in KNOWN && v != VIDEO_COMPOSITION ensures v in STAMPABLE {
      var i :| 0 <= i < |KNOWN| && KNOWN[i] == v;
      assert STAMPABLE[if i < 5 then i else i - 1] == v;
    }
    forall i | 0 <= i < |STAMPABLE| ensures STAMPABLE[i] != VIDEO_COMPOSITION {
      assert STAMPABLE[i][3] != '9';
    }
    forall v | v in STAMPABLE ensures v in KNOWN && v != VIDEO_COMPOSITION {
      var i :| 0 <= i < |STAMPABLE| && STAMPABLE[i] == v;
      assert KNOWN[if i < 5 then i else i + 1] == v;
    }
  }

  /** A database with exactly the schema of 0009: refused without a version row, upgraded with one. */
  lemma UnversionedCompositionRefused(e: Engine, bytes: Bytes, versioned: Bytes, tables: nat)
    requires tables > 0
    requires e.inspect(bytes) == Schema(tables, None, e.expected(VIDEO_COMPOSITION))
    requires e.inspect(versioned) == Schema(tables, Some(VIDEO_COMPOSITION), e.expected(VIDEO_COMPOSITION))
    requires forall v :: v in STAMPABLE ==> e.expected(v) != e.expected(VIDEO_COMPOSITION)
    ensures PlanFor(e, bytes) == Refuse && PlanFor(e, versioned) == UpgradeOnly("versioned")
  {
    UnversionedAcceptedIff(e, bytes);
  }

  // ----- the disk -----

  class Disk {
    var files: Files
    ghost var history: seq<Files>

    ghost predicate Valid()
      reads this
    {
      |history| > 0 && history[|history| - 1] == files
    }

    constructor (files: Files)
      ensures Valid() && this.files == files
    {
      this.files := files;
      history := [files];
    }

    method Write(p: Path, c: Content)
      requires Valid()
      modifies this
      ensures Valid() && files == old(files)[p := c] && history == old(history) + [files]
    {
      files := files[p := c];
      history := history + [files];
    }

    method Remove(p: Path)
      requires Valid()
      modifies this
      ensures Valid() && files == old(files) - {p} && history == old(history) + [files]
    {
      files := files - {p};
      history := history + [files];
    }

    /** Rename over the target in one step. */
    method Replace(from: Path, to: Path)
      requires Valid() && from in files && from != to
      modifies this
      ensures Valid() && files == (old(files) - {from})[to := old(files)[from]] && history == old(history) + [files]
    {
      files := (files - {from})[to := files[from]];
      history := history + [files];
    }
  }

  ghost predicate SameAt(a: Files, b: Files, p: Path) {
    (p in a <==> p in b) && (p in a && p in b ==> a[p] == b[p])
  }

  ghost predicate SameExcept(a: Files, b: Files, touched: set<Path>) {
    forall p :: p !in touched ==> SameAt(a, b, p)
  }

  /** Every state that the disk went through since it held n states differs from `base` only in `touched`. */
  ghost predicate Confined(history: seq<Files>, n: nat, base: Files, touched: set<Path>) {
    forall k :: n <= k < |history| ==> SameExcept(history[k], base, touched)
  }

  predicate Sidecars(files: Files) { Journal in files || Wal in files || Shm in files }

  /** A copy, chunk by chunk, by whatever contents `chunks` says the target went through. */
  method CopyTo(disk: Disk, target: Path, chunks: seq<Bytes>)
    requires disk.Valid() && chunks != []
    modifies disk
    ensures disk.Valid() && old(disk.history) <= disk.history
    ensures disk.files == old(disk.files)[target := Data(chunks[|chunks| - 1])]
    ensures Confined(disk.history, |old(disk.history)|, old(disk.files), {target})
  {
    for i := 0 to |chunks|
      invariant disk.Valid() && old(disk.history) <= disk.history
      invariant i > 0 ==> disk.files == old(disk.files)[target := Data(chunks[i - 1])]
      invariant i == 0 ==> disk.files == old(disk.files)
      invariant Confined(disk.history, |old(disk.history)|, old(disk.files), {target})
    {
      disk.Write(target, Data(chunks[i]));
    }
  }

  datatype AlembicWrite = WriteDatabase(bytes: Bytes) | WriteJournal(journal: Bytes) | DropJournal

  datatype AlembicRun = AlembicRun(writes: seq<AlembicWrite>, succeeds: bool)

  function AfterWrite(files: Files, write: AlembicWrite): Files {
    match write
    case WriteDatabase(bytes) => files[Database := Data(bytes)]
    case WriteJournal(bytes) => files[Journal := Data(bytes)]
    case DropJournal => files - {Journal}
  }

  function AfterWrites(files: Files, writes: seq<AlembicWrite>): Files {
    if writes == [] then files else AfterWrite(AfterWrites(files, writes[..|writes| - 1]), writes[|writes| - 1])
  }

  /** Alembic sees only the database and its journal ... */
  lemma {:induction false} WritesAgree(a: Files, b: Files, writes: seq<AlembicWrite>)
    requires SameAt(a, b, Database) && SameAt(a, b, Journal)
    ensures SameAt(AfterWrites(a, writes), AfterWrites(b, writes), Database)
    ensures SameAt(AfterWrites(a, writes), AfterWrites(b, writes), Journal)
  {
    if writes != [] { WritesAgree(a, b, writes[..|writes| - 1]); }
  }

  /** ... and changes nothing else. */
  lemma {:induction false} WritesConfined(a: Files, writes: seq<AlembicWrite>)
    ensures SameExcept(AfterWrites(a, writes), a, {Database, Journal})
  {
    if writes != [] {
      var before := AfterWrites(a, writes[..|writes| - 1]);
      WritesConfined(a, writes[..|writes| - 1]);
      forall p | p !in {Database, Journal} ensures SameAt(AfterWrites(a, writes), a, p) {
        assert SameAt(before, a, p);
      }
    }
  }

  method RunAlembic(disk: Disk, run: AlembicRun) returns (ok: bool)
    requires disk.Valid()
    modifies disk
    ensures disk.Valid() && old(disk.history) <= disk.history && ok == run.succeeds
    ensures disk.files == AfterWrites(old(disk.files), run.writes)
    ensures Confined(disk.history, |old(disk.history)|, old(disk.files), {Database, Journal})
    ensures SameExcept(disk.files, old(disk.files), {Database, Journal})
    ensures Database in old(disk.files) && old(disk.files)[Database].Data? ==> Database in disk.files && disk.files[Database].Data?
  {
    for i := 0 to |run.writes|
      invariant disk.Valid() && old(disk.history) <= disk.history
      invariant disk.files == AfterWrites(old(disk.files), run.writes[..i])
      invariant Confined(disk.history, |old(disk.history)|, old(disk.files), {Database, Journal})
      invariant SameExcept(disk.files, old(disk.files), {Database, Journal})
      invariant Database in old(disk.files) && old(disk.files)[Database].Data? ==> Database in disk.files && disk.files[Database].Data?
    {
      assert run.writes[..i + 1][..i] == run.writes[..i];
      match run.writes[i]
      case WriteDatabase(bytes) => disk.Write(Database, Data(bytes));
      case WriteJournal(bytes) => disk.Write(Journal, Data(bytes));
      case DropJournal => disk.Remove(Journal);
    }
    assert run.writes[..|run.writes|] == run.writes;
    ok := run.succeeds;
  }

  // ----- backup -----

  predicate BackedUp(files: Files, stamp: string, original: Bytes) {
    && Backup(stamp) in files && files[Backup(stamp)] == Data(original)
    && Manifest(stamp) in files && files[Manifest(stamp)].ManifestOf?
    && files[Manifest(stamp)].manifest.sourceDigest == original
    && files[Manifest(stamp)].manifest.backup == stamp
    && files[Manifest(stamp)].manifest.backupDigest == original
    && files[Manifest(stamp)].manifest.sourceSize == |original| == files[Manifest(stamp)].manifest.backupSize
  }

  /** Wherever this backup's manifest is found since the disk held n states, the backup is complete and sound. */
  ghost predicate ManifestsComplete(history: seq<Files>, n: nat, e: Engine, stamp: string, original: Bytes) {
    forall k :: n <= k < |history| && Manifest(stamp) in history[k] ==>
      BackedUp(history[k], stamp, original) && e.intact(original)
  }

  function BackupPaths(stamp: string): set<Path> { {Backup(stamp), Manifest(stamp), ManifestTemp(stamp)} }

  /** `busy` says that another connection holds the file; `chunks` is what copying really wrote. */
  method CreateBackup(disk: Disk, e: Engine, stamp: string, revision: string, busy: bool, chunks: seq<Bytes>)
    returns (ok: bool)
    requires disk.Valid() && chunks != []
    requires Database in disk.files && disk.files[Database].Data?
    modifies disk
    ensures disk.Valid() && old(disk.history) <= disk.history
    ensures Confined(disk.history, |old(disk.history)|, old(disk.files), BackupPaths(stamp))
    ensures SameExcept(disk.files, old(disk.files), BackupPaths(stamp))
    ensures ok ==> BackedUp(disk.files, stamp, old(disk.files)[Database].bytes) && ManifestTemp(stamp) !in disk.files
                   && e.intact(old(disk.files)[Database].bytes)
                   && disk.files[Manifest(stamp)].manifest.sourceRevision == revision
    ensures ok <==> !Sidecars(old(disk.files)) && !busy && e.intact(old(disk.files)[Database].bytes)
                    && Backup(stamp) !in old(disk.files) && Manifest(stamp) !in old(disk.files)
                    && chunks[|chunks| - 1] == old(disk.files)[Database].bytes
    ensures Manifest(stamp) !in old(disk.files) ==>
      ManifestsComplete(disk.history, |old(disk.history)|, e, stamp, old(disk.files)[Database].bytes)
    ensures !ok && Backup(stamp) !in old(disk.files) ==> Backup(stamp) !in disk.files
    ensures !ok && Manifest(stamp) !in old(disk.files) ==> Manifest(stamp) !in disk.files
  {
    if Sidecars(disk.files) || busy { return false; }
    var before := disk.files[Database].bytes;
    if !e.intact(before) { return false; }
    if Backup(stamp) in disk.files || Manifest(stamp) in disk.files { return false; }
    ghost var n, base := |disk.history|, disk.files;
    CopyTo(disk, Backup(stamp), chunks);
    assert forall k :: n <= k < |disk.history| ==> SameAt(disk.history[k], base, Manifest(stamp));
    var copied := disk.files[Backup(stamp)].bytes;
    var after := disk.files[Database].bytes;
    if after != before || copied != before || |after| != |before| || |copied| != |before| {
      disk.Remove(Backup(stamp));
      disk.Remove(Manifest(stamp));
      return false;
    }
    var manifest := BackupManifest(|before|, before, revision, stamp, |copied|, copied);
    disk.Write(ManifestTemp(stamp), ManifestOf(manifest));
    assert forall k :: n <= k < |disk.history| ==> Manifest(stamp) !in disk.history[k];
    disk.Replace(ManifestTemp(stamp), Manifest(stamp));
    assert disk.history[|disk.history| - 1] == disk.files && BackedUp(disk.files, stamp, before);
    ok := true;
  }

  // ----- restore -----

  /** There is a manifest, and the backup that it names still has the bytes that were backed up. */
  predicate SoundBackup(files: Files, stamp: string) {
    && Manifest(stamp) in files && files[Manifest(stamp)].ManifestOf?
    && var manifest := files[Manifest(stamp)].manifest;
       Backup(manifest.backup) in files && files[Backup(manifest.backup)] == Data(manifest.backupDigest)
  }

  /** `busy1` and `busy2` are the connections found by the two offline checks. */
  method Restore(disk: Disk, e: Engine, stamp: string, busy1: bool, busy2: bool, chunks: seq<Bytes>) returns (ok: bool)
    requires disk.Valid() && chunks != []
    modifies disk
    ensures disk.Valid() && old(disk.history) <= disk.history
    ensures Confined(disk.history, |old(disk.history)|, old(disk.files), {Database, RestoreTemp})
    ensures SameExcept(disk.files, old(disk.files), {Database, RestoreTemp})
    ensures forall original :: BackedUp(old(disk.files), stamp, original) && e.intact(original) ==>
      && (ok <==> !Sidecars(old(disk.files)) && !busy1 && !busy2 && chunks[|chunks| - 1] == original)
      && (ok ==> Database in disk.files && disk.files[Database] == Data(original) && RestoreTemp !in disk.files)
      && (!ok ==> SameAt(disk.files, old(disk.files), Database))
    ensures !SoundBackup(old(disk.files), stamp) ==> !ok && disk.files == old(disk.files) && disk.history == old(disk.history)
    ensures SoundBackup(old(disk.files), stamp) ==>
      var bytes := old(disk.files)[Manifest(stamp)].manifest.backupDigest;
      && (ok <==> !Sidecars(old(disk.files)) && !busy1 && !busy2 && chunks[|chunks| - 1] == bytes && e.intact(bytes))
      && (forall k :: |old(disk.history)| <= k < |disk.history| ==>
            SameAt(disk.history[k], old(disk.files), Database)
            || (Database in disk.history[k] && disk.history[k][Database] == Data(bytes)))
      && (ok ==> Database in disk.files && disk.files[Database] == Data(bytes))
    ensures forall original, k :: BackedUp(old(disk.files), stamp, original) && |old(disk.history)| <= k < |disk.history| ==>
      SameAt(disk.history[k], old(disk.files), Database)
      || (Database in disk.history[k] && disk.history[k][Database] == Data(original))
  {
    if Manifest(stamp) !in disk.files || !disk.files[Manifest(stamp)].ManifestOf? { return false; }
    var manifest := disk.files[Manifest(stamp)].manifest;
    var backup := Backup(manifest.backup);
    if backup !in disk.files || disk.files[backup] != Data(manifest.backupDigest) { return false; }
    if Sidecars(disk.files) || busy1 { return false; }
    CopyTo(disk, RestoreTemp, chunks);
    if disk.files[RestoreTemp] != Data(manifest.backupDigest) || Sidecars(disk.files) || busy2 {
      disk.Remove(RestoreTemp);
      return false;
    }
    disk.Replace(RestoreTemp, Database);
    ok := e.intact(disk.files[Database].bytes);
  }
}
