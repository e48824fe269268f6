/** The data path of database export and import. */
module Migration {
  import opened Bits
  import opened Prelude
  import opened FileSystem
  import Frames

  datatype Manifest = Manifest(schemaSize: nat, dataSize: nat, schemaDigest: string, dataDigest: string)

  function ManifestOf<S>(h: Hasher<S>, schema: Bytes, data: Bytes): Manifest {
    Manifest(|schema|, |data|, Digest(h, schema), Digest(h, data))
  }

  /** `ensure_free_space`: an unknown amount of free space is let through. */
  function EnsureFreeSpace(available: Option<nat>, required: nat): (ok: bool)
    ensures !ok <==> available.Some? && available.value < required
  {
    available.None? || available.value >= required
  }

  predicate Prefix(a: Bytes, b: Bytes) {
    a <= b
  }

  // ---- export ---------------------------------------------------------------------------

  datatype PublishError =
    | CannotCreate(cause: IoError) | CannotOpenSource | CopyFailed(removed: bool) | CannotRemoveSource

  /** What publishing `from` as `to` leaves of the job's files. Only a first failure leaves them alone;
      a source that cannot be opened leaves an empty destination behind, a failed copy removes the
      partial destination if it can, and a source that cannot be removed stays beside the published file. */
  ghost predicate PublishLeaves(before: map<Path, FileBytes>, after: map<Path, FileBytes>, from: Path, to: Path,
                                r: Option<PublishError>) {
    match r
    case None => from in before && to !in before && after == before[to := before[from]] - {from}
    case Some(CannotCreate(_)) => after == before
    case Some(CannotOpenSource) => to !in before && after == before[to := []]
    case Some(CopyFailed(true)) => to !in before && after == before
    case Some(CopyFailed(false)) =>
      && from in before && to !in before && to in after
      && Prefix(after[to], before[from]) && after == before[to := after[to]]
    case Some(CannotRemoveSource) => from in before && to !in before && after == before[to := before[from]]
  }

  predicate CannotBeCreated(r: Option<PublishError>) {
    r.Some? && r.value.CannotCreate?
  }

  predicate RemovalFailed(r: Option<PublishError>) {
    r == Some(CopyFailed(false)) || r == Some(CannotRemoveSource)
  }

  /** `publish_noclobber`: moves a staged file to a destination that must not exist. */
  method PublishNoclobber(disk: Disk, from: Path, to: Path) returns (r: Option<PublishError>)
    requires disk.Valid() && from in disk.reserved && to !in disk.reserved
    modifies disk
    ensures disk.Valid() && disk.BaseKept() && old(disk.clock) <= disk.clock
    ensures disk.created == if CannotBeCreated(r) then old(disk.created) else old(disk.created) + {to}
    ensures to !in old(disk.created) ==>
      (r == Some(CannotCreate(AlreadyExists)) <==> disk.PathAt(to, old(disk.clock) + 1).Some?)
    ensures r == None ==> disk.clock == old(disk.clock) + 4
    ensures PublishLeaves(old(disk.Ours()), disk.Ours(), from, to, r)
    ensures disk.removalsWork ==> !RemovalFailed(r)
    ensures r == Some(CannotCreate(AlreadyExists)) ==> old(to in disk.Ours()) || to in disk.theirs
    ensures old(disk.Calm()) ==> disk.Calm() && disk.theirs == old(disk.theirs)
    ensures old(disk.Calm()) ==> (r == None <==> from in old(disk.Ours()) && !old(disk.OnDisk(to)))
  {
    hide Disk.Valid, Disk.BaseKept, Disk.Ours, Part, Disk.Calm;
    ghost var before := disk.Ours();
    var created := disk.CreateNew(to);
    if created.Some? {
      return Some(CannotCreate(created.value));
    }
    var input := disk.Read(from);
    if input.Err? {
      return Some(CannotOpenSource);
    }
    assert from in before && input.value == before[from];
    var copied := disk.WriteAll(to, input.value);
    ghost var written := disk.Ours()[to];
    assert Prefix(written, before[from]) && disk.Ours() == before[to := written];
    if copied.Some? {
      var removed := disk.RemoveFile(to);
      assert removed == None ==> disk.Ours() == before;
      return Some(CopyFailed(removed == None));
    }
    assert written == before[from];
    var removed := disk.RemoveFile(from);
    return if removed == None then None else Some(CannotRemoveSource);
  }

  /** What the driver does when asked to export: the files it leaves, and whether it reports success. */
  datatype DriverExport = DriverExport(schema: Option<FileBytes>, data: Option<FileBytes>, ok: bool)

  datatype ExportError =
    | BadDestination | ExportHeadroom | StagingFailed | ExportBackend | ExportHash
    | FirstPublication(cause: PublishError) | SecondPublication(cause: PublishError)

  /** `validate_export_inputs`; the textual and directory checks on the two paths come in as flags. */
  method ValidateExportInputs(disk: Disk, schema: Path, data: Path, schemaPathOk: bool, dataPathOk: bool)
    returns (ok: bool)
    requires disk.Valid()
    modifies disk
    ensures disk.Valid() && disk.BaseKept() && old(disk.clock) <= disk.clock && disk.created == old(disk.created)
    ensures ok ==> disk.clock == old(disk.clock) + 2
    ensures disk.Ours() == old(disk.Ours())
    ensures ok ==> schemaPathOk && dataPathOk && schema != data
    ensures old(disk.Calm()) ==> disk.Calm() && disk.theirs == old(disk.theirs)
    ensures old(disk.Calm()) ==>
      (ok <==> schemaPathOk && dataPathOk && schema != data && !old(disk.OnDisk(schema)) && !old(disk.OnDisk(data)))
  {
    hide Disk.Valid, Disk.BaseKept, Disk.Ours, Part, Disk.Calm;
    disk.ValidKeepsBase();
    if !schemaPathOk {
      return false;
    }
    var schemaExists := disk.Exists(schema);
    if schemaExists || !dataPathOk {
      return false;
    }
    var dataExists := disk.Exists(data);
    return !dataExists && schema != data;
  }

  /** The job's files after an export, when removals work: exactly the two destinations with the staged
      bytes on success, and otherwise at most what a failed publication leaves. */
  ghost predicate ExportLeaves<S>(ours: map<Path, FileBytes>, r: Result<Manifest, ExportError>, h: Hasher<S>,
                                  schema: Path, data: Path, staged: DriverExport) {
    match r
    case Ok(manifest) =>
      && staged.ok && staged.schema.Some? && staged.data.Some? && schema != data
      && ours == map[schema := staged.schema.value, data := staged.data.value]
      && manifest == ManifestOf(h, staged.schema.value, staged.data.value)
    case Err(FirstPublication(CannotOpenSource)) => ours == map[schema := []]
    case Err(FirstPublication(_)) => ours == map[]
    case Err(SecondPublication(CannotOpenSource)) =>
      staged.schema.Some? && ours == map[schema := staged.schema.value][data := []]
    case Err(SecondPublication(_)) => staged.schema.Some? && ours == map[schema := staged.schema.value]
    case Err(_) => ours == map[]
  }

  /** Even when removals fail: nothing but staging leftovers and destinations, and a destination only
      ever holds the beginning of its staged bytes. */
  ghost predicate ExportBounded(ours: map<Path, FileBytes>, schema: Path, data: Path, s: Path, d: Path,
                                staged: DriverExport) {
    && ours.Keys <= {schema, data, s, d}
    && (schema in ours ==> staged.schema.Some? && Prefix(ours[schema], staged.schema.value))
    && (data in ours ==> staged.data.Some? && Prefix(ours[data], staged.data.value))
  }

  /** What the driver left under the staging names. */
  function StagedFiles(s: Path, d: Path, staged: DriverExport): map<Path, FileBytes> {
    (if staged.schema.Some? then map[s := staged.schema.value] else map[])
    + (if staged.data.Some? then map[d := staged.data.value] else map[])
  }

  /** The job's files after hashing and publishing, before the staging guard runs. */
  ghost predicate PublishedBoth<S>(ours: map<Path, FileBytes>, r: Result<Manifest, ExportError>, h: Hasher<S>,
                                   schema: Path, data: Path, s: Path, d: Path, staged: DriverExport) {
    var before := StagedFiles(s, d, staged);
    match r
    case Err(ExportHash) => ours == before
    case Err(FirstPublication(e)) =>
      staged.schema.Some? && staged.data.Some? && PublishLeaves(before, ours, s, schema, Some(e))
    case Err(SecondPublication(e)) =>
      && staged.schema.Some? && staged.data.Some?
      && PublishLeaves(map[d := staged.data.value, schema := staged.schema.value], ours, d, data, Some(e))
    case Ok(m) =>
      && staged.schema.Some? && staged.data.Some? && schema != data
      && ours == map[schema := staged.schema.value, data := staged.data.value]
      && m == ManifestOf(h, staged.schema.value, staged.data.value)
    case Err(_) => false
  }

  /** When the two staged files have been hashed, if hashing them starts at time `k`. */
  ghost function HashedAt(disk: Disk, k: nat, staged: DriverExport): nat {
    if staged.schema.None? || staged.data.None? then k
    else
      var first := k + disk.HashTime(k, |staged.schema.value|);
      first + disk.HashTime(first, |staged.data.value|)
  }

  /** Where an export has created files, if its first publication is tried at time `t` and so its second at
      t + 4. Each destination is created only if it is free at that very moment, whatever it was before; if
      another process has put a file there the publication stops and creates nothing, and that is the only
      way in which it says that the destination exists. */
  ghost predicate CreatedBy(disk: Disk, r: Result<Manifest, ExportError>, t: nat, schema: Path, data: Path,
                            created: set<Path>) {
    var schemaTaken, dataTaken := disk.PathAt(schema, t).Some?, disk.PathAt(data, t + 4).Some?;
    match r
    case Err(FirstPublication(CannotCreate(cause))) => created == {} && (cause == AlreadyExists <==> schemaTaken)
    case Err(FirstPublication(_)) => created == {schema} && !schemaTaken
    case Err(SecondPublication(CannotCreate(cause))) =>
      created == {schema} && !schemaTaken && (cause == AlreadyExists <==> dataTaken)
    case Err(SecondPublication(_)) => created == {schema, data} && !schemaTaken && !dataTaken
    case Ok(_) => created == {schema, data} && !schemaTaken && !dataTaken
    case Err(_) => created == {}
  }

  /** Hashes the two staged files. */
  method HashBoth<S>(disk: Disk, h: Hasher<S>, s: Path, d: Path, ghost staged: DriverExport)
    returns (m: Option<Manifest>)
    requires disk.Valid() && disk.Ours() == StagedFiles(s, d, staged) && s != d && {s, d} <= disk.reserved
    modifies disk
    ensures disk.Valid() && disk.BaseKept() && old(disk.clock) <= disk.clock && disk.created == old(disk.created)
    ensures disk.Ours() == old(disk.Ours())
    ensures m.Some? ==>
      && staged.schema.Some? && staged.data.Some? && m.value == ManifestOf(h, staged.schema.value, staged.data.value)
      && disk.clock == HashedAt(disk, old(disk.clock), staged)
    ensures old(disk.Calm()) ==> disk.Calm() && disk.theirs == old(disk.theirs)
    ensures old(disk.Calm()) ==> (m.Some? <==> staged.schema.Some? && staged.data.Some?)
  {
    hide Disk.Valid, Disk.BaseKept, Disk.Ours, Part, Disk.Calm, Disk.HashTime;
    var sm := disk.HashFile(s, h);
    if sm.Err? {
      return None;
    }
    var dm := disk.HashFile(d, h);
    if dm.Err? {
      return None;
    }
    return Some(Manifest(sm.value.0, dm.value.0, sm.value.1, dm.value.1));
  }

  /** Publishes one staged file after the other. */
  method PublishPair<S>(disk: Disk, h: Hasher<S>, schema: Path, data: Path, s: Path, d: Path, m: Manifest,
                        ghost staged: DriverExport)
    returns (r: Result<Manifest, ExportError>)
    requires disk.Valid() && disk.Ours() == StagedFiles(s, d, staged) && staged.schema.Some? && staged.data.Some?
    requires m == ManifestOf(h, staged.schema.value, staged.data.value)
    requires s != d && {s, d} <= disk.reserved && schema !in disk.reserved && data !in disk.reserved && schema != data
    requires disk.created == {}
    modifies disk
    ensures disk.Valid() && disk.BaseKept() && old(disk.clock) <= disk.clock
    ensures CreatedBy(disk, r, old(disk.clock) + 1, schema, data, disk.created)
    ensures PublishedBoth(disk.Ours(), r, h, schema, data, s, d, staged) && r != Err(ExportHash)
    ensures disk.removalsWork ==> RemovedWhatItCould(r)
    ensures r == Err(SecondPublication(CannotCreate(AlreadyExists))) ==> data in disk.theirs
    ensures old(disk.Calm()) ==> disk.Calm() && disk.theirs == old(disk.theirs)
    ensures old(disk.Calm()) ==> (r.Ok? <==> schema !in disk.theirs && data !in disk.theirs)
  {
    hide Disk.Valid, Disk.BaseKept, Disk.Ours, Part, Disk.Calm, Disk.PathAt, ManifestOf;
    ghost var sb, db := staged.schema.value, staged.data.value;
    assert disk.Ours() == map[s := sb, d := db];
    var first := PublishNoclobber(disk, s, schema);
    if first.Some? {
      return Err(FirstPublication(first.value));
    }
    assert disk.Ours() == map[d := db, schema := sb];
    var second := PublishNoclobber(disk, d, data);
    if second.Some? {
      return Err(SecondPublication(second.value));
    }
    assert disk.Ours() == map[schema := sb, data := db];
    return Ok(m);
  }

  /** No failed publication was left with a file it should have removed. */
  predicate RemovedWhatItCould<M>(r: Result<M, ExportError>) {
    match r
    case Err(FirstPublication(e)) => !RemovalFailed(Some(e))
    case Err(SecondPublication(e)) => !RemovalFailed(Some(e))
    case _ => true
  }

  method PublishBoth<S>(disk: Disk, h: Hasher<S>, schema: Path, data: Path, s: Path, d: Path,
                        ghost staged: DriverExport)
    returns (r: Result<Manifest, ExportError>)
    requires disk.Valid() && disk.Ours() == StagedFiles(s, d, staged)
    requires s != d && {s, d} <= disk.reserved && schema !in disk.reserved && data !in disk.reserved && schema != data
    requires disk.created == {}
    modifies disk
    ensures disk.Valid() && disk.BaseKept() && old(disk.clock) <= disk.clock
    ensures CreatedBy(disk, r, HashedAt(disk, old(disk.clock), staged) + 1, schema, data, disk.created)
    ensures PublishedBoth(disk.Ours(), r, h, schema, data, s, d, staged)
    ensures disk.removalsWork ==> RemovedWhatItCould(r)
    ensures r == Err(SecondPublication(CannotCreate(AlreadyExists))) ==> data in disk.theirs
    ensures old(disk.Calm()) ==> disk.Calm() && disk.theirs == old(disk.theirs)
    ensures old(disk.Calm()) ==>
      (r.Ok? <==> staged.schema.Some? && staged.data.Some? && schema !in disk.theirs && data !in disk.theirs)
    ensures old(disk.Calm()) && (staged.schema.None? || staged.data.None?) ==> r == Err(ExportHash)
  {
    hide Disk.Valid, Disk.BaseKept, Disk.Ours, Part, Disk.Calm, Disk.PathAt, HashedAt, ManifestOf, StagedFiles;
    var m := HashBoth(disk, h, s, d, staged);
    if m.None? {
      return Err(ExportHash);
    }
    r := PublishPair(disk, h, schema, data, s, d, m.value, staged);
  }

  lemma GuardAfterFailure<S>(mid: map<Path, FileBytes>, ours: map<Path, FileBytes>, e: ExportError, h: Hasher<S>,
                             schema: Path, data: Path, s: Path, d: Path, staged: DriverExport)
    requires PublishedBoth(mid, Err(e), h, schema, data, s, d, staged)
    requires s != d && schema != data && {schema, data} !! {s, d} && CleanedUp(mid, ours, s, d)
    ensures ExportBounded(ours, schema, data, s, d, staged)
    ensures ours == mid - {s, d} && (e.FirstPublication? || e.SecondPublication? ==> !RemovalFailed(Some(e.cause))) ==>
      ExportLeaves(ours, Err(e), h, schema, data, staged)
  {
  }

  lemma NoGuardAfterSuccess<S>(ours: map<Path, FileBytes>, m: Manifest, h: Hasher<S>, schema: Path, data: Path,
                               s: Path, d: Path, staged: DriverExport)
    requires PublishedBoth(ours, Ok(m), h, schema, data, s, d, staged) && staged.ok
    ensures ExportBounded(ours, schema, data, s, d, staged)
    ensures ExportLeaves(ours, Ok(m), h, schema, data, staged)
  {
  }

  lemma GuardAfterDriver<S>(made: map<Path, FileBytes>, cleaned: map<Path, FileBytes>, ours: map<Path, FileBytes>,
                            h: Hasher<S>, schema: Path, data: Path, s: Path, d: Path, staged: DriverExport)
    requires made == StagedFiles(s, d, staged) && {schema, data} !! {s, d}
    requires CleanedUp(made, cleaned, s, d) && CleanedUp(cleaned, ours, s, d)
    ensures ExportBounded(ours, schema, data, s, d, staged)
    ensures ours == cleaned - {s, d} && cleaned == made - {s, d} ==>
      ExportLeaves(ours, Err(ExportBackend), h, schema, data, staged)
  {
  }

  lemma NothingMade<S>(h: Hasher<S>, schema: Path, data: Path, s: Path, d: Path, staged: DriverExport)
    ensures ExportBounded(map[], schema, data, s, d, staged)
    ensures ExportLeaves(map[], Err(BadDestination), h, schema, data, staged)
    ensures ExportLeaves(map[], Err(ExportHeadroom), h, schema, data, staged)
    ensures ExportLeaves(map[], Err(StagingFailed), h, schema, data, staged)
  {
  }

  /** What it takes for an export to succeed, if nobody interferes and no file call fails. */
  predicate CanExport(theirs: map<Path, FileBytes>, schema: Path, data: Path, staged: DriverExport,
                      schemaPathOk: bool, dataPathOk: bool, schemaFree: Option<nat>, dataFree: Option<nat>,
                      minFree: nat) {
    && schemaPathOk && dataPathOk && schema != data && schema !in theirs && data !in theirs
    && EnsureFreeSpace(schemaFree, minFree) && EnsureFreeSpace(dataFree, minFree)
    && staged.ok && staged.schema.Some? && staged.data.Some?
  }

  /** The first thing that is wrong with an export, if something is. */
  function ExportRefusal(theirs: map<Path, FileBytes>, schema: Path, data: Path, staged: DriverExport,
                         schemaPathOk: bool, dataPathOk: bool, schemaFree: Option<nat>, dataFree: Option<nat>,
                         minFree: nat): ExportError {
    if !schemaPathOk || !dataPathOk || schema == data || schema in theirs || data in theirs then BadDestination
    else if (schemaFree.Some? && schemaFree.value < minFree) || (dataFree.Some? && dataFree.value < minFree)
    then ExportHeadroom
    else if !staged.ok then ExportBackend
    else ExportHash
  }

  /** Once the driver has written: everything from here on is under the staging guard. */
  method ExportGuarded<S>(disk: Disk, h: Hasher<S>, schema: Path, data: Path, s: Path, d: Path, staged: DriverExport)
    returns (r: Result<Manifest, ExportError>)
    requires disk.Valid() && disk.Ours() == StagedFiles(s, d, staged)
    requires s != d && {s, d} <= disk.reserved && schema !in disk.reserved && data !in disk.reserved && schema != data
    requires disk.created == {}
    modifies disk
    ensures disk.Valid() && disk.BaseKept() && old(disk.clock) <= disk.clock
    ensures CreatedBy(disk, r, HashedAt(disk, old(disk.clock), staged) + 1, schema, data, disk.created)
    ensures ExportBounded(disk.Ours(), schema, data, s, d, staged)
    ensures disk.removalsWork || r.Ok? ==> ExportLeaves(disk.Ours(), r, h, schema, data, staged)
    ensures r == Err(ExportBackend) <==> !staged.ok
    ensures old(disk.Calm()) ==> disk.Calm() && disk.theirs == old(disk.theirs)
    ensures old(disk.Calm()) && staged.ok && (staged.schema.None? || staged.data.None?) ==> r == Err(ExportHash)
    ensures old(disk.Calm()) && staged.ok && staged.schema.Some? && staged.data.Some? ==>
      (r.Ok? <==> schema !in disk.theirs && data !in disk.theirs)
  {
    hide Disk.Valid, Disk.BaseKept, Disk.Ours, Part, Disk.Calm, CleanedUp, ExportBounded, ExportLeaves;
    hide Disk.PathAt, HashedAt, PublishLeaves, StagedFiles;
    ghost var made := disk.Ours();
    if !staged.ok {
      disk.Cleanup(s, d);
      ghost var cleaned := disk.Ours();
      disk.Cleanup(s, d);  // the staging guard, once more
      GuardAfterDriver(made, cleaned, disk.Ours(), h, schema, data, s, d, staged);
      return Err(ExportBackend);
    }
    r := PublishBoth(disk, h, schema, data, s, d, staged);
    ghost var mid := disk.Ours();
    if r.Err? {
      disk.Cleanup(s, d);  // the staging guard
      GuardAfterFailure(mid, disk.Ours(), r.error, h, schema, data, s, d, staged);
    } else {
      NoGuardAfterSuccess(mid, r.value, h, schema, data, s, d, staged);
    }
  }

  /** `export`: the driver writes two staged files, which are hashed and then published one after the
      other. `s` and `d` are the fresh staging names. */
  method Export<S>(disk: Disk, h: Hasher<S>, schema: Path, data: Path, s: Path, d: Path, staged: DriverExport,
                   schemaPathOk: bool, dataPathOk: bool, schemaFree: Option<nat>, dataFree: Option<nat>, minFree: nat)
    returns (r: Result<Manifest, ExportError>)
    requires disk.Valid() && disk.Ours() == map[]
    requires s != d && {s, d} <= disk.reserved && schema !in disk.reserved && data !in disk.reserved
    requires disk.created == {}
    modifies disk
    ensures disk.Valid() && disk.BaseKept() && old(disk.clock) <= disk.clock
    ensures CreatedBy(disk, r, HashedAt(disk, old(disk.clock) + 5, staged) + 1, schema, data, disk.created)
    ensures ExportBounded(disk.Ours(), schema, data, s, d, staged)
    ensures disk.removalsWork || r.Ok? ==> ExportLeaves(disk.Ours(), r, h, schema, data, staged)
    ensures old(disk.Calm()) ==> disk.Calm() && disk.theirs == old(disk.theirs)
    ensures old(disk.Calm()) ==>
      (r.Ok? <==> CanExport(disk.theirs, schema, data, staged, schemaPathOk, dataPathOk, schemaFree, dataFree, minFree))
    ensures old(disk.Calm()) && r.Err? ==>
      r.error ==
      ExportRefusal(disk.theirs, schema, data, staged, schemaPathOk, dataPathOk, schemaFree, dataFree, minFree)
  {
    hide Disk.Valid, Disk.BaseKept, Disk.Ours, Part, Disk.Calm, PublishedBoth, CleanedUp, ExportBounded, ExportLeaves;
    hide Disk.PathAt, HashedAt;
    NothingMade(h, schema, data, s, d, staged);
    var ok := ValidateExportInputs(disk, schema, data, schemaPathOk, dataPathOk);
    if !ok {
      return Err(BadDestination);
    }
    if !EnsureFreeSpace(schemaFree, minFree) || !EnsureFreeSpace(dataFree, minFree) {
      return Err(ExportHeadroom);
    }
    var parents := disk.Probe();
    if parents.Some? {
      return Err(StagingFailed);
    }
    disk.DriverWrites(s, staged.schema);
    disk.DriverWrites(d, staged.data);
    assert disk.Ours() == StagedFiles(s, d, staged);
    r := ExportGuarded(disk, h, schema, data, s, d, staged);
  }

  // ---- import ---------------------------------------------------------------------------

  /** UTF-8 as in table 3-7 of the Unicode standard: the length of the first scalar value, or 0. */
  function ScalarLength(b: Bytes): (n: nat)
    ensures n <= |b|
  {
    if |b| >= 1 && b[0] < 0x80 then 1
    else if |b| >= 2 && 0xC2 <= b[0] <= 0xDF && Continuation(b[1]) then 2
    else if |b| >= 3 && Continuation(b[2]) &&
            (  (b[0] == 0xE0 && 0xA0 <= b[1] <= 0xBF)
            || ((0xE1 <= b[0] <= 0xEC || 0xEE <= b[0] <= 0xEF) && Continuation(b[1]))
            || (b[0] == 0xED && 0x80 <= b[1] <= 0x9F)) then 3
    else if |b| >= 4 && Continuation(b[2]) && Continuation(b[3]) &&
            (  (b[0] == 0xF0 && 0x90 <= b[1] <= 0xBF)
            || (0xF1 <= b[0] <= 0xF3 && Continuation(b[1]))
            || (b[0] == 0xF4 && 0x80 <= b[1] <= 0x8F)) then 4
    else 0
  }

  predicate Continuation(b: byte) {
    0x80 <= b <= 0xBF
  }

  predicate Utf8(b: Bytes)
    decreases |b|
  {
    b == [] || (ScalarLength(b) > 0 && Utf8(b[ScalarLength(b)..]))
  }

  /** The calls a job makes on the database driver, with what they answered. */
  datatype BackendCall =
    | ExistsCall(database: string, answer: Option<bool>)
    | ImportCall(database: string, schema: FileBytes, data: FileBytes, ok: bool)

  class Backend {
    const existence: nat -> Option<bool>
    const importOk: nat -> bool
    var calls: seq<BackendCall>

    constructor (existence: nat -> Option<bool>, importOk: nat -> bool)
      ensures calls == [] && this.existence == existence && this.importOk == importOk
    {
      this.existence, this.importOk, this.calls := existence, importOk, [];
    }

    method DatabaseExists(database: string) returns (answer: Option<bool>)
      modifies this
      ensures calls == old(calls) + [ExistsCall(database, answer)] && answer == existence(|old(calls)|)
    {
      answer := existence(|calls|);
      calls := calls + [ExistsCall(database, answer)];
    }

    /** The driver imports whatever the two files hold when it is called. */
    method ImportDatabase(disk: Disk, database: string, s: Path, d: Path) returns (ok: bool)
      requires disk.Valid() && s in disk.Ours() && d in disk.Ours()
      modifies this, disk
      ensures disk.Valid() && disk.BaseKept() && old(disk.clock) <= disk.clock && disk.created == old(disk.created)
      ensures disk.Ours() == old(disk.Ours())
      ensures calls == old(calls) + [ImportCall(database, old(disk.Ours())[s], old(disk.Ours())[d], ok)]
      ensures ok == importOk(|old(calls)|)
      ensures old(disk.Calm()) ==> disk.Calm() && disk.theirs == old(disk.theirs)
    {
      ok := importOk(|calls|);
      calls := calls + [ImportCall(database, disk.files[s].bytes, disk.files[d].bytes, ok)];
      var _ := disk.Interfere();
    }
  }

  datatype ImportError =
    | BadSource | FirstStage | SecondStage | ImportHeadroom | StagingIo
    | BadStagedSchema | BadStagedData(reason: Frames.Reason) | StagedDataUnreadable | ImportHash
    | ExistsFailed | TargetExists | ImportFailed(status: Option<bool>)

  /** `validate_input`: the textual checks on the path come in as a flag. */
  method ValidateInput(disk: Disk, p: Path, pathOk: bool) returns (ok: bool)
    requires disk.Valid()
    modifies disk
    ensures disk.Valid() && disk.BaseKept() && old(disk.clock) <= disk.clock && disk.created == old(disk.created)
    ensures disk.Ours() == old(disk.Ours())
    ensures ok ==> p !in disk.reserved - disk.Ours().Keys
    ensures old(disk.Calm()) ==> disk.Calm() && disk.theirs == old(disk.theirs)
    ensures old(disk.Calm()) ==> (ok <==> pathOk && disk.OnDisk(p))
  {
    disk.ValidKeepsBase();
    if !pathOk {
      return false;
    }
    ok := disk.Exists(p);
  }

  /** `validate_schema`: a regular file within the cap, and UTF-8. */
  method ValidateSchema(disk: Disk, p: Path, cap: nat, pathOk: bool) returns (ok: bool)
    requires disk.Valid()
    modifies disk
    ensures disk.Valid() && disk.BaseKept() && old(disk.clock) <= disk.clock && disk.created == old(disk.created)
    ensures disk.Ours() == old(disk.Ours())
    ensures ok ==> p !in disk.reserved - disk.Ours().Keys
    ensures ok && p in disk.Ours() ==> |disk.Ours()[p]| <= cap && Utf8(disk.Ours()[p])
    ensures old(disk.Calm()) ==> disk.Calm() && disk.theirs == old(disk.theirs)
    ensures old(disk.Calm()) ==> (ok <==> pathOk && disk.OnDisk(p) && |disk.Content(p)| <= cap && Utf8(disk.Content(p)))
  {
    hide Disk.Valid, Disk.BaseKept, Disk.Ours, Part, Disk.Calm, Utf8;
    ok := ValidateInput(disk, p, pathOk);
    if !ok {
      return false;
    }
    var size := disk.Size(p);
    if size.Err? || size.value > cap {
      return false;
    }
    var content := disk.Read(p);
    return content.Ok? && Utf8(content.value);
  }

  method ValidatePair(disk: Disk, schema: Path, data: Path, cap: nat, schemaPathOk: bool, dataPathOk: bool)
    returns (ok: bool)
    requires disk.Valid()
    modifies disk
    ensures disk.Valid() && disk.BaseKept() && old(disk.clock) <= disk.clock && disk.created == old(disk.created)
    ensures disk.Ours() == old(disk.Ours())
    ensures ok ==> schema != data
    ensures ok ==> schema !in disk.reserved - disk.Ours().Keys && data !in disk.reserved - disk.Ours().Keys
    ensures old(disk.Calm()) ==> disk.Calm() && disk.theirs == old(disk.theirs)
    ensures old(disk.Calm()) ==>
      (ok <==> schemaPathOk && dataPathOk && schema != data && disk.OnDisk(schema) && disk.OnDisk(data) &&
               |disk.Content(schema)| <= cap && Utf8(disk.Content(schema)))
  {
    hide Disk.Valid, Disk.BaseKept, Disk.Ours, Part, Disk.Calm, Utf8;
    ok := ValidateSchema(disk, schema, cap, schemaPathOk);
    if !ok {
      return false;
    }
    ok := ValidateInput(disk, data, dataPathOk);
    return ok && schema != data;
  }

  /** A snapshot fit to be imported: a schema within the cap and UTF-8, and data framed to the end. */
  ghost predicate FitToImport(schema: Bytes, data: Bytes, cap: nat) {
    |schema| <= cap && Utf8(schema) && Frames.Framed(data)
  }

  /** What is wrong with a snapshot: its schema, or else its data, and then for the reason that applies. */
  ghost predicate SnapshotRefused(e: ImportError, schema: Bytes, data: Bytes, cap: nat) {
    if |schema| > cap || !Utf8(schema) then e == BadStagedSchema
    else e.BadStagedData? && Frames.Warrants(data, Frames.Rejected(e.reason))
  }

  /** The driver calls of one import job. The import itself is called at most once, only after the driver
      said the database is absent, and only with a snapshot that is fit to import, that was copied from
      the two source files, and that the manifest describes. */
  ghost predicate ImportCalls<S>(calls: seq<BackendCall>, r: Result<Manifest, ImportError>, h: Hasher<S>, cap: nat,
                                 database: string, disk: Disk, from: nat, to: nat, schema: Path, data: Path) {
    match r
    case Ok(m) => exists sb: FileBytes, db: FileBytes ::
      && calls == [ExistsCall(database, Some(false)), ImportCall(database, sb, db, true)]
      && FitToImport(sb, db, cap) && m == ManifestOf(h, sb, db)
      && disk.Had(schema, from, to, sb) && disk.Had(data, from, to, db)
    case Err(ImportFailed(status)) => exists sb: FileBytes, db: FileBytes ::
      && calls == [ExistsCall(database, Some(false)), ImportCall(database, sb, db, false), ExistsCall(database, status)]
      && FitToImport(sb, db, cap) && disk.Had(schema, from, to, sb) && disk.Had(data, from, to, db)
    case Err(TargetExists) => calls == [ExistsCall(database, Some(true))]
    case Err(ExistsFailed) => calls == [ExistsCall(database, None)]
    case Err(_) => calls == []
  }

  /** The job's files after an import: a success leaves its staged copies, a failure before the guard is in
      place leaves the empty placeholders made so far, and any later failure leaves nothing if removals work. */
  ghost predicate ImportLeaves(ours: map<Path, FileBytes>, r: Result<Manifest, ImportError>, s: Path, d: Path,
                               removalsWork: bool) {
    match r
    case Ok(_) => ours.Keys == {s, d}
    case Err(BadSource) => ours == map[]
    case Err(FirstStage) => ours == map[]
    case Err(SecondStage) => ours == map[s := []]
    case Err(ImportHeadroom) => ours == map[s := [], d := []]
    case Err(_) => ours.Keys <= {s, d} && (removalsWork ==> ours == map[])
  }

  /** From the removal of the placeholders to the end of validation; everything here is under the guard. */
  method StageSnapshot(disk: Disk, schema: Path, data: Path, s: Path, d: Path, cap: nat)
    returns (e: Option<ImportError>)
    requires disk.Valid() && disk.Ours() == map[s := [], d := []] && s != d && {s, d} <= disk.reserved
    requires disk.created == {} && schema !in disk.reserved && data !in disk.reserved
    modifies disk
    ensures disk.Valid() && disk.BaseKept() && old(disk.clock) <= disk.clock && disk.created == old(disk.created)
    ensures disk.Ours().Keys <= {s, d}
    ensures e.Some? ==>
      e.value.StagingIo? || e.value.BadStagedSchema? || e.value.BadStagedData? || e.value.StagedDataUnreadable?
    ensures e == None ==>
      && disk.Ours().Keys == {s, d}
      && FitToImport(disk.Ours()[s], disk.Ours()[d], cap)
      && disk.Had(schema, old(disk.clock), disk.clock, disk.Ours()[s])
      && disk.Had(data, old(disk.clock), disk.clock, disk.Ours()[d])
    ensures old(disk.Calm()) ==> disk.Calm() && disk.theirs == old(disk.theirs)
    ensures old(disk.Calm()) && schema in disk.theirs && data in disk.theirs ==>
      (e == None <==> FitToImport(disk.theirs[schema], disk.theirs[data], cap)) &&
      (e == None ==> disk.Ours()[s] == disk.theirs[schema] && disk.Ours()[d] == disk.theirs[data])
    ensures old(disk.Calm()) && schema in disk.theirs && data in disk.theirs && e.Some? ==>
      SnapshotRefused(e.value, disk.theirs[schema], disk.theirs[data], cap)
  {
    hide Disk.Valid, Disk.BaseKept, Disk.Ours, Part, Disk.Calm, Utf8;
    var io := disk.RemoveFile(s);
    if io.Some? {
      return Some(StagingIo);
    }
    io := disk.RemoveFile(d);
    if io.Some? {
      return Some(StagingIo);
    }
    io := disk.CopyToStage(schema, s);
    if io.Some? {
      return Some(StagingIo);
    }
    io := disk.CopyToStage(data, d);
    if io.Some? {
      return Some(StagingIo);
    }
    var ok := ValidateSchema(disk, s, cap, true);
    if !ok {
      return Some(BadStagedSchema);
    }
    var staged := disk.Read(d);
    if staged.Err? {
      return Some(StagedDataUnreadable);
    }
    var verdict := Frames.ValidateFrames(staged.value);
    return if verdict.Rejected? then Some(BadStagedData(verdict.reason)) else None;
  }

  /** What the driver has against an import whose calls start with call `n`. */
  function BackendRefusal(backend: Backend, n: nat): ImportError {
    if backend.existence(n).None? then ExistsFailed
    else if backend.existence(n) == Some(true) then TargetExists
    else ImportFailed(backend.existence(n + 2))
  }

  /** Hashing, the existence check and the import; still under the guard. */
  method ImportSnapshot<S>(disk: Disk, backend: Backend, h: Hasher<S>, database: string, s: Path, d: Path)
    returns (r: Result<Manifest, ImportError>)
    requires disk.Valid() && disk.Ours().Keys == {s, d} && s != d && {s, d} <= disk.reserved
    modifies disk, backend
    ensures disk.Valid() && disk.BaseKept() && old(disk.clock) <= disk.clock && disk.created == old(disk.created)
    ensures disk.Ours() == old(disk.Ours())
    ensures var sb, db := disk.Ours()[s], disk.Ours()[d];
      match r
      case Ok(m) =>
        && backend.calls == old(backend.calls) + [ExistsCall(database, Some(false)), ImportCall(database, sb, db, true)]
        && m == ManifestOf(h, sb, db)
      case Err(ImportFailed(status)) => backend.calls == old(backend.calls)
        + [ExistsCall(database, Some(false)), ImportCall(database, sb, db, false), ExistsCall(database, status)]
      case Err(TargetExists) => backend.calls == old(backend.calls) + [ExistsCall(database, Some(true))]
      case Err(ExistsFailed) => backend.calls == old(backend.calls) + [ExistsCall(database, None)]
      case Err(ImportHash) => backend.calls == old(backend.calls)
      case Err(_) => false
    ensures old(disk.Calm()) ==> disk.Calm() && disk.theirs == old(disk.theirs) && r != Err(ImportHash)
    ensures r.Err? && r != Err(ImportHash) ==> r.error == BackendRefusal(backend, |old(backend.calls)|)
    ensures old(disk.Calm()) ==>
      (r.Ok? <==> backend.existence(|old(backend.calls)|) == Some(false) && backend.importOk(|old(backend.calls)| + 1))
  {
    hide Disk.Valid, Disk.BaseKept, Disk.Ours, Part, Disk.Calm;
    var sm := disk.HashFile(s, h);
    if sm.Err? {
      return Err(ImportHash);
    }
    var dm := disk.HashFile(d, h);
    if dm.Err? {
      return Err(ImportHash);
    }
    var present := backend.DatabaseExists(database);
    if present.None? {
      return Err(ExistsFailed);
    }
    if present.value {
      return Err(TargetExists);
    }
    var ok := backend.ImportDatabase(disk, database, s, d);
    if ok {
      return Ok(Manifest(sm.value.0, dm.value.0, sm.value.1, dm.value.1));
    }
    var status := backend.DatabaseExists(database);
    return Err(ImportFailed(status));
  }

  /** What it takes for an import to succeed, if nobody interferes and no file call fails. */
  ghost predicate CanImport(theirs: map<Path, FileBytes>, schema: Path, data: Path, cap: nat, schemaPathOk: bool,
                            dataPathOk: bool, schemaFree: Option<nat>, dataFree: Option<nat>, minFree: nat,
                            absent: bool, importOk: bool) {
    && schemaPathOk && dataPathOk && schema != data && schema in theirs && data in theirs
    && FitToImport(theirs[schema], theirs[data], cap)
    && EnsureFreeSpace(schemaFree, minFree) && EnsureFreeSpace(dataFree, minFree) && absent && importOk
  }

  lemma ImportCallsWiden<S>(calls: seq<BackendCall>, r: Result<Manifest, ImportError>, h: Hasher<S>, cap: nat,
                            database: string, disk: Disk, from: nat, later: nat, to: nat, schema: Path, data: Path)
    requires from <= later && ImportCalls(calls, r, h, cap, database, disk, later, to, schema, data)
    ensures ImportCalls(calls, r, h, cap, database, disk, from, to, schema, data)
  {
    hide FitToImport, ManifestOf;
  }

  /** From the removal of the placeholders on: everything that is under the staging guard. */
  method ImportGuarded<S>(disk: Disk, backend: Backend, h: Hasher<S>, database: string, schema: Path, data: Path,
                          s: Path, d: Path, cap: nat)
    returns (r: Result<Manifest, ImportError>)
    requires disk.Valid() && disk.Ours() == map[s := [], d := []] && s != d && {s, d} <= disk.reserved
    requires backend.calls == [] && disk.created == {} && schema !in disk.reserved && data !in disk.reserved
    modifies disk, backend
    ensures disk.Valid() && disk.BaseKept() && old(disk.clock) <= disk.clock && disk.created == old(disk.created)
    ensures ImportCalls(backend.calls, r, h, cap, database, disk, old(disk.clock), disk.clock, schema, data)
    ensures r.Ok? ==> disk.Ours().Keys == {s, d}
    ensures r.Err? ==> disk.Ours().Keys <= {s, d} && (disk.removalsWork ==> disk.Ours() == map[])
    ensures r.Err? ==> !BeforeTheGuard(r.error)
    ensures old(disk.Calm()) ==> disk.Calm() && disk.theirs == old(disk.theirs)
    ensures old(disk.Calm()) && schema in disk.theirs && data in disk.theirs ==>
      (r.Ok? <==> FitToImport(disk.theirs[schema], disk.theirs[data], cap) &&
                  backend.existence(0) == Some(false) && backend.importOk(1)) &&
      (r.Ok? ==> backend.calls[1] == ImportCall(database, disk.theirs[schema], disk.theirs[data], true))
    ensures old(disk.Calm()) && schema in disk.theirs && data in disk.theirs && r.Err? ==>
      if FitToImport(disk.theirs[schema], disk.theirs[data], cap) then r.error == BackendRefusal(backend, 0)
      else SnapshotRefused(r.error, disk.theirs[schema], disk.theirs[data], cap)
  {
    hide Disk.Valid, Disk.BaseKept, Disk.Ours, Part, Disk.Calm;
    var bad := StageSnapshot(disk, schema, data, s, d, cap);
    if bad.Some? {
      disk.Cleanup(s, d);  // the staging guard
      return Err(bad.value);
    }
    r := ImportSnapshot(disk, backend, h, database, s, d);
    if r.Err? {
      disk.Cleanup(s, d);  // the staging guard
    }
  }

  /** The failures that come before the staging guard is in place. */
  predicate BeforeTheGuard(e: ImportError) {
    e.BadSource? || e.FirstStage? || e.SecondStage? || e.ImportHeadroom?
  }

  /** The first thing that is wrong with an import: a source, the space, the data, or what the driver says. */
  ghost predicate ImportRefused(e: ImportError, theirs: map<Path, FileBytes>, schema: Path, data: Path, cap: nat,
                                schemaPathOk: bool, dataPathOk: bool, schemaFree: Option<nat>, dataFree: Option<nat>,
                                minFree: nat, backend: Backend) {
    if || !schemaPathOk || !dataPathOk || schema == data || schema !in theirs || data !in theirs
       || |theirs[schema]| > cap || !Utf8(theirs[schema])
    then e == BadSource
    else if (schemaFree.Some? && schemaFree.value < minFree) || (dataFree.Some? && dataFree.value < minFree)
    then e == ImportHeadroom
    else if !Frames.Framed(theirs[data])
    then e.BadStagedData? && Frames.Warrants(theirs[data], Frames.Rejected(e.reason))
    else e == BackendRefusal(backend, 0)
  }

  /** `import`, after `validate_pair`. `s` and `d` are the staging names. */
  method Import<S>(disk: Disk, backend: Backend, h: Hasher<S>, database: string, schema: Path, data: Path, s: Path,
                   d: Path, cap: nat, schemaPathOk: bool, dataPathOk: bool, schemaFree: Option<nat>,
                   dataFree: Option<nat>, minFree: nat)
    returns (r: Result<Manifest, ImportError>)
    requires disk.Valid() && disk.Ours() == map[] && s != d && {s, d} <= disk.reserved && backend.calls == []
    requires disk.created == {}
    modifies disk, backend
    ensures disk.Valid() && disk.BaseKept() && old(disk.clock) <= disk.clock && disk.created == old(disk.created)
    ensures ImportCalls(backend.calls, r, h, cap, database, disk, old(disk.clock), disk.clock, schema, data)
    ensures ImportLeaves(disk.Ours(), r, s, d, disk.removalsWork)
    ensures old(disk.Calm()) ==> disk.Calm() && disk.theirs == old(disk.theirs)
    ensures old(disk.Calm()) ==>
      (r.Ok? <==> CanImport(disk.theirs, schema, data, cap, schemaPathOk, dataPathOk, schemaFree, dataFree, minFree,
                            backend.existence(0) == Some(false), backend.importOk(1)))
    ensures old(disk.Calm()) && r.Ok? ==>
      schema in disk.theirs && data in disk.theirs &&
      backend.calls[1] == ImportCall(database, disk.theirs[schema], disk.theirs[data], true)
    ensures old(disk.Calm()) && r.Err? ==>
      ImportRefused(r.error, disk.theirs, schema, data, cap, schemaPathOk, dataPathOk, schemaFree, dataFree, minFree,
                    backend)
  {
    hide Disk.Valid, Disk.BaseKept, Disk.Ours, Part, Disk.Calm, Disk.Had, Utf8;
    var ok := ValidatePair(disk, schema, data, cap, schemaPathOk, dataPathOk);
    if !ok {
      return Err(BadSource);
    }
    var io := disk.CreateNew(s);
    if io.Some? {
      return Err(FirstStage);
    }
    io := disk.CreateNew(d);
    if io.Some? {
      return Err(SecondStage);
    }
    if !EnsureFreeSpace(schemaFree, minFree) || !EnsureFreeSpace(dataFree, minFree) {
      return Err(ImportHeadroom);
    }
    ghost var guarded := disk.clock;
    r := ImportGuarded(disk, backend, h, database, schema, data, s, d, cap);
    ImportCallsWiden(backend.calls, r, h, cap, database, disk, old(disk.clock), guarded, disk.clock, schema, data);
  }
}
