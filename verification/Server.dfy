/**
 * The server: database rows, local storage, and what each request does to them. A request is one
 * atomic step that commits at its end. When it fails, the database is as before but whatever the
 * request already did to storage stays, and so do changes of the active-session gauge.
 */
module Server {
  import opened Basics
  import opened Slicing
  import opened Policy
  import P = Paths

  type Id = nat

  /** The path of an object: bucket and object key. Tenants share this name space. */
  datatype Key = Key(bucket: string, name: string)

  /** The file that writes to an object go through before they replace it. */
  function TempKey(k: Key): Key { Key(k.bucket, k.name + ".tmp") }

  datatype UploadStatus = Initiated | Uploading | Completing | Completed | Aborting | Aborted | Expired
  datatype UploadMode = Proxy | Presigned
  datatype PartStatus = Pending | Uploaded | Committed | FailedPart
  datatype FileStatus = ActiveFile | DeletedFile
  datatype LifecycleStatus = Active | Expiring | ExpiredFile | Deleting | Deleted | Archiving | Archived | Restoring

  datatype Session = Session(
    tenant: string, key: Key, mode: UploadMode, totalSize: nat, partSize: nat, totalParts: nat,
    status: UploadStatus, requested: bool, effective: Option<Effective>, completedFile: Option<Id>,
    expiresAt: int, createdAt: int)

  datatype PartRow = PartRow(offset: int, size: int, etag: string, status: PartStatus)

  datatype FileRow = FileRow(
    tenant: string, key: Key, size: int, etag: string, uploadId: Option<Id>, status: FileStatus,
    mode: string, action: string, lifecycle: LifecycleStatus, ttl: Option<int>, expiresAt: Option<int>,
    nextActionAt: Option<int>, legalHold: bool, clientSource: bool, completedAt: int,
    deletedAt: Option<int>, deleteAttempts: nat)

  datatype Event = Event(file: Id, kind: string, before: LifecycleStatus, after: LifecycleStatus)
  datatype Message = Message(file: Id, kind: string)

  datatype Db = Db(
    sessions: map<Id, Session>, parts: map<Id, map<nat, PartRow>>, files: map<Id, FileRow>,
    events: seq<Event>, outbox: seq<Message>)

  /** Part files per upload, and objects. */
  datatype Disk = Disk(partFiles: map<Id, map<nat, bytes>>, objects: map<Key, bytes>)

  datatype World = World(db: Db, disk: Disk, gauge: int)

  /** Configuration, the database dialect, Unicode NFC and SHA-256. `policy` carries the runtime default. */
  datatype Settings = Settings(
    allowedBuckets: set<(string, string)>, maximumFileSize: int,
    multipartEnabled: bool, defaultPartSize: int, minimumPartSize: int, maximumPartSize: int, maximumParts: int,
    directThreshold: int, defaultMode: string, rejectConflicts: bool,
    sessionExpiry: int, maximumLifetime: int, refreshEnabled: bool,
    lifecycleEnabled: bool, policy: PolicyConfig, staticPolicy: PolicyConfig,
    postgres: bool, nfc: string -> string, sha: bytes -> string)

  predicate ValidSettings(cfg: Settings) {
    1 <= cfg.minimumPartSize && 1 <= cfg.maximumParts < 100_000_000
  }

  datatype Error =
    | InvalidBucket | BadPath(path: P.PathError) | InvalidFileSize | FileTooLarge | InvalidPartSize | TooManyParts
    | InvalidUploadMode | ObjectAlreadyExists | BadLifecycle(policy: PolicyError)
    | UploadNotFound | AlreadyCompleted | UploadAborted | UploadExpired | StateConflict
    | InvalidPartNumber | MissingParts(missing: seq<nat>)
    | PartSizeMismatch | PartFileMissing | ChecksumMismatch | IntegrityError | StorageUnavailable | DatabaseUnavailable
    | RefreshDisabled | FileNotFound | UnderLegalHold | CannotExtend | RangeRefused

  /** What the environment may do to a request: nothing, fail its storage call, or fail its commit. */
  datatype Fault = NoFault | StorageFault(debris: Option<bytes>) | CommitFault

  // ------------------------------------------------------------------ state machine of upload sessions

  function UploadTransitions(s: UploadStatus): set<UploadStatus> {
    match s
    case Initiated => {Uploading, Aborting, Expired}
    case Uploading => {Completing, Aborting, Expired}
    case Completing => {Completed, Uploading}
    case Aborting => {Aborted}
    case _ => {}
  }

  predicate CanTransition(current: UploadStatus, target: UploadStatus) { target in UploadTransitions(current) }

  predicate Terminal(s: UploadStatus) { s == Completed || s == Aborted || s == Expired }

  /** `_ensure_active` */
  function EnsureActive(s: UploadStatus): Option<Error> {
    match s
    case Completed => Some(AlreadyCompleted)
    case Aborted => Some(UploadAborted)
    case Expired => Some(UploadExpired)
    case _ => None
  }

  // ------------------------------------------------------------------ lookups

  function Rows(db: Db, id: Id): map<nat, PartRow> { if id in db.parts then db.parts[id] else map[] }

  function Stored(disk: Disk, id: Id): map<nat, bytes> { if id in disk.partFiles then disk.partFiles[id] else map[] }

  /** The session `tenant` may use under `id`. */
  predicate Owns(db: Db, tenant: string, id: Id) { id in db.sessions && db.sessions[id].tenant == tenant }

  predicate OwnsFile(db: Db, tenant: string, f: Id) { f in db.files && db.files[f].tenant == tenant }

  function WithSession(db: Db, id: Id, s: Session): Db { db.(sessions := db.sessions[id := s]) }

  function WithFile(db: Db, f: Id, row: FileRow): Db { db.(files := db.files[f := row]) }

  function WithParts(disk: Disk, id: Id, files: map<nat, bytes>): Disk {
    disk.(partFiles := disk.partFiles[id := files])
  }

  /** `shutil.rmtree` of an upload's directory. */
  function WithoutParts(disk: Disk, id: Id): Disk { disk.(partFiles := disk.partFiles - {id}) }

  /** The unique constraint of file_objects: one row per tenant, bucket and key. */
  predicate KeyTaken(db: Db, tenant: string, key: Key) {
    exists f :: f in db.files && db.files[f].tenant == tenant && db.files[f].key == key
  }

  // ------------------------------------------------------------------ create

  datatype CreateRequest = CreateRequest(
    tenant: string, bucket: string, objectKey: string, totalSize: int, partSize: Option<int>, mode: string,
    lifecycle: Option<Requested>)

  function ChooseMode(cfg: Settings, requested: string, totalSize: int): Option<UploadMode> {
    var mode := if requested != "" then requested else cfg.defaultMode;
    if mode == "automatic" then
      Some(if cfg.multipartEnabled && totalSize > cfg.directThreshold then Presigned else Proxy)
    else if mode == "proxy" then Some(Proxy)
    else if mode == "presigned" then Some(Presigned)
    else None
  }

  function InitialLifecycle(cfg: Settings, requested: Option<Requested>, base: int)
    : Result<Option<Effective>, PolicyError>
  {
    if !cfg.lifecycleEnabled then Ok(None)
    else match Compute(cfg.policy, requested, base)
      case Err(e) => Err(e)
      case Ok(e) => Ok(Some(e))
  }

  /** A lifecycle document was given and is not empty. */
  predicate Given(lifecycle: Option<Requested>) { lifecycle.Some? && lifecycle.value != NOTHING }

  /** All checks of `create_session`, in the order of the source, and the row it would insert. */
  function PlanSession(cfg: Settings, objects: map<Key, bytes>, r: CreateRequest, now: int): Result<Session, Error>
    requires ValidSettings(cfg)
  {
    if (r.tenant, r.bucket) !in cfg.allowedBuckets then Err(InvalidBucket)
    else match P.ServerNormalize(cfg.nfc, r.objectKey, P.DEFAULT_DEPTH, P.DEFAULT_BYTES)
    case Err(e) => Err(BadPath(e))
    case Ok(name) => PlanNamed(cfg, objects, r, Key(r.bucket, name), now)
  }

  /** The checks after the object key is known to be safe. */
  function PlanNamed(cfg: Settings, objects: map<Key, bytes>, r: CreateRequest, key: Key, now: int)
    : Result<Session, Error>
    requires ValidSettings(cfg)
  {
    var partSize := r.partSize.GetOr(cfg.defaultPartSize);
    if r.totalSize < 0 then Err(InvalidFileSize)
    else if r.totalSize > cfg.maximumFileSize then Err(FileTooLarge)
    else if !(cfg.minimumPartSize <= partSize <= cfg.maximumPartSize) then Err(InvalidPartSize)
    else if TotalParts(r.totalSize, partSize) > cfg.maximumParts then Err(TooManyParts)
    else
      var mode := ChooseMode(cfg, r.mode, r.totalSize);
      if mode.None? then Err(InvalidUploadMode)
      else if cfg.rejectConflicts && key in objects then Err(ObjectAlreadyExists)
      else match InitialLifecycle(cfg, r.lifecycle, now)
        case Err(e) => Err(BadLifecycle(e))
        case Ok(effective) => Ok(Session(
          r.tenant, key, mode.value, r.totalSize, partSize, TotalParts(r.totalSize, partSize),
          Initiated, Given(r.lifecycle), effective, None, now + cfg.sessionExpiry * MICROS, now))
  }

  ghost function CreateSession(cfg: Settings, w: World, id: Id, r: CreateRequest, now: int, fault: Fault)
    : (World, Result<Id, Error>)
    requires ValidSettings(cfg)
  {
    match PlanSession(cfg, w.disk.objects, r, now)
    case Err(e) => (w, Err(e))
    case Ok(s) =>
      var w' := w.(gauge := w.gauge + 1);
      if fault.CommitFault? then (w', Err(DatabaseUnavailable))
      else (w'.(db := WithSession(w.db, id, s)), Ok(id))
  }

  // ------------------------------------------------------------------ parts

  /** `INSERT ... ON CONFLICT DO UPDATE`: an existing row keeps its offset. */
  function UpsertPostgres(rows: map<nat, PartRow>, n: nat, row: PartRow): map<nat, PartRow> {
    if n in rows then rows[n := rows[n].(size := row.size, etag := row.etag, status := row.status)]
    else rows[n := row]
  }

  /** `SELECT` then `UPDATE` of every column, or `INSERT`. */
  function UpsertSqlite(rows: map<nat, PartRow>, n: nat, row: PartRow): map<nat, PartRow> { rows[n := row] }

  function Upsert(postgres: bool, rows: map<nat, PartRow>, n: nat, row: PartRow): map<nat, PartRow> {
    if postgres then UpsertPostgres(rows, n, row) else UpsertSqlite(rows, n, row)
  }

  /** The checks shared by both part endpoints. */
  function PartGuard(db: Db, tenant: string, id: Id, n: int): Option<Error> {
    if !Owns(db, tenant, id) then Some(UploadNotFound)
    else if EnsureActive(db.sessions[id].status).Some? then EnsureActive(db.sessions[id].status)
    else if !(1 <= n <= db.sessions[id].totalParts) then Some(InvalidPartNumber)
    else None
  }

  /** The size check of `proxy_upload_part`. */
  predicate PartSizeRefused(cfg: Settings, s: Session, n: int, size: int) {
    size > s.partSize || (size < cfg.minimumPartSize && n != s.totalParts && s.totalParts > 1)
  }

  function AfterPart(cfg: Settings, db: Db, id: Id, n: nat, row: PartRow): Db {
    db.(parts := db.parts[id := Upsert(cfg.postgres, Rows(db, id), n, row)])
  }

  /** A part body sent through the server; `declared` is the size counted while the body was spooled. */
  ghost function ProxyPart(cfg: Settings, w: World, id: Id, tenant: string, n: int, body: bytes, declared: int,
                           fault: Fault): (World, Result<Id, Error>)
  {
    if PartGuard(w.db, tenant, id, n).Some? then (w, Err(PartGuard(w.db, tenant, id, n).value))
    else
      var s := w.db.sessions[id];
      if PartSizeRefused(cfg, s, n, declared) then (w, Err(InvalidPartSize))
      else if fault.StorageFault? then
        (w.(disk := WithParts(w.disk, id, Stored(w.disk, id) - {n})), Err(StorageUnavailable))
      else if |body| != declared then
        (w.(disk := WithParts(w.disk, id, Stored(w.disk, id) - {n})), Err(PartSizeMismatch))
      else
        var disk := WithParts(w.disk, id, Stored(w.disk, id)[n := body]);
        if fault.CommitFault? then (w.(disk := disk), Err(DatabaseUnavailable))
        else
          var row := PartRow((n - 1) * s.partSize, |body|, cfg.sha(body), Committed);
          var db := WithSession(w.db, id, if s.status == Initiated then s.(status := Uploading) else s);
          (w.(disk := disk, db := AfterPart(cfg, db, id, n, row)), Ok(id))
  }

  /** A part the client says it uploaded elsewhere; size and etag are taken on trust. */
  ghost function CommitPart(cfg: Settings, w: World, id: Id, tenant: string, n: int, etag: string, size: int)
    : (World, Result<Id, Error>)
  {
    if PartGuard(w.db, tenant, id, n).Some? then (w, Err(PartGuard(w.db, tenant, id, n).value))
    else
      var row := PartRow((n - 1) * w.db.sessions[id].partSize, size, etag, Committed);
      (w.(db := AfterPart(cfg, w.db, id, n, row)), Ok(id))
  }

  /** The part numbers of committed rows. */
  function CommittedParts(db: Db, id: Id): set<nat> {
    set n | n in Rows(db, id) && Rows(db, id)[n].status == Committed
  }

  /** `[n for n in range(1, count + 1) if n not in present]` */
  function Absent(count: nat, present: set<nat>): (r: seq<nat>) {
    if count == 0 then []
    else Absent(count - 1, present) + (if count in present then [] else [count])
  }

  /** `resume`: the parts with neither a committed row nor a stored file. */
  function Resume(w: World, id: Id, tenant: string): Result<seq<nat>, Error> {
    if !Owns(w.db, tenant, id) then Err(UploadNotFound)
    else if w.db.sessions[id].status == Aborted then Err(UploadAborted)
    else if w.db.sessions[id].status == Expired then Err(UploadExpired)
    else Ok(Absent(w.db.sessions[id].totalParts, CommittedParts(w.db, id) + Stored(w.disk, id).Keys))
  }

  // ------------------------------------------------------------------ complete

  /** The stored files `ns` one after another. */
  ghost function Assemble(files: map<nat, bytes>, ns: seq<nat>): bytes {
    if ns == [] then []
    else
      var n := ns[|ns| - 1];
      Assemble(files, ns[..|ns| - 1]) + (if n in files then files[n] else [])
  }

  /** An object written through its temporary file: whatever was stored under that name is gone. */
  function Replace(objects: map<Key, bytes>, key: Key, content: bytes): map<Key, bytes> {
    (objects - {TempKey(key)})[key := content]
  }

  /** A write that broke off and left its temporary file behind. */
  function LeaveDebris(objects: map<Key, bytes>, key: Key, debris: Option<bytes>): map<Key, bytes> {
    if debris.Some? then objects[TempKey(key) := debris.value] else objects
  }

  /** The lifecycle columns of a new file row. */
  function LifecycleOf(cfg: Settings, effective: Option<Effective>): Effective {
    if cfg.lifecycleEnabled && effective.Some? then effective.value
    else Effective("permanent", if effective.Some? then effective.value.action else "delete", None, None)
  }

  function NewFile(cfg: Settings, tenant: string, key: Key, size: int, etag: string, uploadId: Option<Id>,
                   effective: Option<Effective>, given: bool, now: int): FileRow {
    var e := LifecycleOf(cfg, effective);
    FileRow(tenant, key, size, etag, uploadId, ActiveFile, e.mode, e.action, Active, e.ttl, e.expiresAt,
            Schedule(e.action, e.expiresAt), false, given, now, None, 0)
  }

  /** The answer of `complete` when it is decided before storage is touched. */
  ghost function CompleteGuard(w: World, id: Id, tenant: string): Option<Result<Id, Error>> {
    if !Owns(w.db, tenant, id) then Some(Err(UploadNotFound))
    else
      var s := w.db.sessions[id];
      if s.status == Completed && s.completedFile.Some? && OwnsFile(w.db, tenant, s.completedFile.value) then
        Some(Ok(s.completedFile.value))
      else if s.status == Aborted then Some(Err(UploadAborted))
      else if s.status == Expired then Some(Err(UploadExpired))
      else if |CommittedParts(w.db, id)| < s.totalParts then
        Some(Err(MissingParts(Absent(s.totalParts, CommittedParts(w.db, id)))))
      else if s.status != Uploading && s.status != Initiated && !CanTransition(s.status, Completing) then
        Some(Err(StateConflict))
      else None
  }

  /**
   * The storage half of `complete`: the stored part files are joined into the object, or there is none
   * to join, or a fault strikes; the part directory is removed in every case.
   */
  ghost function AssemblyOutcome(disk: Disk, id: Id, key: Key, fault: Fault, sha: bytes -> string)
    : (Disk, Result<string, Error>)
  {
    var stored, cleared := Stored(disk, id), WithoutParts(disk, id);
    if fault.StorageFault? then
      (cleared.(objects := LeaveDebris(disk.objects, key, fault.debris)), Err(StorageUnavailable))
    else if stored == map[] then (cleared.(objects := LeaveDebris(disk.objects, key, Some([]))), Err(PartFileMissing))
    else
      var content := Assemble(stored, Increasing(stored.Keys));
      (cleared.(objects := Replace(disk.objects, key, content)), Ok(sha(content)))
  }

  /** The database half of `complete`, after storage made an object with hash `etag`. */
  ghost function Record(cfg: Settings, w: World, id: Id, tenant: string, file: Id, now: int, etag: string, fault: Fault)
    : (World, Result<Id, Error>)
    requires Owns(w.db, tenant, id)
  {
    var s := w.db.sessions[id];
    if KeyTaken(w.db, tenant, s.key) then (w, Err(IntegrityError))
    else if fault.CommitFault? then (w.(gauge := w.gauge - 1), Err(DatabaseUnavailable))
    else
      var row := NewFile(cfg, tenant, s.key, s.totalSize, etag, Some(id), s.effective, s.requested, now);
      var db := WithFile(WithSession(w.db, id, s.(status := Completed, completedFile := Some(file))), file, row);
      (w.(db := db, gauge := w.gauge - 1), Ok(file))
  }

  /** `complete` once the checks passed: storage joins the parts, then the file row is inserted. */
  ghost function Finish(cfg: Settings, w: World, id: Id, tenant: string, file: Id, now: int, fault: Fault)
    : (World, Result<Id, Error>)
    requires Owns(w.db, tenant, id)
  {
    var (disk, joined) := AssemblyOutcome(w.disk, id, w.db.sessions[id].key, fault, cfg.sha);
    if joined.Err? then (w.(disk := disk), Err(joined.error))
    else Record(cfg, w.(disk := disk), id, tenant, file, now, joined.value, fault)
  }

  ghost function Complete(cfg: Settings, w: World, id: Id, tenant: string, file: Id, now: int, fault: Fault)
    : (World, Result<Id, Error>)
  {
    var g := CompleteGuard(w, id, tenant);
    if g.Some? then (w, g.value) else Finish(cfg, w, id, tenant, file, now, fault)
  }

  // ------------------------------------------------------------------ abort, refresh, sweep

  ghost function Abort(w: World, id: Id, tenant: string, fault: Fault): (World, Result<Id, Error>) {
    if !Owns(w.db, tenant, id) then (w, Err(UploadNotFound))
    else
      var s := w.db.sessions[id];
      if s.status == Completed then (w, Err(AlreadyCompleted))
      else if s.status == Aborted || s.status == Expired then (w, Ok(id))
      else if !CanTransition(s.status, Aborting) then (w, Err(StateConflict))
      else
        var w' := w.(disk := WithoutParts(w.disk, id), gauge := w.gauge - 1);
        if fault.CommitFault? then (w', Err(DatabaseUnavailable))
        else (w'.(db := WithSession(w.db, id, s.(status := Aborted))), Ok(id))
  }

  ghost function Refresh(cfg: Settings, w: World, id: Id, tenant: string, now: int): (World, Result<Id, Error>) {
    if !cfg.refreshEnabled then (w, Err(RefreshDisabled))
    else if !Owns(w.db, tenant, id) then (w, Err(UploadNotFound))
    else
      var s := w.db.sessions[id];
      if Terminal(s.status) then (w, Err(StateConflict))
      else if s.createdAt + cfg.maximumLifetime * MICROS < now then (w, Err(UploadExpired))
      else (w.(db := WithSession(w.db, id, s.(expiresAt := now + cfg.sessionExpiry * MICROS))), Ok(id))
  }

  /** The sweep's query selects these sessions. */
  predicate DueForExpiry(s: Session, now: int) {
    (s.status == Initiated || s.status == Uploading) && s.expiresAt <= now
  }

  /** A result of that query: due sessions, at most `batch`, and all of them unless the limit was reached. */
  ghost predicate SweepSelection(db: Db, ids: set<Id>, now: int, batch: nat) {
    && (forall id :: id in ids ==> id in db.sessions && DueForExpiry(db.sessions[id], now))
    && |ids| <= batch
    && (|ids| < batch ==> forall id :: id in db.sessions && DueForExpiry(db.sessions[id], now) ==> id in ids)
  }

  function ExpireAll(sessions: map<Id, Session>, ids: set<Id>): map<Id, Session> {
    map id | id in sessions :: if id in ids then sessions[id].(status := Expired) else sessions[id]
  }

  ghost function Sweep(w: World, ids: set<Id>, fault: Fault): World {
    var w' := w.(gauge := w.gauge - |ids|);
    if fault.CommitFault? then w' else w'.(db := w.db.(sessions := ExpireAll(w.db.sessions, ids)))
  }

  // ------------------------------------------------------------------ single-request files

  datatype PutRequest = PutRequest(
    tenant: string, bucket: string, objectKey: string, declared: int, body: bytes, checksum: Option<string>,
    lifecycle: Option<Requested>)

  function PlanPut(cfg: Settings, objects: map<Key, bytes>, r: PutRequest, now: int)
    : Result<(Key, Option<Effective>), Error>
  {
    if (r.tenant, r.bucket) !in cfg.allowedBuckets then Err(InvalidBucket)
    else match P.ServerNormalize(cfg.nfc, r.objectKey, P.DEFAULT_DEPTH, P.DEFAULT_BYTES)
    case Err(e) => Err(BadPath(e))
    case Ok(name) =>
      if r.declared > cfg.maximumFileSize then Err(FileTooLarge)
      else if cfg.rejectConflicts && Key(r.bucket, name) in objects then Err(ObjectAlreadyExists)
      else match InitialLifecycle(cfg, r.lifecycle, now)
        case Err(e) => Err(BadLifecycle(e))
        case Ok(effective) => Ok((Key(r.bucket, name), effective))
  }

  /** `proxy_upload` over `put_object`: the whole body in one request. */
  ghost function PutFile(cfg: Settings, w: World, file: Id, r: PutRequest, now: int, fault: Fault)
    : (World, Result<Id, Error>)
  {
    match PlanPut(cfg, w.disk.objects, r, now)
    case Err(e) => (w, Err(e))
    case Ok((key, effective)) =>
      if fault.StorageFault? then
        (w.(disk := w.disk.(objects := w.disk.objects - {TempKey(key)})), Err(StorageUnavailable))
      else
        var objects := Replace(w.disk.objects, key, r.body);
        if r.checksum.Some? && r.checksum.value != cfg.sha(r.body) then
          (w.(disk := w.disk.(objects := objects - {key})), Err(ChecksumMismatch))
        else
          var w' := w.(disk := w.disk.(objects := objects));
          if KeyTaken(w.db, r.tenant, key) then (w', Err(IntegrityError))
          else if fault.CommitFault? then (w', Err(DatabaseUnavailable))
          else
            var row := NewFile(cfg, r.tenant, key, r.declared, cfg.sha(r.body), None, effective, Given(r.lifecycle),
                               now);
            (w'.(db := WithFile(w.db, file, row)), Ok(file))
  }

  ghost function DeleteFile(w: World, f: Id, tenant: string, now: int, fault: Fault): (World, Result<Id, Error>) {
    if !OwnsFile(w.db, tenant, f) || w.db.files[f].status == DeletedFile then (w, Err(FileNotFound))
    else
      var row := w.db.files[f];
      if row.legalHold then (w, Err(UnderLegalHold))
      else if fault.StorageFault? then (w, Err(StorageUnavailable))
      else
        var w' := w.(disk := w.disk.(objects := w.disk.objects - {row.key}));
        if fault.CommitFault? then (w', Err(DatabaseUnavailable))
        else
          var gone := row.(status := DeletedFile, deletedAt := Some(now), lifecycle := Deleted);
          (w'.(db := WithFile(w.db, f, gone)), Ok(f))
  }

  // ------------------------------------------------------------------ lifecycle requests

  /** `_apply`: the lifecycle columns of an existing row. */
  function ApplyLifecycle(row: FileRow, e: Effective): FileRow {
    row.(mode := e.mode, action := e.action, ttl := e.ttl, expiresAt := e.expiresAt,
         nextActionAt := Schedule(e.action, e.expiresAt))
  }

  function Logged(db: Db, f: Id, row: FileRow, kind: string): Db {
    WithFile(db, f, row).(events := db.events + [Event(f, kind, row.lifecycle, row.lifecycle)])
  }

  ghost function UpdateLifecycle(cfg: Settings, w: World, f: Id, tenant: string, requested: Requested)
    : (World, Result<Id, Error>)
  {
    if !OwnsFile(w.db, tenant, f) then (w, Err(FileNotFound))
    else
      var row := w.db.files[f];
      if row.legalHold then (w, Err(UnderLegalHold))
      else match Compute(cfg.staticPolicy, Some(requested), row.completedAt)
        case Err(e) => (w, Err(BadLifecycle(e)))
        case Ok(e) =>
          (w.(db := Logged(w.db, f, ApplyLifecycle(row, e).(clientSource := true), "lifecycle.updated")), Ok(f))
  }

  ghost function Extend(cfg: Settings, w: World, f: Id, tenant: string, seconds: int, now: int)
    : (World, Result<Id, Error>)
  {
    if !OwnsFile(w.db, tenant, f) then (w, Err(FileNotFound))
    else
      var row := w.db.files[f];
      if row.mode == "permanent" || row.mode == "expires_at" || seconds <= 0 then (w, Err(CannotExtend))
      else
        var requested := Requested(Some(row.mode), Some(row.action), row.ttl,
                                   Some(row.expiresAt.GetOr(now) + seconds * MICROS));
        match Compute(cfg.staticPolicy, Some(requested), row.completedAt)
        case Err(e) => (w, Err(BadLifecycle(e)))
        case Ok(e) => (w.(db := Logged(w.db, f, ApplyLifecycle(row, e), "lifecycle.extended")), Ok(f))
  }

  ghost function MakePermanent(cfg: Settings, w: World, f: Id, tenant: string): (World, Result<Id, Error>) {
    if !cfg.staticPolicy.permanentAllowed then (w, Err(BadLifecycle(PermanentNotAllowed)))
    else if !OwnsFile(w.db, tenant, f) then (w, Err(FileNotFound))
    else
      var row := w.db.files[f];
      if row.legalHold then (w, Err(UnderLegalHold))
      else
        var kept := ApplyLifecycle(row, Effective("permanent", "none", None, None));
        (w.(db := Logged(w.db, f, kept, "lifecycle.make_permanent")), Ok(f))
  }

  ghost function SetLegalHold(w: World, f: Id, tenant: string, hold: bool): (World, Result<Id, Error>) {
    if !OwnsFile(w.db, tenant, f) then (w, Err(FileNotFound))
    else
      var kind := if hold then "legal_hold.set" else "legal_hold.released";
      (w.(db := Logged(w.db, f, w.db.files[f].(legalHold := hold), kind)), Ok(f))
  }

  // ------------------------------------------------------------------ lifecycle worker

  predicate Due(row: FileRow, now: int) {
    row.status == ActiveFile && row.nextActionAt.Some? && row.nextActionAt.value <= now && row.lifecycle == Active
  }

  /** A result of the worker's query: distinct due files, soonest first, and all that are sooner. */
  ghost predicate BatchSelection(db: Db, batch: seq<Id>, now: int, size: nat) {
    && |batch| <= size
    && (forall i, j :: 0 <= i < j < |batch| ==> batch[i] != batch[j])
    && (forall f :: f in batch ==> f in db.files && Due(db.files[f], now))
    && (forall i, j :: 0 <= i < j < |batch| ==>
          db.files[batch[i]].nextActionAt.value <= db.files[batch[j]].nextActionAt.value)
    && (|batch| < size ==> forall f :: f in db.files && Due(db.files[f], now) ==> f in batch)
    && (forall f, g :: f in db.files && Due(db.files[f], now) && f !in batch && g in batch ==>
          db.files[g].nextActionAt.value <= db.files[f].nextActionAt.value)
  }

  datatype Tally = Tally(processed: nat, blocked: nat, failed: nat)

  datatype Outcome = Blocked | Failed | Processed

  function OutcomeOf(row: FileRow, storageFails: bool): Outcome {
    if row.legalHold then Blocked else if row.action == "delete" && storageFails then Failed else Processed
  }

  /** A row after the worker handled it. A failed deletion stays in `deleting`. */
  function Handled(row: FileRow, now: int, storageFails: bool): FileRow {
    match OutcomeOf(row, storageFails)
    case Blocked => row
    case Failed => row.(lifecycle := Deleting, deleteAttempts := row.deleteAttempts + 1)
    case Processed =>
      if row.action == "delete" then row.(status := DeletedFile, lifecycle := Deleted, deletedAt := Some(now))
      else if row.action == "notify" then row.(lifecycle := ExpiredFile)
      else row.(nextActionAt := None)
  }

  function WorkItem(w: World, f: Id, now: int, storageFails: bool): World
    requires f in w.db.files
  {
    var row := w.db.files[f];
    var after := Handled(row, now, storageFails);
    match OutcomeOf(row, storageFails)
    case Blocked =>
      w.(db := w.db.(events := w.db.events + [Event(f, "lifecycle.blocked", row.lifecycle, row.lifecycle)]))
    case Failed => w.(db := WithFile(w.db, f, after))
    case Processed =>
      var kind := "lifecycle." + row.action;
      var db := WithFile(w.db, f, after).(
        events := w.db.events + [Event(f, kind, row.lifecycle, after.lifecycle)],
        outbox := w.db.outbox + [Message(f, kind)]);
      World(db, if row.action == "delete" then w.disk.(objects := w.disk.objects - {row.key}) else w.disk, w.gauge)
  }

  function Tallied(t: Tally, o: Outcome): Tally {
    match o
    case Blocked => t.(blocked := t.blocked + 1)
    case Failed => t.(failed := t.failed + 1)
    case Processed => t.(processed := t.processed + 1)
  }

  /** The batch loop of `_process_batch`; `failing` are the files whose deletion raises. */
  ghost function WorkBatch(w: World, batch: seq<Id>, now: int, failing: set<Id>): (r: (World, Tally))
    requires forall f :: f in batch ==> f in w.db.files
    ensures r.0.db.files.Keys == w.db.files.Keys
  {
    if batch == [] then (w, Tally(0, 0, 0))
    else
      var f := batch[|batch| - 1];
      assert forall g :: g in batch[..|batch| - 1] ==> g in batch;
      var (w', t) := WorkBatch(w, batch[..|batch| - 1], now, failing);
      assert f in batch;
      (WorkItem(w', f, now, f in failing), Tallied(t, OutcomeOf(w'.db.files[f], f in failing)))
  }

  ghost function Work(w: World, batch: seq<Id>, now: int, failing: set<Id>, fault: Fault): World
    requires forall f :: f in batch ==> f in w.db.files
  {
    var w' := WorkBatch(w, batch, now, failing).0;
    if fault.CommitFault? then w.(disk := w'.disk) else w'
  }

  // ------------------------------------------------------------------ requests and runs

  datatype Request =
    | Create(id: Id, create: CreateRequest, now: int, fault: Fault)
    | SendPart(id: Id, tenant: string, part: int, body: bytes, declared: int, fault: Fault)
    | DeclarePart(id: Id, tenant: string, part: int, etag: string, size: int)
    | CompleteUpload(id: Id, tenant: string, file: Id, now: int, fault: Fault)
    | AbortUpload(id: Id, tenant: string, fault: Fault)
    | RefreshUpload(id: Id, tenant: string, now: int)
    | ExpireSessions(ids: set<Id>, now: int, batch: nat, fault: Fault)
    | Put(file: Id, put: PutRequest, now: int, fault: Fault)
    | Delete(file: Id, tenant: string, now: int, fault: Fault)
    | SetLifecycle(file: Id, tenant: string, requested: Requested)
    | ExtendFile(file: Id, tenant: string, seconds: int, now: int)
    | KeepFile(file: Id, tenant: string)
    | Hold(file: Id, tenant: string, hold: bool)
    | RunWorker(files: seq<Id>, now: int, limit: nat, failing: set<Id>, fault: Fault)

  /** Identifiers drawn for a request are new (uuid4), and batches are results of their queries. */
  ghost predicate Admissible(w: World, r: Request) {
    match r
    case Create(id, _, _, _) => id !in w.db.sessions
    case CompleteUpload(_, _, file, _, _) => file !in w.db.files
    case Put(file, _, _, _) => file !in w.db.files
    case ExpireSessions(ids, now, batch, _) => SweepSelection(w.db, ids, now, batch)
    case RunWorker(files, now, limit, _, _) => BatchSelection(w.db, files, now, limit)
    case _ => true
  }

  ghost function Step(cfg: Settings, w: World, r: Request): (World, Result<Id, Error>)
    requires ValidSettings(cfg) && Admissible(w, r)
  {
    match r
    case Create(id, create, now, fault) => CreateSession(cfg, w, id, create, now, fault)
    case SendPart(id, tenant, n, body, declared, fault) => ProxyPart(cfg, w, id, tenant, n, body, declared, fault)
    case DeclarePart(id, tenant, n, etag, size) => CommitPart(cfg, w, id, tenant, n, etag, size)
    case CompleteUpload(id, tenant, file, now, fault) => Complete(cfg, w, id, tenant, file, now, fault)
    case AbortUpload(id, tenant, fault) => Abort(w, id, tenant, fault)
    case RefreshUpload(id, tenant, now) => Refresh(cfg, w, id, tenant, now)
    case ExpireSessions(ids, _, _, fault) => (Sweep(w, ids, fault), Ok(0))
    case Put(file, put, now, fault) => PutFile(cfg, w, file, put, now, fault)
    case Delete(file, tenant, now, fault) => DeleteFile(w, file, tenant, now, fault)
    case SetLifecycle(file, tenant, requested) => UpdateLifecycle(cfg, w, file, tenant, requested)
    case ExtendFile(file, tenant, seconds, now) => Extend(cfg, w, file, tenant, seconds, now)
    case KeepFile(file, tenant) => MakePermanent(cfg, w, file, tenant)
    case Hold(file, tenant, hold) => SetLegalHold(w, file, tenant, hold)
    case RunWorker(files, now, _, failing, fault) => (Work(w, files, now, failing, fault), Ok(0))
  }

  const EMPTY_DB: Db := Db(map[], map[], map[], [], [])
  const START: World := World(EMPTY_DB, Disk(map[], map[]), 0)

  /** A sequence of requests each admissible when its turn comes. */
  ghost predicate Run(cfg: Settings, w: World, rs: seq<Request>)
    requires ValidSettings(cfg)
    decreases |rs|
  {
    rs == [] || (Admissible(w, rs[0]) && Run(cfg, Step(cfg, w, rs[0]).0, rs[1..]))
  }

  ghost function Exec(cfg: Settings, w: World, rs: seq<Request>): World
    requires ValidSettings(cfg) && Run(cfg, w, rs)
    decreases |rs|
  {
    if rs == [] then w else Exec(cfg, Step(cfg, w, rs[0]).0, rs[1..])
  }
}
