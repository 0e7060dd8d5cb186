/**
 * What a caller of the upload requests can rely on: which answer comes when, and what the request leaves.
 * The conditions are read off the tables, the configuration and the arguments; no request is described by
 * what it calls.
 */
module UploadDecisions {
  import opened Basics
  import opened Slicing
  import opened Server
  import opened Invariants
  import opened Protocol
  import opened Content
  import opened Policy
  import P = Paths

  // ------------------------------------------------------------------ vocabulary

  /** The caller owns upload `id`, and it is in this status. */
  ghost predicate Has(w: World, tenant: string, id: Id, status: UploadStatus) {
    id in w.db.sessions && w.db.sessions[id].tenant == tenant && w.db.sessions[id].status == status
  }

  ghost predicate Unfinished(w: World, tenant: string, id: Id) {
    Has(w, tenant, id, Initiated) || Has(w, tenant, id, Uploading)
  }

  /** The caller has no such upload. */
  ghost predicate Foreign(w: World, tenant: string, id: Id) {
    id !in w.db.sessions || w.db.sessions[id].tenant != tenant
  }

  /** Every upload but `id` is as it was. */
  ghost predicate OtherUploadsKept(w: World, w': World, id: Id) {
    forall other: Id
      {:trigger Rows(w'.db, other)} {:trigger Stored(w'.disk, other)} {:trigger other in w'.db.sessions} ::
      other != id ==>
      && (other in w'.db.sessions <==> other in w.db.sessions)
      && (other in w.db.sessions ==> w'.db.sessions[other] == w.db.sessions[other])
      && Rows(w'.db, other) == Rows(w.db, other) && Stored(w'.disk, other) == Stored(w.disk, other)
  }

  lemma KeptByShape(w: World, w': World, id: Id)
    requires w'.db.sessions == w.db.sessions
      || (id in w'.db.sessions && w'.db.sessions == w.db.sessions[id := w'.db.sessions[id]])
    requires w'.db.parts == w.db.parts || (id in w'.db.parts && w'.db.parts == w.db.parts[id := w'.db.parts[id]])
    requires
      || w'.disk.partFiles == w.disk.partFiles
      || w'.disk.partFiles == w.disk.partFiles - {id}
      || (id in w'.disk.partFiles && w'.disk.partFiles == w.disk.partFiles[id := w'.disk.partFiles[id]])
    ensures OtherUploadsKept(w, w', id)
  {}

  /** No file, object, event or message changed. */
  predicate FilesKept(w: World, w': World) {
    && w'.db.files == w.db.files && w'.disk.objects == w.disk.objects
    && w'.db.events == w.db.events && w'.db.outbox == w.db.outbox
  }

  /**
   * Each request of a run is served by the function of its name, whose contract is below or in module
   * FileDecisions.
   */
  lemma ServedBy(cfg: Settings, w: World, r: Request)
    requires ValidSettings(cfg) && Admissible(w, r)
    ensures match r
      case Create(id, create, now, fault) => Step(cfg, w, r) == CreateSession(cfg, w, id, create, now, fault)
      case SendPart(id, tenant, n, body, declared, fault) =>
        Step(cfg, w, r) == ProxyPart(cfg, w, id, tenant, n, body, declared, fault)
      case DeclarePart(id, tenant, n, etag, size) => Step(cfg, w, r) == CommitPart(cfg, w, id, tenant, n, etag, size)
      case CompleteUpload(id, tenant, file, now, fault) =>
        Step(cfg, w, r) == Complete(cfg, w, id, tenant, file, now, fault)
      case AbortUpload(id, tenant, fault) => Step(cfg, w, r) == Abort(w, id, tenant, fault)
      case RefreshUpload(id, tenant, now) => Step(cfg, w, r) == Refresh(cfg, w, id, tenant, now)
      case ExpireSessions(ids, _, _, fault) => Step(cfg, w, r).0 == Sweep(w, ids, fault)
      case Put(file, put, now, fault) => Step(cfg, w, r) == PutFile(cfg, w, file, put, now, fault)
      case Delete(file, tenant, now, fault) => Step(cfg, w, r) == DeleteFile(w, file, tenant, now, fault)
      case SetLifecycle(file, tenant, requested) => Step(cfg, w, r) == UpdateLifecycle(cfg, w, file, tenant, requested)
      case ExtendFile(file, tenant, seconds, now) => Step(cfg, w, r) == Extend(cfg, w, file, tenant, seconds, now)
      case KeepFile(file, tenant) => Step(cfg, w, r) == MakePermanent(cfg, w, file, tenant)
      case Hold(file, tenant, hold) => Step(cfg, w, r) == SetLegalHold(w, file, tenant, hold)
      case RunWorker(files, now, _, failing, fault) => Step(cfg, w, r).0 == Work(w, files, now, failing, fault)
  {}

  // ------------------------------------------------------------------ create

  /** The mode a create asks for, or the configured one. */
  function ModeAsked(cfg: Settings, r: CreateRequest): string { if r.mode == "" then cfg.defaultMode else r.mode }

  /** The tenant may use the bucket and the key is a safe path. */
  predicate PlaceOk(cfg: Settings, tenant: string, bucket: string, objectKey: string) {
    && (tenant, bucket) in cfg.allowedBuckets
    && P.ServerNormalize(cfg.nfc, objectKey, 64, 1024).Ok?
  }

  function KeyAsked(cfg: Settings, bucket: string, objectKey: string): Key
    requires P.ServerNormalize(cfg.nfc, objectKey, 64, 1024).Ok?
  {
    Key(bucket, P.ServerNormalize(cfg.nfc, objectKey, 64, 1024).value)
  }

  predicate SizeOk(cfg: Settings, r: CreateRequest) { 0 <= r.totalSize <= cfg.maximumFileSize }

  function PartSizeAsked(cfg: Settings, r: CreateRequest): int { r.partSize.GetOr(cfg.defaultPartSize) }

  predicate PartSizeOk(cfg: Settings, r: CreateRequest) {
    cfg.minimumPartSize <= PartSizeAsked(cfg, r) <= cfg.maximumPartSize
  }

  predicate CountOk(cfg: Settings, r: CreateRequest)
    requires ValidSettings(cfg) && SizeOk(cfg, r) && PartSizeOk(cfg, r)
  {
    TotalParts(r.totalSize, PartSizeAsked(cfg, r)) <= cfg.maximumParts
  }

  /** Place, size, part size and part count are acceptable. */
  predicate ShapeOk(cfg: Settings, r: CreateRequest)
    requires ValidSettings(cfg)
  {
    PlaceOk(cfg, r.tenant, r.bucket, r.objectKey) && SizeOk(cfg, r) && PartSizeOk(cfg, r) && CountOk(cfg, r)
  }

  predicate ModeOk(cfg: Settings, r: CreateRequest) { ModeAsked(cfg, r) in {"automatic", "proxy", "presigned"} }

  /** Conflicts are rejected and the key has an object. */
  predicate Conflict(cfg: Settings, w: World, bucket: string, objectKey: string)
    requires P.ServerNormalize(cfg.nfc, objectKey, 64, 1024).Ok?
  {
    cfg.rejectConflicts && KeyAsked(cfg, bucket, objectKey) in w.disk.objects
  }

  /** The lifecycle is adjudicated at `now`, or lifecycles are off. */
  predicate LifecycleOk(cfg: Settings, lifecycle: Option<Requested>, now: int) {
    cfg.lifecycleEnabled ==> Compute(cfg.policy, lifecycle, now).Ok?
  }

  /** A refused path or lifecycle is answered with its own reason. */
  predicate ReasonGiven(cfg: Settings, objectKey: string, lifecycle: Option<Requested>, now: int, e: Error) {
    && (e.BadPath? ==> P.ServerNormalize(cfg.nfc, objectKey, 64, 1024) == Err(e.path))
    && (e.BadLifecycle? ==> Compute(cfg.policy, lifecycle, now) == Err(e.policy))
  }

  /** Everything but the lifecycle. */
  predicate Creatable(cfg: Settings, w: World, r: CreateRequest)
    requires ValidSettings(cfg)
  {
    ShapeOk(cfg, r) && ModeOk(cfg, r) && !Conflict(cfg, w, r.bucket, r.objectKey)
  }

  /** When create refuses, and with which error: the first of its checks that fails. */
  lemma CreateRefusals(cfg: Settings, w: World, id: Id, r: CreateRequest, now: int, fault: Fault)
    requires ValidSettings(cfg) && id !in w.db.sessions
    ensures var a := CreateSession(cfg, w, id, r, now, fault).1;
      var place := PlaceOk(cfg, r.tenant, r.bucket, r.objectKey);
      && (a == Err(InvalidBucket) <==> (r.tenant, r.bucket) !in cfg.allowedBuckets)
      && (a.Err? && a.error.BadPath? <==> (r.tenant, r.bucket) in cfg.allowedBuckets && !place)
      && (a == Err(InvalidFileSize) <==> place && r.totalSize < 0)
      && (a == Err(FileTooLarge) <==> place && 0 <= r.totalSize && r.totalSize > cfg.maximumFileSize)
      && (a == Err(InvalidPartSize) <==> place && SizeOk(cfg, r) && !PartSizeOk(cfg, r))
      && (a == Err(TooManyParts) <==> place && SizeOk(cfg, r) && PartSizeOk(cfg, r) && !CountOk(cfg, r))
      && (a == Err(InvalidUploadMode) <==> ShapeOk(cfg, r) && !ModeOk(cfg, r))
      && (a == Err(ObjectAlreadyExists) <==>
            ShapeOk(cfg, r) && ModeOk(cfg, r) && Conflict(cfg, w, r.bucket, r.objectKey))
      && (a.Err? && a.error.BadLifecycle? <==> Creatable(cfg, w, r) && !LifecycleOk(cfg, r.lifecycle, now))
      && (a.Err? ==> ReasonGiven(cfg, r.objectKey, r.lifecycle, now, a.error))
      && (a == Err(DatabaseUnavailable) <==>
            Creatable(cfg, w, r) && LifecycleOk(cfg, r.lifecycle, now) && fault.CommitFault?)
      && (a == Ok(id) <==> Creatable(cfg, w, r) && LifecycleOk(cfg, r.lifecycle, now) && !fault.CommitFault?)
      && (a.Ok? ==> a == Ok(id))
  {
    CreateStep(cfg, w, id, r, now, fault);
    PlanRefusals(cfg, w, r, now);
  }

  /** The answer of create is that of its checks unless its commit fails. */
  lemma CreateStep(cfg: Settings, w: World, id: Id, r: CreateRequest, now: int, fault: Fault)
    requires ValidSettings(cfg) && id !in w.db.sessions
    ensures var (a, plan) := (CreateSession(cfg, w, id, r, now, fault).1, PlanSession(cfg, w.disk.objects, r, now));
      a == if plan.Err? then Err(plan.error) else if fault.CommitFault? then Err(DatabaseUnavailable) else Ok(id)
  {}

  lemma PlanRefusals(cfg: Settings, w: World, r: CreateRequest, now: int)
    requires ValidSettings(cfg)
    ensures var a := PlanSession(cfg, w.disk.objects, r, now);
      var place := PlaceOk(cfg, r.tenant, r.bucket, r.objectKey);
      && (a == Err(InvalidBucket) <==> (r.tenant, r.bucket) !in cfg.allowedBuckets)
      && (a.Err? && a.error.BadPath? <==> (r.tenant, r.bucket) in cfg.allowedBuckets && !place)
      && (a == Err(InvalidFileSize) <==> place && r.totalSize < 0)
      && (a == Err(FileTooLarge) <==> place && 0 <= r.totalSize && r.totalSize > cfg.maximumFileSize)
      && (a == Err(InvalidPartSize) <==> place && SizeOk(cfg, r) && !PartSizeOk(cfg, r))
      && (a == Err(TooManyParts) <==> place && SizeOk(cfg, r) && PartSizeOk(cfg, r) && !CountOk(cfg, r))
      && (a == Err(InvalidUploadMode) <==> ShapeOk(cfg, r) && !ModeOk(cfg, r))
      && (a == Err(ObjectAlreadyExists) <==>
            ShapeOk(cfg, r) && ModeOk(cfg, r) && Conflict(cfg, w, r.bucket, r.objectKey))
      && (a.Err? && a.error.BadLifecycle? <==> Creatable(cfg, w, r) && !LifecycleOk(cfg, r.lifecycle, now))
      && (a.Err? ==> ReasonGiven(cfg, r.objectKey, r.lifecycle, now, a.error))
      && (a.Ok? <==> Creatable(cfg, w, r) && LifecycleOk(cfg, r.lifecycle, now))
      && (a.Err? ==> a.error != DatabaseUnavailable)
  {}

  /** Every field of an accepted session, and nothing else new but the gauge. */
  lemma CreateMakes(cfg: Settings, w: World, id: Id, r: CreateRequest, now: int)
    requires ValidSettings(cfg) && id !in w.db.sessions && Creatable(cfg, w, r) && LifecycleOk(cfg, r.lifecycle, now)
    ensures var w' := CreateSession(cfg, w, id, r, now, NoFault).0;
      && id in w'.db.sessions
      && var s := w'.db.sessions[id];
      && s.tenant == r.tenant && s.key == KeyAsked(cfg, r.bucket, r.objectKey)
      && s.totalSize == r.totalSize && s.partSize == PartSizeAsked(cfg, r)
      && s.totalParts == TotalParts(r.totalSize, PartSizeAsked(cfg, r))
      && (s.mode == Presigned <==>
            || ModeAsked(cfg, r) == "presigned"
            || (ModeAsked(cfg, r) == "automatic" && cfg.multipartEnabled && r.totalSize > cfg.directThreshold))
      && s.status == Initiated && s.completedFile == None && s.createdAt == now
      && s.expiresAt == now + cfg.sessionExpiry * MICROS
      && (s.effective.Some? <==> cfg.lifecycleEnabled)
      && (s.effective.Some? ==> Compute(cfg.policy, r.lifecycle, now) == Ok(s.effective.value))
      && (s.requested <==> DocumentGiven(r.lifecycle))
    ensures var w' := CreateSession(cfg, w, id, r, now, NoFault).0;
      && OtherUploadsKept(w, w', id) && FilesKept(w, w') && w'.db.parts == w.db.parts
      && w'.disk.partFiles == w.disk.partFiles && w'.gauge == w.gauge + 1
  {
    PlanRefusals(cfg, w, r, now);
  }

  /** A lifecycle document came with at least one field. */
  predicate DocumentGiven(lifecycle: Option<Requested>) {
    lifecycle.Some? &&
    var r := lifecycle.value;
    (r.mode.Some? || r.action.Some? || r.ttl.Some? || r.expiresAt.Some?)
  }

  /** A create that is refused leaves everything; one whose commit fails leaves everything but the gauge. */
  lemma CreateRefusedLeaves(cfg: Settings, w: World, id: Id, r: CreateRequest, now: int, fault: Fault)
    requires ValidSettings(cfg) && id !in w.db.sessions && CreateSession(cfg, w, id, r, now, fault).1.Err?
    ensures var (w', a) := CreateSession(cfg, w, id, r, now, fault);
      w' == w.(gauge := if a == Err(DatabaseUnavailable) then w.gauge + 1 else w.gauge)
  {
    PlanRefusals(cfg, w, r, now);
  }

  // ------------------------------------------------------------------ sending a part

  /**
   * A part of this size may be sent as part n: not above the part size, and not below the minimum unless it
   * is the last.
   */
  predicate Sendable(cfg: Settings, s: Session, n: int, size: int) {
    size <= s.partSize && (size >= cfg.minimumPartSize || n == s.totalParts)
  }

  /** The caller's upload takes parts, and n is one of them. */
  ghost predicate Expects(w: World, tenant: string, id: Id, n: int) {
    Unfinished(w, tenant, id) && 1 <= n <= w.db.sessions[id].totalParts
  }

  /** The answers that both part requests give before they look at the part. */
  ghost predicate PartRefusals(w: World, tenant: string, id: Id, n: int, a: Result<Id, Error>) {
    && (a == Err(UploadNotFound) <==> Foreign(w, tenant, id))
    && (a == Err(AlreadyCompleted) <==> Has(w, tenant, id, Completed))
    && (a == Err(UploadAborted) <==> Has(w, tenant, id, Aborted))
    && (a == Err(UploadExpired) <==> Has(w, tenant, id, Expired))
    && (a == Err(InvalidPartNumber) <==> Unfinished(w, tenant, id) && !(1 <= n <= w.db.sessions[id].totalParts))
  }

  /** When sending a part is refused, and with which error. */
  lemma SendRefusals(cfg: Settings, w: World, id: Id, tenant: string, n: int, body: bytes, declared: int, fault: Fault)
    requires ValidSettings(cfg) && Inv(w)
    ensures var a := ProxyPart(cfg, w, id, tenant, n, body, declared, fault).1;
      && PartRefusals(w, tenant, id, n, a)
      && (a == Err(InvalidPartSize) <==> Expects(w, tenant, id, n) && !Sendable(cfg, w.db.sessions[id], n, declared))
      && (a == Err(StorageUnavailable) <==>
            Expects(w, tenant, id, n) && Sendable(cfg, w.db.sessions[id], n, declared) && fault.StorageFault?)
      && (a == Err(PartSizeMismatch) <==>
            && Expects(w, tenant, id, n) && Sendable(cfg, w.db.sessions[id], n, declared) && !fault.StorageFault?
            && |body| != declared)
      && (a == Err(DatabaseUnavailable) <==>
            && Expects(w, tenant, id, n) && Sendable(cfg, w.db.sessions[id], n, declared) && fault.CommitFault?
            && |body| == declared)
      && (a == Ok(id) <==>
            && Expects(w, tenant, id, n) && Sendable(cfg, w.db.sessions[id], n, declared) && fault.NoFault?
            && |body| == declared)
  {
    if id in w.db.sessions { assert SessionOk(w.db.sessions[id]); }
  }

  /** What sending a part leaves, by its answer. */
  lemma SendLeaves(cfg: Settings, w: World, id: Id, tenant: string, n: int, body: bytes, declared: int, fault: Fault)
    requires ValidSettings(cfg) && Inv(w)
    ensures var (w', a) := ProxyPart(cfg, w, id, tenant, n, body, declared, fault);
      && OtherUploadsKept(w, w', id) && FilesKept(w, w') && w'.gauge == w.gauge
      && (a == Err(StorageUnavailable) || a == Err(PartSizeMismatch) ==>
            w'.db == w.db && Stored(w'.disk, id) == Stored(w.disk, id) - {n})
      && (a == Err(DatabaseUnavailable) ==>
            w'.db == w.db && n >= 1 && Stored(w'.disk, id) == Stored(w.disk, id)[n := body])
      && (a.Err? && a.error !in {StorageUnavailable, PartSizeMismatch, DatabaseUnavailable} ==> w' == w)
      && (a.Ok? ==> Received(cfg, w, w', id, n, body))
  {
    SendElsewhere(cfg, w, id, tenant, n, body, declared, fault);
    if Expects(w, tenant, id, n) {
      SendHere(cfg, w, id, tenant, n, body, declared, fault);
    } else if id in w.db.sessions {
      assert SessionOk(w.db.sessions[id]);
    }
  }

  /** The upload has the row for part n and is otherwise the same, but for the status. */
  ghost predicate Accepted(w: World, w': World, id: Id, n: nat, row: PartRow, status: UploadStatus) {
    && id in w.db.sessions && id in w'.db.sessions && w'.db.sessions[id] == w.db.sessions[id].(status := status)
    && Rows(w'.db, id) == Rows(w.db, id)[n := row]
  }

  /** The body is the file of part n, and its size and hash are in the row. */
  ghost predicate Received(cfg: Settings, w: World, w': World, id: Id, n: int, body: bytes) {
    && n >= 1 && id in w.db.sessions && Stored(w'.disk, id) == Stored(w.disk, id)[n := body]
    && var row := PartRow((n - 1) * w.db.sessions[id].partSize, |body|, cfg.sha(body), Committed);
    Accepted(w, w', id, n, row, Uploading)
  }

  lemma SendElsewhere(cfg: Settings, w: World, id: Id, tenant: string, n: int, body: bytes, declared: int, fault: Fault)
    requires ValidSettings(cfg)
    ensures var w' := ProxyPart(cfg, w, id, tenant, n, body, declared, fault).0;
      OtherUploadsKept(w, w', id) && FilesKept(w, w') && w'.gauge == w.gauge
  {}

  lemma SendHere(cfg: Settings, w: World, id: Id, tenant: string, n: int, body: bytes, declared: int, fault: Fault)
    requires ValidSettings(cfg) && Inv(w) && Expects(w, tenant, id, n)
    ensures var (w', a) := ProxyPart(cfg, w, id, tenant, n, body, declared, fault);
      && (a == Err(StorageUnavailable) || a == Err(PartSizeMismatch) ==>
            w'.db == w.db && Stored(w'.disk, id) == Stored(w.disk, id) - {n})
      && (a == Err(DatabaseUnavailable) ==> w'.db == w.db && Stored(w'.disk, id) == Stored(w.disk, id)[n := body])
      && (a.Err? && a.error !in {StorageUnavailable, PartSizeMismatch, DatabaseUnavailable} ==> w' == w)
      && (a.Ok? ==> Received(cfg, w, w', id, n, body))
  {
    if !PartSizeRefused(cfg, w.db.sessions[id], n, declared) && !fault.StorageFault? && |body| == declared {
      UpsertIs(cfg, w.db, id, n, PartRow((n - 1) * w.db.sessions[id].partSize, |body|, cfg.sha(body), Committed));
    }
  }

  /** In a database that satisfies the invariant, either upsert leaves exactly the given row. */
  lemma UpsertIs(cfg: Settings, db: Db, id: Id, n: nat, row: PartRow)
    requires DbOk(db) && id in db.sessions && RowOk(db.sessions[id], n, row)
    ensures Upsert(cfg.postgres, Rows(db, id), n, row) == Rows(db, id)[n := row]
  {
    UpsertDialects(db, id, n, row);
  }

  /** Declaring a part: the same refusals, and otherwise the row with the size and the hash the client gave. */
  lemma DeclareDecided(cfg: Settings, w: World, id: Id, tenant: string, n: int, etag: string, size: int)
    requires ValidSettings(cfg) && Inv(w)
    ensures var (w', a) := CommitPart(cfg, w, id, tenant, n, etag, size);
      && PartRefusals(w, tenant, id, n, a) && (a == Ok(id) <==> Expects(w, tenant, id, n))
      && (a.Err? ==> w' == w) && w'.disk == w.disk && w'.gauge == w.gauge
      && OtherUploadsKept(w, w', id) && FilesKept(w, w')
      && (a.Ok? ==>
            n >= 1
            && Accepted(w, w', id, n, PartRow((n - 1) * w.db.sessions[id].partSize, size, etag, Committed),
                        w.db.sessions[id].status))
  {
    if id in w.db.sessions { assert SessionOk(w.db.sessions[id]); }
    if Expects(w, tenant, id, n) {
      UpsertIs(cfg, w.db, id, n, PartRow((n - 1) * w.db.sessions[id].partSize, size, etag, Committed));
    }
  }

  /** Resume: who is refused, and exactly which parts it lists, in ascending order. */
  lemma ResumeDecided(w: World, id: Id, tenant: string)
    requires Inv(w)
    ensures var a := Resume(w, id, tenant);
      && (a == Err(UploadNotFound) <==> Foreign(w, tenant, id))
      && (a == Err(UploadAborted) <==> Has(w, tenant, id, Aborted))
      && (a == Err(UploadExpired) <==> Has(w, tenant, id, Expired))
      && (a.Ok? <==> Unfinished(w, tenant, id) || Has(w, tenant, id, Completed))
      && (a.Ok? ==> forall n :: n in a.value <==>
            1 <= n <= w.db.sessions[id].totalParts && n !in CommittedParts(w.db, id) && n !in Stored(w.disk, id))
      && (a.Ok? ==> forall i, j :: 0 <= i < j < |a.value| ==> a.value[i] < a.value[j])
  {
    if id in w.db.sessions {
      assert SessionOk(w.db.sessions[id]);
      AbsentMeaning(w.db.sessions[id].totalParts, CommittedParts(w.db, id) + Stored(w.disk, id).Keys);
    }
  }

  // ------------------------------------------------------------------ no part is too large

  /** Every part file of the upload is at most as large as its parts. */
  ghost predicate UploadFits(w: World, id: Id) {
    id in w.db.sessions ==>
      forall n :: n in Stored(w.disk, id) ==> |Stored(w.disk, id)[n]| <= w.db.sessions[id].partSize
  }

  lemma StepFits(cfg: Settings, w: World, r: Request, id: Id)
    requires ValidSettings(cfg) && Admissible(w, r) && Inv(w) && UploadFits(w, id)
    ensures UploadFits(Step(cfg, w, r).0, id)
  {
    var w' := Step(cfg, w, r).0;
    StepPersists(cfg, w, r);
    if id !in w.db.sessions {
      NothingStored(cfg, w, r, id);
    } else if r.SendPart? {
      SendRefusals(cfg, w, r.id, r.tenant, r.part, r.body, r.declared, r.fault);
      SendLeaves(cfg, w, r.id, r.tenant, r.part, r.body, r.declared, r.fault);
    } else {
      StoredAfter(cfg, w, r, id);
    }
  }

  /** No part file comes before its session. */
  lemma NothingStored(cfg: Settings, w: World, r: Request, id: Id)
    requires ValidSettings(cfg) && Admissible(w, r) && Inv(w) && id !in w.db.sessions
    ensures Stored(Step(cfg, w, r).0.disk, id) == map[]
  {
    if r.SendPart? {
      SendRefusals(cfg, w, r.id, r.tenant, r.part, r.body, r.declared, r.fault);
      SendLeaves(cfg, w, r.id, r.tenant, r.part, r.body, r.declared, r.fault);
    } else {
      StoredAfter(cfg, w, r, id);
    }
  }

  lemma {:induction false} RunFits(cfg: Settings, w: World, rs: seq<Request>, id: Id)
    requires ValidSettings(cfg) && Inv(w) && Run(cfg, w, rs) && UploadFits(w, id)
    ensures UploadFits(Exec(cfg, w, rs), id)
    decreases |rs|
  {
    if rs != [] {
      StepFits(cfg, w, rs[0], id);
      StepKeepsInv(cfg, w, rs[0]);
      RunFits(cfg, Step(cfg, w, rs[0]).0, rs[1..], id);
    }
  }

  lemma {:induction false} JoinedFits(files: map<nat, bytes>, ns: seq<nat>, p: nat)
    requires forall n :: n in files ==> |files[n]| <= p
    ensures |Assemble(files, ns)| <= |ns| * p
  {
    if ns != [] {
      JoinedFits(files, ns[..|ns| - 1], p);
      assert |ns| * p == (|ns| - 1) * p + p;
    }
  }

  /**
   * No part is too large: in every run from the empty server each stored part file has at most part_size
   * bytes, so an object that a complete makes has at most total_parts * part_size.
   */
  lemma PartsStayInBounds(cfg: Settings, rs: seq<Request>, id: Id, tenant: string, file: Id, now: int, fault: Fault)
    requires ValidSettings(cfg) && Run(cfg, START, rs) && id in Exec(cfg, START, rs).db.sessions
    ensures var w := Exec(cfg, START, rs);
      var s := w.db.sessions[id];
      && (forall n :: n in Stored(w.disk, id) ==> |Stored(w.disk, id)[n]| <= s.partSize)
      && (Completes(cfg, w, id, tenant, file, now, fault) ==>
            var objects := Complete(cfg, w, id, tenant, file, now, fault).0.disk.objects;
            s.key in objects && |objects[s.key]| <= s.totalParts * s.partSize)
  {
    var w := Exec(cfg, START, rs);
    ReachableInv(cfg, rs);
    RunFits(cfg, START, rs, id);
    if Completes(cfg, w, id, tenant, file, now, fault) {
      CompletedObject(cfg, w, id, tenant, file, now, fault);
      ObjectFits(w, id);
    }
  }

  lemma ObjectFits(w: World, id: Id)
    requires Inv(w) && UploadFits(w, id) && id in w.db.sessions
    ensures var (s, stored) := (w.db.sessions[id], Stored(w.disk, id));
      |Assemble(stored, Increasing(stored.Keys))| <= s.totalParts * s.partSize
  {
    var s, stored := w.db.sessions[id], Stored(w.disk, id);
    var ns := Increasing(stored.Keys);
    assert SessionOk(s);
    IncreasingMeans(stored.Keys);
    JoinedFits(stored, ns, s.partSize);
    IntervalSize(1, s.totalParts);
    SubsetSize(stored.Keys, Interval(1, s.totalParts));
    MoreParts(|ns|, s.totalParts, s.partSize);
  }

  lemma MoreParts(a: nat, b: nat, p: nat)
    requires a <= b
    ensures a * p <= b * p
  {}

  // ------------------------------------------------------------------ complete

  /** A committed row for every part. */
  ghost predicate AllCommitted(w: World, id: Id)
    requires id in w.db.sessions
  {
    forall n :: 1 <= n <= w.db.sessions[id].totalParts ==> n in CommittedParts(w.db, id)
  }

  /** Another file of the tenant has the key of upload `id`. */
  ghost predicate KeyUsed(w: World, tenant: string, key: Key) {
    exists f :: f in w.db.files && w.db.files[f].tenant == tenant && w.db.files[f].key == key
  }

  /** The upload gets as far as storage: unfinished, and every part has its row. */
  ghost predicate Joins(w: World, tenant: string, id: Id) { Unfinished(w, tenant, id) && AllCommitted(w, id) }

  /** What complete answers before it touches storage; it goes on exactly for an upload that joins. */
  lemma GuardDecided(w: World, id: Id, tenant: string)
    requires Inv(w)
    ensures var g := CompleteGuard(w, id, tenant);
      && (g.None? <==> Joins(w, tenant, id))
      && (g == Some(Err(UploadNotFound)) <==> Foreign(w, tenant, id))
      && (g == Some(Err(UploadAborted)) <==> Has(w, tenant, id, Aborted))
      && (g == Some(Err(UploadExpired)) <==> Has(w, tenant, id, Expired))
      && (g.Some? && g.value.Err? && g.value.error.MissingParts? <==> Unfinished(w, tenant, id) && !AllCommitted(w, id))
      && (g.Some? && g.value.Ok? <==> Has(w, tenant, id, Completed))
  {
    if id in w.db.sessions {
      assert SessionOk(w.db.sessions[id]);
      CountDecides(w, id);
    }
  }

  lemma CountDecides(w: World, id: Id)
    requires Inv(w) && id in w.db.sessions
    ensures |CommittedParts(w.db, id)| < w.db.sessions[id].totalParts <==> !AllCommitted(w, id)
  {
    CountTestExact(w, id);
  }

  /** What complete answers once its checks passed. */
  lemma FinishAnswers(cfg: Settings, w: World, id: Id, tenant: string, file: Id, now: int, fault: Fault)
    requires Owns(w.db, tenant, id)
    ensures var a := Finish(cfg, w, id, tenant, file, now, fault).1;
      var used := KeyUsed(w, tenant, w.db.sessions[id].key);
      && (a == Err(StorageUnavailable) <==> fault.StorageFault?)
      && (a == Err(PartFileMissing) <==> !fault.StorageFault? && Stored(w.disk, id) == map[])
      && (a == Err(IntegrityError) <==> !fault.StorageFault? && Stored(w.disk, id) != map[] && used)
      && (a == Err(DatabaseUnavailable) <==> fault.CommitFault? && Stored(w.disk, id) != map[] && !used)
      && (a == Ok(file) <==> fault.NoFault? && Stored(w.disk, id) != map[] && !used)
      && (a.Err? ==> a.error in {StorageUnavailable, PartFileMissing, IntegrityError, DatabaseUnavailable})
      && (a.Ok? ==> a == Ok(file))
  {}

  /** Every answer of complete, with the state in which it comes. */
  lemma CompleteAnswers(cfg: Settings, w: World, id: Id, tenant: string, file: Id, now: int, fault: Fault)
    requires ValidSettings(cfg) && Inv(w) && file !in w.db.files
    ensures var (a, stored) := (Complete(cfg, w, id, tenant, file, now, fault).1, Stored(w.disk, id));
      var (joins, used) := (Joins(w, tenant, id), id in w.db.sessions && KeyUsed(w, tenant, w.db.sessions[id].key));
      && (a == Err(UploadNotFound) <==> Foreign(w, tenant, id))
      && (a == Err(UploadAborted) <==> Has(w, tenant, id, Aborted))
      && (a == Err(UploadExpired) <==> Has(w, tenant, id, Expired))
      && (a.Err? && a.error.MissingParts? <==> Unfinished(w, tenant, id) && !AllCommitted(w, id))
      && (a == Err(StorageUnavailable) <==> joins && fault.StorageFault?)
      && (a == Err(PartFileMissing) <==> joins && !fault.StorageFault? && stored == map[])
      && (a == Err(IntegrityError) <==> joins && !fault.StorageFault? && stored != map[] && used)
      && (a == Err(DatabaseUnavailable) <==> joins && fault.CommitFault? && stored != map[] && !used)
      && (a == Ok(file) <==> joins && fault.NoFault? && stored != map[] && !used)
      && (a.Ok? && a.value != file <==> Has(w, tenant, id, Completed))
  {
    GuardDecided(w, id, tenant);
    if Joins(w, tenant, id) {
      FinishAnswers(cfg, w, id, tenant, file, now, fault);
    } else if Has(w, tenant, id, Completed) {
      CompleteAgain(cfg, w, id, file, now, fault);
      assert w.db.sessions[id].completedFile.value in w.db.files;
    }
  }

  /** The completed session and the one new file row. */
  ghost predicate Concluded(w: World, w': World, id: Id, file: Id) {
    && id in w.db.sessions && id in w'.db.sessions && file in w'.db.files
    && w'.db.sessions[id] == w.db.sessions[id].(status := Completed, completedFile := Some(file))
    && w'.db.files == w.db.files[file := w'.db.files[file]]
  }

  /** What complete leaves of the tables, the part files and the gauge. */
  lemma CompleteLeaves(cfg: Settings, w: World, id: Id, tenant: string, file: Id, now: int, fault: Fault)
    requires ValidSettings(cfg) && Inv(w) && file !in w.db.files
    ensures var (w', a) := Complete(cfg, w, id, tenant, file, now, fault);
      && OtherUploadsKept(w, w', id) && w'.db.parts == w.db.parts
      && w'.db.events == w.db.events && w'.db.outbox == w.db.outbox
      && Stored(w'.disk, id) == (if Joins(w, tenant, id) then map[] else Stored(w.disk, id))
      && w'.gauge == w.gauge - (if a == Ok(file) || a == Err(DatabaseUnavailable) then 1 else 0)
      && (!Joins(w, tenant, id) ==> w' == w)
      && (if a == Ok(file) then Concluded(w, w', id, file) else w'.db == w.db)
  {
    GuardDecided(w, id, tenant);
    CompleteAnswers(cfg, w, id, tenant, file, now, fault);
    if Joins(w, tenant, id) {
      CompleteClears(cfg, w, id, tenant, file, now, fault);
      FinishTables(cfg, w, id, tenant, file, now, fault);
    }
    KeptByShape(w, Complete(cfg, w, id, tenant, file, now, fault).0, id);
  }

  lemma FinishTables(cfg: Settings, w: World, id: Id, tenant: string, file: Id, now: int, fault: Fault)
    requires Owns(w.db, tenant, id)
    ensures var (w', a) := Finish(cfg, w, id, tenant, file, now, fault);
      && w'.db.parts == w.db.parts && w'.db.events == w.db.events && w'.db.outbox == w.db.outbox
      && w'.gauge == w.gauge - (if a == Ok(file) || a == Err(DatabaseUnavailable) then 1 else 0)
      && (if a == Ok(file) then Concluded(w, w', id, file) && w'.db.sessions == w.db.sessions[id := w'.db.sessions[id]]
          else w'.db == w.db)
  {}

  /** The lifecycle columns of a new file: those adjudicated, or none at all. */
  predicate CarriesLifecycle(cfg: Settings, row: FileRow, effective: Option<Effective>) {
    if cfg.lifecycleEnabled && effective.Some? then
      && row.mode == effective.value.mode && row.action == effective.value.action
      && row.ttl == effective.value.ttl && row.expiresAt == effective.value.expiresAt
      && row.nextActionAt == if effective.value.action == "none" then None else effective.value.expiresAt
    else
      && row.mode == "permanent" && row.ttl == None && row.expiresAt == None && row.nextActionAt == None
      && row.action == if effective.Some? then effective.value.action else "delete"
  }

  /** A file that has just come into being at `now`. */
  predicate Newborn(row: FileRow, now: int) {
    && row.status == ActiveFile && row.lifecycle == Active && !row.legalHold && row.completedAt == now
    && row.deletedAt == None && row.deleteAttempts == 0
  }

  /** Every column of the file row that a complete makes. */
  lemma CompletedRowExact(cfg: Settings, w: World, id: Id, tenant: string, file: Id, now: int, fault: Fault)
    requires ValidSettings(cfg) && Inv(w) && file !in w.db.files
    requires Complete(cfg, w, id, tenant, file, now, fault).1 == Ok(file)
    ensures var w' := Complete(cfg, w, id, tenant, file, now, fault).0;
      && id in w.db.sessions && file in w'.db.files && w.db.sessions[id].key in w'.disk.objects
      && var (s, row) := (w.db.sessions[id], w'.db.files[file]);
      && row.tenant == tenant && row.key == s.key && row.size == s.totalSize && row.uploadId == Some(id)
      && row.etag == cfg.sha(w'.disk.objects[s.key])
      && CarriesLifecycle(cfg, row, s.effective) && row.clientSource == s.requested && Newborn(row, now)
  {
    CompleteAnswers(cfg, w, id, tenant, file, now, fault);
    CompletedObject(cfg, w, id, tenant, file, now, fault);
  }

  // ------------------------------------------------------------------ abort

  /** Every answer of abort. */
  lemma AbortAnswers(w: World, id: Id, tenant: string, fault: Fault)
    requires Inv(w)
    ensures var (w', a) := Abort(w, id, tenant, fault);
      && (a == Err(UploadNotFound) <==> Foreign(w, tenant, id))
      && (a == Err(AlreadyCompleted) <==> Has(w, tenant, id, Completed))
      && (a == Err(DatabaseUnavailable) <==> Unfinished(w, tenant, id) && fault.CommitFault?)
      && (a == Ok(id) <==>
            || Has(w, tenant, id, Aborted) || Has(w, tenant, id, Expired)
            || (Unfinished(w, tenant, id) && !fault.CommitFault?))
      && (!Unfinished(w, tenant, id) ==> w' == w)
  {
    if id in w.db.sessions { assert SessionOk(w.db.sessions[id]); }
  }

  /**
   * What aborting an unfinished upload leaves: no part file, one live session less, and an aborted session
   * once it commits.
   */
  lemma AbortLeaves(w: World, id: Id, tenant: string, fault: Fault)
    requires Inv(w) && Unfinished(w, tenant, id)
    ensures var w' := Abort(w, id, tenant, fault).0;
      && OtherUploadsKept(w, w', id) && FilesKept(w, w') && w'.db.parts == w.db.parts
      && Stored(w'.disk, id) == map[] && w'.gauge == w.gauge - 1
      && (if fault.CommitFault? then w'.db == w.db
          else id in w'.db.sessions && w'.db.sessions[id] == w.db.sessions[id].(status := Aborted))
  {
    AbortTables(w, id, tenant, fault);
    KeptByShape(w, Abort(w, id, tenant, fault).0, id);
  }

  lemma AbortTables(w: World, id: Id, tenant: string, fault: Fault)
    requires Inv(w) && Unfinished(w, tenant, id)
    ensures var w' := Abort(w, id, tenant, fault).0;
      && FilesKept(w, w') && w'.db.parts == w.db.parts
      && w'.disk.partFiles == w.disk.partFiles - {id} && w'.gauge == w.gauge - 1
      && w'.db.sessions ==
         if fault.CommitFault? then w.db.sessions else w.db.sessions[id := w.db.sessions[id].(status := Aborted)]
  {}

  /**
   * Aborted for good: after an abort that committed and any further run, sending or declaring a part and
   * completing answer UPLOAD_ABORTED and change nothing.
   */
  lemma AbortedForGood(cfg: Settings, w: World, id: Id, tenant: string, fault: Fault, rs: seq<Request>, r: Request)
    requires ValidSettings(cfg) && Inv(w) && Unfinished(w, tenant, id) && !fault.CommitFault?
    requires Run(cfg, Step(cfg, w, AbortUpload(id, tenant, fault)).0, rs)
    requires Admissible(Exec(cfg, Step(cfg, w, AbortUpload(id, tenant, fault)).0, rs), r)
    requires (r.SendPart? || r.DeclarePart? || r.CompleteUpload?) && r.id == id && r.tenant == tenant
    ensures var later := Exec(cfg, Step(cfg, w, AbortUpload(id, tenant, fault)).0, rs);
      Step(cfg, later, r) == (later, Err(UploadAborted))
  {
    var w1 := Step(cfg, w, AbortUpload(id, tenant, fault)).0;
    AbortLeaves(w, id, tenant, fault);
    StepKeepsInv(cfg, w, AbortUpload(id, tenant, fault));
    RunKeepsInv(cfg, w1, rs);
    RunPersists(cfg, w1, rs);
    AbortedRefuses(cfg, Exec(cfg, w1, rs), id, tenant, r);
  }

  lemma AbortedRefuses(cfg: Settings, w: World, id: Id, tenant: string, r: Request)
    requires ValidSettings(cfg) && Inv(w) && Has(w, tenant, id, Aborted) && Admissible(w, r)
    requires (r.SendPart? || r.DeclarePart? || r.CompleteUpload?) && r.id == id && r.tenant == tenant
    ensures Step(cfg, w, r) == (w, Err(UploadAborted))
  {
    match r
    case SendPart(_, _, n, body, declared, fault) =>
      SendRefusals(cfg, w, id, tenant, n, body, declared, fault);
      SendLeaves(cfg, w, id, tenant, n, body, declared, fault);
    case DeclarePart(_, _, n, etag, size) => DeclareDecided(cfg, w, id, tenant, n, etag, size);
    case CompleteUpload(_, _, file, now, fault) =>
      CompleteAnswers(cfg, w, id, tenant, file, now, fault);
      CompleteLeaves(cfg, w, id, tenant, file, now, fault);
  }

  // ------------------------------------------------------------------ refresh and sweep

  /** The session may still be refreshed: its longest lifetime is not over. */
  predicate Refreshable(cfg: Settings, s: Session, now: int) { now <= s.createdAt + cfg.maximumLifetime * MICROS }

  /** Every answer of refresh; a success moves the expiry of that session and nothing else. */
  lemma RefreshDecided(cfg: Settings, w: World, id: Id, tenant: string, now: int)
    requires ValidSettings(cfg) && Inv(w)
    ensures var (w', a) := Refresh(cfg, w, id, tenant, now);
      && (a == Err(RefreshDisabled) <==> !cfg.refreshEnabled)
      && (a == Err(UploadNotFound) <==> cfg.refreshEnabled && Foreign(w, tenant, id))
      && (a == Err(StateConflict) <==>
            && cfg.refreshEnabled
            && (Has(w, tenant, id, Completed) || Has(w, tenant, id, Aborted) || Has(w, tenant, id, Expired)))
      && (a == Err(UploadExpired) <==>
            cfg.refreshEnabled && Unfinished(w, tenant, id) && !Refreshable(cfg, w.db.sessions[id], now))
      && (a == Ok(id) <==> cfg.refreshEnabled && Unfinished(w, tenant, id) && Refreshable(cfg, w.db.sessions[id], now))
      && (a.Err? ==> w' == w)
      && OtherUploadsKept(w, w', id) && FilesKept(w, w') && w'.db.parts == w.db.parts
      && w'.disk == w.disk && w'.gauge == w.gauge
      && (a.Ok? ==> id in w.db.sessions && id in w'.db.sessions)
      && (a.Ok? ==> w'.db.sessions[id] == w.db.sessions[id].(expiresAt := now + cfg.sessionExpiry * MICROS))
  {
    if id in w.db.sessions { assert SessionOk(w.db.sessions[id]); }
  }

  /** The session has not been completed, aborted or expired, and its time is up. */
  predicate Overdue(s: Session, now: int) { (s.status == Initiated || s.status == Uploading) && s.expiresAt <= now }

  /** What a sweep may select, exactly: overdue sessions, at most the batch, all of them if they are fewer. */
  lemma SweepSelects(w: World, ids: set<Id>, now: int, batch: nat, fault: Fault)
    ensures Admissible(w, ExpireSessions(ids, now, batch, fault)) <==>
      && |ids| <= batch && (forall id :: id in ids ==> id in w.db.sessions && Overdue(w.db.sessions[id], now))
      && (|ids| < batch ==> forall id :: id in w.db.sessions && Overdue(w.db.sessions[id], now) ==> id in ids)
  {}

  /**
   * A sweep that commits: only overdue sessions expire, unchanged otherwise; every overdue session does
   * unless the batch was full; part files, files and every other session stay.
   */
  lemma SweepDecided(cfg: Settings, w: World, ids: set<Id>, now: int, batch: nat)
    requires ValidSettings(cfg) && Admissible(w, ExpireSessions(ids, now, batch, NoFault))
    ensures var w' := Sweep(w, ids, NoFault);
      && w'.db.sessions.Keys == w.db.sessions.Keys
      && (forall id :: id in w.db.sessions ==>
            || w'.db.sessions[id] == w.db.sessions[id]
            || (Overdue(w.db.sessions[id], now) && w'.db.sessions[id] == w.db.sessions[id].(status := Expired)))
      && (|ids| < batch ==> forall id :: id in w'.db.sessions ==> !Overdue(w'.db.sessions[id], now))
      && (forall id :: id in ids ==> id in w'.db.sessions && w'.db.sessions[id].status == Expired)
      && w'.db.parts == w.db.parts && w'.disk == w.disk && FilesKept(w, w') && |ids| <= batch
      && w'.gauge == w.gauge - |ids|
  {}
}
