/**
 * What a caller of the file and lifecycle requests can rely on, and what the lifecycle worker picks and
 * records: which answer comes when, and what is left.
 */
module FileDecisions {
  import opened Basics
  import opened Server
  import opened Invariants
  import opened Policy
  import opened UploadDecisions
  import opened LocalStorage
  import opened Services
  import L = Lifecycle
  import P = Paths
  import R = Ranges

  // ------------------------------------------------------------------ vocabulary

  /** The caller has this file. */
  ghost predicate Mine(w: World, tenant: string, f: Id) { f in w.db.files && w.db.files[f].tenant == tenant }

  /** Uploads, storage and the gauge are as they were, and so is every file but `f`. */
  ghost predicate OnlyFile(w: World, w': World, f: Id) {
    && w'.db.sessions == w.db.sessions && w'.db.parts == w.db.parts && w'.disk.partFiles == w.disk.partFiles
    && w'.gauge == w.gauge && f in w'.db.files && w'.db.files == w.db.files[f := w'.db.files[f]]
  }

  // ------------------------------------------------------------------ one-request upload

  /** Place, size and conflicts allow the upload. */
  predicate Puttable(cfg: Settings, w: World, r: PutRequest) {
    && PlaceOk(cfg, r.tenant, r.bucket, r.objectKey) && r.declared <= cfg.maximumFileSize
    && !Conflict(cfg, w, r.bucket, r.objectKey)
  }

  /** The upload gets as far as storage. */
  predicate Writes(cfg: Settings, w: World, r: PutRequest, now: int) {
    Puttable(cfg, w, r) && LifecycleOk(cfg, r.lifecycle, now)
  }

  /** The declared checksum is not that of the body. */
  predicate WrongChecksum(cfg: Settings, r: PutRequest) { r.checksum.Some? && r.checksum.value != cfg.sha(r.body) }

  /** What a one-request upload answers before it touches storage. */
  lemma PutChecks(cfg: Settings, w: World, r: PutRequest, now: int)
    ensures var a := PlanPut(cfg, w.disk.objects, r, now);
      var place := PlaceOk(cfg, r.tenant, r.bucket, r.objectKey);
      && (a == Err(InvalidBucket) <==> (r.tenant, r.bucket) !in cfg.allowedBuckets)
      && (a.Err? && a.error.BadPath? <==> (r.tenant, r.bucket) in cfg.allowedBuckets && !place)
      && (a == Err(FileTooLarge) <==> place && r.declared > cfg.maximumFileSize)
      && (a == Err(ObjectAlreadyExists) <==>
            place && r.declared <= cfg.maximumFileSize && Conflict(cfg, w, r.bucket, r.objectKey))
      && (a.Err? && a.error.BadLifecycle? <==> Puttable(cfg, w, r) && !LifecycleOk(cfg, r.lifecycle, now))
      && (a.Ok? <==> Writes(cfg, w, r, now))
      && (a.Ok? ==> a.value.0 == KeyAsked(cfg, r.bucket, r.objectKey))
      && (a.Err? ==> ReasonGiven(cfg, r.objectKey, r.lifecycle, now, a.error))
      && (a.Err? ==> a.error !in {StorageUnavailable, ChecksumMismatch, IntegrityError, DatabaseUnavailable})
  {}

  /** Every answer of a one-request upload. */
  lemma PutAnswers(cfg: Settings, w: World, file: Id, r: PutRequest, now: int, fault: Fault)
    ensures var a := PutFile(cfg, w, file, r, now, fault).1;
      var place := PlaceOk(cfg, r.tenant, r.bucket, r.objectKey);
      && (a == Err(InvalidBucket) <==> (r.tenant, r.bucket) !in cfg.allowedBuckets)
      && (a.Err? && a.error.BadPath? <==> (r.tenant, r.bucket) in cfg.allowedBuckets && !place)
      && (a == Err(FileTooLarge) <==> place && r.declared > cfg.maximumFileSize)
      && (a == Err(ObjectAlreadyExists) <==>
            place && r.declared <= cfg.maximumFileSize && Conflict(cfg, w, r.bucket, r.objectKey))
      && (a.Err? && a.error.BadLifecycle? <==> Puttable(cfg, w, r) && !LifecycleOk(cfg, r.lifecycle, now))
      && (a.Err? ==> ReasonGiven(cfg, r.objectKey, r.lifecycle, now, a.error))
    ensures var a := PutFile(cfg, w, file, r, now, fault).1;
      var writes := Writes(cfg, w, r, now);
      var used := writes && KeyUsed(w, r.tenant, KeyAsked(cfg, r.bucket, r.objectKey));
      && (a == Err(StorageUnavailable) <==> writes && fault.StorageFault?)
      && (a == Err(ChecksumMismatch) <==> writes && !fault.StorageFault? && WrongChecksum(cfg, r))
      && (a == Err(IntegrityError) <==> writes && !fault.StorageFault? && !WrongChecksum(cfg, r) && used)
      && (a == Err(DatabaseUnavailable) <==> writes && fault.CommitFault? && !WrongChecksum(cfg, r) && !used)
      && (a == Ok(file) <==> writes && fault.NoFault? && !WrongChecksum(cfg, r) && !used)
      && (a.Ok? ==> a == Ok(file))
  {
    PutChecks(cfg, w, r, now);
    if Writes(cfg, w, r, now) { PutWritten(cfg, w, file, r, now, fault, KeyAsked(cfg, r.bucket, r.objectKey)); }
  }

  lemma PutWritten(cfg: Settings, w: World, file: Id, r: PutRequest, now: int, fault: Fault, key: Key)
    requires var plan := PlanPut(cfg, w.disk.objects, r, now); plan.Ok? && plan.value.0 == key
    ensures var a := PutFile(cfg, w, file, r, now, fault).1;
      a == if fault.StorageFault? then Err(StorageUnavailable)
           else if WrongChecksum(cfg, r) then Err(ChecksumMismatch)
           else if KeyUsed(w, r.tenant, key) then Err(IntegrityError)
           else if fault.CommitFault? then Err(DatabaseUnavailable) else Ok(file)
  {}

  /** What it leaves of the tables: one row when it succeeds, nothing otherwise. */
  lemma PutLeaves(cfg: Settings, w: World, file: Id, r: PutRequest, now: int, fault: Fault)
    requires file !in w.db.files
    ensures var (w', a) := PutFile(cfg, w, file, r, now, fault);
      && w'.db.events == w.db.events && w'.db.outbox == w.db.outbox
      && (if a.Ok? then OnlyFile(w, w', file)
          else w'.db == w.db && w'.disk.partFiles == w.disk.partFiles && w'.gauge == w.gauge)
      && (!Writes(cfg, w, r, now) ==> w' == w)
  {
    PutChecks(cfg, w, r, now);
  }

  /** Every column of the row that a one-request upload makes. */
  lemma PutRowExact(cfg: Settings, w: World, file: Id, r: PutRequest, now: int, fault: Fault)
    requires file !in w.db.files && PutFile(cfg, w, file, r, now, fault).1.Ok?
    ensures PlaceOk(cfg, r.tenant, r.bucket, r.objectKey) && LifecycleOk(cfg, r.lifecycle, now)
    ensures var w' := PutFile(cfg, w, file, r, now, fault).0;
      && file in w'.db.files
      && var (row, key) := (w'.db.files[file], KeyAsked(cfg, r.bucket, r.objectKey));
      && row.tenant == r.tenant && row.key == key && row.size == r.declared && row.uploadId == None
      && row.etag == cfg.sha(r.body) && key in w'.disk.objects && w'.disk.objects[key] == r.body
      && CarriesLifecycle(cfg, row,
                          if cfg.lifecycleEnabled then Some(Compute(cfg.policy, r.lifecycle, now).value) else None)
      && row.clientSource == DocumentGiven(r.lifecycle) && Newborn(row, now)
  {
    PutAnswers(cfg, w, file, r, now, fault);
    PutChecks(cfg, w, r, now);
  }

  // ------------------------------------------------------------------ delete

  /** The caller's file, not yet deleted. */
  ghost predicate Present(w: World, tenant: string, f: Id) {
    Mine(w, tenant, f) && w.db.files[f].status == ActiveFile
  }

  /** Every answer of delete, and what it leaves of the file and its object. */
  lemma DeleteDecided(w: World, f: Id, tenant: string, now: int, fault: Fault)
    ensures var (w', a) := DeleteFile(w, f, tenant, now, fault);
      var free := Present(w, tenant, f) && !w.db.files[f].legalHold;
      && (a == Err(FileNotFound) <==> !Present(w, tenant, f))
      && (a == Err(UnderLegalHold) <==> Present(w, tenant, f) && w.db.files[f].legalHold)
      && (a == Err(StorageUnavailable) <==> free && fault.StorageFault?)
      && (a == Err(DatabaseUnavailable) <==> free && fault.CommitFault?)
      && (a == Ok(f) <==> free && fault.NoFault?)
      && (a.Err? ==> w'.db == w.db)
      && (if a.Ok? || a == Err(DatabaseUnavailable) then
            f in w.db.files && w'.disk.objects == w.disk.objects - {w.db.files[f].key}
          else w'.disk == w.disk)
      && (a.Ok? ==> OnlyFile(w, w', f) && w'.db.events == w.db.events && w'.db.outbox == w.db.outbox)
      && (a.Ok? ==> w'.db.files[f]
                    == w.db.files[f].(status := DeletedFile, lifecycle := Deleted, deletedAt := Some(now)))
  {}

  // ------------------------------------------------------------------ lifecycle requests

  /** The request rewrote the file's row and recorded it under `kind`, and did nothing else. */
  ghost predicate Recorded(w: World, w': World, f: Id, row: FileRow, kind: string) {
    && f in w.db.files && OnlyFile(w, w', f) && w'.disk == w.disk && w'.db.files[f] == row
    && w'.db.events == w.db.events + [Event(f, kind, w.db.files[f].lifecycle, w.db.files[f].lifecycle)]
    && w'.db.outbox == w.db.outbox
  }

  /** The request was carried out in that way. */
  ghost predicate Updated(w: World, w': World, f: Id, row: FileRow, kind: string, a: Result<Id, Error>) {
    a == Ok(f) && Recorded(w, w', f, row, kind)
  }

  /** The row with the columns of lifecycle `e`. */
  function Rescheduled(row: FileRow, e: Effective): FileRow {
    row.(mode := e.mode, action := e.action, ttl := e.ttl, expiresAt := e.expiresAt,
         nextActionAt := if e.action == "none" then None else e.expiresAt)
  }

  /** Changing a lifecycle: adjudicated by the static policy from the time of completion. */
  lemma UpdateDecided(cfg: Settings, w: World, f: Id, tenant: string, requested: Requested)
    ensures var (w', a) := UpdateLifecycle(cfg, w, f, tenant, requested);
      && (a == Err(FileNotFound) <==> !Mine(w, tenant, f))
      && (a == Err(UnderLegalHold) <==> Mine(w, tenant, f) && w.db.files[f].legalHold)
      && (a.Err? ==> w' == w)
      && (Mine(w, tenant, f) && !w.db.files[f].legalHold ==>
            var e := Compute(cfg.staticPolicy, Some(requested), w.db.files[f].completedAt);
            if e.Err? then a == Err(BadLifecycle(e.error))
            else Updated(w, w', f, Rescheduled(w.db.files[f], e.value).(clientSource := true), "lifecycle.updated", a))
  {}

  /** What an extension puts up for adjudication: the file's own lifecycle, with the expiry moved. */
  function Extension(row: FileRow, seconds: int, now: int): Requested {
    var base := if row.expiresAt.Some? then row.expiresAt.value else now;
    Requested(Some(row.mode), Some(row.action), row.ttl, Some(base + seconds * MICROS))
  }

  /** Extending: refused for files without a counted lifetime and for no time; a legal hold does not matter. */
  lemma ExtendDecided(cfg: Settings, w: World, f: Id, tenant: string, seconds: int, now: int)
    ensures var (w', a) := Extend(cfg, w, f, tenant, seconds, now);
      && (a == Err(FileNotFound) <==> !Mine(w, tenant, f))
      && (a == Err(CannotExtend) <==>
            Mine(w, tenant, f) && (w.db.files[f].mode in {"permanent", "expires_at"} || seconds <= 0))
      && (a.Err? ==> w' == w)
      && (Mine(w, tenant, f) && w.db.files[f].mode !in {"permanent", "expires_at"} && seconds > 0 ==>
            var e := Compute(cfg.staticPolicy, Some(Extension(w.db.files[f], seconds, now)), w.db.files[f].completedAt);
            if e.Err? then a == Err(BadLifecycle(e.error))
            else Updated(w, w', f, Rescheduled(w.db.files[f], e.value), "lifecycle.extended", a))
  {}

  /** Making a file permanent: no expiry, no schedule, no action. */
  lemma KeepDecided(cfg: Settings, w: World, f: Id, tenant: string)
    ensures var (w', a) := MakePermanent(cfg, w, f, tenant);
      var allowed := cfg.staticPolicy.permanentAllowed;
      && (a == Err(BadLifecycle(PermanentNotAllowed)) <==> !allowed)
      && (a == Err(FileNotFound) <==> allowed && !Mine(w, tenant, f))
      && (a == Err(UnderLegalHold) <==> allowed && Mine(w, tenant, f) && w.db.files[f].legalHold)
      && (a == Ok(f) <==> allowed && Mine(w, tenant, f) && !w.db.files[f].legalHold)
      && (a.Err? ==> w' == w)
      && (a.Ok? ==> f in w.db.files)
      && (a.Ok? ==>
            Recorded(w, w', f, w.db.files[f].(mode := "permanent", action := "none", ttl := None, expiresAt := None,
                                                      nextActionAt := None), "lifecycle.make_permanent"))
  {}

  /** Setting and releasing a legal hold changes that one column. */
  lemma HoldDecided(w: World, f: Id, tenant: string, hold: bool)
    ensures var (w', a) := SetLegalHold(w, f, tenant, hold);
      && (a == Err(FileNotFound) <==> !Mine(w, tenant, f)) && (a == Ok(f) <==> Mine(w, tenant, f))
      && (a.Err? ==> w' == w)
      && (a.Ok? ==> f in w.db.files)
      && (a.Ok? ==> Recorded(w, w', f, w.db.files[f].(legalHold := hold),
                             if hold then "legal_hold.set" else "legal_hold.released"))
  {}

  // ------------------------------------------------------------------ the worker

  /** The file is live and its scheduled instant has come. */
  predicate Ripe(row: FileRow, now: int) {
    row.status == ActiveFile && row.lifecycle == Active && row.nextActionAt.Some? && row.nextActionAt.value <= now
  }

  /** The scheduled instant of a file of the batch is not after that of file `f`. */
  predicate NotAfter(db: Db, g: Id, f: Id)
    requires g in db.files && f in db.files
  {
    db.files[g].nextActionAt.Some? && db.files[f].nextActionAt.Some?
    && db.files[g].nextActionAt.value <= db.files[f].nextActionAt.value
  }

  lemma NoneLeftSooner(db: Db, batch: seq<Id>, now: int)
    requires forall f :: f in batch ==> f in db.files && Ripe(db.files[f], now)
    ensures (forall f, g :: f in db.files && Ripe(db.files[f], now) && f !in batch && g in batch ==> NotAfter(db, g, f))
      <==> (forall f, g :: f in db.files && Due(db.files[f], now) && f !in batch && g in batch ==>
              db.files[g].nextActionAt.value <= db.files[f].nextActionAt.value)
  {
    forall f, g | f in db.files && Ripe(db.files[f], now) && g in batch
      ensures NotAfter(db, g, f) <==> db.files[g].nextActionAt.value <= db.files[f].nextActionAt.value
    {
      assert Ripe(db.files[g], now);
    }
  }

  /**
   * What the worker may pick, exactly: ripe files only, each once and the earliest first, at most the limit,
   * all of them if they are fewer, and none that is later than a ripe file left out.
   */
  lemma WorkerPicks(w: World, batch: seq<Id>, now: int, limit: nat, failing: set<Id>, fault: Fault)
    ensures Admissible(w, RunWorker(batch, now, limit, failing, fault)) <==>
      && |batch| <= limit
      && (forall i, j :: 0 <= i < j < |batch| ==> batch[i] != batch[j])
      && (forall f :: f in batch ==> f in w.db.files && Ripe(w.db.files[f], now))
      && (forall i, j :: 0 <= i < j < |batch| ==> NotAfter(w.db, batch[i], batch[j]))
      && (|batch| < limit ==> forall f :: f in w.db.files && Ripe(w.db.files[f], now) ==> f in batch)
      && (forall f, g :: f in w.db.files && Ripe(w.db.files[f], now) && f !in batch && g in batch ==>
            NotAfter(w.db, g, f))
  {
    assert Admissible(w, RunWorker(batch, now, limit, failing, fault)) == BatchSelection(w.db, batch, now, limit);
    if forall f :: f in batch ==> f in w.db.files && Ripe(w.db.files[f], now) {
      assert forall i :: 0 <= i < |batch| ==> batch[i] in batch;
      NoneLeftSooner(w.db, batch, now);
    }
  }

  /** The event the worker records for a file, if any: blocked, nothing for a failed deletion, or its action. */
  function EventFor(f: Id, row: FileRow, fails: bool): seq<Event> {
    if row.legalHold then [Event(f, "lifecycle.blocked", row.lifecycle, row.lifecycle)]
    else if row.action == "delete" && fails then []
    else
      var after := if row.action == "delete" then Deleted else if row.action == "notify" then ExpiredFile
      else row.lifecycle;
      [Event(f, "lifecycle." + row.action, row.lifecycle, after)]
  }

  /** The message it queues: one for each action that was carried out. */
  function MessageFor(f: Id, row: FileRow, fails: bool): seq<Message> {
    if row.legalHold || (row.action == "delete" && fails) then [] else [Message(f, "lifecycle." + row.action)]
  }

  ghost function EventsFor(db: Db, batch: seq<Id>, failing: set<Id>): seq<Event>
    requires forall f :: f in batch ==> f in db.files
  {
    if batch == [] then []
    else
      var f := batch[|batch| - 1];
      assert forall g :: g in batch[..|batch| - 1] ==> g in batch;
      EventsFor(db, batch[..|batch| - 1], failing) + EventFor(f, db.files[f], f in failing)
  }

  ghost function MessagesFor(db: Db, batch: seq<Id>, failing: set<Id>): seq<Message>
    requires forall f :: f in batch ==> f in db.files
  {
    if batch == [] then []
    else
      var f := batch[|batch| - 1];
      assert forall g :: g in batch[..|batch| - 1] ==> g in batch;
      MessagesFor(db, batch[..|batch| - 1], failing) + MessageFor(f, db.files[f], f in failing)
  }

  lemma ItemRecords(w: World, f: Id, now: int, fails: bool)
    requires f in w.db.files
    ensures WorkItem(w, f, now, fails).db.events == w.db.events + EventFor(f, w.db.files[f], fails)
    ensures WorkItem(w, f, now, fails).db.outbox == w.db.outbox + MessageFor(f, w.db.files[f], fails)
  {
    assert w.db.events + [] == w.db.events && w.db.outbox + [] == w.db.outbox;
  }

  /** The worker's log: for each file of the batch, in order, its event and its message as it was when picked. */
  lemma {:induction false} WorkerRecords(w: World, batch: seq<Id>, now: int, failing: set<Id>)
    requires L.AllDue(w, batch, now)
    ensures WorkBatch(w, batch, now, failing).0.db.events == w.db.events + EventsFor(w.db, batch, failing)
    ensures WorkBatch(w, batch, now, failing).0.db.outbox == w.db.outbox + MessagesFor(w.db, batch, failing)
  {
    if batch == [] {
      assert w.db.events + [] == w.db.events && w.db.outbox + [] == w.db.outbox;
    } else {
      var k := |batch| - 1;
      L.FrontDue(w, batch, now);
      WorkerRecords(w, batch[..k], now, failing);
      BatchLeaves(w, batch[..k], now, failing, batch[k]);
      ItemRecords(WorkBatch(w, batch[..k], now, failing).0, batch[k], now, batch[k] in failing);
    }
  }

  /** A batch whose commit fails: the tables are as before, only storage has changed. */
  lemma WorkerRolledBack(w: World, batch: seq<Id>, now: int, failing: set<Id>)
    requires forall f :: f in batch ==> f in w.db.files
    ensures var w' := Work(w, batch, now, failing, CommitFault);
      w'.db == w.db && w'.gauge == w.gauge && w'.disk == WorkBatch(w, batch, now, failing).0.disk
  {}

  // ------------------------------------------------------------------ download

  /** Every answer of a download: whole object, the requested stretch, or which refusal. */
  lemma DownloadDecided(db: Db, objects: map<Key, bytes>, f: Id, tenant: string, header: string)
    ensures var a := Served(db, objects, f, tenant, header);
      var found := f in db.files && db.files[f].tenant == tenant && db.files[f].status == ActiveFile;
      var parsed := if found then R.ParseByteRange(Some(header), db.files[f].size) else Ok(None);
      && (a == Err(RangeRefused) <==> found && header != "" && parsed.Err?)
      && (a == Err(FileNotFound) <==>
            !found || ((header == "" || parsed.Ok?) && db.files[f].key !in objects))
      && (a.Ok? <==> found && (header == "" || parsed.Ok?) && db.files[f].key in objects)
      && (a.Ok? && (header == "" || parsed.value.None?) ==> a.value == (None, objects[db.files[f].key]))
      && (a.Ok? && header != "" && parsed.value.Some? ==>
            var (o, range) := (objects[db.files[f].key], parsed.value.value);
            0 <= range.start <= range.end < db.files[f].size
            && a.value == (Some(range), o[Min(range.start, |o|)..Min(range.end + 1, |o|)]))
  {
    if OwnsFile(db, tenant, f) && header != "" { R.RangeInBounds(Some(header), db.files[f].size); }
  }
}
