/** What holds in every committed state of the server, however requests and faults were interleaved. */
module Invariants {
  import opened Basics
  import opened Slicing
  import opened Policy
  import opened Server

  /** The statuses a reader of the database can ever see. */
  predicate Visible(s: UploadStatus) { s != Completing && s != Aborting }

  ghost predicate SessionOk(s: Session) {
    && 1 <= s.partSize && s.totalParts == TotalParts(s.totalSize, s.partSize) && s.totalParts < 100_000_000
    && Visible(s.status) && (s.status == Completed <==> s.completedFile.Some?)
  }

  ghost predicate SessionsOk(db: Db) {
    forall id :: id in db.sessions ==> SessionOk(db.sessions[id])
  }

  ghost predicate RowOk(s: Session, n: nat, row: PartRow) {
    1 <= n <= s.totalParts && row.offset == (n - 1) * s.partSize && row.status == Committed
  }

  /** Part rows belong to sessions, carry numbers 1..total_parts, and sit at the offsets of their parts. */
  ghost predicate PartsOk(db: Db) {
    forall id :: id in db.parts ==>
      id in db.sessions && forall n :: n in db.parts[id] ==> RowOk(db.sessions[id], n, db.parts[id][n])
  }

  /** Completed sessions and the file rows that name an upload match one to one. */
  ghost predicate FilesOk(db: Db) {
    && (forall id :: id in db.sessions && db.sessions[id].completedFile.Some? ==>
          var f := db.sessions[id].completedFile.value;
          f in db.files && db.files[f].uploadId == Some(id) && db.files[f].tenant == db.sessions[id].tenant)
    && (forall f :: f in db.files && db.files[f].uploadId.Some? ==>
          var id := db.files[f].uploadId.value;
          id in db.sessions && db.sessions[id].completedFile == Some(f))
  }

  ghost predicate KeysUnique(db: Db) {
    forall f, g :: f in db.files && g in db.files && SameKey(db.files[f], db.files[g]) ==> f == g
  }

  predicate SameKey(a: FileRow, b: FileRow) { a.tenant == b.tenant && a.key == b.key }

  ghost predicate DbOk(db: Db) { SessionsOk(db) && PartsOk(db) && FilesOk(db) && KeysUnique(db) }

  /** Part files belong to sessions that are neither completed nor aborted, and to existing parts. */
  ghost predicate DiskOk(sessions: map<Id, Session>, partFiles: map<Id, map<nat, bytes>>) {
    forall id :: id in partFiles ==>
      && id in sessions && sessions[id].status != Completed && sessions[id].status != Aborted
      && forall n :: n in partFiles[id] ==> 1 <= n <= sessions[id].totalParts
  }

  ghost predicate Inv(w: World) { DbOk(w.db) && DiskOk(w.db.sessions, w.disk.partFiles) }

  // ------------------------------------------------------------------ row changes

  lemma NewSession(db: Db, id: Id, s: Session)
    requires DbOk(db) && id !in db.sessions && SessionOk(s) && s.completedFile.None?
    ensures DbOk(WithSession(db, id, s))
  {}

  /** The new row differs only in status and expiry. */
  ghost predicate SameUpload(s: Session, s': Session) {
    s'.tenant == s.tenant && s'.key == s.key && s'.totalSize == s.totalSize && s'.partSize == s.partSize
    && s'.totalParts == s.totalParts && s'.completedFile == s.completedFile
  }

  lemma TouchSession(db: Db, id: Id, s': Session)
    requires DbOk(db) && id in db.sessions && SameUpload(db.sessions[id], s') && SessionOk(s')
    ensures DbOk(WithSession(db, id, s'))
  {}

  lemma AddPartRow(cfg: Settings, db: Db, id: Id, n: nat, row: PartRow)
    requires DbOk(db) && id in db.sessions && RowOk(db.sessions[id], n, row)
    ensures DbOk(AfterPart(cfg, db, id, n, row))
  {}

  lemma AddLooseFile(db: Db, f: Id, row: FileRow)
    requires DbOk(db) && f !in db.files && row.uploadId.None? && !KeyTaken(db, row.tenant, row.key)
    ensures DbOk(WithFile(db, f, row))
  {}

  /** The rows after session `id` became `s` and file row `f` was added. */
  ghost predicate Joined(db: Db, id: Id, s: Session, f: Id, row: FileRow, db': Db) {
    && id in db.sessions && s == db.sessions[id].(status := Completed, completedFile := Some(f)) && f !in db.files
    && db'.sessions == db.sessions[id := s] && db'.files == db.files[f := row] && db'.parts == db.parts
  }

  lemma JoinedSessions(db: Db, id: Id, s: Session, f: Id, row: FileRow, db': Db)
    requires DbOk(db) && Joined(db, id, s, f, row, db')
    ensures SessionsOk(db') && PartsOk(db')
  {}

  lemma JoinedFiles(db: Db, id: Id, s: Session, f: Id, row: FileRow, db': Db)
    requires FilesOk(db) && Joined(db, id, s, f, row, db')
    requires row.uploadId == Some(id) && row.tenant == s.tenant && db.sessions[id].completedFile.None?
    ensures FilesOk(db')
  {
    forall g | g in db'.files && db'.files[g].uploadId.Some?
      ensures var i := db'.files[g].uploadId.value; i in db'.sessions && db'.sessions[i].completedFile == Some(g)
    {
      if g != f { assert db.files[g].uploadId.value != id; }
    }
  }

  lemma JoinedKeys(db: Db, id: Id, s: Session, f: Id, row: FileRow, db': Db)
    requires KeysUnique(db) && Joined(db, id, s, f, row, db') && !KeyTaken(db, row.tenant, row.key)
    ensures KeysUnique(db')
  {}

  lemma FinishRows(db: Db, id: Id, f: Id, row: FileRow)
    requires DbOk(db) && id in db.sessions && f !in db.files && !KeyTaken(db, row.tenant, row.key)
    requires row.uploadId == Some(id) && row.tenant == db.sessions[id].tenant && db.sessions[id].completedFile.None?
    ensures DbOk(WithFile(WithSession(db, id, db.sessions[id].(status := Completed, completedFile := Some(f))), f, row))
  {
    var s := db.sessions[id].(status := Completed, completedFile := Some(f));
    var db' := WithFile(WithSession(db, id, s), f, row);
    JoinedSessions(db, id, s, f, row, db');
    JoinedFiles(db, id, s, f, row, db');
    JoinedKeys(db, id, s, f, row, db');
  }

  // ------------------------------------------------------------------ part file changes

  lemma PutPartFiles(w: World, id: Id, files: map<nat, bytes>)
    requires Inv(w) && id in w.db.sessions && !Terminal(w.db.sessions[id].status)
    requires forall n :: n in files ==> 1 <= n <= w.db.sessions[id].totalParts
    ensures DiskOk(w.db.sessions, WithParts(w.disk, id, files).partFiles)
  {}

  lemma DropPartFiles(w: World, id: Id)
    requires Inv(w)
    ensures DiskOk(w.db.sessions, WithoutParts(w.disk, id).partFiles)
  {}

  lemma DropThenFinish(w: World, id: Id, s: Session)
    requires Inv(w) && id in w.db.sessions
    ensures DiskOk(w.db.sessions[id := s], WithoutParts(w.disk, id).partFiles)
  {}

  // ------------------------------------------------------------------ requests

  /** Creating a session adds its row or nothing, and touches no storage. */
  lemma CreateShape(cfg: Settings, w: World, id: Id, r: CreateRequest, now: int, fault: Fault)
    requires ValidSettings(cfg)
    ensures var (w', plan) := (CreateSession(cfg, w, id, r, now, fault).0, PlanSession(cfg, w.disk.objects, r, now));
      w'.disk == w.disk && w'.db == if plan.Ok? && !fault.CommitFault? then WithSession(w.db, id, plan.value) else w.db
  {}

  lemma NewSessionDisk(sessions: map<Id, Session>, partFiles: map<Id, map<nat, bytes>>, id: Id, s: Session)
    requires DiskOk(sessions, partFiles) && id !in sessions
    ensures DiskOk(sessions[id := s], partFiles)
  {}

  lemma CreateKeepsInv(cfg: Settings, w: World, id: Id, r: CreateRequest, now: int, fault: Fault)
    requires ValidSettings(cfg) && Inv(w) && id !in w.db.sessions
    ensures Inv(CreateSession(cfg, w, id, r, now, fault).0)
  {
    CreateShape(cfg, w, id, r, now, fault);
    var plan := PlanSession(cfg, w.disk.objects, r, now);
    if plan.Ok? {
      PlannedOk(cfg, w.disk.objects, r, now);
      NewSession(w.db, id, plan.value);
      NewSessionDisk(w.db.sessions, w.disk.partFiles, id, plan.value);
    }
  }

  lemma PlannedOk(cfg: Settings, objects: map<Key, bytes>, r: CreateRequest, now: int)
    requires ValidSettings(cfg) && PlanSession(cfg, objects, r, now).Ok?
    ensures SessionOk(PlanSession(cfg, objects, r, now).value)
    ensures PlanSession(cfg, objects, r, now).value.completedFile.None?
  {}

  /** A session that has taken a part. */
  function Started(s: Session): Session { if s.status == Initiated then s.(status := Uploading) else s }

  /** Sending a part changes nothing in the database, or starts its session and writes rows of that upload. */
  lemma SendShape(cfg: Settings, w: World, id: Id, tenant: string, n: int, body: bytes, declared: int, fault: Fault)
    ensures var w' := ProxyPart(cfg, w, id, tenant, n, body, declared, fault).0;
      && w'.gauge == w.gauge && w'.disk.objects == w.disk.objects && w'.db.files == w.db.files
      && (w'.db == w.db ||
           (Owns(w.db, tenant, id) && !Terminal(w.db.sessions[id].status)
            && w'.db.sessions == w.db.sessions[id := Started(w.db.sessions[id])]))
  {}

  /** The world after a part's file was written, or removed again. */
  predicate PartWritten(w: World, id: Id, n: nat, body: bytes, w': World) {
    w' == w.(disk := WithParts(w.disk, id, Stored(w.disk, id) - {n}))
    || w' == w.(disk := WithParts(w.disk, id, Stored(w.disk, id)[n := body]))
  }

  /** The world after a part was accepted. */
  predicate PartTaken(cfg: Settings, w: World, id: Id, n: nat, body: bytes, w': World)
    requires id in w.db.sessions
  {
    var s := w.db.sessions[id];
    var row := PartRow((n - 1) * s.partSize, |body|, cfg.sha(body), Committed);
    w' == World(AfterPart(cfg, WithSession(w.db, id, Started(s)), id, n, row),
                WithParts(w.disk, id, Stored(w.disk, id)[n := body]), w.gauge)
  }

  /** A part is refused, or its file is written or removed, or it is accepted. */
  lemma SendCases(cfg: Settings, w: World, id: Id, tenant: string, n: int, body: bytes, declared: int, fault: Fault)
    ensures var w' := ProxyPart(cfg, w, id, tenant, n, body, declared, fault).0;
      w' == w || (PartGuard(w.db, tenant, id, n).None?
                  && (PartWritten(w, id, n, body, w') || PartTaken(cfg, w, id, n, body, w')))
  {}

  lemma ProxyPartKeepsInv(cfg: Settings, w: World, id: Id, tenant: string, n: int, body: bytes, declared: int,
                          fault: Fault)
    requires Inv(w)
    ensures Inv(ProxyPart(cfg, w, id, tenant, n, body, declared, fault).0)
  {
    SendCases(cfg, w, id, tenant, n, body, declared, fault);
    var w' := ProxyPart(cfg, w, id, tenant, n, body, declared, fault).0;
    if w' != w {
      assert SessionOk(w.db.sessions[id]);
      PutPartFiles(w, id, Stored(w.disk, id) - {n});
      PutPartFiles(w, id, Stored(w.disk, id)[n := body]);
      if PartTaken(cfg, w, id, n, body, w') { TakenKeepsInv(cfg, w, id, n, body, w'); }
    }
  }

  lemma TakenKeepsInv(cfg: Settings, w: World, id: Id, n: nat, body: bytes, w': World)
    requires Inv(w) && id in w.db.sessions
    requires !Terminal(w.db.sessions[id].status) && 1 <= n <= w.db.sessions[id].totalParts
    requires PartTaken(cfg, w, id, n, body, w')
    ensures Inv(w')
  {
    var s, disk := w.db.sessions[id], WithParts(w.disk, id, Stored(w.disk, id)[n := body]);
    assert SessionOk(s);
    PutPartFiles(w, id, Stored(w.disk, id)[n := body]);
    PartAccepted(cfg, w, id, n, Started(s), PartRow((n - 1) * s.partSize, |body|, cfg.sha(body), Committed), disk);
  }

  lemma PartAccepted(cfg: Settings, w: World, id: Id, n: nat, s': Session, row: PartRow, disk: Disk)
    requires Inv(w) && id in w.db.sessions && DiskOk(w.db.sessions, disk.partFiles)
    requires SessionOk(s') && SameUpload(w.db.sessions[id], s') && !Terminal(s'.status) && RowOk(s', n, row)
    ensures Inv(World(AfterPart(cfg, WithSession(w.db, id, s'), id, n, row), disk, w.gauge))
  {
    TouchSession(w.db, id, s');
    AddPartRow(cfg, WithSession(w.db, id, s'), id, n, row);
  }

  lemma CommitPartKeepsInv(cfg: Settings, w: World, id: Id, tenant: string, n: int, etag: string, size: int)
    requires Inv(w)
    ensures Inv(CommitPart(cfg, w, id, tenant, n, etag, size).0)
  {
    if PartGuard(w.db, tenant, id, n).None? {
      AddPartRow(cfg, w.db, id, n, PartRow((n - 1) * w.db.sessions[id].partSize, size, etag, Committed));
    }
  }

  /** The database after a completion went through: the session completed, one new row naming it. */
  ghost predicate Finished(db: Db, id: Id, tenant: string, file: Id, db': Db) {
    && Owns(db, tenant, id) && !Terminal(db.sessions[id].status) && !KeyTaken(db, tenant, db.sessions[id].key)
    && file in db'.files && db'.files[file].uploadId == Some(id)
    && db'.files[file].tenant == tenant && db'.files[file].key == db.sessions[id].key
    && db' == WithFile(WithSession(db, id, db.sessions[id].(status := Completed, completedFile := Some(file))), file,
                       db'.files[file])
  }

  /** What `complete` does to the database: nothing, or a completion. */
  lemma CompleteShape(cfg: Settings, w: World, id: Id, tenant: string, file: Id, now: int, fault: Fault)
    requires Inv(w)
    ensures var (w', r) := Complete(cfg, w, id, tenant, file, now, fault);
      w'.db == w.db || (Finished(w.db, id, tenant, file, w'.db) && r == Ok(file))
  {
    if CompleteGuard(w, id, tenant).None? {
      assert SessionOk(w.db.sessions[id]);
    }
  }

  lemma AssemblyClears(disk: Disk, id: Id, key: Key, fault: Fault, sha: bytes -> string)
    ensures AssemblyOutcome(disk, id, key, fault, sha).0.partFiles == WithoutParts(disk, id).partFiles
  {}

  /** Once its checks passed, `complete` removes the part files whether it succeeds or not. */
  lemma CompleteClears(cfg: Settings, w: World, id: Id, tenant: string, file: Id, now: int, fault: Fault)
    ensures Complete(cfg, w, id, tenant, file, now, fault).0.disk.partFiles
      == if CompleteGuard(w, id, tenant).None? then WithoutParts(w.disk, id).partFiles else w.disk.partFiles
  {
    if CompleteGuard(w, id, tenant).None? {
      AssemblyClears(w.disk, id, w.db.sessions[id].key, fault, cfg.sha);
      assert Complete(cfg, w, id, tenant, file, now, fault) == Finish(cfg, w, id, tenant, file, now, fault);
    }
  }

  lemma CompleteKeepsInv(cfg: Settings, w: World, id: Id, tenant: string, file: Id, now: int, fault: Fault)
    requires Inv(w) && file !in w.db.files
    ensures Inv(Complete(cfg, w, id, tenant, file, now, fault).0)
  {
    CompleteShape(cfg, w, id, tenant, file, now, fault);
    CompleteClears(cfg, w, id, tenant, file, now, fault);
    var w' := Complete(cfg, w, id, tenant, file, now, fault).0;
    if CompleteGuard(w, id, tenant).None? {
      DropPartFiles(w, id);
      DropThenFinish(w, id, w.db.sessions[id].(status := Completed, completedFile := Some(file)));
      if Finished(w.db, id, tenant, file, w'.db) {
        FinishRows(w.db, id, file, w'.db.files[file]);
      }
    } else {
      assert w' == w;
    }
  }

  lemma AbortKeepsInv(w: World, id: Id, tenant: string, fault: Fault)
    requires Inv(w)
    ensures Inv(Abort(w, id, tenant, fault).0)
  {
    if Owns(w.db, tenant, id) && !Terminal(w.db.sessions[id].status) {
      var s := w.db.sessions[id].(status := Aborted);
      DropPartFiles(w, id);
      DropThenFinish(w, id, s);
      TouchSession(w.db, id, s);
    }
  }

  /** Refreshing moves the expiry of the session, or nothing. */
  lemma RefreshShape(cfg: Settings, w: World, id: Id, tenant: string, now: int)
    ensures var w' := Refresh(cfg, w, id, tenant, now).0;
      w' == w || (id in w.db.sessions
                  && w' == w.(db := WithSession(w.db, id,
                                                w.db.sessions[id].(expiresAt := now + cfg.sessionExpiry * MICROS))))
  {}

  lemma RefreshKeepsInv(cfg: Settings, w: World, id: Id, tenant: string, now: int)
    requires Inv(w)
    ensures Inv(Refresh(cfg, w, id, tenant, now).0)
  {
    RefreshShape(cfg, w, id, tenant, now);
    var s := w.db.sessions;
    if id in s {
      assert SessionOk(s[id]);
      TouchSession(w.db, id, s[id].(expiresAt := now + cfg.sessionExpiry * MICROS));
    }
  }

  lemma SweepKeepsInv(w: World, ids: set<Id>, now: int, batch: nat, fault: Fault)
    requires Inv(w) && SweepSelection(w.db, ids, now, batch)
    ensures Inv(Sweep(w, ids, fault))
  {
    if !fault.CommitFault? {
      ExpireKeepsDb(w.db, ids, now);
      ExpireKeepsDisk(w.db.sessions, w.disk.partFiles, ids);
    }
  }

  lemma ExpireKeepsDb(db: Db, ids: set<Id>, now: int)
    requires DbOk(db) && forall id :: id in ids ==> id in db.sessions && DueForExpiry(db.sessions[id], now)
    ensures DbOk(db.(sessions := ExpireAll(db.sessions, ids)))
  {}

  lemma ExpireKeepsDisk(sessions: map<Id, Session>, partFiles: map<Id, map<nat, bytes>>, ids: set<Id>)
    requires DiskOk(sessions, partFiles)
    ensures DiskOk(ExpireAll(sessions, ids), partFiles)
  {}

  /** What `proxy_upload` does to the database: nothing, or one new row of no upload. */
  lemma PutShape(cfg: Settings, w: World, file: Id, r: PutRequest, now: int, fault: Fault)
    ensures var w' := PutFile(cfg, w, file, r, now, fault).0;
      && w'.disk.partFiles == w.disk.partFiles && w'.gauge == w.gauge
      && (w'.db == w.db ||
           (file in w'.db.files && w'.db == WithFile(w.db, file, w'.db.files[file]) && w'.db.files[file].uploadId.None?
            && !KeyTaken(w.db, w'.db.files[file].tenant, w'.db.files[file].key)))
  {}

  lemma PutKeepsInv(cfg: Settings, w: World, file: Id, r: PutRequest, now: int, fault: Fault)
    requires Inv(w) && file !in w.db.files
    ensures Inv(PutFile(cfg, w, file, r, now, fault).0)
  {
    PutShape(cfg, w, file, r, now, fault);
    var w' := PutFile(cfg, w, file, r, now, fault).0;
    if w'.db != w.db {
      AddLooseFile(w.db, file, w'.db.files[file]);
    }
  }

  /** Rewriting a file row without touching its owner, key or upload keeps everything. */
  lemma RewriteKeepsInv(w: World, f: Id, row: FileRow, w': World)
    requires Inv(w) && f in w.db.files
    requires SameKey(row, w.db.files[f]) && row.uploadId == w.db.files[f].uploadId
    requires w'.db.sessions == w.db.sessions && w'.db.parts == w.db.parts && w'.disk.partFiles == w.disk.partFiles
    requires w'.db.files == w.db.files[f := row]
    ensures Inv(w')
  {}

  /** Work on one file rewrites that file's row and touches no session and no part file. */
  lemma WorkItemRewrites(w: World, f: Id, now: int, fails: bool)
    requires f in w.db.files
    ensures var w', row := WorkItem(w, f, now, fails), Handled(w.db.files[f], now, fails);
      && SameKey(row, w.db.files[f]) && row.uploadId == w.db.files[f].uploadId && row.size == w.db.files[f].size
      && w'.db.sessions == w.db.sessions && w'.db.parts == w.db.parts && w'.disk.partFiles == w.disk.partFiles
      && w'.db.files == w.db.files[f := row] && w'.gauge == w.gauge
  {}

  /** A worker batch leaves sessions, parts and the gauge alone. */
  lemma {:induction false} WorkBatchLeaves(w: World, batch: seq<Id>, now: int, failing: set<Id>)
    requires forall f :: f in batch ==> f in w.db.files
    ensures var w' := WorkBatch(w, batch, now, failing).0;
      w'.disk.partFiles == w.disk.partFiles && w'.db.sessions == w.db.sessions
      && w'.db.parts == w.db.parts && w'.gauge == w.gauge
  {
    if batch != [] {
      var k := |batch| - 1;
      assert forall g :: g in batch[..k] ==> g in batch;
      WorkBatchLeaves(w, batch[..k], now, failing);
      assert batch[k] in batch;
      WorkItemRewrites(WorkBatch(w, batch[..k], now, failing).0, batch[k], now, batch[k] in failing);
    }
  }

  /** Rows the batch has not reached are as they were. */
  lemma {:induction false} BatchLeaves(w: World, batch: seq<Id>, now: int, failing: set<Id>, f: Id)
    requires (forall g :: g in batch ==> g in w.db.files) && f in w.db.files && f !in batch
    ensures WorkBatch(w, batch, now, failing).0.db.files[f] == w.db.files[f]
  {
    if batch != [] {
      var k := |batch| - 1;
      assert forall g :: g in batch[..k] ==> g in batch;
      BatchLeaves(w, batch[..k], now, failing, f);
      assert batch[k] in batch;
      WorkItemRewrites(WorkBatch(w, batch[..k], now, failing).0, batch[k], now, batch[k] in failing);
    }
  }

  lemma {:induction false} WorkBatchKeepsInv(w: World, batch: seq<Id>, now: int, failing: set<Id>)
    requires Inv(w) && forall f :: f in batch ==> f in w.db.files
    ensures Inv(WorkBatch(w, batch, now, failing).0)
    ensures var w' := WorkBatch(w, batch, now, failing).0;
      w'.disk.partFiles == w.disk.partFiles && w'.db.sessions == w.db.sessions
      && w'.db.parts == w.db.parts && w'.gauge == w.gauge
  {
    if batch != [] {
      var k := |batch| - 1;
      assert forall g :: g in batch[..k] ==> g in batch;
      WorkBatchKeepsInv(w, batch[..k], now, failing);
      var w' := WorkBatch(w, batch[..k], now, failing).0;
      assert batch[k] in batch;
      WorkItemRewrites(w', batch[k], now, batch[k] in failing);
      RewriteKeepsInv(w', batch[k], Handled(w'.db.files[batch[k]], now, batch[k] in failing),
                      WorkItem(w', batch[k], now, batch[k] in failing));
    }
  }

  /** The step changed at most the row of file `f`, and not its owner, key, upload or size. */
  ghost predicate Rewrites(w: World, f: Id, w': World) {
    && w'.db.sessions == w.db.sessions && w'.db.parts == w.db.parts
    && w'.disk.partFiles == w.disk.partFiles && w'.gauge == w.gauge
    && (w'.db.files == w.db.files ||
         (f in w.db.files && f in w'.db.files && w'.db.files == w.db.files[f := w'.db.files[f]]
          && SameKey(w'.db.files[f], w.db.files[f]) && w'.db.files[f].uploadId == w.db.files[f].uploadId
          && w'.db.files[f].size == w.db.files[f].size))
  }

  lemma DeleteRewrites(w: World, f: Id, tenant: string, now: int, fault: Fault)
    ensures Rewrites(w, f, DeleteFile(w, f, tenant, now, fault).0)
  {}

  lemma UpdateRewrites(cfg: Settings, w: World, f: Id, tenant: string, requested: Requested)
    ensures Rewrites(w, f, UpdateLifecycle(cfg, w, f, tenant, requested).0)
  {}

  lemma ExtendRewrites(cfg: Settings, w: World, f: Id, tenant: string, seconds: int, now: int)
    ensures Rewrites(w, f, Extend(cfg, w, f, tenant, seconds, now).0)
  {}

  lemma KeepRewrites(cfg: Settings, w: World, f: Id, tenant: string)
    ensures Rewrites(w, f, MakePermanent(cfg, w, f, tenant).0)
  {}

  lemma HoldRewrites(w: World, f: Id, tenant: string, hold: bool)
    ensures Rewrites(w, f, SetLegalHold(w, f, tenant, hold).0)
  {}

  predicate OnFile(r: Request) { r.Delete? || r.SetLifecycle? || r.ExtendFile? || r.KeepFile? || r.Hold? }

  /** The five requests on one file row rewrite that row only (or nothing). */
  lemma FileRequestRewrites(cfg: Settings, w: World, r: Request)
    requires ValidSettings(cfg) && Admissible(w, r) && OnFile(r)
    ensures Rewrites(w, r.file, Step(cfg, w, r).0)
  {
    match r {
      case Delete(f, tenant, now, fault) => DeleteRewrites(w, f, tenant, now, fault);
      case SetLifecycle(f, tenant, requested) => UpdateRewrites(cfg, w, f, tenant, requested);
      case ExtendFile(f, tenant, seconds, now) => ExtendRewrites(cfg, w, f, tenant, seconds, now);
      case KeepFile(f, tenant) => KeepRewrites(cfg, w, f, tenant);
      case Hold(f, tenant, hold) => HoldRewrites(w, f, tenant, hold);
    }
  }

  lemma FileRequestKeepsInv(cfg: Settings, w: World, r: Request)
    requires ValidSettings(cfg) && Admissible(w, r) && OnFile(r) && Inv(w)
    ensures Inv(Step(cfg, w, r).0)
  {
    FileRequestRewrites(cfg, w, r);
    var w' := Step(cfg, w, r).0;
    if w'.db.files != w.db.files {
      RewriteKeepsInv(w, r.file, w'.db.files[r.file], w');
    }
  }

  /** Every request, with or without a fault, keeps the invariant. */
  lemma StepKeepsInv(cfg: Settings, w: World, r: Request)
    requires ValidSettings(cfg) && Admissible(w, r) && Inv(w)
    ensures Inv(Step(cfg, w, r).0)
  {
    match r {
      case Create(id, create, now, fault) => CreateKeepsInv(cfg, w, id, create, now, fault);
      case SendPart(id, tenant, n, body, declared, fault) =>
        ProxyPartKeepsInv(cfg, w, id, tenant, n, body, declared, fault);
      case DeclarePart(id, tenant, n, etag, size) => CommitPartKeepsInv(cfg, w, id, tenant, n, etag, size);
      case CompleteUpload(id, tenant, file, now, fault) => CompleteKeepsInv(cfg, w, id, tenant, file, now, fault);
      case AbortUpload(id, tenant, fault) => AbortKeepsInv(w, id, tenant, fault);
      case RefreshUpload(id, tenant, now) => RefreshKeepsInv(cfg, w, id, tenant, now);
      case ExpireSessions(ids, now, batch, fault) => SweepKeepsInv(w, ids, now, batch, fault);
      case Put(file, put, now, fault) => PutKeepsInv(cfg, w, file, put, now, fault);
      case RunWorker(files, now, _, failing, _) => WorkBatchKeepsInv(w, files, now, failing);
      case _ => FileRequestKeepsInv(cfg, w, r);
    }
  }

  /** Every reachable state satisfies the invariant. */
  lemma {:induction false} RunKeepsInv(cfg: Settings, w: World, rs: seq<Request>)
    requires ValidSettings(cfg) && Inv(w) && Run(cfg, w, rs)
    ensures Inv(Exec(cfg, w, rs))
    decreases |rs|
  {
    if rs != [] {
      StepKeepsInv(cfg, w, rs[0]);
      RunKeepsInv(cfg, Step(cfg, w, rs[0]).0, rs[1..]);
    }
  }

  lemma ReachableInv(cfg: Settings, rs: seq<Request>)
    requires ValidSettings(cfg) && Run(cfg, START, rs)
    ensures Inv(Exec(cfg, START, rs))
  {
    RunKeepsInv(cfg, START, rs);
  }
}
