/**
 * The services as objects that update database tables, storage and the gauge in place. Each method's
 * contract ties the new world to the request function of module Server; a request that fails rolls the
 * database back. Identifiers, clock readings and faults are parameters.
 */
module Services {
  import opened Basics
  import opened Sorting
  import opened Policy
  import opened Server
  import opened Invariants
  import opened LocalStorage
  import R = Ranges

  class Database {
    var sessions: map<Id, Session>
    var parts: map<Id, map<nat, PartRow>>
    var files: map<Id, FileRow>
    var events: seq<Event>
    var outbox: seq<Message>

    function State(): Db
      reads this
    {
      Db(sessions, parts, files, events, outbox)
    }

    constructor ()
      ensures State() == EMPTY_DB
    {
      sessions, parts, files, events, outbox := map[], map[], map[], [], [];
    }

    /** Back to what was committed. */
    method Rollback(saved: Db)
      modifies this
      ensures State() == saved
    {
      sessions, parts, files, events, outbox := saved.sessions, saved.parts, saved.files, saved.events, saved.outbox;
    }

    /** The upsert of the configured dialect. */
    method UpsertPart(postgres: bool, id: Id, n: nat, row: PartRow)
      modifies this`parts
      ensures parts == old(parts)[id := Upsert(postgres, Rows(old(State()), id), n, row)]
    {
      var rows := Rows(State(), id);
      if postgres {
        if n in rows {
          rows := rows[n := rows[n].(size := row.size, etag := row.etag, status := row.status)];
        } else {
          rows := rows[n := row];
        }
      } else {
        rows := rows[n := row];
      }
      parts := parts[id := rows];
    }
  }

  class Metrics {
    var activeSessions: int

    constructor ()
      ensures activeSessions == 0
    {
      activeSessions := 0;
    }
  }

  /** Settings, database, storage and metrics, shared by all services. */
  class AppState {
    const cfg: Settings
    const db: Database
    const storage: LocalStorageAdapter
    const metrics: Metrics

    constructor (cfg: Settings)
      requires ValidSettings(cfg)
      ensures this.cfg == cfg && fresh(db) && fresh(storage) && fresh(metrics)
      ensures Valid() && World() == START
    {
      this.cfg := cfg;
      db := new Database();
      storage := new LocalStorageAdapter(cfg.sha);
      metrics := new Metrics();
    }

    ghost function World(): World
      requires storage.Valid()
      reads db, storage, metrics
    {
      Server.World(db.State(), storage.Disk(), metrics.activeSessions)
    }

    ghost predicate Valid()
      reads storage
    {
      ValidSettings(cfg) && storage.sha == cfg.sha && storage.Valid()
    }
  }

  // ------------------------------------------------------------------ uploads

  /** The numbers of a set as a list, in no particular order. */
  method ToSeq(s: set<nat>) returns (ns: seq<nat>)
    ensures |ns| == |s| && forall n :: n in ns <==> n in s
  {
    ns := [];
    var todo := s;
    while todo != {}
      invariant todo <= s && |ns| + |todo| == |s|
      invariant forall n :: n in ns <==> n in s - todo
      decreases |todo|
    {
      var n :| n in todo;
      ns := ns + [n];
      todo := todo - {n};
    }
  }

  lemma SortedAlready(s: set<nat>)
    ensures SortBy(Below, Increasing(s)) == Increasing(s)
  {
    var ns := Increasing(s);
    IncreasingMeans(s);
    BelowStrictTotal(Elements(ns));
    SortByAscending(Below, ns);
    SameElements(SortBy(Below, ns), ns);
    IncreasingUnique(SortBy(Below, ns), s);
  }

  /** Assembling the listing of a non-empty directory uses every stored file, in order. */
  lemma CompletionOfListing(disk: Disk, key: Key, id: Id, sha: bytes -> string)
    requires Stored(disk, id) != map[]
    ensures var stored := Stored(disk, id);
      var content := Assemble(stored, Increasing(stored.Keys));
      Completion(disk, key, id, SortBy(Below, Increasing(stored.Keys)), None, sha)
      == (WithoutParts(disk, id).(objects := Replace(disk.objects, key, content)), Ok(sha(content)))
  {
    var stored := Stored(disk, id);
    SortedAlready(stored.Keys);
    IncreasingMeans(stored.Keys);
    AssembledAll(stored, Increasing(stored.Keys));
  }

  /** With nothing stored, the first part of a non-empty list is missing. */
  lemma CompletionOfNothing(disk: Disk, key: Key, id: Id, numbers: seq<nat>, sha: bytes -> string)
    requires Stored(disk, id) == map[] && numbers != []
    ensures Completion(disk, key, id, SortBy(Below, numbers), None, sha)
      == (WithoutParts(disk, id).(objects := LeaveDebris(disk.objects, key, Some([]))), Err(PartFileMissing))
  {
    SameElements(SortBy(Below, numbers), numbers);
    assert numbers[0] in SortBy(Below, numbers);
  }

  lemma PartsInRange(w: World, id: Id)
    requires Inv(w) && id in w.db.sessions
    ensures w.db.sessions[id].totalParts >= 1
    ensures forall n :: n in Stored(w.disk, id) ==> n < 100_000_000
  {
    assert SessionOk(w.db.sessions[id]);
  }

  /** The listed numbers are the stored ones. */
  lemma ListedNumbers(listed: seq<UploadedPart>, stored: map<nat, bytes>)
    requires Listing(listed, stored)
    ensures (set i | 0 <= i < |listed| :: listed[i].number) == stored.Keys
  {}

  /** `[n for n in range(1, total + 1) if n not in present]` */
  method ListAbsent(total: nat, present: set<nat>) returns (missing: seq<nat>)
    ensures missing == Absent(total, present)
  {
    missing := [];
    for n := 0 to total
      invariant missing == Absent(n, present)
    {
      if n + 1 !in present {
        missing := missing + [n + 1];
      }
    }
  }

  method PartNumbers(listed: seq<UploadedPart>) returns (numbers: seq<nat>)
    ensures numbers == Numbers(listed)
  {
    numbers := [];
    for i := 0 to |listed|
      invariant |numbers| == i && forall k :: 0 <= k < i ==> numbers[k] == listed[k].number
    {
      numbers := numbers + [listed[i].number];
    }
  }

  class UploadService {
    const app: AppState

    constructor (app: AppState)
      ensures this.app == app
    {
      this.app := app;
    }

    method CreateSession(id: Id, request: CreateRequest, now: int, fault: Fault) returns (r: Result<Id, Error>)
      requires app.Valid() && id !in app.db.sessions
      modifies app.db, app.metrics
      ensures app.Valid()
      ensures (app.World(), r) == Server.CreateSession(app.cfg, old(app.World()), id, request, now, fault)
    {
      var saved := app.db.State();
      var plan := PlanSession(app.cfg, app.storage.objects, request, now);
      if plan.Err? {
        return Err(plan.error);
      }
      app.db.sessions := app.db.sessions[id := plan.value];
      app.metrics.activeSessions := app.metrics.activeSessions + 1;
      if fault.CommitFault? {
        app.db.Rollback(saved);
        return Err(DatabaseUnavailable);
      }
      r := Ok(id);
    }

    method ProxyUploadPart(id: Id, tenant: string, n: int, body: bytes, declared: int, fault: Fault)
      returns (r: Result<Id, Error>)
      requires app.Valid()
      modifies app.db, app.storage`parts
      ensures app.Valid()
      ensures (app.World(), r) == ProxyPart(app.cfg, old(app.World()), id, tenant, n, body, declared, fault)
    {
      var db, cfg := app.db, app.cfg;
      var saved := db.State();
      var refused := PartGuard(saved, tenant, id, n);
      if refused.Some? {
        return Err(refused.value);
      }
      var s := db.sessions[id];
      if PartSizeRefused(cfg, s, n, declared) {
        return Err(InvalidPartSize);
      }
      if s.status == Initiated {
        s := s.(status := Uploading);
      }
      db.sessions := db.sessions[id := s];
      var stored := app.storage.UploadPart(id, n, body, declared, fault.StorageFault?);
      if stored.Err? {
        db.Rollback(saved);
        return Err(stored.error);
      }
      r := RecordPart(saved, id, n, PartRow((n - 1) * s.partSize, stored.value.size, stored.value.etag, Committed),
                      fault);
    }

    /** The part's row; `saved` is what a failed commit rolls back to. */
    method RecordPart(saved: Db, id: Id, n: nat, row: PartRow, fault: Fault) returns (r: Result<Id, Error>)
      modifies app.db
      ensures app.db.State()
        == if fault.CommitFault? then saved else AfterPart(app.cfg, old(app.db.State()), id, n, row)
      ensures r == if fault.CommitFault? then Err(DatabaseUnavailable) else Ok(id)
    {
      app.db.UpsertPart(app.cfg.postgres, id, n, row);
      if fault.CommitFault? {
        app.db.Rollback(saved);
        return Err(DatabaseUnavailable);
      }
      r := Ok(id);
    }

    method CommitPart(id: Id, tenant: string, n: int, etag: string, size: int) returns (r: Result<Id, Error>)
      requires app.Valid()
      modifies app.db
      ensures app.Valid()
      ensures (app.World(), r) == Server.CommitPart(app.cfg, old(app.World()), id, tenant, n, etag, size)
    {
      var refused := PartGuard(app.db.State(), tenant, id, n);
      if refused.Some? {
        return Err(refused.value);
      }
      app.db.UpsertPart(app.cfg.postgres, id, n,
                        PartRow((n - 1) * app.db.sessions[id].partSize, size, etag, Committed));
      r := Ok(id);
    }

    method Resume(id: Id, tenant: string) returns (r: Result<seq<nat>, Error>)
      requires app.Valid()
      ensures r == Server.Resume(app.World(), id, tenant)
    {
      var state := app.db.State();
      if !Owns(state, tenant, id) {
        return Err(UploadNotFound);
      }
      var s := app.db.sessions[id];
      if s.status == Aborted {
        return Err(UploadAborted);
      }
      if s.status == Expired {
        return Err(UploadExpired);
      }
      var listed := app.storage.ListParts(id);
      ListedNumbers(listed, Stored(app.World().disk, id));
      var stored := set i | 0 <= i < |listed| :: listed[i].number;
      var missing := ListAbsent(s.totalParts, CommittedParts(state, id) + stored);
      r := Ok(missing);
    }

    /** The checks of `complete`; an answer when they already decide it. */
    method CheckComplete(id: Id, tenant: string) returns (answer: Option<Result<Id, Error>>)
      requires app.Valid()
      ensures answer == CompleteGuard(app.World(), id, tenant)
    {
      var state := app.db.State();
      if !Owns(state, tenant, id) {
        return Some(Err(UploadNotFound));
      }
      var s := app.db.sessions[id];
      if s.status == Completed && s.completedFile.Some? && OwnsFile(state, tenant, s.completedFile.value) {
        return Some(Ok(s.completedFile.value));
      }
      if s.status == Aborted {
        return Some(Err(UploadAborted));
      }
      if s.status == Expired {
        return Some(Err(UploadExpired));
      }
      var committed := CommittedParts(state, id);
      if |committed| < s.totalParts {
        var missing := ListAbsent(s.totalParts, committed);
        return Some(Err(MissingParts(missing)));
      }
      if s.status != Uploading && s.status != Initiated && !CanTransition(s.status, Completing) {
        return Some(Err(StateConflict));
      }
      answer := None;
    }

    method Complete(id: Id, tenant: string, file: Id, now: int, fault: Fault) returns (r: Result<Id, Error>)
      requires app.Valid() && Inv(app.World()) && file !in app.db.files
      modifies app.db, app.storage, app.metrics
      ensures app.Valid()
      ensures (app.World(), r) == Server.Complete(app.cfg, old(app.World()), id, tenant, file, now, fault)
    {
      var answer := CheckComplete(id, tenant);
      if answer.Some? {
        return answer.value;
      }
      PartsInRange(app.World(), id);
      r := Finish(id, tenant, file, now, fault);
    }

    /** `complete` after its checks: join the parts, insert the file row, mark the session. */
    method Finish(id: Id, tenant: string, file: Id, now: int, fault: Fault) returns (r: Result<Id, Error>)
      requires app.Valid() && Owns(app.db.State(), tenant, id) && CommittedParts(app.db.State(), id) != {}
      requires forall n :: n in Stored(app.storage.Disk(), id) ==> n < 100_000_000
      modifies app.db, app.storage, app.metrics
      ensures app.Valid()
      ensures (app.World(), r) == Server.Finish(app.cfg, old(app.World()), id, tenant, file, now, fault)
    {
      var saved := app.db.State();
      var s := app.db.sessions[id];
      app.db.sessions := app.db.sessions[id := s.(status := Completing)];
      var joined := Assembly(id, s.key, CommittedParts(saved, id), fault);
      if joined.Err? {
        app.db.Rollback(saved);
        return Err(joined.error);
      }
      r := Record(saved, id, tenant, file, now, joined.value, fault);
    }

    /** The database half of `complete`; `saved` is what a failed insert or commit rolls back to. */
    method Record(saved: Db, id: Id, tenant: string, file: Id, now: int, etag: string, fault: Fault)
      returns (r: Result<Id, Error>)
      requires app.Valid() && Owns(saved, tenant, id)
      requires app.db.State() == WithSession(saved, id, saved.sessions[id].(status := Completing))
      modifies app.db, app.metrics
      ensures app.Valid()
      ensures (app.World(), r)
        == Server.Record(app.cfg, old(app.World()).(db := saved), id, tenant, file, now, etag, fault)
    {
      var s := saved.sessions[id];
      if KeyTaken(saved, tenant, s.key) {
        app.db.Rollback(saved);
        return Err(IntegrityError);
      }
      RecordCompletion(saved, id, file,
                       NewFile(app.cfg, tenant, s.key, s.totalSize, etag, Some(id), s.effective, s.requested, now));
      app.metrics.activeSessions := app.metrics.activeSessions - 1;
      if fault.CommitFault? {
        app.db.Rollback(saved);
        return Err(DatabaseUnavailable);
      }
      r := Ok(file);
    }

    /** The new file row, and the session row that names it. */
    method RecordCompletion(ghost saved: Db, id: Id, file: Id, row: FileRow)
      requires id in saved.sessions
      requires app.db.State() == WithSession(saved, id, saved.sessions[id].(status := Completing))
      modifies app.db
      ensures app.db.State() ==
        WithFile(WithSession(saved, id, saved.sessions[id].(status := Completed, completedFile := Some(file))), file,
                 row)
    {
      app.db.files := app.db.files[file := row];
      app.db.sessions := app.db.sessions[id := app.db.sessions[id].(status := Completed, completedFile := Some(file))];
    }

    /** The storage half of `complete`: list the stored parts, or fall back on the rows, and join them. */
    method Assembly(id: Id, key: Key, committed: set<nat>, fault: Fault) returns (r: Result<string, Error>)
      requires app.Valid() && committed != {}
      requires forall n :: n in Stored(app.storage.Disk(), id) ==> n < 100_000_000
      modifies app.storage
      ensures app.Valid()
      ensures (app.storage.Disk(), r) == AssemblyOutcome(old(app.storage.Disk()), id, key, fault, app.cfg.sha)
    {
      ghost var disk := app.storage.Disk();
      var listed := app.storage.ListParts(id);
      var numbers: seq<nat>;
      if listed == [] {
        numbers := ToSeq(committed);
      } else {
        numbers := PartNumbers(listed);
      }
      if fault.StorageFault? {
        r := app.storage.CompleteMultipart(key, id, numbers, Some(fault.debris));
      } else {
        if Stored(disk, id) == map[] {
          CompletionOfNothing(disk, key, id, numbers, app.cfg.sha);
        } else {
          CompletionOfListing(disk, key, id, app.cfg.sha);
        }
        r := app.storage.CompleteMultipart(key, id, numbers, None);
      }
    }

    method Abort(id: Id, tenant: string, fault: Fault) returns (r: Result<Id, Error>)
      requires app.Valid()
      modifies app.db, app.storage`parts, app.metrics
      ensures app.Valid()
      ensures (app.World(), r) == Server.Abort(old(app.World()), id, tenant, fault)
    {
      var db := app.db;
      var saved := db.State();
      if !Owns(saved, tenant, id) {
        return Err(UploadNotFound);
      }
      var s := db.sessions[id];
      if s.status == Completed {
        return Err(AlreadyCompleted);
      }
      if s.status == Aborted || s.status == Expired {
        return Ok(id);
      }
      if !CanTransition(s.status, Aborting) {
        return Err(StateConflict);
      }
      db.sessions := db.sessions[id := s.(status := Aborting)];
      app.storage.AbortMultipart(id);
      db.sessions := db.sessions[id := s.(status := Aborted)];
      assert db.sessions == saved.sessions[id := s.(status := Aborted)];
      app.metrics.activeSessions := app.metrics.activeSessions - 1;
      if fault.CommitFault? {
        db.Rollback(saved);
        return Err(DatabaseUnavailable);
      }
      r := Ok(id);
    }

    method Refresh(id: Id, tenant: string, now: int) returns (r: Result<Id, Error>)
      requires app.Valid()
      modifies app.db
      ensures app.Valid()
      ensures (app.World(), r) == Server.Refresh(app.cfg, old(app.World()), id, tenant, now)
    {
      if !app.cfg.refreshEnabled {
        return Err(RefreshDisabled);
      }
      if !Owns(app.db.State(), tenant, id) {
        return Err(UploadNotFound);
      }
      var s := app.db.sessions[id];
      if Terminal(s.status) {
        return Err(StateConflict);
      }
      if s.createdAt + app.cfg.maximumLifetime * MICROS < now {
        return Err(UploadExpired);
      }
      app.db.sessions := app.db.sessions[id := s.(expiresAt := now + app.cfg.sessionExpiry * MICROS)];
      r := Ok(id);
    }
  }

  class CleanupService {
    const app: AppState

    constructor (app: AppState)
      ensures this.app == app
    {
      this.app := app;
    }

    /** Expires the sessions its query selected and lowers the gauge once for each. */
    method ExpireUploadSessions(ids: set<Id>, now: int, batch: nat, fault: Fault) returns (count: nat)
      requires app.Valid() && SweepSelection(app.db.State(), ids, now, batch)
      modifies app.db, app.metrics
      ensures app.Valid() && count == |ids|
      ensures app.World() == Sweep(old(app.World()), ids, fault)
    {
      var saved := app.db.State();
      app.db.sessions := ExpireAll(app.db.sessions, ids);
      var todo := ids;
      while todo != {}
        invariant todo <= ids && app.db.State() == saved.(sessions := ExpireAll(saved.sessions, ids))
        invariant app.metrics.activeSessions == old(app.metrics.activeSessions) - |ids| + |todo|
        decreases |todo|
      {
        var id :| id in todo;
        todo := todo - {id};
        app.metrics.activeSessions := app.metrics.activeSessions - 1;
      }
      if fault.CommitFault? {
        app.db.Rollback(saved);
      }
      count := |ids|;
    }
  }

  // ------------------------------------------------------------------ files

  /** What a download answers: 404 for a missing or deleted file, 416 for a refused range, 404 for a missing object. */
  function Served(db: Db, objects: map<Key, bytes>, f: Id, tenant: string, header: string)
    : Result<(Option<R.ByteRange>, bytes), Error>
  {
    if !OwnsFile(db, tenant, f) || db.files[f].status == DeletedFile then Err(FileNotFound)
    else
      var parsed := if header == "" then Ok(None) else R.ParseByteRange(Some(header), db.files[f].size);
      if parsed.Err? then Err(RangeRefused)
      else if db.files[f].key !in objects then Err(FileNotFound)
      else
        var content := objects[db.files[f].key];
        match parsed.value
        case None => Ok((None, content))
        case Some(range) =>
          R.RangeInBounds(Some(header), db.files[f].size);
          Ok((Some(range), Stretch(content, range.start, Some(range.Length()))))
  }

  class FileService {
    const app: AppState

    constructor (app: AppState)
      ensures this.app == app
    {
      this.app := app;
    }

    method ProxyUpload(file: Id, request: PutRequest, now: int, fault: Fault) returns (r: Result<Id, Error>)
      requires app.Valid() && file !in app.db.files
      modifies app.db, app.storage`objects
      ensures app.Valid()
      ensures (app.World(), r) == PutFile(app.cfg, old(app.World()), file, request, now, fault)
    {
      var plan := PlanPut(app.cfg, app.storage.objects, request, now);
      if plan.Err? {
        return Err(plan.error);
      }
      var (key, effective) := plan.value;
      var stored := app.storage.PutObject(key, request.body, request.checksum, fault.StorageFault?);
      if stored.Err? {
        return Err(stored.error);
      }
      if KeyTaken(app.db.State(), request.tenant, key) {
        return Err(IntegrityError);
      }
      if fault.CommitFault? {
        return Err(DatabaseUnavailable);
      }
      var row := NewFile(app.cfg, request.tenant, key, request.declared, stored.value, None, effective,
                         Given(request.lifecycle), now);
      app.db.files := app.db.files[file := row];
      r := Ok(file);
    }

    /**
     * Serves a file or one range of it. The range is checked against the size in the row, the bytes come
     * from storage. The answer in every case: no row, a deleted row, a refused range, a missing object,
     * and otherwise chunks that join to the stretch of the object.
     */
    method Download(f: Id, tenant: string, header: string) returns (r: Result<(Option<R.ByteRange>, seq<bytes>), Error>)
      requires app.Valid()
      ensures match Served(app.db.State(), app.storage.objects, f, tenant, header)
              case Err(e) => r == Err(e)
              case Ok((range, body)) => r.Ok? && r.value.0 == range && Flatten(r.value.1) == body
      ensures r.Ok? ==> forall i :: 0 <= i < |r.value.1| ==> 1 <= |r.value.1[i]| <= CHUNK
    {
      if !OwnsFile(app.db.State(), tenant, f) || app.db.files[f].status == DeletedFile {
        return Err(FileNotFound);
      }
      var row := app.db.files[f];
      var range: Option<R.ByteRange> := None;
      if header != "" {
        R.RangeInBounds(Some(header), row.size);
        var parsed := R.ParseByteRange(Some(header), row.size);
        if parsed.Err? {
          return Err(RangeRefused);
        }
        range := parsed.value;
      }
      var offset := if range.Some? then range.value.start else 0;
      var length := if range.Some? then Some(range.value.Length()) else None;
      var chunks := app.storage.GetObject(row.key, offset, length);
      if chunks.Err? {
        return Err(chunks.error);
      }
      r := Ok((range, chunks.value));
    }

    method Delete(f: Id, tenant: string, now: int, fault: Fault) returns (r: Result<Id, Error>)
      requires app.Valid()
      modifies app.db, app.storage`objects
      ensures app.Valid()
      ensures (app.World(), r) == DeleteFile(old(app.World()), f, tenant, now, fault)
    {
      if !OwnsFile(app.db.State(), tenant, f) || app.db.files[f].status == DeletedFile {
        return Err(FileNotFound);
      }
      var row := app.db.files[f];
      if row.legalHold {
        return Err(UnderLegalHold);
      }
      var deleted := app.storage.DeleteObject(row.key, fault.StorageFault?);
      if !deleted {
        return Err(StorageUnavailable);
      }
      if fault.CommitFault? {
        return Err(DatabaseUnavailable);
      }
      app.db.files := app.db.files[f := row.(status := DeletedFile, deletedAt := Some(now), lifecycle := Deleted)];
      r := Ok(f);
    }
  }

  // ------------------------------------------------------------------ lifecycle

  class LifecycleService {
    const app: AppState

    constructor (app: AppState)
      ensures this.app == app
    {
      this.app := app;
    }

    /** Stores a rewritten row and logs the event. */
    method Save(f: Id, row: FileRow, kind: string)
      requires app.Valid() && f in app.db.files
      modifies app.db`files, app.db`events
      ensures app.Valid()
      ensures app.World() == old(app.World()).(db := Logged(old(app.World()).db, f, row, kind))
    {
      app.db.files := app.db.files[f := row];
      app.db.events := app.db.events + [Event(f, kind, row.lifecycle, row.lifecycle)];
    }

    method UpdateLifecycle(f: Id, tenant: string, requested: Requested) returns (r: Result<Id, Error>)
      requires app.Valid()
      modifies app.db
      ensures app.Valid()
      ensures (app.World(), r) == Server.UpdateLifecycle(app.cfg, old(app.World()), f, tenant, requested)
    {
      if !OwnsFile(app.db.State(), tenant, f) {
        return Err(FileNotFound);
      }
      var row := app.db.files[f];
      if row.legalHold {
        return Err(UnderLegalHold);
      }
      var effective := Compute(app.cfg.staticPolicy, Some(requested), row.completedAt);
      if effective.Err? {
        return Err(BadLifecycle(effective.error));
      }
      Save(f, ApplyLifecycle(row, effective.value).(clientSource := true), "lifecycle.updated");
      r := Ok(f);
    }

    method Extend(f: Id, tenant: string, seconds: int, now: int) returns (r: Result<Id, Error>)
      requires app.Valid()
      modifies app.db
      ensures app.Valid()
      ensures (app.World(), r) == Server.Extend(app.cfg, old(app.World()), f, tenant, seconds, now)
    {
      if !OwnsFile(app.db.State(), tenant, f) {
        return Err(FileNotFound);
      }
      var row := app.db.files[f];
      if row.mode == "permanent" || row.mode == "expires_at" || seconds <= 0 {
        return Err(CannotExtend);
      }
      var base := row.expiresAt.GetOr(now);
      var requested := Requested(Some(row.mode), Some(row.action), row.ttl, Some(base + seconds * MICROS));
      var effective := Compute(app.cfg.staticPolicy, Some(requested), row.completedAt);
      if effective.Err? {
        return Err(BadLifecycle(effective.error));
      }
      Save(f, ApplyLifecycle(row, effective.value), "lifecycle.extended");
      r := Ok(f);
    }

    method MakePermanent(f: Id, tenant: string) returns (r: Result<Id, Error>)
      requires app.Valid()
      modifies app.db
      ensures app.Valid()
      ensures (app.World(), r) == Server.MakePermanent(app.cfg, old(app.World()), f, tenant)
    {
      if !app.cfg.staticPolicy.permanentAllowed {
        return Err(BadLifecycle(PermanentNotAllowed));
      }
      if !OwnsFile(app.db.State(), tenant, f) {
        return Err(FileNotFound);
      }
      var row := app.db.files[f];
      if row.legalHold {
        return Err(UnderLegalHold);
      }
      Save(f, row.(mode := "permanent", action := "none", ttl := None, expiresAt := None, nextActionAt := None),
           "lifecycle.make_permanent");
      r := Ok(f);
    }

    method SetLegalHold(f: Id, tenant: string, hold: bool) returns (r: Result<Id, Error>)
      requires app.Valid()
      modifies app.db
      ensures app.Valid()
      ensures (app.World(), r) == Server.SetLegalHold(old(app.World()), f, tenant, hold)
    {
      if !OwnsFile(app.db.State(), tenant, f) {
        return Err(FileNotFound);
      }
      Save(f, app.db.files[f].(legalHold := hold), if hold then "legal_hold.set" else "legal_hold.released");
      r := Ok(f);
    }
  }

  lemma BatchStep(w: World, batch: seq<Id>, i: nat, now: int, failing: set<Id>)
    requires i < |batch| && forall f :: f in batch ==> f in w.db.files
    ensures forall f :: f in batch[..i + 1] ==> f in w.db.files
    ensures forall f :: f in batch[..i] ==> f in w.db.files
    ensures batch[i] in WorkBatch(w, batch[..i], now, failing).0.db.files
    ensures var (w', t) := WorkBatch(w, batch[..i], now, failing);
      var f := batch[i];
      && WorkBatch(w, batch[..i + 1], now, failing).0 == WorkItem(w', f, now, f in failing)
      && WorkBatch(w, batch[..i + 1], now, failing).1.processed
         == t.processed + if OutcomeOf(w'.db.files[f], f in failing) == Processed then 1 else 0
  {
    assert batch[i] in batch && batch[..i + 1][..i] == batch[..i];
    assert forall f :: f in batch[..i + 1] ==> f in batch;
  }

  class LifecycleWorker {
    const app: AppState

    constructor (app: AppState)
      ensures this.app == app
    {
      this.app := app;
    }

    /** One batch: blocked files are logged, the others handled; returns how many were processed. */
    method ProcessBatch(batch: seq<Id>, now: int, failing: set<Id>, fault: Fault) returns (processed: nat)
      requires app.Valid() && forall f :: f in batch ==> f in app.db.files
      modifies app.db, app.storage`objects
      ensures app.Valid()
      ensures app.World() == Work(old(app.World()), batch, now, failing, fault)
      ensures processed == WorkBatch(old(app.World()), batch, now, failing).1.processed
    {
      var saved := app.db.State();
      processed := ProcessFiles(batch, now, failing);
      if fault.CommitFault? {
        app.db.Rollback(saved);
      }
    }

    method ProcessFiles(batch: seq<Id>, now: int, failing: set<Id>) returns (processed: nat)
      requires app.storage.Valid() && forall f :: f in batch ==> f in app.db.files
      modifies app.db, app.storage`objects
      ensures app.storage.Valid()
      ensures app.World() == WorkBatch(old(app.World()), batch, now, failing).0
      ensures processed == WorkBatch(old(app.World()), batch, now, failing).1.processed
    {
      ghost var before := app.World();
      processed := 0;
      for i := 0 to |batch|
        invariant app.storage.Valid()
        invariant forall f :: f in batch[..i] ==> f in before.db.files
        invariant app.World() == WorkBatch(before, batch[..i], now, failing).0
        invariant processed == WorkBatch(before, batch[..i], now, failing).1.processed
      {
        assert batch[i] in batch;
        BatchStep(before, batch, i, now, failing);
        var done := HandleFile(batch[i], now, batch[i] in failing);
        if done {
          processed := processed + 1;
        }
      }
      assert batch[..|batch|] == batch;
    }

    method HandleFile(f: Id, now: int, storageFails: bool) returns (done: bool)
      requires app.storage.Valid() && f in app.db.files
      modifies app.db, app.storage`objects
      ensures app.storage.Valid()
      ensures app.World() == WorkItem(old(app.World()), f, now, storageFails)
      ensures done <==> OutcomeOf(old(app.db.files[f]), storageFails) == Processed
    {
      var row := app.db.files[f];
      if row.legalHold {
        app.db.events := app.db.events + [Event(f, "lifecycle.blocked", row.lifecycle, row.lifecycle)];
        return false;
      }
      var after := row;
      if row.action == "delete" {
        after := row.(lifecycle := Deleting);
        var deleted := app.storage.DeleteObject(row.key, storageFails);
        if !deleted {
          app.db.files := app.db.files[f := after.(deleteAttempts := row.deleteAttempts + 1)];
          return false;
        }
        after := after.(status := DeletedFile, lifecycle := Deleted, deletedAt := Some(now));
      } else if row.action == "notify" {
        after := row.(lifecycle := ExpiredFile);
      } else {
        after := row.(nextActionAt := None);
      }
      app.db.files := app.db.files[f := after];
      app.db.events := app.db.events + [Event(f, "lifecycle." + row.action, row.lifecycle, after.lifecycle)];
      app.db.outbox := app.db.outbox + [Message(f, "lifecycle." + row.action)];
      done := true;
    }
  }
}
