/**
 * The upload protocol over whole runs: how statuses move, exactly-once completion, which parts are
 * missing, independence of the database dialect, and the active-session gauge.
 */
module Protocol {
  import opened Basics
  import opened Slicing
  import opened Server
  import opened Invariants
  import Policy

  // ------------------------------------------------------------------ status safety

  /** A walk in UPLOAD_TRANSITIONS. */
  predicate Path(p: seq<UploadStatus>) {
    p != [] && forall i :: 0 <= i < |p| - 1 ==> CanTransition(p[i], p[i + 1])
  }

  ghost predicate Leads(a: UploadStatus, b: UploadStatus) {
    exists p :: Path(p) && p[0] == a && p[|p| - 1] == b
  }

  lemma LeadsBy(p: seq<UploadStatus>)
    requires Path(p)
    ensures Leads(p[0], p[|p| - 1])
  {}

  /** The moves a single committed request makes. */
  predicate Move(a: UploadStatus, b: UploadStatus) {
    || a == b
    || (a == Initiated && (b == Uploading || b == Completed || b == Aborted || b == Expired))
    || (a == Uploading && (b == Completed || b == Aborted || b == Expired))
  }

  lemma MoveLeads(a: UploadStatus, b: UploadStatus)
    requires Move(a, b)
    ensures Leads(a, b)
  {
    if a == b {
      LeadsBy([a]);
    } else {
      var first := if a == Initiated && b == Completed then [Initiated, Uploading] else [a];
      var rest := match b
                  case Completed => [Completing, Completed]
                  case Aborted => [Aborting, Aborted]
                  case _ => [b];
      LeadsBy(first + rest);
    }
  }

  /** How one session row may differ after a request. */
  ghost predicate Evolves(s: Session, s': Session) {
    && s'.tenant == s.tenant && s'.key == s.key && s'.totalSize == s.totalSize && s'.partSize == s.partSize
    && s'.totalParts == s.totalParts && s'.effective == s.effective && s'.createdAt == s.createdAt
    && Move(s.status, s'.status) && (s.completedFile.Some? ==> s'.completedFile == s.completedFile)
  }

  /** No session and no file row ever disappears or changes identity. */
  ghost predicate Persists(db: Db, db': Db) {
    && (forall id :: id in db.sessions ==> id in db'.sessions && Evolves(db.sessions[id], db'.sessions[id]))
    && (forall f :: f in db.files ==>
          && f in db'.files && SameKey(db.files[f], db'.files[f])
          && db'.files[f].uploadId == db.files[f].uploadId && db'.files[f].size == db.files[f].size)
  }

  lemma NothingPersists(db: Db)
    ensures Persists(db, db)
  {}

  lemma PersistsTrans(a: Db, b: Db, c: Db)
    requires Persists(a, b) && Persists(b, c)
    ensures Persists(a, c)
  {}

  lemma SessionPersists(db: Db, id: Id, s': Session)
    requires id in db.sessions ==> Evolves(db.sessions[id], s')
    ensures Persists(db, WithSession(db, id, s'))
  {}

  lemma CreatePersists(cfg: Settings, w: World, id: Id, r: CreateRequest, now: int, fault: Fault)
    requires ValidSettings(cfg) && id !in w.db.sessions
    ensures Persists(w.db, CreateSession(cfg, w, id, r, now, fault).0.db)
  {
    CreateShape(cfg, w, id, r, now, fault);
  }

  lemma SendPersists(cfg: Settings, w: World, id: Id, tenant: string, n: int, body: bytes, declared: int, fault: Fault)
    ensures Persists(w.db, ProxyPart(cfg, w, id, tenant, n, body, declared, fault).0.db)
  {
    SendShape(cfg, w, id, tenant, n, body, declared, fault);
    var db' := ProxyPart(cfg, w, id, tenant, n, body, declared, fault).0.db;
    if db' != w.db { StartedPersists(w.db, id, db'); }
  }

  lemma StartedPersists(db: Db, id: Id, db': Db)
    requires id in db.sessions && db'.sessions == db.sessions[id := Started(db.sessions[id])] && db'.files == db.files
    ensures Persists(db, db')
  {}

  lemma DeclarePersists(cfg: Settings, w: World, id: Id, tenant: string, n: int, etag: string, size: int)
    ensures Persists(w.db, CommitPart(cfg, w, id, tenant, n, etag, size).0.db)
  {}

  lemma AbortPersists(w: World, id: Id, tenant: string, fault: Fault)
    ensures Persists(w.db, Abort(w, id, tenant, fault).0.db)
  {
    NothingPersists(w.db);
    if Owns(w.db, tenant, id) && CanTransition(w.db.sessions[id].status, Aborting) {
      SessionPersists(w.db, id, w.db.sessions[id].(status := Aborted));
    }
  }

  lemma RefreshPersists(cfg: Settings, w: World, id: Id, tenant: string, now: int)
    ensures Persists(w.db, Refresh(cfg, w, id, tenant, now).0.db)
  {
    RefreshShape(cfg, w, id, tenant, now);
    NothingPersists(w.db);
    if id in w.db.sessions {
      SessionPersists(w.db, id, w.db.sessions[id].(expiresAt := now + cfg.sessionExpiry * Policy.MICROS));
    }
  }

  lemma SweepPersists(w: World, ids: set<Id>, now: int, batch: nat, fault: Fault)
    requires SweepSelection(w.db, ids, now, batch)
    ensures Persists(w.db, Sweep(w, ids, fault).db)
  {}

  lemma FinishPersists(cfg: Settings, w: World, id: Id, tenant: string, file: Id, now: int, fault: Fault)
    requires Inv(w) && file !in w.db.files
    ensures Persists(w.db, Complete(cfg, w, id, tenant, file, now, fault).0.db)
  {
    CompleteShape(cfg, w, id, tenant, file, now, fault);
    var db' := Complete(cfg, w, id, tenant, file, now, fault).0.db;
    if Finished(w.db, id, tenant, file, db') {
      FinishedPersists(w.db, id, tenant, file, db');
    }
  }

  lemma FinishedPersists(db: Db, id: Id, tenant: string, file: Id, db': Db)
    requires DbOk(db) && file !in db.files && Finished(db, id, tenant, file, db')
    ensures Persists(db, db')
  {
    assert SessionOk(db.sessions[id]);
  }

  lemma PutPersists(cfg: Settings, w: World, file: Id, r: PutRequest, now: int, fault: Fault)
    requires file !in w.db.files
    ensures Persists(w.db, PutFile(cfg, w, file, r, now, fault).0.db)
  {
    PutShape(cfg, w, file, r, now, fault);
  }

  lemma {:induction false} WorkPersists(w: World, batch: seq<Id>, now: int, failing: set<Id>)
    requires forall f :: f in batch ==> f in w.db.files
    ensures Persists(w.db, WorkBatch(w, batch, now, failing).0.db)
  {
    if batch != [] {
      var k := |batch| - 1;
      assert forall g :: g in batch[..k] ==> g in batch;
      WorkPersists(w, batch[..k], now, failing);
      assert batch[k] in batch;
      var w' := WorkBatch(w, batch[..k], now, failing).0;
      ItemPersists(w', batch[k], now, batch[k] in failing);
      PersistsTrans(w.db, w'.db, WorkItem(w', batch[k], now, batch[k] in failing).db);
    }
  }

  lemma ItemPersists(w: World, f: Id, now: int, fails: bool)
    requires f in w.db.files
    ensures Persists(w.db, WorkItem(w, f, now, fails).db)
  {
    WorkItemRewrites(w, f, now, fails);
  }

  lemma UploadRequestPersists(cfg: Settings, w: World, r: Request)
    requires ValidSettings(cfg) && Admissible(w, r) && Inv(w)
    requires r.Create? || r.SendPart? || r.DeclarePart? || r.CompleteUpload?
    ensures Persists(w.db, Step(cfg, w, r).0.db)
  {
    match r
    case Create(id, create, now, fault) => CreatePersists(cfg, w, id, create, now, fault);
    case SendPart(id, tenant, n, body, declared, fault) => SendPersists(cfg, w, id, tenant, n, body, declared, fault);
    case DeclarePart(id, tenant, n, etag, size) => DeclarePersists(cfg, w, id, tenant, n, etag, size);
    case CompleteUpload(id, tenant, file, now, fault) => FinishPersists(cfg, w, id, tenant, file, now, fault);
  }

  lemma ClosingRequestPersists(cfg: Settings, w: World, r: Request)
    requires ValidSettings(cfg) && Admissible(w, r) && (r.AbortUpload? || r.RefreshUpload? || r.ExpireSessions?)
    ensures Persists(w.db, Step(cfg, w, r).0.db)
  {
    match r
    case AbortUpload(id, tenant, fault) => AbortPersists(w, id, tenant, fault);
    case RefreshUpload(id, tenant, now) => RefreshPersists(cfg, w, id, tenant, now);
    case ExpireSessions(ids, now, batch, fault) => SweepPersists(w, ids, now, batch, fault);
  }

  lemma FileRequestPersists(cfg: Settings, w: World, r: Request)
    requires ValidSettings(cfg) && Admissible(w, r) && (r.Put? || r.RunWorker? || OnFile(r))
    ensures Persists(w.db, Step(cfg, w, r).0.db)
  {
    match r {
      case Put(file, put, now, fault) => PutPersists(cfg, w, file, put, now, fault);
      case RunWorker(files, now, _, failing, _) => WorkPersists(w, files, now, failing);
      case _ =>
        FileRequestRewrites(cfg, w, r);
        RewritingPersists(w, r.file, Step(cfg, w, r).0);
    }
  }

  lemma RewritingPersists(w: World, f: Id, w': World)
    requires Rewrites(w, f, w')
    ensures Persists(w.db, w'.db)
  {}

  lemma StepPersists(cfg: Settings, w: World, r: Request)
    requires ValidSettings(cfg) && Admissible(w, r) && Inv(w)
    ensures Persists(w.db, Step(cfg, w, r).0.db)
  {
    if r.Create? || r.SendPart? || r.DeclarePart? || r.CompleteUpload? {
      UploadRequestPersists(cfg, w, r);
    } else if r.AbortUpload? || r.RefreshUpload? || r.ExpireSessions? {
      ClosingRequestPersists(cfg, w, r);
    } else {
      FileRequestPersists(cfg, w, r);
    }
  }

  lemma {:induction false} RunPersists(cfg: Settings, w: World, rs: seq<Request>)
    requires ValidSettings(cfg) && Inv(w) && Run(cfg, w, rs)
    ensures Persists(w.db, Exec(cfg, w, rs).db)
    decreases |rs|
  {
    if rs != [] {
      StepPersists(cfg, w, rs[0]);
      StepKeepsInv(cfg, w, rs[0]);
      RunPersists(cfg, Step(cfg, w, rs[0]).0, rs[1..]);
      PersistsTrans(w.db, Step(cfg, w, rs[0]).0.db, Exec(cfg, w, rs).db);
    }
  }

  /**
   * Status safety over runs: a session's status only ever moves along UPLOAD_TRANSITIONS, completing
   * and aborting are never visible, and completed, aborted and expired are final.
   */
  lemma StatusSafety(cfg: Settings, w: World, rs: seq<Request>, id: Id)
    requires ValidSettings(cfg) && Inv(w) && Run(cfg, w, rs) && id in w.db.sessions
    ensures id in Exec(cfg, w, rs).db.sessions
    ensures var before, after := w.db.sessions[id].status, Exec(cfg, w, rs).db.sessions[id].status;
      Leads(before, after) && Visible(after) && (Terminal(before) ==> after == before)
  {
    RunPersists(cfg, w, rs);
    RunKeepsInv(cfg, w, rs);
    MoveLeads(w.db.sessions[id].status, Exec(cfg, w, rs).db.sessions[id].status);
  }

  // ------------------------------------------------------------------ exactly-once completion

  ghost function FilesOf(db: Db, id: Id): set<Id> {
    set f | f in db.files && db.files[f].uploadId == Some(id)
  }

  /** In every reachable state a completed session owns exactly one file row, any other session none. */
  lemma OneFilePerUpload(cfg: Settings, rs: seq<Request>, id: Id)
    requires ValidSettings(cfg) && Run(cfg, START, rs)
    requires id in Exec(cfg, START, rs).db.sessions
    ensures var db := Exec(cfg, START, rs).db;
      if db.sessions[id].status == Completed
      then db.sessions[id].completedFile.Some? && FilesOf(db, id) == {db.sessions[id].completedFile.value}
      else FilesOf(db, id) == {}
  {
    ReachableInv(cfg, rs);
  }

  /** Completing a completed session returns its file and changes nothing at all. */
  lemma CompleteAgain(cfg: Settings, w: World, id: Id, file: Id, now: int, fault: Fault)
    requires Inv(w) && id in w.db.sessions && w.db.sessions[id].status == Completed
    ensures w.db.sessions[id].completedFile.Some?
    ensures Complete(cfg, w, id, w.db.sessions[id].tenant, file, now, fault)
      == (w, Ok(w.db.sessions[id].completedFile.value))
  {}

  lemma SuccessfulComplete(cfg: Settings, w: World, id: Id, tenant: string, file: Id, now: int, fault: Fault)
    requires Inv(w) && file !in w.db.files && Complete(cfg, w, id, tenant, file, now, fault).1.Ok?
    ensures var (w', r) := Complete(cfg, w, id, tenant, file, now, fault);
      && id in w'.db.sessions && w'.db.sessions[id].tenant == tenant
      && w'.db.sessions[id].status == Completed && w'.db.sessions[id].completedFile == Some(r.value)
      && id in w.db.sessions && (w.db.sessions[id].status != Completed ==> r.value == file)
  {}

  /**
   * Exactly once: after a complete succeeded, and after any further requests by anyone, completing the
   * upload again returns the same file, touches neither storage nor rows, and adds no file row.
   */
  lemma ExactlyOnce(cfg: Settings, w: World, id: Id, tenant: string, file: Id, now: int, fault: Fault,
                    rs: seq<Request>, file': Id, now': int, fault': Fault)
    requires ValidSettings(cfg) && Inv(w) && file !in w.db.files
    requires Complete(cfg, w, id, tenant, file, now, fault).1.Ok?
    requires Run(cfg, Complete(cfg, w, id, tenant, file, now, fault).0, rs)
    ensures var f := Complete(cfg, w, id, tenant, file, now, fault).1.value;
      var w2 := Exec(cfg, Complete(cfg, w, id, tenant, file, now, fault).0, rs);
      && Complete(cfg, w2, id, tenant, file', now', fault') == (w2, Ok(f))
      && FilesOf(w2.db, id) == {f}
  {
    var (w1, r) := Complete(cfg, w, id, tenant, file, now, fault);
    SuccessfulComplete(cfg, w, id, tenant, file, now, fault);
    CompleteKeepsInv(cfg, w, id, tenant, file, now, fault);
    RunPersists(cfg, w1, rs);
    RunKeepsInv(cfg, w1, rs);
    var w2 := Exec(cfg, w1, rs);
    assert w2.db.sessions[id].status == Completed && w2.db.sessions[id].completedFile == Some(r.value);
    CompleteAgain(cfg, w2, id, file', now', fault');
  }

  // ------------------------------------------------------------------ which parts are missing

  lemma {:induction false} AbsentMeaning(count: nat, present: set<nat>)
    ensures forall n :: n in Absent(count, present) <==> 1 <= n <= count && n !in present
    ensures forall i, j :: 0 <= i < j < |Absent(count, present)| ==>
      Absent(count, present)[i] < Absent(count, present)[j]
  {
    if count > 0 {
      AbsentMeaning(count - 1, present);
      var shorter := Absent(count - 1, present);
      assert forall i :: 0 <= i < |shorter| ==> shorter[i] in shorter;
    }
  }

  lemma CommittedInRange(w: World, id: Id)
    requires Inv(w) && id in w.db.sessions
    ensures CommittedParts(w.db, id) == Rows(w.db, id).Keys
    ensures CommittedParts(w.db, id) <= Interval(1, w.db.sessions[id].totalParts)
  {}

  /**
   * Pigeonhole completeness: in every state that satisfies the invariant, the count test of `complete`
   * fails exactly when some part has no committed row, and the reported list is then the sorted,
   * non-empty list of exactly those parts.
   */
  lemma CountTestExact(w: World, id: Id)
    requires Inv(w) && id in w.db.sessions
    ensures var total, done := w.db.sessions[id].totalParts, CommittedParts(w.db, id);
      && (|done| < total <==> exists n :: 1 <= n <= total && n !in done)
      && (|done| < total <==> Absent(total, done) != [])
      && (|done| >= total <==> done == Interval(1, total))
      && (forall n :: n in Absent(total, done) <==> 1 <= n <= total && n !in done)
      && (forall i, j :: 0 <= i < j < |Absent(total, done)| ==> Absent(total, done)[i] < Absent(total, done)[j])
  {
    var total, done := w.db.sessions[id].totalParts, CommittedParts(w.db, id);
    CommittedInRange(w, id);
    AbsentMeaning(total, done);
    IntervalSize(1, total);
    SubsetSize(done, Interval(1, total));
    if done != Interval(1, total) {
      var n :| n in Interval(1, total) && n !in done;
      assert n in Absent(total, done);
    }
    assert Absent(total, done) != [] ==> Absent(total, done)[0] in Absent(total, done);
  }

  /**
   * Resume never reports a part that complete would not miss, and reports all of them exactly when
   * every stored part also has its committed row.
   */
  lemma ResumeSound(w: World, id: Id, tenant: string)
    requires Inv(w) && Resume(w, id, tenant).Ok?
    ensures var r, c := Resume(w, id, tenant).value, Absent(w.db.sessions[id].totalParts, CommittedParts(w.db, id));
      && (forall n :: n in r ==> n in c)
      && (r == c <==> Stored(w.disk, id).Keys <= CommittedParts(w.db, id))
  {
    var total, done, stored := w.db.sessions[id].totalParts, CommittedParts(w.db, id), Stored(w.disk, id).Keys;
    AbsentMeaning(total, done);
    AbsentMeaning(total, done + stored);
    var r, c := Absent(total, done + stored), Absent(total, done);
    if stored <= done {
      assert done + stored == done;
    } else {
      var n :| n in stored && n !in done;
      assert 1 <= n <= total;
      assert n in c && n !in r;
    }
  }

  // ------------------------------------------------------------------ database dialect

  lemma UpsertDialects(db: Db, id: Id, n: nat, row: PartRow)
    requires DbOk(db) && id in db.sessions && RowOk(db.sessions[id], n, row)
    ensures UpsertPostgres(Rows(db, id), n, row) == UpsertSqlite(Rows(db, id), n, row)
  {}

  lemma SendDialect(cfg: Settings, w: World, id: Id, tenant: string, n: int, body: bytes, declared: int, fault: Fault)
    requires Inv(w)
    ensures ProxyPart(cfg.(postgres := true), w, id, tenant, n, body, declared, fault)
      == ProxyPart(cfg.(postgres := false), w, id, tenant, n, body, declared, fault)
  {
    if PartGuard(w.db, tenant, id, n).None? {
      UpsertDialects(w.db, id, n, PartRow((n - 1) * w.db.sessions[id].partSize, |body|, cfg.sha(body), Committed));
    }
  }

  lemma DeclareDialect(cfg: Settings, w: World, id: Id, tenant: string, n: int, etag: string, size: int)
    requires Inv(w)
    ensures CommitPart(cfg.(postgres := true), w, id, tenant, n, etag, size)
      == CommitPart(cfg.(postgres := false), w, id, tenant, n, etag, size)
  {
    if PartGuard(w.db, tenant, id, n).None? {
      UpsertDialects(w.db, id, n, PartRow((n - 1) * w.db.sessions[id].partSize, size, etag, Committed));
    }
  }

  /** The dialect switch is read by the part upsert and nowhere else. */
  lemma CompleteDialect(cfg: Settings, w: World, id: Id, tenant: string, file: Id, now: int, fault: Fault)
    ensures Complete(cfg.(postgres := true), w, id, tenant, file, now, fault)
      == Complete(cfg.(postgres := false), w, id, tenant, file, now, fault)
  {}

  lemma CreateDialect(cfg: Settings, w: World, id: Id, r: CreateRequest, now: int, fault: Fault)
    requires ValidSettings(cfg)
    ensures CreateSession(cfg.(postgres := true), w, id, r, now, fault)
      == CreateSession(cfg.(postgres := false), w, id, r, now, fault)
  {
    PlanDialect(cfg, w.disk, r, now);
  }

  lemma PlanDialect(cfg: Settings, disk: Disk, r: CreateRequest, now: int)
    requires ValidSettings(cfg)
    ensures PlanSession(cfg.(postgres := true), disk.objects, r, now)
      == PlanSession(cfg.(postgres := false), disk.objects, r, now)
  {
    forall key: Key
      ensures PlanNamed(cfg.(postgres := true), disk.objects, r, key, now)
        == PlanNamed(cfg.(postgres := false), disk.objects, r, key, now) {
      NamedDialect(cfg, disk, r, key, now);
    }
  }

  lemma NamedDialect(cfg: Settings, disk: Disk, r: CreateRequest, key: Key, now: int)
    requires ValidSettings(cfg)
    ensures PlanNamed(cfg.(postgres := true), disk.objects, r, key, now)
      == PlanNamed(cfg.(postgres := false), disk.objects, r, key, now)
  {
  }

  lemma PutDialect(cfg: Settings, w: World, file: Id, r: PutRequest, now: int, fault: Fault)
    ensures PutFile(cfg.(postgres := true), w, file, r, now, fault)
      == PutFile(cfg.(postgres := false), w, file, r, now, fault)
  {}

  lemma StepDialect(cfg: Settings, w: World, r: Request)
    requires ValidSettings(cfg) && Admissible(w, r) && Inv(w)
    ensures Step(cfg.(postgres := true), w, r) == Step(cfg.(postgres := false), w, r)
  {
    match r {
      case SendPart(id, tenant, n, body, declared, fault) => SendDialect(cfg, w, id, tenant, n, body, declared, fault);
      case DeclarePart(id, tenant, n, etag, size) => DeclareDialect(cfg, w, id, tenant, n, etag, size);
      case CompleteUpload(id, tenant, file, now, fault) => CompleteDialect(cfg, w, id, tenant, file, now, fault);
      case Create(id, create, now, fault) => CreateDialect(cfg, w, id, create, now, fault);
      case Put(file, put, now, fault) => PutDialect(cfg, w, file, put, now, fault);
      case _ =>
    }
  }

  /** The two upsert statements cannot be told apart: both dialects take every run to the same state. */
  lemma {:induction false} DialectIndependence(cfg: Settings, w: World, rs: seq<Request>)
    requires ValidSettings(cfg) && Inv(w) && Run(cfg.(postgres := true), w, rs)
    ensures Run(cfg.(postgres := false), w, rs)
    ensures Exec(cfg.(postgres := true), w, rs) == Exec(cfg.(postgres := false), w, rs)
    decreases |rs|
  {
    if rs != [] {
      StepDialect(cfg, w, rs[0]);
      StepKeepsInv(cfg.(postgres := true), w, rs[0]);
      DialectIndependence(cfg, Step(cfg.(postgres := true), w, rs[0]).0, rs[1..]);
    }
  }

  // ------------------------------------------------------------------ active-session gauge

  ghost function Live(db: Db): set<Id> { set id | id in db.sessions && !Terminal(db.sessions[id].status) }

  /**
   * By how much one request moves the gauge away from the number of live sessions: only a commit that
   * fails after the gauge was changed does, because the gauge is not rolled back.
   */
  ghost function Drift(cfg: Settings, w: World, r: Request): int
    requires ValidSettings(cfg)
  {
    match r
    case Create(_, create, now, CommitFault) => if PlanSession(cfg, w.disk.objects, create, now).Ok? then 1 else 0
    case CompleteUpload(id, tenant, _, _, CommitFault) =>
      if CompleteGuard(w, id, tenant).None? && Stored(w.disk, id) != map[]
         && !KeyTaken(w.db, tenant, w.db.sessions[id].key)
      then -1 else 0
    case AbortUpload(id, tenant, CommitFault) =>
      if Owns(w.db, tenant, id) && !Terminal(w.db.sessions[id].status) then -1 else 0
    case ExpireSessions(ids, _, _, CommitFault) => -|ids|
    case _ => 0
  }

  lemma LiveSame(db: Db, db': Db)
    requires db'.sessions.Keys == db.sessions.Keys
    requires forall id :: id in db.sessions ==>
      (Terminal(db.sessions[id].status) <==> Terminal(db'.sessions[id].status))
    ensures Live(db') == Live(db)
  {}

  lemma LiveAdd(db: Db, id: Id, s: Session)
    requires id !in db.sessions && !Terminal(s.status)
    ensures |Live(WithSession(db, id, s))| == |Live(db)| + 1
  {
    assert Live(WithSession(db, id, s)) == Live(db) + {id};
  }

  lemma LiveDrop(db: Db, id: Id, s: Session)
    requires id in db.sessions && !Terminal(db.sessions[id].status) && Terminal(s.status)
    ensures |Live(WithSession(db, id, s))| == |Live(db)| - 1
  {
    assert Live(WithSession(db, id, s)) == Live(db) - {id};
  }

  lemma LiveSweep(db: Db, ids: set<Id>)
    requires ids <= Live(db)
    ensures |Live(db.(sessions := ExpireAll(db.sessions, ids)))| == |Live(db)| - |ids|
  {
    assert Live(db.(sessions := ExpireAll(db.sessions, ids))) == Live(db) - ids;
    DifferenceSize(Live(db), ids);
  }

  lemma DifferenceSize<T>(a: set<T>, b: set<T>)
    requires b <= a
    ensures |a - b| == |a| - |b|
  {
    assert (a - b) + b == a && (a - b) !! b;
  }

  ghost function Gap(w: World): int { w.gauge - |Live(w.db)| }

  lemma FinishGap(cfg: Settings, w: World, id: Id, tenant: string, file: Id, now: int, fault: Fault)
    requires ValidSettings(cfg) && Inv(w) && file !in w.db.files
    ensures Gap(Complete(cfg, w, id, tenant, file, now, fault).0)
      == Gap(w) + Drift(cfg, w, CompleteUpload(id, tenant, file, now, fault))
  {
    CompleteShape(cfg, w, id, tenant, file, now, fault);
    var w' := Complete(cfg, w, id, tenant, file, now, fault).0;
    if Finished(w.db, id, tenant, file, w'.db) {
      var s := w.db.sessions[id].(status := Completed, completedFile := Some(file));
      LiveDrop(w.db, id, s);
      LiveSame(WithSession(w.db, id, s), w'.db);
      FinishGauge(cfg, w, id, tenant, file, now, fault);
    }
  }

  lemma FinishGauge(cfg: Settings, w: World, id: Id, tenant: string, file: Id, now: int, fault: Fault)
    requires ValidSettings(cfg) && Finished(w.db, id, tenant, file, Complete(cfg, w, id, tenant, file, now, fault).0.db)
    requires Inv(w) && file !in w.db.files
    ensures Complete(cfg, w, id, tenant, file, now, fault).0.gauge == w.gauge - 1
    ensures !fault.CommitFault?
  {}

  lemma CreateGap(cfg: Settings, w: World, id: Id, r: CreateRequest, now: int, fault: Fault)
    requires ValidSettings(cfg) && id !in w.db.sessions
    ensures Gap(CreateSession(cfg, w, id, r, now, fault).0) == Gap(w) + Drift(cfg, w, Create(id, r, now, fault))
  {
    var plan := PlanSession(cfg, w.disk.objects, r, now);
    if plan.Ok? {
      LiveAdd(w.db, id, plan.value);
    }
  }

  lemma SendGap(cfg: Settings, w: World, id: Id, tenant: string, n: int, body: bytes, declared: int, fault: Fault)
    ensures Gap(ProxyPart(cfg, w, id, tenant, n, body, declared, fault).0) == Gap(w)
  {
    LiveSame(w.db, ProxyPart(cfg, w, id, tenant, n, body, declared, fault).0.db);
  }

  lemma DeclareGap(cfg: Settings, w: World, id: Id, tenant: string, n: int, etag: string, size: int)
    ensures Gap(CommitPart(cfg, w, id, tenant, n, etag, size).0) == Gap(w)
  {
    LiveSame(w.db, CommitPart(cfg, w, id, tenant, n, etag, size).0.db);
  }

  lemma RefreshGap(cfg: Settings, w: World, id: Id, tenant: string, now: int)
    ensures Gap(Refresh(cfg, w, id, tenant, now).0) == Gap(w)
  {
    LiveSame(w.db, Refresh(cfg, w, id, tenant, now).0.db);
  }

  lemma AbortGap(cfg: Settings, w: World, id: Id, tenant: string, fault: Fault)
    requires ValidSettings(cfg) && Inv(w)
    ensures Gap(Abort(w, id, tenant, fault).0) == Gap(w) + Drift(cfg, w, AbortUpload(id, tenant, fault))
  {
    if Owns(w.db, tenant, id) && !Terminal(w.db.sessions[id].status) {
      assert SessionOk(w.db.sessions[id]);
      LiveDrop(w.db, id, w.db.sessions[id].(status := Aborted));
    }
  }

  lemma SweepGap(cfg: Settings, w: World, ids: set<Id>, now: int, batch: nat, fault: Fault)
    requires ValidSettings(cfg) && SweepSelection(w.db, ids, now, batch)
    ensures Gap(Sweep(w, ids, fault)) == Gap(w) + Drift(cfg, w, ExpireSessions(ids, now, batch, fault))
  {
    LiveSweep(w.db, ids);
  }

  /** Requests that leave sessions and gauge alone leave the gap alone. */
  lemma SameGap(w: World, w': World)
    requires w'.db.sessions == w.db.sessions && w'.gauge == w.gauge
    ensures Gap(w') == Gap(w)
  {
    LiveSame(w.db, w'.db);
  }

  lemma StepGap(cfg: Settings, w: World, r: Request)
    requires ValidSettings(cfg) && Admissible(w, r) && Inv(w)
    ensures Gap(Step(cfg, w, r).0) == Gap(w) + Drift(cfg, w, r)
  {
    match r {
      case Create(id, create, now, fault) => CreateGap(cfg, w, id, create, now, fault);
      case SendPart(id, tenant, n, body, declared, fault) => SendGap(cfg, w, id, tenant, n, body, declared, fault);
      case DeclarePart(id, tenant, n, etag, size) => DeclareGap(cfg, w, id, tenant, n, etag, size);
      case RefreshUpload(id, tenant, now) => RefreshGap(cfg, w, id, tenant, now);
      case CompleteUpload(id, tenant, file, now, fault) => FinishGap(cfg, w, id, tenant, file, now, fault);
      case AbortUpload(id, tenant, fault) => AbortGap(cfg, w, id, tenant, fault);
      case ExpireSessions(ids, now, batch, fault) => SweepGap(cfg, w, ids, now, batch, fault);
      case Put(file, put, now, fault) =>
        PutShape(cfg, w, file, put, now, fault);
        SameGap(w, Step(cfg, w, r).0);
      case RunWorker(files, now, _, failing, _) =>
        WorkBatchKeepsInv(w, files, now, failing);
        SameGap(w, Step(cfg, w, r).0);
      case _ =>
        FileRequestRewrites(cfg, w, r);
        SameGap(w, Step(cfg, w, r).0);
    }
  }

  ghost function TotalDrift(cfg: Settings, w: World, rs: seq<Request>): int
    requires ValidSettings(cfg) && Run(cfg, w, rs)
    decreases |rs|
  {
    if rs == [] then 0 else Drift(cfg, w, rs[0]) + TotalDrift(cfg, Step(cfg, w, rs[0]).0, rs[1..])
  }

  /**
   * Gauge conservation: increments minus decrements equal the number of live sessions plus the drift of
   * failed commits, so the gauge is right exactly when that drift is zero; without commit faults it is.
   */
  lemma {:induction false} GaugeConservation(cfg: Settings, w: World, rs: seq<Request>)
    requires ValidSettings(cfg) && Inv(w) && Run(cfg, w, rs)
    ensures Gap(Exec(cfg, w, rs)) == Gap(w) + TotalDrift(cfg, w, rs)
    ensures (forall r :: r in rs ==> Committing(r)) ==> TotalDrift(cfg, w, rs) == 0
    decreases |rs|
  {
    if rs != [] {
      StepGap(cfg, w, rs[0]);
      StepKeepsInv(cfg, w, rs[0]);
      GaugeConservation(cfg, Step(cfg, w, rs[0]).0, rs[1..]);
      assert rs[0] in rs && forall r :: r in rs[1..] ==> r in rs;
    }
  }

  /** The request's commit does not fail. */
  predicate Committing(r: Request) {
    match r
    case Create(_, _, _, fault) => !fault.CommitFault?
    case CompleteUpload(_, _, _, _, fault) => !fault.CommitFault?
    case AbortUpload(_, _, fault) => !fault.CommitFault?
    case ExpireSessions(_, _, _, fault) => !fault.CommitFault?
    case _ => true
  }
}
