/** File lifecycles over whole runs: the schedule every writer keeps, the worker's batch, legal hold. */
module Lifecycle {
  import opened Basics
  import opened Policy
  import opened Server
  import opened Invariants
  import opened Protocol

  const ACTIONS: set<string> := {"delete", "notify", "none"}

  /**
   * `next_action_at` is set exactly when the file expires and has an action, and then is the expiry; or
   * the action is none of the three, and the worker has dealt with it by clearing the schedule.
   */
  ghost predicate RowScheduled(row: FileRow) {
    row.nextActionAt == Schedule(row.action, row.expiresAt) || (row.action !in ACTIONS && row.nextActionAt.None?)
  }

  /** A counted lifetime ends that long after the session's creation. */
  ghost predicate SessionScheduled(s: Session) {
    s.effective.Some? ==>
      var e := s.effective.value;
      CountsTtl(e.mode) ==> e.ttl.Some? && e.expiresAt == Some(s.createdAt + e.ttl.value * MICROS)
  }

  ghost predicate Scheduled(db: Db) {
    && (forall f :: f in db.files ==> RowScheduled(db.files[f]))
    && (forall id :: id in db.sessions ==> SessionScheduled(db.sessions[id]))
  }

  lemma CountedFrom(policy: PolicyConfig, requested: Option<Requested>, base: int)
    requires Compute(policy, requested, base).Ok?
    ensures var e := Compute(policy, requested, base).value;
      CountsTtl(e.mode) ==> e.ttl.Some? && e.expiresAt == Some(base + e.ttl.value * MICROS)
  {}

  // ------------------------------------------------------------------ every writer keeps the schedule

  lemma FileWritten(db: Db, f: Id, row: FileRow, db': Db)
    requires Scheduled(db) && RowScheduled(row) && db'.sessions == db.sessions && db'.files == db.files[f := row]
    ensures Scheduled(db')
  {}

  lemma SessionsKept(db: Db, db': Db)
    requires Scheduled(db) && db'.files == db.files
    requires forall id :: id in db'.sessions ==>
      id in db.sessions && db'.sessions[id].effective == db.sessions[id].effective
      && db'.sessions[id].createdAt == db.sessions[id].createdAt
    ensures Scheduled(db')
  {}

  lemma FinishedScheduled(db: Db, id: Id, s: Session, file: Id, row: FileRow, db': Db)
    requires Scheduled(db) && id in db.sessions && RowScheduled(row)
    requires s.effective == db.sessions[id].effective && s.createdAt == db.sessions[id].createdAt
    requires db'.sessions == db.sessions[id := s] && db'.files == db.files[file := row]
    ensures Scheduled(db')
  {
    SessionsKept(db, WithSession(db, id, s));
    FileWritten(WithSession(db, id, s), file, row, db');
  }

  lemma PlanScheduled(cfg: Settings, disk: Disk, r: CreateRequest, key: Key, now: int)
    requires ValidSettings(cfg) && PlanNamed(cfg, disk.objects, r, key, now).Ok?
    ensures SessionScheduled(PlanNamed(cfg, disk.objects, r, key, now).value)
  {
    if cfg.lifecycleEnabled {
      CountedFrom(cfg.policy, r.lifecycle, now);
    }
  }

  lemma CreateScheduled(cfg: Settings, w: World, id: Id, r: CreateRequest, now: int, fault: Fault)
    requires ValidSettings(cfg) && Scheduled(w.db) && id !in w.db.sessions
    ensures Scheduled(CreateSession(cfg, w, id, r, now, fault).0.db)
  {
    forall key: Key | PlanNamed(cfg, w.disk.objects, r, key, now).Ok?
      ensures SessionScheduled(PlanNamed(cfg, w.disk.objects, r, key, now).value)
    {
      PlanScheduled(cfg, w.disk, r, key, now);
    }
  }

  lemma FinishScheduled(cfg: Settings, w: World, id: Id, tenant: string, file: Id, now: int, fault: Fault)
    requires Inv(w) && Scheduled(w.db) && file !in w.db.files
    ensures Scheduled(Complete(cfg, w, id, tenant, file, now, fault).0.db)
  {
    CompleteShape(cfg, w, id, tenant, file, now, fault);
    var db' := Complete(cfg, w, id, tenant, file, now, fault).0.db;
    if Finished(w.db, id, tenant, file, db') {
      FinishedRow(cfg, w, id, tenant, file, now, fault);
      var s := w.db.sessions[id];
      assert SessionScheduled(s);
      FinishedScheduled(w.db, id, s.(status := Completed, completedFile := Some(file)), file, db'.files[file], db');
    }
  }

  lemma FinishedRow(cfg: Settings, w: World, id: Id, tenant: string, file: Id, now: int, fault: Fault)
    requires Inv(w) && file !in w.db.files
    requires Finished(w.db, id, tenant, file, Complete(cfg, w, id, tenant, file, now, fault).0.db)
    ensures var s := w.db.sessions[id];
      var row := Complete(cfg, w, id, tenant, file, now, fault).0.db.files[file];
      row == NewFile(cfg, tenant, s.key, s.totalSize, row.etag, Some(id), s.effective, s.requested, now)
  {}

  lemma PutScheduled(cfg: Settings, w: World, file: Id, r: PutRequest, now: int, fault: Fault)
    requires Scheduled(w.db)
    ensures Scheduled(PutFile(cfg, w, file, r, now, fault).0.db)
  {}

  lemma UpdateScheduled(cfg: Settings, w: World, f: Id, tenant: string, requested: Requested)
    requires Scheduled(w.db)
    ensures Scheduled(UpdateLifecycle(cfg, w, f, tenant, requested).0.db)
  {}

  lemma ExtendScheduled(cfg: Settings, w: World, f: Id, tenant: string, seconds: int, now: int)
    requires Scheduled(w.db)
    ensures Scheduled(Extend(cfg, w, f, tenant, seconds, now).0.db)
  {}

  lemma OtherFileScheduled(cfg: Settings, w: World, r: Request)
    requires ValidSettings(cfg) && Admissible(w, r) && Scheduled(w.db) && (r.Delete? || r.KeepFile? || r.Hold?)
    ensures Scheduled(Step(cfg, w, r).0.db)
  {}

  /** A due row that is handled stays scheduled; the schedule is cleared only for an unknown action. */
  lemma HandledScheduled(row: FileRow, now: int, fails: bool)
    requires RowScheduled(row) && Due(row, now)
    ensures RowScheduled(Handled(row, now, fails))
    ensures OutcomeOf(row, fails) == Processed ==>
      row.action == "delete" || row.action == "notify" || row.action !in ACTIONS
  {}

  ghost predicate AllDue(w: World, batch: seq<Id>, now: int) {
    && (forall g :: g in batch ==> g in w.db.files && Due(w.db.files[g], now))
    && (forall i, j :: 0 <= i < j < |batch| ==> batch[i] != batch[j])
  }

  lemma FrontDue(w: World, batch: seq<Id>, now: int)
    requires AllDue(w, batch, now) && batch != []
    ensures AllDue(w, batch[..|batch| - 1], now)
    ensures batch[|batch| - 1] in batch && batch[|batch| - 1] !in batch[..|batch| - 1]
  {
    assert forall g :: g in batch[..|batch| - 1] ==> g in batch;
  }

  lemma {:induction false} BatchScheduled(w: World, batch: seq<Id>, now: int, failing: set<Id>)
    requires AllDue(w, batch, now) && Scheduled(w.db)
    ensures Scheduled(WorkBatch(w, batch, now, failing).0.db)
  {
    if batch != [] {
      var k := |batch| - 1;
      FrontDue(w, batch, now);
      BatchScheduled(w, batch[..k], now, failing);
      BatchLeaves(w, batch[..k], now, failing, batch[k]);
      var w' := WorkBatch(w, batch[..k], now, failing).0;
      HandledScheduled(w'.db.files[batch[k]], now, batch[k] in failing);
      WorkItemRewrites(w', batch[k], now, batch[k] in failing);
      FileWritten(w'.db, batch[k], Handled(w'.db.files[batch[k]], now, batch[k] in failing),
                  WorkItem(w', batch[k], now, batch[k] in failing).db);
    }
  }

  lemma SessionRequestScheduled(cfg: Settings, w: World, r: Request)
    requires ValidSettings(cfg) && Admissible(w, r) && Scheduled(w.db)
    requires r.AbortUpload? || r.RefreshUpload? || r.ExpireSessions?
    ensures Scheduled(Step(cfg, w, r).0.db)
  {
    SessionsKept(w.db, Step(cfg, w, r).0.db);
  }

  lemma SendScheduled(cfg: Settings, w: World, id: Id, tenant: string, n: int, body: bytes, declared: int, fault: Fault)
    requires Scheduled(w.db)
    ensures Scheduled(ProxyPart(cfg, w, id, tenant, n, body, declared, fault).0.db)
  {
    SessionsKept(w.db, ProxyPart(cfg, w, id, tenant, n, body, declared, fault).0.db);
  }

  lemma DeclareScheduled(cfg: Settings, w: World, id: Id, tenant: string, n: int, etag: string, size: int)
    requires Scheduled(w.db)
    ensures Scheduled(CommitPart(cfg, w, id, tenant, n, etag, size).0.db)
  {
    SessionsKept(w.db, CommitPart(cfg, w, id, tenant, n, etag, size).0.db);
  }

  lemma StepScheduled(cfg: Settings, w: World, r: Request)
    requires ValidSettings(cfg) && Admissible(w, r) && Inv(w) && Scheduled(w.db)
    ensures Scheduled(Step(cfg, w, r).0.db)
  {
    match r {
      case Create(id, create, now, fault) => CreateScheduled(cfg, w, id, create, now, fault);
      case SendPart(id, tenant, n, body, declared, fault) =>
        SendScheduled(cfg, w, id, tenant, n, body, declared, fault);
      case DeclarePart(id, tenant, n, etag, size) => DeclareScheduled(cfg, w, id, tenant, n, etag, size);
      case CompleteUpload(id, tenant, file, now, fault) => FinishScheduled(cfg, w, id, tenant, file, now, fault);
      case Put(file, put, now, fault) => PutScheduled(cfg, w, file, put, now, fault);
      case SetLifecycle(f, tenant, requested) => UpdateScheduled(cfg, w, f, tenant, requested);
      case ExtendFile(f, tenant, seconds, now) => ExtendScheduled(cfg, w, f, tenant, seconds, now);
      case RunWorker(files, now, _, failing, _) => BatchScheduled(w, files, now, failing);
      case Delete(_, _, _, _) => OtherFileScheduled(cfg, w, r);
      case KeepFile(_, _) => OtherFileScheduled(cfg, w, r);
      case Hold(_, _, _) => OtherFileScheduled(cfg, w, r);
      case _ => SessionRequestScheduled(cfg, w, r);
    }
  }

  /** In every reachable state every file row is scheduled, whichever writers touched it. */
  lemma {:induction false} ScheduleHolds(cfg: Settings, w: World, rs: seq<Request>)
    requires ValidSettings(cfg) && Inv(w) && Scheduled(w.db) && Run(cfg, w, rs)
    ensures Scheduled(Exec(cfg, w, rs).db)
    decreases |rs|
  {
    if rs != [] {
      StepScheduled(cfg, w, rs[0]);
      StepKeepsInv(cfg, w, rs[0]);
      ScheduleHolds(cfg, Step(cfg, w, rs[0]).0, rs[1..]);
    }
  }

  // ------------------------------------------------------------------ the worker's batch

  /** The books of one batch balance: selected, processed, blocked, failed, events and messages. */
  lemma {:induction false} BatchConservation(w: World, batch: seq<Id>, now: int, failing: set<Id>)
    requires forall f :: f in batch ==> f in w.db.files
    ensures var (w', t) := WorkBatch(w, batch, now, failing);
      && t.processed + t.blocked + t.failed == |batch|
      && |w'.db.events| == |w.db.events| + t.processed + t.blocked
      && |w'.db.outbox| == |w.db.outbox| + t.processed
  {
    if batch != [] {
      var k := |batch| - 1;
      assert forall g :: g in batch[..k] ==> g in batch;
      BatchConservation(w, batch[..k], now, failing);
      assert batch[k] in batch;
      ItemConservation(WorkBatch(w, batch[..k], now, failing).0, batch[k], now, batch[k] in failing);
    }
  }

  lemma ItemConservation(w: World, f: Id, now: int, storageFails: bool)
    requires f in w.db.files
    ensures var (w', o) := (WorkItem(w, f, now, storageFails), OutcomeOf(w.db.files[f], storageFails));
      && |w'.db.events| == |w.db.events| + (if o == Processed || o == Blocked then 1 else 0)
      && |w'.db.outbox| == |w.db.outbox| + (if o == Processed then 1 else 0)
  {}

  /** What a batch does to each file: a selected one is handled once, as it was when selected. */
  lemma {:induction false} BatchHandles(w: World, batch: seq<Id>, now: int, failing: set<Id>, f: Id)
    requires AllDue(w, batch, now) && f in batch
    ensures WorkBatch(w, batch, now, failing).0.db.files[f] == Handled(w.db.files[f], now, f in failing)
  {
    var k := |batch| - 1;
    FrontDue(w, batch, now);
    var w' := WorkBatch(w, batch[..k], now, failing).0;
    WorkItemRewrites(w', batch[k], now, batch[k] in failing);
    if f == batch[k] {
      BatchLeaves(w, batch[..k], now, failing, f);
    } else {
      assert f in batch[..k];
      BatchHandles(w, batch[..k], now, failing, f);
    }
  }

  /**
   * No batch changes a file that is held or not due; a due deletion deletes the row or, when storage
   * fails, leaves it in `deleting`; a due notification expires it; an unknown action only loses its schedule.
   */
  lemma WorkerEffect(cfg: Settings, w: World, batch: seq<Id>, now: int, size: nat, failing: set<Id>, f: Id)
    requires Scheduled(w.db) && BatchSelection(w.db, batch, now, size) && f in w.db.files
    ensures var row, after := w.db.files[f], Work(w, batch, now, failing, NoFault).db.files[f];
      && (row.legalHold || !Due(row, now) || f !in batch ==> after == row)
      && (f in batch && !row.legalHold ==>
            if row.action == "delete" then
              if f in failing then after == row.(lifecycle := Deleting, deleteAttempts := row.deleteAttempts + 1)
              else after == row.(status := DeletedFile, lifecycle := Deleted, deletedAt := Some(now))
            else if row.action == "notify" then after == row.(lifecycle := ExpiredFile)
            else row.action !in ACTIONS && after == row.(nextActionAt := None))
  {
    if f in batch {
      BatchHandles(w, batch, now, failing, f);
      HandledScheduled(w.db.files[f], now, f in failing);
    } else {
      BatchLeaves(w, batch, now, failing, f);
    }
  }

  // ------------------------------------------------------------------ legal hold

  /** File `f` is held and has the statuses it had. */
  ghost predicate StillHeld(db: Db, db': Db, f: Id)
    requires f in db.files
  {
    && f in db'.files && db'.files[f].legalHold
    && db'.files[f].status == db.files[f].status && db'.files[f].lifecycle == db.files[f].lifecycle
  }

  lemma UploadRequestHolds(cfg: Settings, w: World, r: Request, f: Id)
    requires ValidSettings(cfg) && Admissible(w, r) && Inv(w) && f in w.db.files && w.db.files[f].legalHold
    requires r.CompleteUpload? || r.Put? || r.Create?
    ensures StillHeld(w.db, Step(cfg, w, r).0.db, f)
  {
    match r
    case CompleteUpload(id, tenant, file, now, fault) => CompleteHolds(cfg, w, id, tenant, file, now, fault, f);
    case Put(file, put, now, fault) => PutHolds(cfg, w, file, put, now, fault, f);
    case Create(id, create, now, fault) => CreateShape(cfg, w, id, create, now, fault);
  }

  lemma CompleteHolds(cfg: Settings, w: World, id: Id, tenant: string, file: Id, now: int, fault: Fault, f: Id)
    requires Inv(w) && file !in w.db.files && f in w.db.files && w.db.files[f].legalHold
    ensures StillHeld(w.db, Complete(cfg, w, id, tenant, file, now, fault).0.db, f)
  {
    CompleteShape(cfg, w, id, tenant, file, now, fault);
  }

  lemma PutHolds(cfg: Settings, w: World, file: Id, put: PutRequest, now: int, fault: Fault, f: Id)
    requires file !in w.db.files && f in w.db.files && w.db.files[f].legalHold
    ensures StillHeld(w.db, PutFile(cfg, w, file, put, now, fault).0.db, f)
  {
    PutShape(cfg, w, file, put, now, fault);
  }

  lemma WorkerHolds(cfg: Settings, w: World, r: Request, f: Id)
    requires ValidSettings(cfg) && Admissible(w, r) && f in w.db.files && w.db.files[f].legalHold && r.RunWorker?
    ensures StillHeld(w.db, Step(cfg, w, r).0.db, f)
  {
    if f in r.files {
      assert AllDue(w, r.files, r.now);
      BatchHandles(w, r.files, r.now, r.failing, f);
    } else {
      BatchLeaves(w, r.files, r.now, r.failing, f);
    }
  }

  lemma FilesUntouched(cfg: Settings, w: World, r: Request)
    requires ValidSettings(cfg) && Admissible(w, r)
    requires r.SendPart? || r.DeclarePart? || r.AbortUpload? || r.RefreshUpload? || r.ExpireSessions?
    ensures Step(cfg, w, r).0.db.files == w.db.files
  {}

  lemma FileRequestHolds(cfg: Settings, w: World, r: Request, f: Id)
    requires ValidSettings(cfg) && Admissible(w, r) && f in w.db.files && w.db.files[f].legalHold
    requires OnFile(r) && !(r.Hold? && r.file == f && !r.hold)
    ensures StillHeld(w.db, Step(cfg, w, r).0.db, f)
  {
    match r {
      case Delete(g, tenant, now, fault) => DeleteHolds(w, g, tenant, now, fault, f);
      case SetLifecycle(g, tenant, requested) => UpdateHolds(cfg, w, g, tenant, requested, f);
      case ExtendFile(g, tenant, seconds, now) => ExtendHolds(cfg, w, g, tenant, seconds, now, f);
      case KeepFile(g, tenant) => KeepHolds(cfg, w, g, tenant, f);
      case Hold(g, tenant, hold) => HoldHolds(w, g, tenant, hold, f);
    }
  }

  lemma DeleteHolds(w: World, g: Id, tenant: string, now: int, fault: Fault, f: Id)
    requires f in w.db.files && w.db.files[f].legalHold
    ensures StillHeld(w.db, DeleteFile(w, g, tenant, now, fault).0.db, f)
  {}

  lemma UpdateHolds(cfg: Settings, w: World, g: Id, tenant: string, requested: Requested, f: Id)
    requires f in w.db.files && w.db.files[f].legalHold
    ensures StillHeld(w.db, UpdateLifecycle(cfg, w, g, tenant, requested).0.db, f)
  {}

  lemma ExtendHolds(cfg: Settings, w: World, g: Id, tenant: string, seconds: int, now: int, f: Id)
    requires f in w.db.files && w.db.files[f].legalHold
    ensures StillHeld(w.db, Extend(cfg, w, g, tenant, seconds, now).0.db, f)
  {}

  lemma KeepHolds(cfg: Settings, w: World, g: Id, tenant: string, f: Id)
    requires f in w.db.files && w.db.files[f].legalHold
    ensures StillHeld(w.db, MakePermanent(cfg, w, g, tenant).0.db, f)
  {}

  lemma HoldHolds(w: World, g: Id, tenant: string, hold: bool, f: Id)
    requires f in w.db.files && w.db.files[f].legalHold && !(g == f && !hold)
    ensures StillHeld(w.db, SetLegalHold(w, g, tenant, hold).0.db, f)
  {}

  /** No request but releasing the hold changes the status of a held file. */
  lemma HeldStep(cfg: Settings, w: World, r: Request, f: Id)
    requires ValidSettings(cfg) && Admissible(w, r) && Inv(w) && f in w.db.files && w.db.files[f].legalHold
    requires !(r.Hold? && r.file == f && !r.hold)
    ensures StillHeld(w.db, Step(cfg, w, r).0.db, f)
  {
    if r.CompleteUpload? || r.Put? || r.Create? {
      UploadRequestHolds(cfg, w, r, f);
    } else if r.RunWorker? {
      WorkerHolds(cfg, w, r, f);
    } else if OnFile(r) {
      FileRequestHolds(cfg, w, r, f);
    } else {
      FilesUntouched(cfg, w, r);
    }
  }

  /** Legal hold over runs: until it is released, a held file is neither deleted nor expired by anyone. */
  lemma {:induction false} HeldFileSurvives(cfg: Settings, w: World, rs: seq<Request>, f: Id)
    requires ValidSettings(cfg) && Inv(w) && Run(cfg, w, rs) && f in w.db.files && w.db.files[f].legalHold
    requires forall r :: r in rs ==> !(r.Hold? && r.file == f && !r.hold)
    ensures var db' := Exec(cfg, w, rs).db;
      f in db'.files && db'.files[f].legalHold
      && db'.files[f].status == w.db.files[f].status && db'.files[f].lifecycle == w.db.files[f].lifecycle
    decreases |rs|
  {
    if rs != [] {
      assert rs[0] in rs && forall r :: r in rs[1..] ==> r in rs;
      HeldStep(cfg, w, rs[0], f);
      StepKeepsInv(cfg, w, rs[0]);
      HeldFileSurvives(cfg, Step(cfg, w, rs[0]).0, rs[1..], f);
    }
  }

  // ------------------------------------------------------------------ where the lifetime starts

  /**
   * A completed multipart upload with a counted lifetime expires that long after the session was
   * created, not after it completed: the two agree exactly when both happened at the same instant.
   */
  lemma {:induction false} ExpiryCountsFromCreation(cfg: Settings, w: World, id: Id, tenant: string, file: Id, now: int,
                                                    fault: Fault)
    requires Inv(w) && Scheduled(w.db) && file !in w.db.files && cfg.lifecycleEnabled
    requires Finished(w.db, id, tenant, file, Complete(cfg, w, id, tenant, file, now, fault).0.db)
    requires w.db.sessions[id].effective.Some? && CountsTtl(w.db.sessions[id].effective.value.mode)
    ensures var s, row := w.db.sessions[id], Complete(cfg, w, id, tenant, file, now, fault).0.db.files[file];
      && row.ttl.Some? && row.completedAt == now
      && row.expiresAt == Some(s.createdAt + row.ttl.value * MICROS)
      && (row.expiresAt == Some(row.completedAt + row.ttl.value * MICROS) <==> now == s.createdAt)
      && (row.action != "none" ==> (Due(row, now) <==> now >= s.createdAt + row.ttl.value * MICROS))
  {
    FinishedRow(cfg, w, id, tenant, file, now, fault);
    assert SessionScheduled(w.db.sessions[id]);
  }

  /** `extend` recomputes the expiry from the completion time: how many seconds were asked never matters. */
  lemma ExtendIgnoresSeconds(cfg: Settings, w: World, f: Id, tenant: string, a: int, b: int, now: int)
    requires a > 0 && b > 0 && (f in w.db.files ==> w.db.files[f].mode != "")
    ensures Extend(cfg, w, f, tenant, a, now) == Extend(cfg, w, f, tenant, b, now)
  {
    if f in w.db.files && w.db.files[f].mode != "expires_at" {
      var row := w.db.files[f];
      ExtendSame(cfg, row, row.expiresAt.GetOr(now) + a * MICROS, row.expiresAt.GetOr(now) + b * MICROS);
    }
  }

  lemma ExtendSame(cfg: Settings, row: FileRow, x: int, y: int)
    requires row.mode != "expires_at" && row.mode != ""
    ensures
      Compute(cfg.staticPolicy, Some(Requested(Some(row.mode), Some(row.action), row.ttl, Some(x))), row.completedAt)
      == Compute(cfg.staticPolicy, Some(Requested(Some(row.mode), Some(row.action), row.ttl, Some(y))), row.completedAt)
  {}
}
