/** Tenants do not see each other's uploads and files: what other tenants' requests leave of one tenant's tables. */
module Tenants {
  import opened Basics
  import opened Server
  import I = Invariants
  import opened UploadDecisions
  import opened FileDecisions

  /** The tenant a request is made for; a sweep and a worker batch are made for none. */
  function ActsFor(r: Request): Option<string> {
    match r
    case Create(_, create, _, _) => Some(create.tenant)
    case SendPart(_, tenant, _, _, _, _) => Some(tenant)
    case DeclarePart(_, tenant, _, _, _) => Some(tenant)
    case CompleteUpload(_, tenant, _, _, _) => Some(tenant)
    case AbortUpload(_, tenant, _) => Some(tenant)
    case RefreshUpload(_, tenant, _) => Some(tenant)
    case Put(_, put, _, _) => Some(put.tenant)
    case Delete(_, tenant, _, _) => Some(tenant)
    case SetLifecycle(_, tenant, _) => Some(tenant)
    case ExtendFile(_, tenant, _, _) => Some(tenant)
    case KeepFile(_, tenant) => Some(tenant)
    case Hold(_, tenant, _) => Some(tenant)
    case ExpireSessions(_, _, _, _) => None
    case RunWorker(_, _, _, _, _) => None
  }

  /** Another tenant makes the request. */
  predicate ByAnother(r: Request, tenant: string) { ActsFor(r).Some? && ActsFor(r).value != tenant }

  ghost predicate OwnUpload(w: World, tenant: string, id: Id) {
    id in w.db.sessions && w.db.sessions[id].tenant == tenant
  }

  /** If upload `id` is the tenant's, before or after, then it is the same, with its part rows and part files. */
  ghost predicate SameUpload(w: World, w': World, tenant: string, id: Id) {
    OwnUpload(w, tenant, id) || OwnUpload(w', tenant, id) ==>
      && id in w.db.sessions && id in w'.db.sessions && w'.db.sessions[id] == w.db.sessions[id]
      && Rows(w'.db, id) == Rows(w.db, id) && Stored(w'.disk, id) == Stored(w.disk, id)
  }

  /** If file `f` is the tenant's, before or after, then its row is the same. */
  ghost predicate SameFile(w: World, w': World, tenant: string, f: Id) {
    Mine(w, tenant, f) || Mine(w', tenant, f) ==>
      f in w.db.files && f in w'.db.files && w'.db.files[f] == w.db.files[f]
  }

  ghost predicate Undisturbed(w: World, w': World, tenant: string) {
    (forall id :: SameUpload(w, w', tenant, id)) && (forall f :: SameFile(w, w', tenant, f))
  }

  /** A request that touches one upload of another tenant, or makes it. */
  lemma ElsewhereUndisturbed(w: World, w': World, id: Id, tenant: string)
    requires OtherUploadsKept(w, w', id) && w'.db.files == w.db.files
    requires id in w.db.sessions ==> w.db.sessions[id].tenant != tenant
    requires id in w'.db.sessions ==> w'.db.sessions[id].tenant != tenant
    ensures Undisturbed(w, w', tenant)
  {
    forall i ensures SameUpload(w, w', tenant, i) {
      if i != id { assert Rows(w'.db, i) == Rows(w.db, i); }
    }
  }

  /** A request that touches one file of another tenant, or makes it. */
  lemma FileUndisturbed(w: World, w': World, f: Id, tenant: string)
    requires OnlyFile(w, w', f) && w'.db.files[f].tenant != tenant
    requires f in w.db.files ==> w.db.files[f].tenant != tenant
    ensures Undisturbed(w, w', tenant)
  {}

  lemma NothingDisturbed(w: World, w': World, tenant: string)
    requires w'.db == w.db && w'.disk.partFiles == w.disk.partFiles
    ensures Undisturbed(w, w', tenant)
  {}

  lemma PartUndisturbed(cfg: Settings, w: World, r: Request, tenant: string)
    requires ValidSettings(cfg) && Admissible(w, r) && I.Inv(w)
    requires ByAnother(r, tenant) && (r.SendPart? || r.DeclarePart?)
    ensures Undisturbed(w, Step(cfg, w, r).0, tenant)
  {
    match r
    case SendPart(id, t, n, body, declared, fault) =>
      SendRefusals(cfg, w, id, t, n, body, declared, fault);
      SendLeaves(cfg, w, id, t, n, body, declared, fault);
      UnlessForeign(w, ProxyPart(cfg, w, id, t, n, body, declared, fault).0, id, t, tenant);
    case DeclarePart(id, t, n, etag, size) =>
      DeclareDecided(cfg, w, id, t, n, etag, size);
      UnlessForeign(w, CommitPart(cfg, w, id, t, n, etag, size).0, id, t, tenant);
  }

  /** A request on an upload that is refused when it is not the caller's. */
  lemma UnlessForeign(w: World, w': World, id: Id, caller: string, tenant: string)
    requires caller != tenant && OtherUploadsKept(w, w', id) && w'.db.files == w.db.files
    requires Foreign(w, caller, id) ==> w' == w
    requires !Foreign(w, caller, id) ==> id in w'.db.sessions && w'.db.sessions[id].tenant == caller
    ensures Undisturbed(w, w', tenant)
  {
    if Foreign(w, caller, id) {
      NothingDisturbed(w, w', tenant);
    } else {
      ElsewhereUndisturbed(w, w', id, tenant);
    }
  }

  lemma ClosingUndisturbed(cfg: Settings, w: World, r: Request, tenant: string)
    requires ValidSettings(cfg) && Admissible(w, r) && I.Inv(w) && ByAnother(r, tenant)
    requires r.AbortUpload? || r.RefreshUpload?
    ensures Undisturbed(w, Step(cfg, w, r).0, tenant)
  {
    match r
    case AbortUpload(id, t, fault) =>
      AbortAnswers(w, id, t, fault);
      if Unfinished(w, t, id) {
        AbortLeaves(w, id, t, fault);
        UnlessForeign(w, Abort(w, id, t, fault).0, id, t, tenant);
      } else {
        NothingDisturbed(w, Abort(w, id, t, fault).0, tenant);
      }
    case RefreshUpload(id, t, now) =>
      RefreshDecided(cfg, w, id, t, now);
      if Refresh(cfg, w, id, t, now).1.Err? {
        NothingDisturbed(w, Refresh(cfg, w, id, t, now).0, tenant);
      } else {
        UnlessForeign(w, Refresh(cfg, w, id, t, now).0, id, t, tenant);
      }
  }

  lemma CreateUndisturbed(cfg: Settings, w: World, id: Id, r: CreateRequest, now: int, fault: Fault, tenant: string)
    requires ValidSettings(cfg) && id !in w.db.sessions && I.Inv(w) && r.tenant != tenant
    ensures Undisturbed(w, CreateSession(cfg, w, id, r, now, fault).0, tenant)
  {
    var (w', a) := CreateSession(cfg, w, id, r, now, fault);
    CreateRefusals(cfg, w, id, r, now, fault);
    if a.Err? {
      CreateRefusedLeaves(cfg, w, id, r, now, fault);
      NothingDisturbed(w, w', tenant);
    } else {
      CreateMakes(cfg, w, id, r, now);
      assert w' == CreateSession(cfg, w, id, r, now, NoFault).0;
      ElsewhereUndisturbed(w, w', id, tenant);
    }
  }

  lemma CompleteUndisturbed(cfg: Settings, w: World, id: Id, caller: string, file: Id, now: int, fault: Fault,
                            tenant: string)
    requires ValidSettings(cfg) && I.Inv(w) && file !in w.db.files && caller != tenant
    ensures Undisturbed(w, Complete(cfg, w, id, caller, file, now, fault).0, tenant)
  {
    var (w', a) := Complete(cfg, w, id, caller, file, now, fault);
    CompleteAnswers(cfg, w, id, caller, file, now, fault);
    CompleteLeaves(cfg, w, id, caller, file, now, fault);
    if a == Ok(file) {
      CompletedRowExact(cfg, w, id, caller, file, now, fault);
    }
    CompletedUndisturbed(w, w', id, caller, file, a == Ok(file), tenant);
  }

  lemma CompletedUndisturbed(w: World, w': World, id: Id, caller: string, file: Id, done: bool, tenant: string)
    requires caller != tenant && file !in w.db.files && OtherUploadsKept(w, w', id)
    requires if done then Concluded(w, w', id, file) && w'.db.files[file].tenant == caller else w'.db == w.db
    requires Foreign(w, caller, id) ==> w' == w
    ensures Undisturbed(w, w', tenant)
  {
    var back := w'.(db := w'.db.(files := w.db.files));
    if Foreign(w, caller, id) {
      NothingDisturbed(w, w', tenant);
    } else {
      forall other | other != id
        ensures (other in back.db.sessions <==> other in w.db.sessions)
          && (other in w.db.sessions ==> back.db.sessions[other] == w.db.sessions[other])
          && Rows(back.db, other) == Rows(w.db, other) && Stored(back.disk, other) == Stored(w.disk, other)
      {
        assert Rows(w'.db, other) == Rows(w.db, other);
      }
      ElsewhereUndisturbed(w, back, id, tenant);
      SameButFile(w, back, w', file, tenant);
    }
  }

  lemma SameButFile(w: World, back: World, w': World, file: Id, tenant: string)
    requires Undisturbed(w, back, tenant) && back == w'.(db := w'.db.(files := w.db.files)) && file !in w.db.files
    requires
      || w'.db.files == w.db.files
      || (file in w'.db.files && w'.db.files[file].tenant != tenant
          && w'.db.files == w.db.files[file := w'.db.files[file]])
    ensures Undisturbed(w, w', tenant)
  {
    forall id ensures SameUpload(w, w', tenant, id) {
      assert SameUpload(w, back, tenant, id);
    }
  }

  lemma FileRequestUndisturbed(cfg: Settings, w: World, r: Request, tenant: string)
    requires ValidSettings(cfg) && Admissible(w, r) && ByAnother(r, tenant) && (I.OnFile(r) || r.Put?)
    ensures Undisturbed(w, Step(cfg, w, r).0, tenant)
  {
    var (w', a) := Step(cfg, w, r);
    match r {
      case Put(file, put, now, fault) =>
        PutLeaves(cfg, w, file, put, now, fault);
        if a.Ok? { PutRowExact(cfg, w, file, put, now, fault); }
      case Delete(f, t, now, fault) => DeleteDecided(w, f, t, now, fault);
      case SetLifecycle(f, t, requested) => UpdateDecided(cfg, w, f, t, requested);
      case ExtendFile(f, t, seconds, now) => ExtendDecided(cfg, w, f, t, seconds, now);
      case KeepFile(f, t) => KeepDecided(cfg, w, f, t);
      case Hold(f, t, hold) => HoldDecided(w, f, t, hold);
    }
    if a.Ok? {
      FileUndisturbed(w, w', r.file, tenant);
    } else {
      NothingDisturbed(w, w', tenant);
    }
  }

  lemma StepUndisturbed(cfg: Settings, w: World, r: Request, tenant: string)
    requires ValidSettings(cfg) && Admissible(w, r) && I.Inv(w) && ByAnother(r, tenant)
    ensures Undisturbed(w, Step(cfg, w, r).0, tenant)
  {
    if r.SendPart? || r.DeclarePart? {
      PartUndisturbed(cfg, w, r, tenant);
    } else if r.AbortUpload? || r.RefreshUpload? {
      ClosingUndisturbed(cfg, w, r, tenant);
    } else if r.Create? {
      CreateUndisturbed(cfg, w, r.id, r.create, r.now, r.fault, tenant);
    } else if r.CompleteUpload? {
      CompleteUndisturbed(cfg, w, r.id, r.tenant, r.file, r.now, r.fault, tenant);
    } else {
      FileRequestUndisturbed(cfg, w, r, tenant);
    }
  }

  lemma UndisturbedTrans(a: World, b: World, c: World, tenant: string)
    requires Undisturbed(a, b, tenant) && Undisturbed(b, c, tenant)
    ensures Undisturbed(a, c, tenant)
  {
    forall id ensures SameUpload(a, c, tenant, id) {
      assert SameUpload(a, b, tenant, id) && SameUpload(b, c, tenant, id);
    }
    forall f ensures SameFile(a, c, tenant, f) {
      assert SameFile(a, b, tenant, f) && SameFile(b, c, tenant, f);
    }
  }

  /**
   * Isolation of the tables: over any run of other tenants' requests, with any faults, a tenant keeps
   * exactly its uploads, with their rows and part files, and exactly its file rows, all unchanged. (The
   * objects themselves are not covered: buckets and keys are one name space for all tenants.)
   */
  lemma {:induction false} TenantIsolation(cfg: Settings, w: World, rs: seq<Request>, tenant: string)
    requires ValidSettings(cfg) && I.Inv(w) && Run(cfg, w, rs) && forall r :: r in rs ==> ByAnother(r, tenant)
    ensures Undisturbed(w, Exec(cfg, w, rs), tenant)
    decreases |rs|
  {
    if rs == [] {
      NothingDisturbed(w, w, tenant);
    } else {
      var w1 := Step(cfg, w, rs[0]).0;
      assert rs[0] in rs && forall r :: r in rs[1..] ==> r in rs;
      StepUndisturbed(cfg, w, rs[0], tenant);
      I.StepKeepsInv(cfg, w, rs[0]);
      TenantIsolation(cfg, w1, rs[1..], tenant);
      UndisturbedTrans(w, w1, Exec(cfg, w, rs), tenant);
    }
  }
}
