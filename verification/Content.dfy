/** A file sliced, uploaded in any order and completed comes back byte for byte, and exactly when. */
module Content {
  import opened Basics
  import opened Slicing
  import opened Server
  import opened Invariants
  import opened Protocol
  import D = ParallelDownload

  // ------------------------------------------------------------------ assembling slices

  ghost predicate AreSlices(files: map<nat, bytes>, f: bytes, p: nat)
    requires p > 0
  {
    forall n :: n in files ==> 1 <= n <= TotalParts(|f|, p) && files[n] == Slice(f, p, n)
  }

  /** Increasing numbers of stored parts, none above k. */
  ghost predicate Numbered(files: map<nat, bytes>, ns: seq<nat>, k: nat) {
    && (forall i :: 0 <= i < |ns| ==> ns[i] in files && ns[i] <= k)
    && (forall i, j :: 0 <= i < j < |ns| ==> ns[i] < ns[j])
  }

  /**
   * n of the first k parts joined to `content`: never more than the first k parts, less when one is left
   * out of a non-empty file, and exactly those bytes when none is.
   */
  ghost predicate Assembled(content: bytes, n: nat, f: bytes, p: nat, k: nat)
    requires p > 0
  {
    && n <= k && |content| <= End(f, p, k) && (n < k && f != [] ==> |content| < End(f, p, k))
    && (n == k ==> content == f[..End(f, p, k)])
  }

  /** Part k joined on. */
  lemma TakeSlice(content: bytes, n: nat, f: bytes, p: nat, k: nat)
    requires p > 0 && 1 <= k <= TotalParts(|f|, p) && Assembled(content, n, f, p, k - 1)
    ensures Assembled(content + Slice(f, p, k), n + 1, f, p, k)
  {
    EndStep(f, p, k);
  }

  /** Part k left out. */
  lemma SkipSlice(content: bytes, n: nat, f: bytes, p: nat, k: nat)
    requires p > 0 && 1 <= k <= TotalParts(|f|, p) && Assembled(content, n, f, p, k - 1)
    ensures Assembled(content, n, f, p, k)
  {
    EndStep(f, p, k);
  }

  lemma FrontNumbered(files: map<nat, bytes>, ns: seq<nat>, k: nat)
    requires Numbered(files, ns, k) && ns != [] && k > 0
    ensures Numbered(files, ns[..|ns| - 1], k - 1)
  {
    var front := ns[..|ns| - 1];
    forall i | 0 <= i < |front| ensures front[i] in files && front[i] <= k - 1 {
      assert front[i] == ns[i] < ns[|ns| - 1];
    }
  }

  lemma AllBelow(files: map<nat, bytes>, ns: seq<nat>, k: nat)
    requires Numbered(files, ns, k) && k > 0 && (ns == [] || ns[|ns| - 1] != k)
    ensures Numbered(files, ns, k - 1)
  {
    forall i | 0 <= i < |ns| ensures ns[i] <= k - 1 {
      if i < |ns| - 1 { assert ns[i] < ns[|ns| - 1]; }
    }
  }

  lemma SomeNumbered(files: map<nat, bytes>, ns: seq<nat>, k: nat)
    requires Numbered(files, ns, k) && ns != [] && forall n :: n in files ==> n >= 1
    ensures k >= 1
  {
    assert ns[0] in files;
  }

  /** Increasing part numbers up to k: `Assembled` says what their slices, joined, are. */
  lemma {:induction false} AssembleSlices(files: map<nat, bytes>, ns: seq<nat>, f: bytes, p: nat, k: nat)
    requires p > 0 && AreSlices(files, f, p) && k <= TotalParts(|f|, p) && Numbered(files, ns, k)
    ensures Assembled(Assemble(files, ns), |ns|, f, p, k)
    decreases k
  {
    if ns != [] { SomeNumbered(files, ns, k); }
    if k == 0 {
      assert Assemble(files, []) == [];
    } else if ns != [] && ns[|ns| - 1] == k {
      var front := ns[..|ns| - 1];
      FrontNumbered(files, ns, k);
      AssembleSlices(files, front, f, p, k - 1);
      TakeSlice(Assemble(files, front), |front|, f, p, k);
    } else {
      AllBelow(files, ns, k);
      AssembleSlices(files, ns, f, p, k - 1);
      SkipSlice(Assemble(files, ns), |ns|, f, p, k);
    }
  }

  // ------------------------------------------------------------------ what is stored for an upload

  /** The upload is for a file of this size, and whatever is stored for it are slices of `f`. */
  ghost predicate SlicesOnly(w: World, id: Id, f: bytes) {
    && id in w.db.sessions && w.db.sessions[id].totalSize == |f| && w.db.sessions[id].partSize > 0
    && AreSlices(Stored(w.disk, id), f, w.db.sessions[id].partSize)
  }

  /** The owner sends nothing as a valid part of upload `id` but that part of `f`, unless the send breaks off. */
  ghost predicate SendsSlices(r: Request, id: Id, tenant: string, f: bytes, p: nat)
    requires p > 0
  {
    r.SendPart? && r.id == id && r.tenant == tenant && !Broken(r) && 1 <= r.part <= TotalParts(|f|, p) ==>
      r.body == Slice(f, p, r.part)
  }

  /** A part write that storage refuses, or whose body is not the size that was counted. */
  predicate Broken(r: Request)
    requires r.SendPart?
  {
    r.fault.StorageFault? || |r.body| != r.declared
  }

  lemma SendStored(cfg: Settings, w: World, id: Id, tenant: string, n: int, body: bytes, declared: int, fault: Fault,
                   other: Id)
    ensures var s := Stored(ProxyPart(cfg, w, id, tenant, n, body, declared, fault).0.disk, other);
      || s == Stored(w.disk, other)
      || (id == other && PartGuard(w.db, tenant, id, n).None?
          && (s == Stored(w.disk, id) - {n}
              || (s == Stored(w.disk, id)[n := body] && !fault.StorageFault? && |body| == declared)))
  {}

  /** No request but sending a part adds part files; completing and aborting remove all of an upload's. */
  lemma StoredAfter(cfg: Settings, w: World, r: Request, id: Id)
    requires ValidSettings(cfg) && Admissible(w, r) && !r.SendPart?
    ensures var s := Stored(Step(cfg, w, r).0.disk, id);
      s == Stored(w.disk, id) || (s == map[] && (r.CompleteUpload? || r.AbortUpload?) && r.id == id)
  {
    match r {
      case Create(_, _, _, _) =>
      case DeclarePart(i, tenant, n, etag, size) => DeclareStored(cfg, w, i, tenant, n, etag, size);
      case CompleteUpload(i, tenant, file, now, fault) => CompleteClears(cfg, w, i, tenant, file, now, fault);
      case AbortUpload(_, _, _) =>
      case RefreshUpload(_, _, _) =>
      case ExpireSessions(_, _, _, _) =>
      case Put(file, put, now, fault) => PutShape(cfg, w, file, put, now, fault);
      case RunWorker(files, now, _, failing, _) => WorkBatchLeaves(w, files, now, failing);
      case _ => FileRequestRewrites(cfg, w, r);
    }
  }

  lemma DeclareStored(cfg: Settings, w: World, id: Id, tenant: string, n: int, etag: string, size: int)
    ensures CommitPart(cfg, w, id, tenant, n, etag, size).0.disk == w.disk
  {}

  lemma StepSlices(cfg: Settings, w: World, r: Request, id: Id, f: bytes)
    requires ValidSettings(cfg) && Admissible(w, r) && Inv(w) && SlicesOnly(w, id, f)
    requires SendsSlices(r, id, w.db.sessions[id].tenant, f, w.db.sessions[id].partSize)
    ensures SlicesOnly(Step(cfg, w, r).0, id, f)
  {
    StepPersists(cfg, w, r);
    assert SessionOk(w.db.sessions[id]);
    if r.SendPart? {
      SendStored(cfg, w, r.id, r.tenant, r.part, r.body, r.declared, r.fault, id);
    } else {
      StoredAfter(cfg, w, r, id);
    }
  }

  /** Slices stay slices through any run in which the upload is sent nothing else. */
  lemma {:induction false} RunSlices(cfg: Settings, w: World, rs: seq<Request>, id: Id, f: bytes)
    requires ValidSettings(cfg) && Inv(w) && Run(cfg, w, rs) && SlicesOnly(w, id, f)
    requires forall r :: r in rs ==> SendsSlices(r, id, w.db.sessions[id].tenant, f, w.db.sessions[id].partSize)
    ensures SlicesOnly(Exec(cfg, w, rs), id, f)
    decreases |rs|
  {
    if rs != [] {
      assert rs[0] in rs && forall r :: r in rs[1..] ==> r in rs;
      StepSlices(cfg, w, rs[0], id, f);
      StepKeepsInv(cfg, w, rs[0]);
      StepPersists(cfg, w, rs[0]);
      RunSlices(cfg, Step(cfg, w, rs[0]).0, rs[1..], id, f);
    }
  }

  // ------------------------------------------------------------------ the completed object

  /** The upload was not yet completed and this complete succeeds. */
  ghost predicate Completes(cfg: Settings, w: World, id: Id, tenant: string, file: Id, now: int, fault: Fault) {
    && Complete(cfg, w, id, tenant, file, now, fault).1.Ok?
    && id in w.db.sessions && w.db.sessions[id].status != Completed
  }

  lemma JoinedObject(disk: Disk, id: Id, key: Key, fault: Fault, sha: bytes -> string)
    requires AssemblyOutcome(disk, id, key, fault, sha).1.Ok?
    ensures var (disk', joined) := AssemblyOutcome(disk, id, key, fault, sha);
      var stored := Stored(disk, id);
      && stored != map[] && key in disk'.objects && TempKey(key) !in disk'.objects
      && disk'.objects[key] == Assemble(stored, Increasing(stored.Keys)) && joined.value == sha(disk'.objects[key])
  {
    assert |TempKey(key).name| == |key.name| + 4;
  }

  lemma CompletedObject(cfg: Settings, w: World, id: Id, tenant: string, file: Id, now: int, fault: Fault)
    requires Inv(w) && Completes(cfg, w, id, tenant, file, now, fault)
    ensures var w' := Complete(cfg, w, id, tenant, file, now, fault).0;
      var s, stored := w.db.sessions[id], Stored(w.disk, id);
      && stored != map[] && !KeyTaken(w.db, tenant, s.key) && !Terminal(s.status) && s.tenant == tenant
      && s.key in w'.disk.objects && TempKey(s.key) !in w'.disk.objects
      && w'.disk.objects[s.key] == Assemble(stored, Increasing(stored.Keys))
      && file in w'.db.files && w'.db.files[file].size == s.totalSize && w'.db.files[file].key == s.key
      && w'.db.files[file].etag == cfg.sha(w'.disk.objects[s.key])
      && |CommittedParts(w.db, id)| >= s.totalParts
  {
    assert SessionOk(w.db.sessions[id]);
    JoinedObject(w.disk, id, w.db.sessions[id].key, fault, cfg.sha);
  }

  /**
   * Content preservation, exactly: when everything stored for an upload are slices of `f`, a successful
   * complete leaves the object equal to `f` if and only if a part file is stored for every part. (Rows
   * declared by the client without a stored file, or rows outliving lost files, pass the count test.)
   */
  lemma CompletedEqualsFile(cfg: Settings, w: World, id: Id, tenant: string, file: Id, now: int, fault: Fault, f: bytes)
    requires Inv(w) && SlicesOnly(w, id, f) && Completes(cfg, w, id, tenant, file, now, fault)
    ensures var key := w.db.sessions[id].key;
      var objects := Complete(cfg, w, id, tenant, file, now, fault).0.disk.objects;
      && key in objects
      && (objects[key] == f <==> Stored(w.disk, id).Keys == Interval(1, w.db.sessions[id].totalParts))
      && |objects[key]| <= |f|
  {
    CompletedObject(cfg, w, id, tenant, file, now, fault);
    assert SessionOk(w.db.sessions[id]);
    IncreasingMeans(Stored(w.disk, id).Keys);
    AssembledIsFile(Stored(w.disk, id), Increasing(Stored(w.disk, id).Keys), f, w.db.sessions[id].partSize);
  }

  /** Some stored slices, assembled, are the file exactly when all of its slices are there. */
  lemma AssembledIsFile(stored: map<nat, bytes>, ns: seq<nat>, f: bytes, p: nat)
    requires p > 0 && AreSlices(stored, f, p) && stored != map[]
    requires (forall n :: n in ns <==> n in stored.Keys) && |ns| == |stored.Keys|
    requires forall i, j :: 0 <= i < j < |ns| ==> ns[i] < ns[j]
    ensures Assemble(stored, ns) == f <==> stored.Keys == Interval(1, TotalParts(|f|, p))
    ensures |Assemble(stored, ns)| <= |f|
  {
    var n := TotalParts(|f|, p);
    LastEnd(f, p);
    EmptyFileOnePart(p);
    assert Numbered(stored, ns, n);
    AssembleSlices(stored, ns, f, p, n);
    FullExactly(stored.Keys, n);
    var m :| m in stored.Keys;
    assert m in ns;
  }

  lemma FullExactly(s: set<nat>, n: nat)
    requires forall m :: m in s ==> 1 <= m <= n
    ensures |s| <= n && (|s| == n <==> s == Interval(1, n))
  {
    IntervalSize(1, n);
    SubsetSize(s, Interval(1, n));
  }

  // ------------------------------------------------------------------ parts in doubt

  /**
   * The parts of upload `id` whose row may lack its file, as its owner can tell from the requests alone: a
   * part is in doubt once it was only declared or a send of it broke off, all parts are after a complete
   * that met a fault or an abort that failed to commit, and sending a part anew settles it.
   */
  function InDoubt(r: Request, id: Id, tenant: string, total: nat, doubt: set<int>): set<int> {
    match r
    case SendPart(i, t, n, _, _, _) =>
      if i != id || t != tenant then doubt else if Broken(r) then doubt + {n} else doubt - {n}
    case DeclarePart(i, t, n, _, _) => if i != id || t != tenant then doubt else doubt + {n}
    case CompleteUpload(i, t, _, _, fault) =>
      if i != id || t != tenant || fault.NoFault? then doubt else doubt + Interval(1, total)
    case AbortUpload(i, t, fault) =>
      if i != id || t != tenant || !fault.CommitFault? then doubt else doubt + Interval(1, total)
    case _ => doubt
  }

  function DoubtAfter(rs: seq<Request>, id: Id, tenant: string, total: nat, doubt: set<int>): set<int> {
    if rs == [] then doubt else DoubtAfter(rs[1..], id, tenant, total, InDoubt(rs[0], id, tenant, total, doubt))
  }

  /** Every committed row outside `doubt` has its part file. */
  ghost predicate Covered(w: World, id: Id, doubt: set<int>) {
    forall n :: n in CommittedParts(w.db, id) && n !in doubt ==> n in Stored(w.disk, id)
  }

  /** Rows of a live upload are backed by part files except for parts in doubt, or its key is taken. */
  ghost predicate BackedBut(w: World, id: Id, doubt: set<int>) {
    && id in w.db.sessions
    && (Terminal(w.db.sessions[id].status) || Covered(w, id, doubt)
        || KeyTaken(w.db, w.db.sessions[id].tenant, w.db.sessions[id].key))
  }

  ghost predicate Backed(w: World, id: Id) { BackedBut(w, id, {}) }

  /** The server takes parts of this upload's size: it does since the upload was created. */
  ghost predicate TakesParts(cfg: Settings, w: World, id: Id) {
    id in w.db.sessions && cfg.minimumPartSize <= w.db.sessions[id].partSize
  }

  /** Every slice passes the server's size check. */
  lemma SlicePassesGuard(cfg: Settings, s: Session, file: bytes, n: nat)
    requires SessionOk(s) && s.totalSize == |file| && cfg.minimumPartSize <= s.partSize && 1 <= n <= s.totalParts
    ensures !PartSizeRefused(cfg, s, n, |Slice(file, s.partSize, n)|)
  {
    SliceSize(file, s.partSize, n);
  }

  lemma KeyStaysTaken(db: Db, db': Db, tenant: string, key: Key)
    requires Persists(db, db') && KeyTaken(db, tenant, key)
    ensures KeyTaken(db', tenant, key)
  {
    var f :| f in db.files && db.files[f].tenant == tenant && db.files[f].key == key;
    assert f in db'.files && SameKey(db.files[f], db'.files[f]);
  }

  /** What the owner's send of a part does to a live upload that takes it. */
  lemma SendCovers(cfg: Settings, w: World, id: Id, tenant: string, n: int, body: bytes, declared: int, fault: Fault,
                   doubt: set<int>)
    requires Inv(w) && Owns(w.db, tenant, id) && !Terminal(w.db.sessions[id].status) && Covered(w, id, doubt)
    requires 1 <= n <= w.db.sessions[id].totalParts
    requires (fault.StorageFault? || !PartSizeRefused(cfg, w.db.sessions[id], n, declared))
    ensures var w' := ProxyPart(cfg, w, id, tenant, n, body, declared, fault).0;
      Covered(w', id, if fault.StorageFault? || |body| != declared then doubt + {n} else doubt - {n})
  {
    assert SessionOk(w.db.sessions[id]);
  }

  /** A send that is refused changes nothing. */
  lemma SendRefused(cfg: Settings, w: World, id: Id, tenant: string, n: int, body: bytes, declared: int, fault: Fault)
    requires PartGuard(w.db, tenant, id, n).Some? || PartSizeRefused(cfg, w.db.sessions[id], n, declared)
    ensures ProxyPart(cfg, w, id, tenant, n, body, declared, fault).0 == w
  {}

  lemma SendBacked(cfg: Settings, w: World, r: Request, id: Id, f: bytes, doubt: set<int>)
    requires ValidSettings(cfg) && Inv(w) && SlicesOnly(w, id, f) && TakesParts(cfg, w, id) && Covered(w, id, doubt)
    requires r.SendPart? && r.id == id && !Terminal(w.db.sessions[id].status)
    requires SendsSlices(r, id, w.db.sessions[id].tenant, f, w.db.sessions[id].partSize)
    ensures var s := w.db.sessions[id];
      Covered(ProxyPart(cfg, w, id, r.tenant, r.part, r.body, r.declared, r.fault).0, id,
              InDoubt(r, id, s.tenant, s.totalParts, doubt))
  {
    var s := w.db.sessions[id];
    assert SessionOk(s);
    CommittedInRange(w, id);
    if r.tenant != s.tenant || !(1 <= r.part <= s.totalParts) {
      SendRefused(cfg, w, id, r.tenant, r.part, r.body, r.declared, r.fault);
    } else {
      if !Broken(r) { SlicePassesGuard(cfg, s, f, r.part); }
      if PartSizeRefused(cfg, s, r.part, r.declared) {
        SendRefused(cfg, w, id, r.tenant, r.part, r.body, r.declared, r.fault);
      } else {
        SendCovers(cfg, w, id, r.tenant, r.part, r.body, r.declared, r.fault, doubt);
      }
    }
  }

  lemma DeclareBacked(cfg: Settings, w: World, r: Request, id: Id, doubt: set<int>)
    requires Inv(w) && id in w.db.sessions && Covered(w, id, doubt) && r.DeclarePart? && r.id == id
    ensures var s := w.db.sessions[id];
      Covered(CommitPart(cfg, w, id, r.tenant, r.part, r.etag, r.size).0, id,
              InDoubt(r, id, s.tenant, s.totalParts, doubt))
  {}

  lemma SendRows(cfg: Settings, w: World, id: Id, tenant: string, n: int, body: bytes, declared: int, fault: Fault,
                 other: Id)
    requires other != id
    ensures Rows(ProxyPart(cfg, w, id, tenant, n, body, declared, fault).0.db, other) == Rows(w.db, other)
  {}

  lemma DeclareRows(cfg: Settings, w: World, id: Id, tenant: string, n: int, etag: string, size: int, other: Id)
    requires other != id
    ensures Rows(CommitPart(cfg, w, id, tenant, n, etag, size).0.db, other) == Rows(w.db, other)
  {}

  lemma CreateRows(cfg: Settings, w: World, id: Id, r: CreateRequest, now: int, fault: Fault)
    requires ValidSettings(cfg)
    ensures CreateSession(cfg, w, id, r, now, fault).0.db.parts == w.db.parts
  {
    CreateShape(cfg, w, id, r, now, fault);
  }

  lemma CompleteRows(cfg: Settings, w: World, id: Id, tenant: string, file: Id, now: int, fault: Fault)
    requires Inv(w)
    ensures Complete(cfg, w, id, tenant, file, now, fault).0.db.parts == w.db.parts
  {
    CompleteShape(cfg, w, id, tenant, file, now, fault);
  }

  lemma FileRequestRows(cfg: Settings, w: World, r: Request)
    requires ValidSettings(cfg) && Admissible(w, r) && (r.Put? || r.RunWorker? || OnFile(r))
    ensures Step(cfg, w, r).0.db.parts == w.db.parts
  {
    match r {
      case Put(file, put, now, fault) => PutRows(cfg, w, file, put, now, fault);
      case RunWorker(files, now, _, failing, _) => WorkBatchLeaves(w, files, now, failing);
      case _ => FileRequestRewrites(cfg, w, r);
    }
  }

  lemma PutRows(cfg: Settings, w: World, file: Id, put: PutRequest, now: int, fault: Fault)
    ensures PutFile(cfg, w, file, put, now, fault).0.db.parts == w.db.parts
  {
    PutShape(cfg, w, file, put, now, fault);
  }

  lemma ClosingRows(cfg: Settings, w: World, r: Request)
    requires ValidSettings(cfg) && Admissible(w, r) && (r.AbortUpload? || r.RefreshUpload? || r.ExpireSessions?)
    ensures Step(cfg, w, r).0.db.parts == w.db.parts
  {}

  lemma PartRequestRows(cfg: Settings, w: World, r: Request, id: Id)
    requires ValidSettings(cfg) && Admissible(w, r) && (r.SendPart? || r.DeclarePart?) && r.id != id
    ensures Rows(Step(cfg, w, r).0.db, id) == Rows(w.db, id)
  {
    match r
    case SendPart(i, tenant, n, body, declared, fault) => SendRows(cfg, w, i, tenant, n, body, declared, fault, id);
    case DeclarePart(i, tenant, n, etag, size) => DeclareRows(cfg, w, i, tenant, n, etag, size, id);
  }

  lemma SessionRequestRows(cfg: Settings, w: World, r: Request)
    requires ValidSettings(cfg) && Admissible(w, r) && Inv(w) && (r.Create? || r.CompleteUpload?)
    ensures Step(cfg, w, r).0.db.parts == w.db.parts
  {
    match r
    case Create(i, create, now, fault) => CreateRows(cfg, w, i, create, now, fault);
    case CompleteUpload(i, tenant, file, now, fault) => CompleteRows(cfg, w, i, tenant, file, now, fault);
  }

  /** Only the two part endpoints write part rows, and only those of their upload. */
  lemma RowsAfter(cfg: Settings, w: World, r: Request, id: Id)
    requires ValidSettings(cfg) && Admissible(w, r) && Inv(w)
    requires !((r.SendPart? || r.DeclarePart?) && r.id == id)
    ensures Rows(Step(cfg, w, r).0.db, id) == Rows(w.db, id)
  {
    if r.SendPart? || r.DeclarePart? {
      PartRequestRows(cfg, w, r, id);
    } else if r.Create? || r.CompleteUpload? {
      SessionRequestRows(cfg, w, r);
    } else if r.AbortUpload? || r.RefreshUpload? || r.ExpireSessions? {
      ClosingRows(cfg, w, r);
    } else {
      FileRequestRows(cfg, w, r);
    }
  }

  /** Without a fault and with something stored, only the key constraint stands in the way. */
  lemma FinishDecides(cfg: Settings, w: World, id: Id, tenant: string, file: Id, now: int)
    requires Owns(w.db, tenant, id) && Stored(w.disk, id) != map[]
    ensures var w' := Finish(cfg, w, id, tenant, file, now, NoFault).0;
      if KeyTaken(w.db, tenant, w.db.sessions[id].key) then w'.db == w.db
      else id in w'.db.sessions && w'.db.sessions[id].status == Completed
  {}

  /** With nothing stored a complete finds no part file: rows and files are as before. */
  lemma FinishEmpty(cfg: Settings, w: World, id: Id, tenant: string, file: Id, now: int, fault: Fault)
    requires Owns(w.db, tenant, id) && Stored(w.disk, id) == map[]
    ensures var w' := Finish(cfg, w, id, tenant, file, now, fault).0; w'.db == w.db && Stored(w'.disk, id) == map[]
  {}

  /** A live upload whose key is free completes, is refused, or finds nothing stored; faults put all parts in doubt. */
  lemma CompleteBacked(cfg: Settings, w: World, r: Request, id: Id, doubt: set<int>)
    requires Inv(w) && r.CompleteUpload? && r.id == id && r.file !in w.db.files
    requires id in w.db.sessions && !Terminal(w.db.sessions[id].status) && Covered(w, id, doubt)
    requires !KeyTaken(w.db, w.db.sessions[id].tenant, w.db.sessions[id].key)
    ensures var s := w.db.sessions[id];
      BackedBut(Complete(cfg, w, id, r.tenant, r.file, r.now, r.fault).0, id,
                InDoubt(r, id, s.tenant, s.totalParts, doubt))
  {
    assert SessionOk(w.db.sessions[id]);
    CompleteShape(cfg, w, id, r.tenant, r.file, r.now, r.fault);
    CommittedInRange(w, id);
    if CompleteGuard(w, id, r.tenant).None? && r.fault.NoFault? {
      if Stored(w.disk, id) == map[] {
        FinishEmpty(cfg, w, id, r.tenant, r.file, r.now, r.fault);
      } else {
        FinishDecides(cfg, w, id, r.tenant, r.file, r.now);
      }
    }
  }

  lemma AbortBacked(w: World, r: Request, id: Id, doubt: set<int>)
    requires Inv(w) && r.AbortUpload? && r.id == id
    requires id in w.db.sessions && !Terminal(w.db.sessions[id].status) && Covered(w, id, doubt)
    ensures var s := w.db.sessions[id];
      BackedBut(Abort(w, id, r.tenant, r.fault).0, id, InDoubt(r, id, s.tenant, s.totalParts, doubt))
  {
    assert SessionOk(w.db.sessions[id]);
    CommittedInRange(w, id);
  }

  lemma OtherBacked(cfg: Settings, w: World, r: Request, id: Id, doubt: set<int>)
    requires ValidSettings(cfg) && Admissible(w, r) && Inv(w) && id in w.db.sessions && Covered(w, id, doubt)
    requires !((r.SendPart? || r.DeclarePart? || r.CompleteUpload? || r.AbortUpload?) && r.id == id)
    ensures Covered(Step(cfg, w, r).0, id, doubt)
  {
    RowsAfter(cfg, w, r, id);
    if r.SendPart? {
      SendStored(cfg, w, r.id, r.tenant, r.part, r.body, r.declared, r.fault, id);
    } else {
      StoredAfter(cfg, w, r, id);
    }
    assert CommittedParts(Step(cfg, w, r).0.db, id) == CommittedParts(w.db, id);
  }

  lemma TerminalStays(cfg: Settings, w: World, r: Request, id: Id)
    requires ValidSettings(cfg) && Admissible(w, r) && Inv(w)
    requires id in w.db.sessions && Terminal(w.db.sessions[id].status)
    ensures var db' := Step(cfg, w, r).0.db; id in db'.sessions && Terminal(db'.sessions[id].status)
  {
    StepPersists(cfg, w, r);
  }

  lemma TakenStays(cfg: Settings, w: World, r: Request, id: Id)
    requires ValidSettings(cfg) && Admissible(w, r) && Inv(w) && id in w.db.sessions
    requires KeyTaken(w.db, w.db.sessions[id].tenant, w.db.sessions[id].key)
    ensures var db' := Step(cfg, w, r).0.db;
      id in db'.sessions && KeyTaken(db', db'.sessions[id].tenant, db'.sessions[id].key)
  {
    StepPersists(cfg, w, r);
    KeyStaysTaken(w.db, Step(cfg, w, r).0.db, w.db.sessions[id].tenant, w.db.sessions[id].key);
  }

  /** The owner's or another's request on a live upload whose key is free. */
  lemma OwnBacked(cfg: Settings, w: World, r: Request, id: Id, f: bytes, doubt: set<int>)
    requires ValidSettings(cfg) && Admissible(w, r) && Inv(w)
    requires SlicesOnly(w, id, f) && TakesParts(cfg, w, id) && Covered(w, id, doubt)
    requires SendsSlices(r, id, w.db.sessions[id].tenant, f, w.db.sessions[id].partSize)
    requires (r.SendPart? || r.DeclarePart? || r.CompleteUpload? || r.AbortUpload?) && r.id == id
    requires !Terminal(w.db.sessions[id].status) && !KeyTaken(w.db, w.db.sessions[id].tenant, w.db.sessions[id].key)
    ensures var s := w.db.sessions[id];
      Covered(Step(cfg, w, r).0, id, InDoubt(r, id, s.tenant, s.totalParts, doubt))
      || BackedBut(Step(cfg, w, r).0, id, InDoubt(r, id, s.tenant, s.totalParts, doubt))
  {
    match r {
      case CompleteUpload(_, _, _, _, _) => CompleteBacked(cfg, w, r, id, doubt);
      case AbortUpload(_, _, _) => AbortBacked(w, r, id, doubt);
      case SendPart(_, _, _, _, _, _) => SendBacked(cfg, w, r, id, f, doubt);
      case DeclarePart(_, _, _, _, _) => DeclareBacked(cfg, w, r, id, doubt);
    }
  }

  lemma SessionStays(cfg: Settings, w: World, r: Request, id: Id)
    requires ValidSettings(cfg) && Admissible(w, r) && Inv(w) && id in w.db.sessions
    ensures id in Step(cfg, w, r).0.db.sessions
  {
    StepPersists(cfg, w, r);
  }

  lemma {:induction false} StepBacked(cfg: Settings, w: World, r: Request, id: Id, f: bytes, doubt: set<int>)
    requires ValidSettings(cfg) && Admissible(w, r) && Inv(w) && BackedBut(w, id, doubt)
    requires SlicesOnly(w, id, f) && TakesParts(cfg, w, id)
    requires SendsSlices(r, id, w.db.sessions[id].tenant, f, w.db.sessions[id].partSize)
    ensures var s := w.db.sessions[id]; BackedBut(Step(cfg, w, r).0, id, InDoubt(r, id, s.tenant, s.totalParts, doubt))
  {
    var s := w.db.sessions[id];
    SessionStays(cfg, w, r, id);
    if Terminal(s.status) {
      TerminalStays(cfg, w, r, id);
    } else if KeyTaken(w.db, s.tenant, s.key) {
      TakenStays(cfg, w, r, id);
    } else if (r.SendPart? || r.DeclarePart? || r.CompleteUpload? || r.AbortUpload?) && r.id == id {
      OwnBacked(cfg, w, r, id, f, doubt);
    } else {
      OtherBacked(cfg, w, r, id, doubt);
    }
  }

  /** Over any run in which the upload is sent nothing but slices, rows stay backed except for the parts in doubt. */
  lemma {:induction false} RunBacked(cfg: Settings, w: World, rs: seq<Request>, id: Id, f: bytes, doubt: set<int>)
    requires ValidSettings(cfg) && Inv(w) && Run(cfg, w, rs) && BackedBut(w, id, doubt)
    requires SlicesOnly(w, id, f) && TakesParts(cfg, w, id)
    requires forall r :: r in rs ==> SendsSlices(r, id, w.db.sessions[id].tenant, f, w.db.sessions[id].partSize)
    ensures var s := w.db.sessions[id];
      BackedBut(Exec(cfg, w, rs), id, DoubtAfter(rs, id, s.tenant, s.totalParts, doubt))
    decreases |rs|
  {
    if rs != [] {
      assert rs[0] in rs && forall r :: r in rs[1..] ==> r in rs;
      StepBacked(cfg, w, rs[0], id, f, doubt);
      StepSlices(cfg, w, rs[0], id, f);
      StepKeepsInv(cfg, w, rs[0]);
      StepPersists(cfg, w, rs[0]);
      var s := w.db.sessions[id];
      RunBacked(cfg, Step(cfg, w, rs[0]).0, rs[1..], id, f, InDoubt(rs[0], id, s.tenant, s.totalParts, doubt));
    }
  }

  lemma FreshUpload(cfg: Settings, w: World, id: Id, r: CreateRequest, now: int)
    requires ValidSettings(cfg) && Inv(w) && id !in w.db.sessions
    requires CreateSession(cfg, w, id, r, now, NoFault).1.Ok?
    ensures var w' := CreateSession(cfg, w, id, r, now, NoFault).0;
      && Backed(w', id) && w'.db.sessions[id].totalSize == r.totalSize && w'.db.sessions[id].partSize > 0
      && Stored(w'.disk, id) == map[] && w'.db.sessions[id].tenant == r.tenant && TakesParts(cfg, w', id)
  {}

  /** The owner of upload `id` sends slices of `f` only, and after the run no part is left in doubt. */
  ghost predicate Faithful(rs: seq<Request>, id: Id, s: Session, f: bytes)
    requires s.partSize > 0
  {
    && (forall r :: r in rs ==> SendsSlices(r, id, s.tenant, f, s.partSize))
    && DoubtAfter(rs, id, s.tenant, s.totalParts, {}) == {}
  }

  lemma FaithfulRun(cfg: Settings, w: World, id: Id, f: bytes, rs: seq<Request>)
    requires ValidSettings(cfg) && Inv(w) && Run(cfg, w, rs)
    requires SlicesOnly(w, id, f) && Backed(w, id) && TakesParts(cfg, w, id)
    requires Faithful(rs, id, w.db.sessions[id], f)
    ensures Inv(Exec(cfg, w, rs)) && SlicesOnly(Exec(cfg, w, rs), id, f) && Backed(Exec(cfg, w, rs), id)
  {
    RunKeepsInv(cfg, w, rs);
    RunSlices(cfg, w, rs, id, f);
    RunBacked(cfg, w, rs, id, f, {});
  }

  /** A backed upload that passes the count test has every part stored. */
  lemma BackedFull(w: World, id: Id)
    requires Inv(w) && Backed(w, id) && !Terminal(w.db.sessions[id].status)
    requires !KeyTaken(w.db, w.db.sessions[id].tenant, w.db.sessions[id].key)
    requires |CommittedParts(w.db, id)| >= w.db.sessions[id].totalParts
    ensures Stored(w.disk, id).Keys == Interval(1, w.db.sessions[id].totalParts)
  {
    CountTestExact(w, id);
  }

  /** A successful complete of a backed upload finds every part stored, so its object is the file. */
  lemma BackedCompletes(cfg: Settings, w: World, id: Id, tenant: string, file: Id, now: int, fault: Fault, f: bytes)
    requires Inv(w) && SlicesOnly(w, id, f) && Backed(w, id) && Completes(cfg, w, id, tenant, file, now, fault)
    ensures Stored(w.disk, id).Keys == Interval(1, w.db.sessions[id].totalParts)
    ensures var after, key := Complete(cfg, w, id, tenant, file, now, fault).0, w.db.sessions[id].key;
      && key in after.disk.objects && after.disk.objects[key] == f
      && file in after.db.files && after.db.files[file].key == key
      && after.db.files[file].size == |f| && after.db.files[file].etag == cfg.sha(f)
  {
    CompletedObject(cfg, w, id, tenant, file, now, fault);
    BackedFull(w, id);
    CompletedEqualsFile(cfg, w, id, tenant, file, now, fault, f);
  }

  /**
   * Content preservation over runs. Create an upload for a file `f` in any reachable state; then let any
   * requests happen, of this client and of others, with any faults, with the parts of `f` sent in any
   * order and any number of times. If the owner sent nothing but slices of `f` and re-sent every part
   * left in doubt, every successful complete leaves the object equal to `f`, and a file row with its
   * size and hash.
   */
  lemma ContentPreserved(cfg: Settings, w: World, id: Id, create: CreateRequest, t: int, w1: World, f: bytes,
                         rs: seq<Request>, tenant: string, file: Id, now: int, fault: Fault)
    requires ValidSettings(cfg) && Inv(w) && id !in w.db.sessions && create.totalSize == |f|
    requires CreateSession(cfg, w, id, create, t, NoFault) == (w1, Ok(id))
    requires id in w1.db.sessions && w1.db.sessions[id].partSize > 0 && Run(cfg, w1, rs)
    requires Faithful(rs, id, w1.db.sessions[id], f)
    requires Completes(cfg, Exec(cfg, w1, rs), id, tenant, file, now, fault)
    ensures var before := Exec(cfg, w1, rs);
      var after, key := Complete(cfg, before, id, tenant, file, now, fault).0, before.db.sessions[id].key;
      && key in after.disk.objects && after.disk.objects[key] == f
      && file in after.db.files && after.db.files[file].key == key
      && after.db.files[file].size == |f| && after.db.files[file].etag == cfg.sha(f)
  {
    FreshUpload(cfg, w, id, create, t);
    CreateKeepsInv(cfg, w, id, create, t, NoFault);
    FaithfulRun(cfg, w1, id, f, rs);
    BackedCompletes(cfg, Exec(cfg, w1, rs), id, tenant, file, now, fault, f);
  }

  // ------------------------------------------------------------------ what each request does to each object

  /** What is stored under a key. */
  function ObjectAt(w: World, k: Key): Option<bytes> {
    if k in w.disk.objects then Some(w.disk.objects[k]) else None
  }

  /** A file of the batch whose deletion goes through names the key. */
  ghost predicate WorkerDeletes(db: Db, batch: seq<Id>, failing: set<Id>, k: Key) {
    exists f :: f in batch && f in db.files && DeletesObject(db.files[f], f in failing, k)
  }

  predicate DeletesObject(row: FileRow, storageFails: bool, k: Key) {
    row.key == k && row.action == "delete" && !row.legalHold && !storageFails
  }

  /**
   * What a request leaves under key `k`: nothing to say (None) when it does not touch it, and otherwise
   * the content it writes there, or no object.
   */
  ghost function Effect(cfg: Settings, w: World, r: Request, k: Key): Option<Option<bytes>>
    requires ValidSettings(cfg)
  {
    match r
    case CompleteUpload(id, tenant, _, _, fault) =>
      if CompleteGuard(w, id, tenant).Some? then None
      else
        var key, stored := w.db.sessions[id].key, Stored(w.disk, id);
        if fault.StorageFault? then if k == TempKey(key) && fault.debris.Some? then Some(fault.debris) else None
        else if stored == map[] then if k == TempKey(key) then Some(Some([])) else None
        else if k == key then Some(Some(Assemble(stored, Increasing(stored.Keys))))
        else if k == TempKey(key) then Some(None) else None
    case Put(_, put, now, fault) =>
      (match PlanPut(cfg, w.disk.objects, put, now)
       case Err(_) => None
       case Ok((key, _)) =>
         if k == TempKey(key) then Some(None)
         else if k != key || fault.StorageFault? then None
         else if put.checksum.Some? && put.checksum.value != cfg.sha(put.body) then Some(None)
         else Some(Some(put.body)))
    case Delete(f, tenant, _, fault) =>
      if OwnsFile(w.db, tenant, f) && w.db.files[f].status == ActiveFile && !w.db.files[f].legalHold
         && !fault.StorageFault?
         && k == w.db.files[f].key
      then Some(None) else None
    case RunWorker(files, _, _, failing, _) => if WorkerDeletes(w.db, files, failing, k) then Some(None) else None
    case _ => None
  }

  /** What is under `k` after an effect. */
  function Apply(effect: Option<Option<bytes>>, before: Option<bytes>): Option<bytes> { effect.GetOr(before) }

  lemma TempDiffers(key: Key)
    ensures TempKey(key) != key
  {
    assert |TempKey(key).name| == |key.name| + 4;
  }

  lemma CompleteEffect(cfg: Settings, w: World, id: Id, tenant: string, file: Id, now: int, fault: Fault, k: Key)
    requires ValidSettings(cfg)
    ensures ObjectAt(Complete(cfg, w, id, tenant, file, now, fault).0, k)
      == Apply(Effect(cfg, w, CompleteUpload(id, tenant, file, now, fault), k), ObjectAt(w, k))
  {
    if CompleteGuard(w, id, tenant).None? {
      TempDiffers(w.db.sessions[id].key);
      FinishObjects(cfg, w, id, tenant, file, now, fault);
    }
  }

  lemma FinishObjects(cfg: Settings, w: World, id: Id, tenant: string, file: Id, now: int, fault: Fault)
    requires Owns(w.db, tenant, id)
    ensures Finish(cfg, w, id, tenant, file, now, fault).0.disk.objects
      == AssemblyOutcome(w.disk, id, w.db.sessions[id].key, fault, cfg.sha).0.objects
  {}

  lemma PutEffect(cfg: Settings, w: World, file: Id, put: PutRequest, now: int, fault: Fault, k: Key)
    requires ValidSettings(cfg)
    ensures ObjectAt(PutFile(cfg, w, file, put, now, fault).0, k)
      == Apply(Effect(cfg, w, Put(file, put, now, fault), k), ObjectAt(w, k))
  {
    var plan := PlanPut(cfg, w.disk.objects, put, now);
    if plan.Ok? {
      TempDiffers(plan.value.0);
      PutObjects(cfg, w, file, put, now, fault, plan.value.0);
    }
  }

  lemma PutObjects(cfg: Settings, w: World, file: Id, put: PutRequest, now: int, fault: Fault, key: Key)
    requires var plan := PlanPut(cfg, w.disk.objects, put, now); plan.Ok? && plan.value.0 == key
    ensures PutFile(cfg, w, file, put, now, fault).0.disk.objects ==
      if fault.StorageFault? then w.disk.objects - {TempKey(key)}
      else if put.checksum.Some? && put.checksum.value != cfg.sha(put.body) then
        Replace(w.disk.objects, key, put.body) - {key}
      else Replace(w.disk.objects, key, put.body)
  {}

  lemma ItemEffect(w: World, f: Id, now: int, storageFails: bool, k: Key)
    requires f in w.db.files
    ensures ObjectAt(WorkItem(w, f, now, storageFails), k)
      == if DeletesObject(w.db.files[f], storageFails, k) then None else ObjectAt(w, k)
  {}

  lemma {:induction false} BatchEffect(w: World, batch: seq<Id>, now: int, failing: set<Id>, k: Key)
    requires forall f :: f in batch ==> f in w.db.files
    requires forall i, j :: 0 <= i < j < |batch| ==> batch[i] != batch[j]
    ensures ObjectAt(WorkBatch(w, batch, now, failing).0, k)
      == if WorkerDeletes(w.db, batch, failing, k) then None else ObjectAt(w, k)
  {
    if batch != [] {
      var m := |batch| - 1;
      var front, f := batch[..m], batch[m];
      assert forall g :: g in batch <==> g in front || g == f;
      BatchEffect(w, front, now, failing, k);
      BatchLeaves(w, front, now, failing, f);
      ItemEffect(WorkBatch(w, front, now, failing).0, f, now, f in failing, k);
    }
  }

  lemma QuietEffect(cfg: Settings, w: World, r: Request, k: Key)
    requires ValidSettings(cfg) && Admissible(w, r)
    requires !r.CompleteUpload? && !r.Put? && !r.Delete? && !r.RunWorker?
    ensures Step(cfg, w, r).0.disk.objects == w.disk.objects
  {}

  /** Every request leaves under every key exactly what `Effect` says. */
  lemma StepEffect(cfg: Settings, w: World, r: Request, k: Key)
    requires ValidSettings(cfg) && Admissible(w, r)
    ensures ObjectAt(Step(cfg, w, r).0, k) == Apply(Effect(cfg, w, r, k), ObjectAt(w, k))
  {
    match r {
      case CompleteUpload(id, tenant, file, now, fault) => CompleteEffect(cfg, w, id, tenant, file, now, fault, k);
      case Put(file, put, now, fault) => PutEffect(cfg, w, file, put, now, fault, k);
      case Delete(f, tenant, now, fault) =>
      case RunWorker(files, now, _, failing, _) => BatchEffect(w, files, now, failing, k);
      case _ => QuietEffect(cfg, w, r, k);
    }
  }

  /** An object survives a request exactly when the request does not touch it or writes what is there already. */
  lemma SurvivesExactly(cfg: Settings, w: World, r: Request, k: Key)
    requires ValidSettings(cfg) && Admissible(w, r)
    ensures ObjectAt(Step(cfg, w, r).0, k) == ObjectAt(w, k) <==>
      Effect(cfg, w, r, k) == None || Effect(cfg, w, r, k) == Some(ObjectAt(w, k))
  {
    StepEffect(cfg, w, r, k);
  }

  /** Completing an upload again touches nothing. */
  lemma CompleteAgainTouchesNothing(cfg: Settings, w: World, id: Id, file: Id, now: int, fault: Fault, k: Key)
    requires ValidSettings(cfg) && Inv(w) && id in w.db.sessions && w.db.sessions[id].status == Completed
    ensures Effect(cfg, w, CompleteUpload(id, w.db.sessions[id].tenant, file, now, fault), k) == None
  {
    CompleteAgain(cfg, w, id, file, now, fault);
    assert CompleteGuard(w, id, w.db.sessions[id].tenant).Some?;
  }

  /**
   * A complete whose key already belongs to another file of the tenant is refused, but only after the
   * bytes were replaced: exactly when its checks pass, storage works and something is stored for it, the
   * other file's object becomes this upload's assembly, under an unchanged row.
   */
  lemma RefusedCompleteOverwrites(cfg: Settings, w: World, id: Id, tenant: string, file: Id, now: int, fault: Fault,
                                  g: Id)
    requires ValidSettings(cfg) && Inv(w) && Owns(w.db, tenant, id)
    requires g in w.db.files && w.db.files[g].tenant == tenant && w.db.files[g].key == w.db.sessions[id].key
    ensures var (w', r) := Complete(cfg, w, id, tenant, file, now, fault);
      var key, stored := w.db.sessions[id].key, Stored(w.disk, id);
      && w'.db == w.db
      && (CompleteGuard(w, id, tenant).None? && !fault.StorageFault? && stored != map[] <==> r == Err(IntegrityError))
      && ObjectAt(w', key) == if r == Err(IntegrityError) then Some(Assemble(stored, Increasing(stored.Keys)))
      else ObjectAt(w, key)
  {
    assert KeyTaken(w.db, tenant, w.db.sessions[id].key);
    CompleteEffect(cfg, w, id, tenant, file, now, fault, w.db.sessions[id].key);
    TempDiffers(w.db.sessions[id].key);
  }

  /**
   * The one-request upload has the same hazard, and a legal hold on the other file does not help: the row
   * stays, but its object is gone after a wrong checksum and replaced after the key conflict.
   */
  lemma RefusedPutOverwrites(cfg: Settings, w: World, file: Id, put: PutRequest, now: int, fault: Fault, g: Id)
    requires ValidSettings(cfg) && g in w.db.files && w.db.files[g].tenant == put.tenant
    requires var plan := PlanPut(cfg, w.disk.objects, put, now); plan.Ok? && plan.value.0 == w.db.files[g].key
    ensures var (w', r) := PutFile(cfg, w, file, put, now, fault);
      var key := w.db.files[g].key;
      && w'.db == w.db
      && (if fault.StorageFault? then r == Err(StorageUnavailable) && ObjectAt(w', key) == ObjectAt(w, key)
          else if put.checksum.Some? && put.checksum.value != cfg.sha(put.body) then
            r == Err(ChecksumMismatch) && ObjectAt(w', key) == None
          else r == Err(IntegrityError) && ObjectAt(w', key) == Some(put.body))
  {
    assert KeyTaken(w.db, put.tenant, w.db.files[g].key);
    PutEffect(cfg, w, file, put, now, fault, w.db.files[g].key);
    TempDiffers(w.db.files[g].key);
  }

  ghost predicate Untouched(cfg: Settings, w: World, rs: seq<Request>, k: Key)
    requires ValidSettings(cfg) && Run(cfg, w, rs)
    decreases |rs|
  {
    rs == [] || (Effect(cfg, w, rs[0], k) == None && Untouched(cfg, Step(cfg, w, rs[0]).0, rs[1..], k))
  }

  /** Over any run that never touches a key, its object and the life of the files that name it stay. */
  lemma {:induction false} RunLeavesObject(cfg: Settings, w: World, rs: seq<Request>, g: Id)
    requires ValidSettings(cfg) && Inv(w) && Run(cfg, w, rs)
    requires g in w.db.files && Untouched(cfg, w, rs, w.db.files[g].key)
    ensures var (w', key) := (Exec(cfg, w, rs), w.db.files[g].key);
      && ObjectAt(w', key) == ObjectAt(w, key)
      && g in w'.db.files && SameKey(w'.db.files[g], w.db.files[g])
      && w'.db.files[g].size == w.db.files[g].size && w'.db.files[g].status == w.db.files[g].status
    decreases |rs|
  {
    if rs != [] {
      var key := w.db.files[g].key;
      StepEffect(cfg, w, rs[0], key);
      StepPersists(cfg, w, rs[0]);
      StepKeepsInv(cfg, w, rs[0]);
      StepKeepsStatus(cfg, w, rs[0], g);
      RunLeavesObject(cfg, Step(cfg, w, rs[0]).0, rs[1..], g);
    }
  }

  /** The row of file `g` keeps its status. */
  ghost predicate SameStatus(db: Db, db': Db, g: Id)
    requires g in db.files
  {
    g in db'.files && db'.files[g].status == db.files[g].status
  }

  lemma CompleteStatus(cfg: Settings, w: World, id: Id, tenant: string, file: Id, now: int, fault: Fault, g: Id)
    requires Inv(w) && file !in w.db.files && g in w.db.files
    ensures SameStatus(w.db, Complete(cfg, w, id, tenant, file, now, fault).0.db, g)
  {
    CompleteShape(cfg, w, id, tenant, file, now, fault);
  }

  lemma PutStatus(cfg: Settings, w: World, file: Id, put: PutRequest, now: int, fault: Fault, g: Id)
    requires file !in w.db.files && g in w.db.files
    ensures SameStatus(w.db, PutFile(cfg, w, file, put, now, fault).0.db, g)
  {
    PutShape(cfg, w, file, put, now, fault);
  }

  lemma AddingStatus(cfg: Settings, w: World, r: Request, g: Id)
    requires ValidSettings(cfg) && Admissible(w, r) && Inv(w)
    requires g in w.db.files && (r.CompleteUpload? || r.Put? || r.Create?)
    ensures SameStatus(w.db, Step(cfg, w, r).0.db, g)
  {
    match r
    case CompleteUpload(id, tenant, file, now, fault) => CompleteStatus(cfg, w, id, tenant, file, now, fault, g);
    case Put(file, put, now, fault) => PutStatus(cfg, w, file, put, now, fault, g);
    case Create(id, create, now, fault) => CreateShape(cfg, w, id, create, now, fault);
  }

  lemma RemovingStatus(cfg: Settings, w: World, r: Request, g: Id)
    requires ValidSettings(cfg) && Admissible(w, r) && g in w.db.files && (r.RunWorker? || r.Delete?)
    requires Effect(cfg, w, r, w.db.files[g].key) == None
    ensures SameStatus(w.db, Step(cfg, w, r).0.db, g)
  {
    if r.RunWorker? { BatchStatus(w, r.files, r.now, r.failing, g); }
  }

  lemma QuietStatus(cfg: Settings, w: World, r: Request, g: Id)
    requires ValidSettings(cfg) && Admissible(w, r) && g in w.db.files
    requires !r.CompleteUpload? && !r.Put? && !r.RunWorker? && !r.Delete? && !r.Create?
    ensures SameStatus(w.db, Step(cfg, w, r).0.db, g)
  {}

  /** A file row is marked deleted only by a request that removes its object. */
  lemma StepKeepsStatus(cfg: Settings, w: World, r: Request, g: Id)
    requires ValidSettings(cfg) && Admissible(w, r) && Inv(w) && g in w.db.files
    requires Effect(cfg, w, r, w.db.files[g].key) == None
    ensures SameStatus(w.db, Step(cfg, w, r).0.db, g)
  {
    if r.CompleteUpload? || r.Put? || r.Create? {
      AddingStatus(cfg, w, r, g);
    } else if r.RunWorker? || r.Delete? {
      RemovingStatus(cfg, w, r, g);
    } else {
      QuietStatus(cfg, w, r, g);
    }
  }

  lemma {:induction false} BatchStatus(w: World, batch: seq<Id>, now: int, failing: set<Id>, g: Id)
    requires forall f :: f in batch ==> f in w.db.files
    requires forall i, j :: 0 <= i < j < |batch| ==> batch[i] != batch[j]
    requires g in w.db.files && !WorkerDeletes(w.db, batch, failing, w.db.files[g].key)
    ensures WorkBatch(w, batch, now, failing).0.db.files[g].status == w.db.files[g].status
  {
    if batch != [] {
      var m := |batch| - 1;
      var front, f := batch[..m], batch[m];
      assert forall h :: h in batch <==> h in front || h == f;
      BatchStatus(w, front, now, failing, g);
      BatchLeaves(w, front, now, failing, f);
      assert !DeletesObject(w.db.files[f], f in failing, w.db.files[g].key);
      ItemStatus(WorkBatch(w, front, now, failing).0, f, now, f in failing, g);
    }
  }

  lemma ItemStatus(w: World, f: Id, now: int, fails: bool, g: Id)
    requires f in w.db.files && g in w.db.files
    requires f == g ==> !DeletesObject(w.db.files[f], fails, w.db.files[f].key)
    ensures g in WorkItem(w, f, now, fails).db.files
    ensures WorkItem(w, f, now, fails).db.files[g].status == w.db.files[g].status
  {
    WorkItemRewrites(w, f, now, fails);
  }

  // ------------------------------------------------------------------ upload, wait, download

  /**
   * The whole way: create an upload for `f`, any run that is faithful to it, a successful complete, any
   * run that does not touch its object, and a parallel download of the file by any number of workers,
   * any chunking and any interleaving. The downloaded file is `f`.
   */
  lemma UploadDownloadRoundTrip(cfg: Settings, w: World, id: Id, create: CreateRequest, t: int, w1: World, f: bytes,
                                rs: seq<Request>, tenant: string, file: Id, now: int, fault: Fault, w2: World,
                                later: seq<Request>, transfer: D.Transfer, schedule: seq<D.Action>)
    requires ValidSettings(cfg) && Inv(w) && id !in w.db.sessions && create.totalSize == |f|
    requires CreateSession(cfg, w, id, create, t, NoFault) == (w1, Ok(id))
    requires id in w1.db.sessions && w1.db.sessions[id].partSize > 0 && Run(cfg, w1, rs)
    requires Faithful(rs, id, w1.db.sessions[id], f)
    requires Completes(cfg, Exec(cfg, w1, rs), id, tenant, file, now, fault) && file !in Exec(cfg, w1, rs).db.files
    requires w2 == Complete(cfg, Exec(cfg, w1, rs), id, tenant, file, now, fault).0
    requires Run(cfg, w2, later) && file in w2.db.files && Untouched(cfg, w2, later, w2.db.files[file].key)
    requires DownloadRun(Exec(cfg, w2, later), file, transfer, schedule)
    ensures var w3 := Exec(cfg, w2, later);
      && w3.db.files[file].status == ActiveFile && w3.db.files[file].tenant == tenant
      && D.RunAll(transfer, Announced(w3, file), schedule).dest == f
  {
    var before := Exec(cfg, w1, rs);
    ContentPreserved(cfg, w, id, create, t, w1, f, rs, tenant, file, now, fault);
    CreateKeepsInv(cfg, w, id, create, t, NoFault);
    RunKeepsInv(cfg, w1, rs);
    CompleteKeepsInv(cfg, before, id, tenant, file, now, fault);
    CompletedRow(cfg, before, id, tenant, file, now, fault);
    RunLeavesObject(cfg, w2, later, file);
    var w3 := Exec(cfg, w2, later);
    D.ParallelDownloadCorrect(transfer, w3.disk.objects[w3.db.files[file].key], w3.db.files[file].size, schedule);
  }

  lemma CompletedRow(cfg: Settings, w: World, id: Id, tenant: string, file: Id, now: int, fault: Fault)
    requires Inv(w) && Completes(cfg, w, id, tenant, file, now, fault)
    ensures var w' := Complete(cfg, w, id, tenant, file, now, fault).0;
      file in w'.db.files && w'.db.files[file].status == ActiveFile && w'.db.files[file].tenant == tenant
  {
    assert SessionOk(w.db.sessions[id]);
  }

  /** The bytes a download of a file is to produce: its object, fitted to the size in its row. */
  ghost function Announced(w: World, file: Id): bytes
    requires file in w.db.files && w.db.files[file].key in w.disk.objects && w.db.files[file].size >= 0
  {
    D.Fit(w.disk.objects[w.db.files[file].key], w.db.files[file].size)
  }

  /** A download of `file` that has begun, and a schedule of its workers after which none can act. */
  ghost predicate DownloadRun(w: World, file: Id, t: D.Transfer, schedule: seq<D.Action>) {
    && file in w.db.files && w.db.files[file].key in w.disk.objects && w.db.files[file].size >= 0
    && D.Begins(t, w.disk.objects[w.db.files[file].key], w.db.files[file].size)
    && D.Inv(t, Announced(w, file)) && D.Feasible(t, Announced(w, file), schedule)
    && forall a :: !D.Enabled(D.RunAll(t, Announced(w, file), schedule), a)
  }
}
