/** The upload loops of the SDK and of the portal, run against the server's services. */
module Clients {
  import opened Basics
  import opened Slicing
  import opened Server
  import opened Invariants
  import opened Protocol
  import opened Content
  import opened Services

  const READ_SIZE: nat := 1_048_576

  /** `_part_sha256`: hashes at most `size` bytes from `offset`, 1 MiB at a time. */
  method PartSha256(sha: bytes -> string, file: bytes, offset: nat, size: nat) returns (digest: string)
    requires offset <= |file|
    ensures digest == sha(file[offset..Min(offset + size, |file|)])
  {
    var remaining, position := size, offset;
    var seen: bytes := [];
    var more := true;
    while more && remaining > 0
      invariant offset <= position <= Min(offset + size, |file|) && remaining == size - (position - offset)
      invariant seen == file[offset..position]
      invariant !more ==> position == |file|
      decreases more, remaining
    {
      var chunk := file[position..Min(position + Min(READ_SIZE, remaining), |file|)];
      if chunk == [] {
        more := false;
      } else {
        seen := seen + chunk;
        position := position + |chunk|;
        remaining := remaining - |chunk|;
      }
    }
    digest := sha(seen);
  }

  // ------------------------------------------------------------------ sending one part

  /** `tenant` is uploading `file` as upload `id` with parts of size `p`, and only its slices are stored. */
  ghost predicate UploadOf(cfg: Settings, w: World, id: Id, tenant: string, file: bytes, p: nat) {
    && Inv(w) && Owns(w.db, tenant, id) && SlicesOnly(w, id, file)
    && w.db.sessions[id].partSize == p && cfg.minimumPartSize <= p
  }

  /** What sending a slice of a live upload does: it is stored and committed, and nothing else changes. */
  lemma SliceSent(cfg: Settings, w: World, id: Id, tenant: string, file: bytes, p: nat, n: nat)
    requires ValidSettings(cfg) && UploadOf(cfg, w, id, tenant, file, p)
    requires 1 <= n <= TotalParts(|file|, p)
    ensures var body := Slice(file, p, n);
      var (w', r) := ProxyPart(cfg, w, id, tenant, n, body, |body|, NoFault);
      && UploadOf(cfg, w', id, tenant, file, p) && w'.db.sessions[id].key == w.db.sessions[id].key
      && (Backed(w, id) ==> Backed(w', id))
      && (r.Ok? <==> !Terminal(w.db.sessions[id].status))
      && (r.Ok? ==> CommittedParts(w'.db, id) == CommittedParts(w.db, id) + {n}
                    && Stored(w'.disk, id).Keys == Stored(w.disk, id).Keys + {n}
                    && !Terminal(w'.db.sessions[id].status))
      && (r.Err? ==> EnsureActive(w.db.sessions[id].status) == Some(r.error) && w' == w)
      && w'.db.files == w.db.files && w'.disk.objects == w.disk.objects
  {
    var body := Slice(file, p, n);
    var request := SendPart(id, tenant, n, body, |body|, NoFault);
    assert SessionOk(w.db.sessions[id]);
    SlicePassesGuard(cfg, w.db.sessions[id], file, n);
    assert Step(cfg, w, request) == ProxyPart(cfg, w, id, tenant, n, body, |body|, NoFault);
    StepKeepsInv(cfg, w, request);
    StepPersists(cfg, w, request);
    StepSlices(cfg, w, request, id, file);
    if Backed(w, id) {
      StepBacked(cfg, w, request, id, file, {});
    }
    SliceRows(cfg, w, id, tenant, n, body);
  }

  lemma SliceRows(cfg: Settings, w: World, id: Id, tenant: string, n: nat, body: bytes)
    requires Inv(w) && Owns(w.db, tenant, id) && !PartSizeRefused(cfg, w.db.sessions[id], n, |body|)
    requires 1 <= n <= w.db.sessions[id].totalParts
    ensures var (w', r) := ProxyPart(cfg, w, id, tenant, n, body, |body|, NoFault);
      && (r.Ok? <==> !Terminal(w.db.sessions[id].status))
      && (r.Ok? ==> CommittedParts(w'.db, id) == CommittedParts(w.db, id) + {n}
                    && Stored(w'.disk, id).Keys == Stored(w.disk, id).Keys + {n}
                    && id in w'.db.sessions && !Terminal(w'.db.sessions[id].status))
      && (r.Err? ==> EnsureActive(w.db.sessions[id].status) == Some(r.error) && w' == w)
      && w'.db.files == w.db.files && w'.disk.objects == w.disk.objects
  {
    assert SessionOk(w.db.sessions[id]);
    if !Terminal(w.db.sessions[id].status) {
      SliceStored(cfg, w, id, tenant, n, body);
    }
  }

  lemma SliceStored(cfg: Settings, w: World, id: Id, tenant: string, n: nat, body: bytes)
    requires Owns(w.db, tenant, id) && EnsureActive(w.db.sessions[id].status).None?
    requires 1 <= n <= w.db.sessions[id].totalParts
    requires !PartSizeRefused(cfg, w.db.sessions[id], n, |body|)
    ensures var (w', r) := ProxyPart(cfg, w, id, tenant, n, body, |body|, NoFault);
      && r.Ok? && CommittedParts(w'.db, id) == CommittedParts(w.db, id) + {n}
      && Stored(w'.disk, id).Keys == Stored(w.disk, id).Keys + {n}
  {}

  /** Upload `id` after exactly the parts `done` of the file were accepted, starting from `w0`. */
  ghost predicate SentSoFar(cfg: Settings, w0: World, w: World, id: Id, tenant: string, file: bytes, p: nat,
                            done: set<nat>)
  {
    && UploadOf(cfg, w0, id, tenant, file, p) && UploadOf(cfg, w, id, tenant, file, p)
    && (Backed(w0, id) ==> Backed(w, id))
    && PartsSince(w0, w, id, done)
  }

  ghost predicate PartsSince(w0: World, w: World, id: Id, done: set<nat>)
    requires id in w0.db.sessions && id in w.db.sessions
  {
    && w.db.sessions[id].key == w0.db.sessions[id].key && w.db.files == w0.db.files
    && CommittedParts(w.db, id) == CommittedParts(w0.db, id) + done
    && Stored(w.disk, id).Keys == Stored(w0.disk, id).Keys + done
    && (Terminal(w.db.sessions[id].status) <==> Terminal(w0.db.sessions[id].status))
    && (done != {} ==> !Terminal(w0.db.sessions[id].status))
    && (Terminal(w0.db.sessions[id].status) ==> w.db.sessions[id].status == w0.db.sessions[id].status)
  }

  lemma NothingSent(cfg: Settings, w: World, id: Id, tenant: string, file: bytes, p: nat)
    requires UploadOf(cfg, w, id, tenant, file, p)
    ensures SentSoFar(cfg, w, w, id, tenant, file, p, {})
  {}

  lemma OneMoreSent(cfg: Settings, w0: World, w: World, id: Id, tenant: string, file: bytes, p: nat, done: set<nat>,
                    n: nat)
    requires ValidSettings(cfg) && SentSoFar(cfg, w0, w, id, tenant, file, p, done) && 1 <= n <= TotalParts(|file|, p)
    ensures var (w', r) := ProxyPart(cfg, w, id, tenant, n, Slice(file, p, n), |Slice(file, p, n)|, NoFault);
      && SentSoFar(cfg, w0, w', id, tenant, file, p, if r.Ok? then done + {n} else done)
      && (r.Ok? <==> !Terminal(w0.db.sessions[id].status))
      && (r.Err? ==> EnsureActive(w0.db.sessions[id].status) == Some(r.error) && w' == w)
  {
    SliceSent(cfg, w, id, tenant, file, p, n);
    var body := Slice(file, p, n);
    var (w', r) := ProxyPart(cfg, w, id, tenant, n, body, |body|, NoFault);
    assert SessionOk(w.db.sessions[id]);
    if r.Ok? {
      AddedToSent(cfg, w0, w, w', id, tenant, file, p, done, n);
    }
  }

  lemma AddedToSent(cfg: Settings, w0: World, w: World, w': World, id: Id, tenant: string, file: bytes, p: nat,
                    done: set<nat>, n: nat)
    requires SentSoFar(cfg, w0, w, id, tenant, file, p, done) && UploadOf(cfg, w', id, tenant, file, p)
    requires Backed(w, id) ==> Backed(w', id)
    requires PartsAdded(w, w', id, n)
    ensures SentSoFar(cfg, w0, w', id, tenant, file, p, done + {n})
  {
    PartsSinceGrows(w0, w, w', id, done, n);
  }

  ghost predicate PartsAdded(w: World, w': World, id: Id, n: nat)
    requires id in w.db.sessions && id in w'.db.sessions
  {
    && w'.db.sessions[id].key == w.db.sessions[id].key && w'.db.files == w.db.files
    && CommittedParts(w'.db, id) == CommittedParts(w.db, id) + {n}
    && Stored(w'.disk, id).Keys == Stored(w.disk, id).Keys + {n}
    && !Terminal(w.db.sessions[id].status) && !Terminal(w'.db.sessions[id].status)
  }

  lemma PartsSinceGrows(w0: World, w: World, w': World, id: Id, done: set<nat>, n: nat)
    requires id in w0.db.sessions && id in w.db.sessions && id in w'.db.sessions
    requires PartsSince(w0, w, id, done) && PartsAdded(w, w', id, n)
    ensures PartsSince(w0, w', id, done + {n})
  {}

  ghost function ToSet(ns: seq<nat>): set<nat> { set n | n in ns }

  lemma ToSetPush(ns: seq<nat>, i: nat)
    requires i < |ns|
    ensures ToSet(ns[..i + 1]) == ToSet(ns[..i]) + {ns[i]}
  {
    assert ns[..i + 1] == ns[..i] + [ns[i]];
  }

  /** One worker's job: cut part n out of the file and send it. */
  method SendSlice(server: UploadService, id: Id, tenant: string, file: bytes, p: nat, n: nat)
    returns (r: Result<Id, Error>)
    requires server.app.Valid() && UploadOf(server.app.cfg, server.app.World(), id, tenant, file, p)
    requires 1 <= n <= TotalParts(|file|, p)
    modifies server.app.db, server.app.storage`parts
    ensures server.app.Valid()
    ensures (server.app.World(), r) ==
      ProxyPart(server.app.cfg, old(server.app.World()), id, tenant, n, Slice(file, p, n), |Slice(file, p, n)|, NoFault)
  {
    OffsetInFile(|file|, p, n);
    var offset := (n - 1) * p;
    var size := Min(p, |file| - offset);
    var checksum := PartSha256(server.app.cfg.sha, file, offset, size);
    var body := file[offset..offset + size];
    assert body == Slice(file, p, n);
    r := server.ProxyUploadPart(id, tenant, n, body, |body|, NoFault);
  }

  // ------------------------------------------------------------------ SDK

  /**
   * `upload_all_parts`: the pending parts reach the server in the order the worker threads and retries
   * happen to produce, each at least once. Succeeds exactly when the session is live (or nothing is
   * pending), and then the new world is what those sends make of the old: SendAllSent says that exactly
   * the pending parts gained rows and part files.
   */
  method UploadAllParts(server: UploadService, id: Id, tenant: string, file: bytes, p: nat, pending: set<nat>,
                        arrivals: seq<nat>)
    returns (error: Option<Error>)
    requires server.app.Valid() && UploadOf(server.app.cfg, server.app.World(), id, tenant, file, p)
    requires pending <= Interval(1, TotalParts(|file|, p)) && ToSet(arrivals) == pending
    modifies server.app.db, server.app.storage`parts
    ensures server.app.Valid()
    ensures error == if pending == {} then None else EnsureActive(old(server.app.db.sessions)[id].status)
    ensures server.app.World()
      == SendAll(server.app.cfg, old(server.app.World()), id, tenant, file, p, if error.None? then arrivals else [])
  {
    var app := server.app;
    ghost var w0, refused := app.World(), EnsureActive(app.db.sessions[id].status);
    AllPending(arrivals, pending, TotalParts(|file|, p));
    error := None;
    assert arrivals[..0] == [];
    for i := 0 to |arrivals|
      invariant Sending(app, w0, id, tenant, file, p, arrivals[..i]) && error.None? && (i > 0 ==> refused.None?)
    {
      error := SendNext(server, tenant, file, id, p, arrivals, i, w0);
      if error.Some? {
        return;
      }
    }
    assert arrivals[..|arrivals|] == arrivals;
  }

  lemma AllPending(arrivals: seq<nat>, pending: set<nat>, total: nat)
    requires pending <= Interval(1, total) && ToSet(arrivals) == pending
    ensures (forall n :: n in arrivals ==> 1 <= n <= total) && (arrivals == [] <==> pending == {})
  {
    assert forall n :: n in arrivals ==> n in ToSet(arrivals);
    assert arrivals != [] ==> arrivals[0] in ToSet(arrivals);
  }

  /** The file row `f` names an object that is `file`. */
  ghost predicate Holds(w: World, f: Id, file: bytes) {
    && f in w.db.files && w.db.files[f].key in w.disk.objects
    && w.disk.objects[w.db.files[f].key] == file && w.db.files[f].size == |file|
  }

  /** Without faults, in parts: the refusal of create, a taken key, or success. */
  ghost function PartsOutcome(cfg: Settings, w: World, request: CreateRequest, fileId: Id, now: int): Result<Id, Error>
    requires ValidSettings(cfg)
  {
    match PlanSession(cfg, w.disk.objects, request, now)
    case Err(e) => Err(e)
    case Ok(s) => if KeyTaken(w.db, request.tenant, s.key) then Err(IntegrityError) else Ok(fileId)
  }

  /** The same for a file that may go in one request: its lifecycle is adjudicated again when that arrives. */
  ghost function Outcome(cfg: Settings, w: World, request: CreateRequest, fileId: Id, now: int, later: int)
    : Result<Id, Error>
    requires ValidSettings(cfg)
  {
    var plan := PlanSession(cfg, w.disk.objects, request, now);
    var lifecycle := InitialLifecycle(cfg, request.lifecycle, later);
    if plan.Ok? && plan.value.mode == Proxy && lifecycle.Err? then Err(BadLifecycle(lifecycle.error))
    else PartsOutcome(cfg, w, request, fileId, now)
  }

  /** The one-request upload of the file that a create was made for. */
  function WholeFile(request: CreateRequest, file: bytes): PutRequest {
    PutRequest(request.tenant, request.bucket, request.objectKey, |file|, file, None, request.lifecycle)
  }

  /**
   * What `upload_large_file` makes of the world: nothing, a create and one request, or a create, all parts
   * and a complete.
   */
  ghost predicate LargeFileSent(cfg: Settings, w: World, w': World, id: Id, fileId: Id, request: CreateRequest,
                                file: bytes, arrivals: seq<nat>, now: int, later: int)
    requires ValidSettings(cfg)
  {
    match PlanSession(cfg, w.disk.objects, request, now)
    case Err(_) => w' == w
    case Ok(s) =>
      var w0 := CreateSession(cfg, w, id, request, now, NoFault).0;
      if s.mode == Proxy then w' == PutFile(cfg, w0, fileId, WholeFile(request, file), later, NoFault).0
      else SentAndCompleted(cfg, w0, w', id, request.tenant, file, s.partSize, fileId, later, arrivals)
  }

  /**
   * `upload_large_file`: create a session, send all its parts, complete; or send the file in one request
   * when the server chose proxy mode; the last request arrives at the instant `later`. Success means the
   * returned file holds exactly the local file, and the outcome is decided before the first byte is sent:
   * by the checks of create, by the key, and in proxy mode by what the lifecycle comes to at `later`.
   */
  method UploadLargeFile(server: UploadService, files: FileService, id: Id, fileId: Id, request: CreateRequest,
                         file: bytes, arrivals: seq<nat>, now: int, later: int)
    returns (r: Result<Id, Error>)
    requires server.app == files.app && server.app.Valid() && Inv(server.app.World())
    requires id !in server.app.db.sessions && fileId !in server.app.db.files
    requires request.totalSize == |file| && request.mode == "automatic"
    requires forall p :: 0 < p && request.partSize.GetOr(server.app.cfg.defaultPartSize) == p ==>
      ToSet(arrivals) == Interval(1, TotalParts(|file|, p))
    modifies server.app.db, server.app.storage, server.app.metrics
    ensures server.app.Valid()
    ensures r.Ok? ==> Holds(server.app.World(), r.value, file)
    ensures r == Outcome(server.app.cfg, old(server.app.World()), request, fileId, now, later)
    ensures LargeFileSent(server.app.cfg, old(server.app.World()), server.app.World(), id, fileId, request, file,
                          arrivals, now, later)
  {
    var app := server.app;
    CreateKeepsInv(app.cfg, app.World(), id, request, now, NoFault);
    ghost var before := app.World();
    var created := server.CreateSession(id, request, now, NoFault);
    if created.Err? {
      return Err(created.error);
    }
    FreshUpload(app.cfg, before, id, request, now);
    CreatedKey(app.cfg, before, id, request, now);
    var session := app.db.sessions[id];
    if session.mode == Proxy {
      var put := WholeFile(request, file);
      PutHolds(app.cfg, app.World(), fileId, put, later);
      PutDecides(app.cfg, before, app.World(), request, put, fileId, now, later);
      r := files.ProxyUpload(fileId, put, later, NoFault);
      return;
    }
    CreatedUpload(app.cfg, before, id, request, now, file);
    var p := session.partSize;
    ghost var started := app.World();
    var sent := UploadAllParts(server, id, request.tenant, file, p, Interval(1, session.totalParts), arrivals);
    assert sent.None?; // the session is live, so every part is accepted
    AllPending(arrivals, Interval(1, session.totalParts), session.totalParts);
    SendAllSent(app.cfg, started, id, request.tenant, file, p, arrivals);
    CompleteDecided(app.cfg, before, app.World(), id, request, fileId, file, now, later);
    r := CompleteUploaded(server, id, request.tenant, fileId, file, p, later);
  }

  /** All parts sent after a create: only the key can still refuse the completion. */
  lemma CompleteDecided(cfg: Settings, before: World, w: World, id: Id, request: CreateRequest, fileId: Id, file: bytes,
                        now: int, later: int)
    requires ValidSettings(cfg) && Inv(before) && id !in before.db.sessions && request.totalSize == |file|
    requires CreateSession(cfg, before, id, request, now, NoFault).1.Ok? && fileId !in w.db.files
    requires var w0 := CreateSession(cfg, before, id, request, now, NoFault).0;
      var p := w0.db.sessions[id].partSize;
      p > 0 && SentSoFar(cfg, w0, w, id, request.tenant, file, p, Interval(1, TotalParts(|file|, p)))
    ensures Complete(cfg, w, id, request.tenant, fileId, later, NoFault).1
      == PartsOutcome(cfg, before, request, fileId, now)
  {
    var w0 := CreateSession(cfg, before, id, request, now, NoFault).0;
    CreatedUpload(cfg, before, id, request, now, file);
    PendingSent(cfg, w0, w, id, request.tenant, file, w0.db.sessions[id].partSize);
    FullComplete(cfg, w, id, request.tenant, fileId, later);
    CreatedKey(cfg, before, id, request, now);
  }

  lemma CreatedKey(cfg: Settings, before: World, id: Id, request: CreateRequest, now: int)
    requires ValidSettings(cfg) && CreateSession(cfg, before, id, request, now, NoFault).1.Ok?
    ensures var plan := PlanSession(cfg, before.disk.objects, request, now);
      var w0 := CreateSession(cfg, before, id, request, now, NoFault).0;
      plan.Ok? && id in w0.db.sessions && w0.db.sessions[id] == plan.value && w0.db.files == before.db.files
  {}

  lemma PendingSent(cfg: Settings, w0: World, w: World, id: Id, tenant: string, file: bytes, p: nat)
    requires p > 0 && SentSoFar(cfg, w0, w, id, tenant, file, p, Interval(1, TotalParts(|file|, p)))
    ensures Interval(1, w.db.sessions[id].totalParts) <= CommittedParts(w.db, id)
    ensures Interval(1, w.db.sessions[id].totalParts) <= Stored(w.disk, id).Keys
  {
    assert SessionOk(w.db.sessions[id]);
  }

  /** A live upload with every part committed and stored completes unless its key is taken. */
  lemma {:induction false} FullComplete(cfg: Settings, w: World, id: Id, tenant: string, file: Id, now: int)
    requires Inv(w) && Owns(w.db, tenant, id) && !Terminal(w.db.sessions[id].status)
    requires Interval(1, w.db.sessions[id].totalParts) <= CommittedParts(w.db, id)
    requires Interval(1, w.db.sessions[id].totalParts) <= Stored(w.disk, id).Keys
    ensures Complete(cfg, w, id, tenant, file, now, NoFault).1 ==
      if KeyTaken(w.db, tenant, w.db.sessions[id].key) then Err(IntegrityError) else Ok(file)
  {
    assert SessionOk(w.db.sessions[id]);
    CountTestExact(w, id);
    CommittedInRange(w, id);
    assert 1 in Interval(1, w.db.sessions[id].totalParts);
  }

  /**
   * After a create was accepted the same checks accept the one-request upload that arrives later: only the
   * lifecycle, adjudicated at its own arrival, and the key can refuse it.
   */
  lemma PutDecides(cfg: Settings, before: World, w: World, request: CreateRequest, put: PutRequest, fileId: Id,
                   now: int, later: int)
    requires ValidSettings(cfg) && PlanSession(cfg, before.disk.objects, request, now).Ok?
    requires w.disk == before.disk && w.db.files == before.db.files
    requires put.checksum.None? && put.declared == request.totalSize
    requires put.tenant == request.tenant && put.bucket == request.bucket && put.objectKey == request.objectKey
    requires put.lifecycle == request.lifecycle
    ensures var lifecycle := InitialLifecycle(cfg, request.lifecycle, later);
      PutFile(cfg, w, fileId, put, later, NoFault).1 ==
      if lifecycle.Err? then Err(BadLifecycle(lifecycle.error)) else PartsOutcome(cfg, before, request, fileId, now)
  {}

  lemma PutHolds(cfg: Settings, w: World, fileId: Id, put: PutRequest, now: int)
    requires put.declared == |put.body|
    ensures var (w', r) := PutFile(cfg, w, fileId, put, now, NoFault);
      r.Ok? ==> Holds(w', r.value, put.body)
  {}

  lemma CreatedUpload(cfg: Settings, w: World, id: Id, r: CreateRequest, now: int, file: bytes)
    requires ValidSettings(cfg) && Inv(w) && id !in w.db.sessions && r.totalSize == |file|
    requires CreateSession(cfg, w, id, r, now, NoFault).1.Ok?
    ensures var w' := CreateSession(cfg, w, id, r, now, NoFault).0;
      && UploadOf(cfg, w', id, r.tenant, file, w'.db.sessions[id].partSize) && Backed(w', id)
      && w'.db.sessions[id].partSize == r.partSize.GetOr(cfg.defaultPartSize)
      && w'.db.sessions[id].totalParts == TotalParts(|file|, w'.db.sessions[id].partSize)
      && w'.db.files == w.db.files && !Terminal(w'.db.sessions[id].status)
  {
    CreateKeepsInv(cfg, w, id, r, now, NoFault);
    FreshUpload(cfg, w, id, r, now);
  }

  /** Completing a backed upload of `file`: success means the object is the file. */
  method CompleteUploaded(server: UploadService, id: Id, tenant: string, fileId: Id, file: bytes, p: nat, now: int)
    returns (r: Result<Id, Error>)
    requires server.app.Valid() && UploadOf(server.app.cfg, server.app.World(), id, tenant, file, p)
    requires fileId !in server.app.db.files
    modifies server.app.db, server.app.storage, server.app.metrics
    ensures server.app.Valid()
    ensures (server.app.World(), r)
      == Complete(server.app.cfg, old(server.app.World()), id, tenant, fileId, now, NoFault)
    ensures r.Ok? && old(Backed(server.app.World(), id) && server.app.db.sessions[id].status != Completed) ==>
      r.value == fileId && Holds(server.app.World(), r.value, file)
  {
    ghost var w := server.app.World();
    r := server.Complete(id, tenant, fileId, now, NoFault);
    if r.Ok? && Backed(w, id) && w.db.sessions[id].status != Completed {
      SuccessfulComplete(server.app.cfg, w, id, tenant, fileId, now, NoFault);
      BackedCompletes(server.app.cfg, w, id, tenant, fileId, now, NoFault, file);
    }
  }

  // ------------------------------------------------------------------ portal

  datatype QueueStatus = QueuePending | QueueUploading | QueuePaused | QueueCompleted | QueueFailed

  /** An entry of the portal's upload queue. */
  class QueueFile {
    var status: QueueStatus
    var uploadId: Option<Id>
    var fileId: Option<Id>
    var partSize: nat
    var totalParts: nat
    var completedParts: seq<nat>

    constructor (partSize: nat)
      ensures this.partSize == partSize && uploadId.None? && completedParts == []
    {
      status, uploadId, fileId := QueuePending, None, None;
      this.partSize, totalParts, completedParts := partSize, 0, [];
    }
  }

  /** `completedParts.filter((part) => !missing.includes(part))` */
  function Without(parts: seq<nat>, missing: seq<nat>): (r: seq<nat>)
    ensures forall n :: n in r <==> n in parts && n !in missing
  {
    if parts == [] then []
    else (if parts[0] in missing then [] else [parts[0]]) + Without(parts[1..], missing)
  }

  /** The parts the portal will send: every part of the file it does not believe to be done. */
  method ToSend(totalParts: nat, done: seq<nat>) returns (missing: seq<nat>)
    ensures forall n :: n in missing <==> 1 <= n <= totalParts && n !in done
    ensures forall i, j :: 0 <= i < j < |missing| ==> missing[i] < missing[j]
  {
    missing := [];
    for part := 1 to totalParts + 1
      invariant forall n :: n in missing <==> 1 <= n < part && n !in done
      invariant forall i, j :: 0 <= i < j < |missing| ==> missing[i] < missing[j]
    {
      if part !in done {
        assert forall i :: 0 <= i < |missing| ==> missing[i] in missing;
        missing := missing + [part];
      }
    }
  }

  /** Part n of the file, as it is cut out of the blob. */
  function PartOf(file: bytes, p: nat, n: nat): bytes {
    if p > 0 && 1 <= n <= TotalParts(|file|, p) then Slice(file, p, n) else []
  }

  /** The world after parts `ns` were sent, each once and in this order. */
  ghost function SendAll(cfg: Settings, w: World, id: Id, tenant: string, file: bytes, p: nat, ns: seq<nat>): World {
    if ns == [] then w
    else
      var n := ns[|ns| - 1];
      var body := PartOf(file, p, n);
      ProxyPart(cfg, SendAll(cfg, w, id, tenant, file, p, ns[..|ns| - 1]), id, tenant, n, body, |body|, NoFault).0
  }

  /** A live upload takes every part it is sent. */
  lemma {:induction false} SendAllSent(cfg: Settings, w: World, id: Id, tenant: string, file: bytes, p: nat,
                                       ns: seq<nat>)
    requires ValidSettings(cfg) && UploadOf(cfg, w, id, tenant, file, p)
    requires (ns != [] ==> !Terminal(w.db.sessions[id].status))
    requires forall n :: n in ns ==> 1 <= n <= TotalParts(|file|, p)
    ensures SentSoFar(cfg, w, SendAll(cfg, w, id, tenant, file, p, ns), id, tenant, file, p, ToSet(ns))
  {
    if ns == [] {
      NothingSent(cfg, w, id, tenant, file, p);
    } else {
      var k := |ns| - 1;
      assert ns[k] in ns && forall n :: n in ns[..k] ==> n in ns;
      SendAllSent(cfg, w, id, tenant, file, p, ns[..k]);
      OneMoreSent(cfg, w, SendAll(cfg, w, id, tenant, file, p, ns[..k]), id, tenant, file, p, ToSet(ns[..k]), ns[k]);
      ToSetPush(ns, k);
      assert ns[..k + 1] == ns;
    }
  }

  lemma SendAllPush(cfg: Settings, w: World, id: Id, tenant: string, file: bytes, p: nat, ns: seq<nat>, i: nat)
    requires i < |ns|
    ensures var body := PartOf(file, p, ns[i]);
      SendAll(cfg, w, id, tenant, file, p, ns[..i + 1])
      == ProxyPart(cfg, SendAll(cfg, w, id, tenant, file, p, ns[..i]), id, tenant, ns[i], body, |body|, NoFault).0
  {
    assert ns[..i + 1][..i] == ns[..i];
  }

  /**
   * The loop of `uploadQueuedFile`: the listed parts are cut out of the blob and sent one by one, in
   * order; `ticked` are those accepted. A live upload accepts all, a finished one refuses the first.
   */
  method SendMissing(server: UploadService, tenant: string, file: bytes, id: Id, p: nat, missing: seq<nat>)
    returns (ticked: seq<nat>, error: Option<Error>)
    requires server.app.Valid() && UploadOf(server.app.cfg, server.app.World(), id, tenant, file, p)
    requires forall n :: n in missing ==> 1 <= n <= TotalParts(|file|, p)
    modifies server.app.db, server.app.storage`parts
    ensures server.app.Valid()
    ensures server.app.World() == SendAll(server.app.cfg, old(server.app.World()), id, tenant, file, p, ticked)
    ensures error == if missing == [] then None else EnsureActive(old(server.app.db.sessions)[id].status)
    ensures ticked == if error.Some? then [] else missing
  {
    var app := server.app;
    ghost var w0, refused := app.World(), EnsureActive(app.db.sessions[id].status);
    error := None;
    assert missing[..0] == [];
    for i := 0 to |missing|
      invariant Sending(app, w0, id, tenant, file, p, missing[..i]) && error.None? && (i > 0 ==> refused.None?)
    {
      error := SendNext(server, tenant, file, id, p, missing, i, w0);
      if error.Some? {
        return [], error;
      }
    }
    assert missing[..|missing|] == missing;
    ticked := missing;
  }

  ghost predicate Sending(app: AppState, w0: World, id: Id, tenant: string, file: bytes, p: nat, done: seq<nat>)
    reads app.db, app.storage, app.metrics
  {
    app.Valid() && app.World() == SendAll(app.cfg, w0, id, tenant, file, p, done)
  }

  method SendNext(server: UploadService, tenant: string, file: bytes, id: Id, p: nat, missing: seq<nat>, i: nat,
                  ghost w0: World)
    returns (error: Option<Error>)
    requires i < |missing| && Sending(server.app, w0, id, tenant, file, p, missing[..i])
    requires UploadOf(server.app.cfg, w0, id, tenant, file, p)
    requires forall n :: n in missing ==> 1 <= n <= TotalParts(|file|, p)
    requires i > 0 ==> EnsureActive(w0.db.sessions[id].status).None?
    modifies server.app.db, server.app.storage`parts
    ensures error == EnsureActive(w0.db.sessions[id].status) && (error.Some? ==> i == 0)
    ensures Sending(server.app, w0, id, tenant, file, p, if error.Some? then [] else missing[..i + 1])
  {
    ghost var w := server.app.World();
    assert missing[i] in missing && forall n :: n in missing[..i] ==> n in missing;
    SendAllSent(server.app.cfg, w0, id, tenant, file, p, missing[..i]);
    OneMoreSent(server.app.cfg, w0, w, id, tenant, file, p, ToSet(missing[..i]), missing[i]);
    SendAllPush(server.app.cfg, w0, id, tenant, file, p, missing, i);
    var r := SendSlice(server, id, tenant, file, p, missing[i]);
    error := if r.Err? then Some(r.error) else None;
  }

  /** Before the portal sends: the parts the server reports missing, and the list the portal sends. */
  ghost predicate PortalPlan(w: World, id: Id, tenant: string, total: nat, ticked: seq<nat>, sent: seq<nat>) {
    && Server.Resume(w, id, tenant).Ok?
    && (forall n :: n in Server.Resume(w, id, tenant).value ==> n in sent)
    && (forall n :: n in sent <==> 1 <= n <= total && (n !in ticked || n in Server.Resume(w, id, tenant).value))
    && (forall i, j :: 0 <= i < j < |sent| ==> sent[i] < sent[j])
  }

  /**
   * What a resume that the server answered comes to, once parts `sent` are sent and complete is called: a
   * finished upload refuses parts and repeats its file; otherwise the parts still without a row are
   * missing, or nothing was ever stored, or the key is taken, or the upload completes.
   */
  ghost function ResumeOutcome(w: World, id: Id, tenant: string, sent: seq<nat>, fileId: Id): Result<Id, Error>
    requires id in w.db.sessions
  {
    var s := w.db.sessions[id];
    var absent := Absent(s.totalParts, CommittedParts(w.db, id) + ToSet(sent));
    if s.status == Completed && sent != [] then Err(AlreadyCompleted)
    else if s.status == Completed && s.completedFile.Some? then Ok(s.completedFile.value)
    else if absent != [] then Err(MissingParts(absent))
    else if Stored(w.disk, id).Keys + ToSet(sent) == {} then Err(PartFileMissing)
    else if KeyTaken(w.db, tenant, s.key) then Err(IntegrityError)
    else Ok(fileId)
  }

  /** A fault-free complete of a live upload, decided by its rows, its part files and its key. */
  lemma LiveComplete(cfg: Settings, w: World, id: Id, tenant: string, file: Id, now: int)
    requires Inv(w) && Owns(w.db, tenant, id) && !Terminal(w.db.sessions[id].status)
    ensures var absent := Absent(w.db.sessions[id].totalParts, CommittedParts(w.db, id));
      Complete(cfg, w, id, tenant, file, now, NoFault).1 ==
      if absent != [] then Err(MissingParts(absent))
      else if Stored(w.disk, id) == map[] then Err(PartFileMissing)
      else if KeyTaken(w.db, tenant, w.db.sessions[id].key) then Err(IntegrityError)
      else Ok(file)
  {
    assert SessionOk(w.db.sessions[id]);
    CountTestExact(w, id);
  }

  /**
   * The parts `sent` reached the server, each once and in order, then complete was called, and nothing else
   * happened.
   */
  ghost predicate SentAndCompleted(cfg: Settings, w: World, w': World, id: Id, tenant: string, file: bytes, p: nat,
                                   fileId: Id, now: int, sent: seq<nat>)
  {
    w' == Complete(cfg, SendAll(cfg, w, id, tenant, file, p, sent), id, tenant, fileId, now, NoFault).0
  }

  /**
   * What resuming comes to when the server answered: `sent` is every part it reported missing and every
   * part the portal had not ticked, the answer is determined, and the new world is what the sends and
   * one complete make of the old (a finished upload that is sent parts stays as it is). MISSING_PARTS
   * names only parts that were stored but not committed and that the portal had ticked off, so it
   * cannot come when every stored part was committed.
   */
  ghost predicate Resumed(cfg: Settings, w: World, w': World, r: Result<Id, Error>, id: Id, tenant: string, file: bytes,
                          p: nat, ticked: seq<nat>, sent: seq<nat>, fileId: Id, now: int)
  {
    && id in w.db.sessions && PortalPlan(w, id, tenant, w.db.sessions[id].totalParts, ticked, sent)
    && r == ResumeOutcome(w, id, tenant, sent, fileId)
    && (if w.db.sessions[id].status == Completed && sent != [] then w' == w
        else SentAndCompleted(cfg, w, w', id, tenant, file, p, fileId, now, sent))
    && (w.db.sessions[id].status != Completed ==> CommittedParts(w'.db, id) == CommittedParts(w.db, id) + ToSet(sent))
    && (r.Err? && r.error.MissingParts? ==> r.error.missing != [] && forall n :: n in r.error.missing ==>
          n in ticked && n in Stored(w.disk, id) && n !in CommittedParts(w.db, id))
    && (Stored(w.disk, id).Keys <= CommittedParts(w.db, id) ==> !(r.Err? && r.error.MissingParts?))
  }

  /** A finished upload: resume reports nothing missing, so nothing can be missing in the answer. */
  lemma ResumedFinished(cfg: Settings, w: World, id: Id, tenant: string, file: bytes, p: nat, ticked: seq<nat>,
                        sent: seq<nat>, fileId: Id, now: int)
    requires UploadOf(cfg, w, id, tenant, file, p) && w.db.sessions[id].status == Completed
    requires PortalPlan(w, id, tenant, w.db.sessions[id].totalParts, ticked, sent)
    ensures if sent != [] then Resumed(cfg, w, w, Err(AlreadyCompleted), id, tenant, file, p, ticked, sent, fileId, now)
      else var (w', r) := Complete(cfg, w, id, tenant, fileId, now, NoFault);
        Resumed(cfg, w, w', r, id, tenant, file, p, ticked, sent, fileId, now)
  {
    assert SessionOk(w.db.sessions[id]);
    CompleteAgain(cfg, w, id, fileId, now, NoFault);
  }

  lemma {:induction false} ResumedLive(cfg: Settings, w: World, id: Id, tenant: string, file: bytes, p: nat,
                                       ticked: seq<nat>, sent: seq<nat>, fileId: Id, now: int)
    requires ValidSettings(cfg) && UploadOf(cfg, w, id, tenant, file, p) && w.db.sessions[id].status != Completed
    requires PortalPlan(w, id, tenant, w.db.sessions[id].totalParts, ticked, sent)
    requires forall n :: n in sent ==> 1 <= n <= TotalParts(|file|, p)
    ensures var (w', r) := Complete(cfg, SendAll(cfg, w, id, tenant, file, p, sent), id, tenant, fileId, now, NoFault);
      Resumed(cfg, w, w', r, id, tenant, file, p, ticked, sent, fileId, now)
  {
    assert SessionOk(w.db.sessions[id]) && !Terminal(w.db.sessions[id].status);
    var w1 := SendAll(cfg, w, id, tenant, file, p, sent);
    SendAllSent(cfg, w, id, tenant, file, p, sent);
    ResumeDecided(cfg, w, w1, id, tenant, file, p, sent, fileId, now);
    var answer := Complete(cfg, w1, id, tenant, fileId, now, NoFault);
    LiveResumed(cfg, w, answer.0, answer.1, id, tenant, file, p, ticked, sent, fileId, now);
  }

  lemma LiveResumed(cfg: Settings, w: World, w': World, r: Result<Id, Error>, id: Id, tenant: string, file: bytes,
                    p: nat, ticked: seq<nat>, sent: seq<nat>, fileId: Id, now: int)
    requires id in w.db.sessions && w.db.sessions[id].status != Completed
    requires PortalPlan(w, id, tenant, w.db.sessions[id].totalParts, ticked, sent)
    requires r == ResumeOutcome(w, id, tenant, sent, fileId)
    requires SentAndCompleted(cfg, w, w', id, tenant, file, p, fileId, now, sent)
    requires CommittedParts(w'.db, id) == CommittedParts(w.db, id) + ToSet(sent)
    ensures Resumed(cfg, w, w', r, id, tenant, file, p, ticked, sent, fileId, now)
  {
    StillMissing(w, id, tenant, ticked, sent);
  }

  lemma ResumeDecided(cfg: Settings, w: World, w1: World, id: Id, tenant: string, file: bytes, p: nat, sent: seq<nat>,
                      fileId: Id, now: int)
    requires SentSoFar(cfg, w, w1, id, tenant, file, p, ToSet(sent)) && !Terminal(w.db.sessions[id].status)
    ensures Complete(cfg, w1, id, tenant, fileId, now, NoFault).1 == ResumeOutcome(w, id, tenant, sent, fileId)
    ensures CommittedParts(Complete(cfg, w1, id, tenant, fileId, now, NoFault).0.db, id)
      == CommittedParts(w.db, id) + ToSet(sent)
  {
    SameTotal(cfg, w, w1, id, tenant, file, p, ToSet(sent));
    LiveComplete(cfg, w1, id, tenant, fileId, now);
    CompleteKeepsRows(cfg, w1, id, tenant, fileId, now);
    assert Stored(w1.disk, id) == map[] <==> Stored(w1.disk, id).Keys == {};
  }

  lemma SameTotal(cfg: Settings, w: World, w1: World, id: Id, tenant: string, file: bytes, p: nat, done: set<nat>)
    requires SentSoFar(cfg, w, w1, id, tenant, file, p, done)
    ensures w1.db.sessions[id].totalParts == w.db.sessions[id].totalParts
  {
    assert SessionOk(w.db.sessions[id]) && SessionOk(w1.db.sessions[id]);
  }

  lemma CompleteKeepsRows(cfg: Settings, w: World, id: Id, tenant: string, file: Id, now: int)
    requires Inv(w)
    ensures CommittedParts(Complete(cfg, w, id, tenant, file, now, NoFault).0.db, id) == CommittedParts(w.db, id)
  {
    CompleteShape(cfg, w, id, tenant, file, now, NoFault);
  }

  /** After the portal sent: a part still without a row was stored without one and ticked off. */
  lemma StillMissing(w: World, id: Id, tenant: string, ticked: seq<nat>, sent: seq<nat>)
    requires id in w.db.sessions && PortalPlan(w, id, tenant, w.db.sessions[id].totalParts, ticked, sent)
    ensures var absent := Absent(w.db.sessions[id].totalParts, CommittedParts(w.db, id) + ToSet(sent));
      && (forall n :: n in absent ==> n in ticked && n in Stored(w.disk, id) && n !in CommittedParts(w.db, id))
      && (Stored(w.disk, id).Keys <= CommittedParts(w.db, id) ==> absent == [])
  {
    var total := w.db.sessions[id].totalParts;
    var absent := Absent(total, CommittedParts(w.db, id) + ToSet(sent));
    AbsentMeaning(total, CommittedParts(w.db, id) + Stored(w.disk, id).Keys);
    AbsentMeaning(total, CommittedParts(w.db, id) + ToSet(sent));
    assert absent != [] ==> absent[0] in absent;
  }

  /**
   * Resuming a queued upload: the server's refusal, or what `Resumed` says. A backed upload that
   * completes holds the file.
   */
  method ResumeQueuedFile(server: UploadService, tenant: string, file: bytes, entry: QueueFile, fileId: Id, now: int)
    returns (r: Result<Id, Error>, sent: seq<nat>)
    requires server.app.Valid() && entry.uploadId.Some? && fileId !in server.app.db.files
    requires UploadOf(server.app.cfg, server.app.World(), entry.uploadId.value, tenant, file, entry.partSize)
    modifies server.app.db, server.app.storage, server.app.metrics, entry
    ensures server.app.Valid()
    ensures var w, id := old(server.app.World()), old(entry.uploadId.value);
      var missing := Server.Resume(w, id, tenant);
      if missing.Err? then r == Err(missing.error) && sent == [] && server.app.World() == w
      else
        && Resumed(server.app.cfg, w, server.app.World(), r, id, tenant, file, old(entry.partSize),
                   old(entry.completedParts), sent, fileId, now)
        && (r.Ok? && Backed(w, id) && w.db.sessions[id].status != Completed ==>
              entry.fileId == Some(r.value) && Holds(server.app.World(), r.value, file))
  {
    ghost var w, ticked := server.app.World(), entry.completedParts;
    var id, p := entry.uploadId.value, entry.partSize;
    entry.status := QueueUploading;
    var resumed := server.Resume(id, tenant);
    if resumed.Err? {
      return Err(resumed.error), [];
    }
    entry.completedParts := Without(entry.completedParts, resumed.value);
    sent := ToSend(TotalParts(|file|, p), entry.completedParts);
    PlanMade(server.app.cfg, w, id, tenant, file, p, ticked, entry.completedParts, sent);
    ResumedEither(server.app.cfg, w, id, tenant, file, p, ticked, sent, fileId, now);
    r := SendRest(server, tenant, file, entry, id, p, sent, fileId, now);
  }

  /** The rest of a resume: a finished upload refuses the first part, any other takes all of them and is completed. */
  ghost function Rest(cfg: Settings, w: World, id: Id, tenant: string, file: bytes, p: nat, sent: seq<nat>, fileId: Id,
                      now: int)
    : (World, Result<Id, Error>)
    requires id in w.db.sessions
  {
    if w.db.sessions[id].status == Completed && sent != [] then (w, Err(AlreadyCompleted))
    else Complete(cfg, SendAll(cfg, w, id, tenant, file, p, sent), id, tenant, fileId, now, NoFault)
  }

  /** The rest of a resume, once the parts to send are known. */
  method SendRest(server: UploadService, tenant: string, file: bytes, entry: QueueFile, id: Id, p: nat,
                  sent: seq<nat>, fileId: Id, now: int)
    returns (r: Result<Id, Error>)
    requires server.app.Valid() && fileId !in server.app.db.files
    requires UploadOf(server.app.cfg, server.app.World(), id, tenant, file, p)
    requires Server.Resume(server.app.World(), id, tenant).Ok?
    requires forall n :: n in sent ==> 1 <= n <= TotalParts(|file|, p)
    modifies server.app.db, server.app.storage, server.app.metrics, entry
    ensures server.app.Valid()
    ensures (server.app.World(), r)
      == Rest(server.app.cfg, old(server.app.World()), id, tenant, file, p, sent, fileId, now)
    ensures r.Ok? && old(Backed(server.app.World(), id) && server.app.db.sessions[id].status != Completed) ==>
      entry.fileId == Some(r.value) && Holds(server.app.World(), r.value, file)
  {
    ghost var w := server.app.World();
    var ticks, error := SendMissing(server, tenant, file, id, p, sent);
    entry.completedParts := entry.completedParts + ticks;
    if error.Some? {
      return Err(error.value);
    }
    RestReady(server.app.cfg, w, id, tenant, file, p, sent);
    r := CompleteQueued(server, id, tenant, fileId, file, p, now, entry);
  }

  /** `complete`, and the queue entry's record of it. */
  method CompleteQueued(server: UploadService, id: Id, tenant: string, fileId: Id, file: bytes, p: nat, now: int,
                        entry: QueueFile)
    returns (r: Result<Id, Error>)
    requires server.app.Valid() && UploadOf(server.app.cfg, server.app.World(), id, tenant, file, p)
    requires fileId !in server.app.db.files
    modifies server.app.db, server.app.storage, server.app.metrics, entry
    ensures server.app.Valid()
    ensures (server.app.World(), r)
      == Complete(server.app.cfg, old(server.app.World()), id, tenant, fileId, now, NoFault)
    ensures r.Ok? && old(Backed(server.app.World(), id) && server.app.db.sessions[id].status != Completed) ==>
      Holds(server.app.World(), r.value, file)
    ensures r.Ok? ==> entry.fileId == Some(r.value)
  {
    r := CompleteUploaded(server, id, tenant, fileId, file, p, now);
    if r.Ok? {
      entry.status := QueueCompleted;
      entry.fileId := Some(r.value);
    }
  }

  /** What the parts of a resume leave for its complete. */
  lemma RestReady(cfg: Settings, w: World, id: Id, tenant: string, file: bytes, p: nat, sent: seq<nat>)
    requires ValidSettings(cfg) && UploadOf(cfg, w, id, tenant, file, p) && Server.Resume(w, id, tenant).Ok?
    requires w.db.sessions[id].status != Completed || sent == []
    requires forall n :: n in sent ==> 1 <= n <= TotalParts(|file|, p)
    ensures var w1 := SendAll(cfg, w, id, tenant, file, p, sent);
      && UploadOf(cfg, w1, id, tenant, file, p) && (Backed(w, id) ==> Backed(w1, id)) && w1.db.files == w.db.files
      && (w.db.sessions[id].status != Completed ==> w1.db.sessions[id].status != Completed)
  {
    assert SessionOk(w.db.sessions[id]);
    SendAllSent(cfg, w, id, tenant, file, p, sent);
  }

  /** Both ways a resume goes on. */
  lemma ResumedEither(cfg: Settings, w: World, id: Id, tenant: string, file: bytes, p: nat, ticked: seq<nat>,
                      sent: seq<nat>, fileId: Id, now: int)
    requires ValidSettings(cfg) && UploadOf(cfg, w, id, tenant, file, p)
    requires PortalPlan(w, id, tenant, w.db.sessions[id].totalParts, ticked, sent)
    requires forall n :: n in sent ==> 1 <= n <= TotalParts(|file|, p)
    ensures var (w', r) := Rest(cfg, w, id, tenant, file, p, sent, fileId, now);
      Resumed(cfg, w, w', r, id, tenant, file, p, ticked, sent, fileId, now)
  {
    if w.db.sessions[id].status == Completed {
      ResumedFinished(cfg, w, id, tenant, file, p, ticked, sent, fileId, now);
    } else {
      ResumedLive(cfg, w, id, tenant, file, p, ticked, sent, fileId, now);
    }
  }

  lemma PlanMade(cfg: Settings, w: World, id: Id, tenant: string, file: bytes, p: nat, ticked: seq<nat>, kept: seq<nat>,
                 sent: seq<nat>)
    requires UploadOf(cfg, w, id, tenant, file, p) && Server.Resume(w, id, tenant).Ok?
    requires kept == Without(ticked, Server.Resume(w, id, tenant).value)
    requires forall n :: n in sent <==> 1 <= n <= TotalParts(|file|, p) && n !in kept
    requires forall i, j :: 0 <= i < j < |sent| ==> sent[i] < sent[j]
    ensures PortalPlan(w, id, tenant, w.db.sessions[id].totalParts, ticked, sent)
  {
    assert SessionOk(w.db.sessions[id]);
    AbsentMeaning(w.db.sessions[id].totalParts, CommittedParts(w.db, id) + Stored(w.disk, id).Keys);
  }

  /**
   * The first upload of a queued file: a session is created, every part is sent exactly once in order,
   * and complete, which arrives at the instant `later`, cannot report missing parts: the outcome is
   * decided by create and by the key. Success means the returned file holds the queued blob.
   */
  method StartQueuedFile(server: UploadService, request: CreateRequest, file: bytes, entry: QueueFile, id: Id,
                         fileId: Id, now: int, later: int)
    returns (r: Result<Id, Error>, sent: seq<nat>)
    requires server.app.Valid() && Inv(server.app.World()) && entry.uploadId.None? && entry.completedParts == []
    requires id !in server.app.db.sessions && fileId !in server.app.db.files
    requires request.totalSize == |file| && request.partSize == Some(entry.partSize)
    modifies server.app.db, server.app.storage, server.app.metrics, entry
    ensures server.app.Valid()
    ensures r == PartsOutcome(server.app.cfg, old(server.app.World()), request, fileId, now)
    ensures r.Ok? ==>
      entry.status == QueueCompleted && entry.fileId == Some(r.value) && Holds(server.app.World(), r.value, file)
    ensures PlanSession(server.app.cfg, old(server.app.World()).disk.objects, request, now).Ok? ==>
      StartedFully(server.app.cfg, old(server.app.World()), server.app.World(), request, file, old(entry.partSize), id,
                   fileId, now, later, sent)
  {
    entry.status := QueueUploading;
    var p := entry.partSize;
    ghost var before := server.app.World();
    var created := server.CreateSession(id, request, now, NoFault);
    if created.Err? {
      return Err(created.error), [];
    }
    CreatedUpload(server.app.cfg, before, id, request, now, file);
    FreshUpload(server.app.cfg, before, id, request, now);
    entry.uploadId, entry.totalParts := Some(id), TotalParts(|file|, p);
    sent := ToSend(TotalParts(|file|, p), []);
    r := SendAndComplete(server, request.tenant, file, id, p, sent, fileId, later);
    if r.Ok? {
      entry.completedParts := sent;
      entry.status := QueueCompleted;
      entry.fileId := Some(r.value);
    }
  }

  /** Every part of the file is sent exactly once, in order, between the create and the complete. */
  ghost predicate StartedFully(cfg: Settings, w: World, w': World, request: CreateRequest, file: bytes, p: nat, id: Id,
                               fileId: Id, now: int, later: int, sent: seq<nat>)
    requires ValidSettings(cfg)
  {
    && p > 0 && (forall n :: n in sent <==> 1 <= n <= TotalParts(|file|, p))
    && (forall i, j :: 0 <= i < j < |sent| ==> sent[i] < sent[j])
    && SentAndCompleted(cfg, CreateSession(cfg, w, id, request, now, NoFault).0, w', id, request.tenant, file, p,
                        fileId, later, sent)
  }

  /** Sending every part of a live upload and completing it: only a taken key can refuse the completion. */
  method SendAndComplete(server: UploadService, tenant: string, file: bytes, id: Id, p: nat, sent: seq<nat>, fileId: Id,
                         now: int)
    returns (r: Result<Id, Error>)
    requires server.app.Valid() && UploadOf(server.app.cfg, server.app.World(), id, tenant, file, p)
    requires Backed(server.app.World(), id)
    requires !Terminal(server.app.db.sessions[id].status) && fileId !in server.app.db.files
    requires forall n :: n in sent <==> 1 <= n <= TotalParts(|file|, p)
    modifies server.app.db, server.app.storage, server.app.metrics
    ensures server.app.Valid()
    ensures var w := old(server.app.World());
      r == if KeyTaken(w.db, tenant, w.db.sessions[id].key) then Err(IntegrityError) else Ok(fileId)
    ensures r.Ok? ==> Holds(server.app.World(), r.value, file)
    ensures SentAndCompleted(server.app.cfg, old(server.app.World()), server.app.World(), id, tenant, file, p, fileId,
                             now, sent)
  {
    ghost var w0 := server.app.World();
    var ticks, error := SendMissing(server, tenant, file, id, p, sent);
    assert error.None?; // the session is live, so every part is accepted
    SendAllSent(server.app.cfg, w0, id, tenant, file, p, sent);
    AllSent(server.app.cfg, server.app.World(), id, tenant, file, p, sent);
    FullComplete(server.app.cfg, server.app.World(), id, tenant, fileId, now);
    r := CompleteUploaded(server, id, tenant, fileId, file, p, now);
  }

  lemma AllSent(cfg: Settings, w: World, id: Id, tenant: string, file: bytes, p: nat, sent: seq<nat>)
    requires UploadOf(cfg, w, id, tenant, file, p)
    requires ToSet(sent) <= CommittedParts(w.db, id) && ToSet(sent) <= Stored(w.disk, id).Keys
    requires forall n :: n in sent <==> 1 <= n <= TotalParts(|file|, p)
    ensures Interval(1, w.db.sessions[id].totalParts) <= CommittedParts(w.db, id)
    ensures Interval(1, w.db.sessions[id].totalParts) <= Stored(w.disk, id).Keys
  {
    assert SessionOk(w.db.sessions[id]);
    assert ToSet(sent) == Interval(1, TotalParts(|file|, p));
  }
}
