/**
 * Runs from the empty server that show what the other modules state in general does occur: an object
 * shorter than its file, bytes replaced by a refused complete, a lifetime that is over before it should.
 */
module Occurrences {
  import opened Basics
  import opened Slicing
  import opened Server
  import opened Invariants
  import opened Protocol
  import opened Content
  import opened Policy
  import P = Paths
  import T = Text

  // ------------------------------------------------------------------ one upload among others

  /** Upload `id` as planned, in `status`, with rows for the parts `done` and the part files `stored`. */
  ghost predicate At(w: World, id: Id, plan: Session, status: UploadStatus, done: set<nat>, stored: map<nat, bytes>) {
    && id in w.db.sessions && w.db.sessions[id] == plan.(status := status)
    && CommittedParts(w.db, id) == done && Stored(w.disk, id) == stored
  }

  /** Nothing is known of upload `id`. */
  ghost predicate Unknown(w: World, id: Id) {
    id !in w.db.sessions && Rows(w.db, id) == map[] && Stored(w.disk, id) == map[]
  }

  /** Neither upload `other` nor a file nor an object changed. */
  ghost predicate Aside(w: World, w': World, other: Id) {
    && (other in w.db.sessions <==> other in w'.db.sessions)
    && (other in w.db.sessions ==> w'.db.sessions[other] == w.db.sessions[other])
    && Rows(w'.db, other) == Rows(w.db, other) && Stored(w'.disk, other) == Stored(w.disk, other)
    && w'.db.files == w.db.files && w'.disk.objects == w.disk.objects
  }

  lemma CreateAt(cfg: Settings, w: World, id: Id, create: CreateRequest, now: int, plan: Session, other: Id)
    requires ValidSettings(cfg) && PlanSession(cfg, w.disk.objects, create, now) == Ok(plan) && plan.status == Initiated
    requires Unknown(w, id) && other != id
    ensures var w' := CreateSession(cfg, w, id, create, now, NoFault).0;
      At(w', id, plan, Initiated, {}, map[]) && Aside(w, w', other)
  {}

  lemma SendAt(cfg: Settings, w: World, id: Id, plan: Session, body: bytes, other: Id)
    requires At(w, id, plan, Initiated, {}, map[]) && plan.totalParts >= 1 && other != id
    requires !PartSizeRefused(cfg, plan, 1, |body|)
    ensures var w' := ProxyPart(cfg, w, id, plan.tenant, 1, body, |body|, NoFault).0;
      At(w', id, plan, Uploading, {1}, map[1 := body]) && Aside(w, w', other)
  {
    assert !PartSizeRefused(cfg, w.db.sessions[id], 1, |body|);
  }

  lemma DeclareAt(cfg: Settings, w: World, id: Id, plan: Session, body: bytes, etag: string, size: int)
    requires At(w, id, plan, Uploading, {1}, map[1 := body]) && plan.totalParts == 2
    ensures var w' := CommitPart(cfg, w, id, plan.tenant, 2, etag, size).0;
      At(w', id, plan, Uploading, {1, 2}, map[1 := body]) && w'.db.files == w.db.files
  {}

  /** Complete passes its count test, joins the one part there is and inserts the row. */
  lemma CompleteAt(cfg: Settings, w: World, id: Id, plan: Session, done: set<nat>, body: bytes, file: Id, now: int)
    requires At(w, id, plan, Uploading, done, map[1 := body]) && plan.completedFile.None? && |done| == plan.totalParts
    requires w.db.files == map[]
    ensures var (w', r) := Complete(cfg, w, id, plan.tenant, file, now, NoFault);
      && r == Ok(file) && ObjectAt(w', plan.key) == Some(body)
      && w'.db.files == map[file := NewFile(cfg, plan.tenant, plan.key, plan.totalSize, cfg.sha(body), Some(id),
                                            plan.effective, plan.requested, now)]
  {
    OnePartAssembly(1, body);
    TempDiffers(plan.key);
  }

  lemma CompleteAside(cfg: Settings, w: World, id: Id, tenant: string, file: Id, now: int, other: Id)
    requires Inv(w) && other != id
    ensures var w' := Complete(cfg, w, id, tenant, file, now, NoFault).0;
      && (other in w.db.sessions ==> other in w'.db.sessions && w'.db.sessions[other] == w.db.sessions[other])
      && Rows(w'.db, other) == Rows(w.db, other) && Stored(w'.disk, other) == Stored(w.disk, other)
  {
    CompleteShape(cfg, w, id, tenant, file, now, NoFault);
    CompleteClears(cfg, w, id, tenant, file, now, NoFault);
  }

  lemma OnePartAssembly(n: nat, body: bytes)
    ensures Assemble(map[n := body], Increasing({n})) == body && map[n := body].Keys == {n}
  {
    IncreasingMeans({n});
    var ns := Increasing({n});
    assert ns[0] in ns;
    assert ns == [n] && ns[..0] == [];
    assert Assemble(map[n := body], []) == [];
  }

  lemma PlannedFields(cfg: Settings, objects: map<Key, bytes>, create: CreateRequest, now: int, plan: Session)
    requires ValidSettings(cfg) && PlanSession(cfg, objects, create, now) == Ok(plan)
    ensures SessionOk(plan) && plan.completedFile.None? && plan.createdAt == now
    ensures plan.status == Initiated && plan.tenant == create.tenant && plan.totalSize == create.totalSize
    ensures cfg.minimumPartSize <= plan.partSize && plan.totalParts == TotalParts(plan.totalSize, plan.partSize)
  {
    PlannedOk(cfg, objects, create, now);
  }

  /** `w'` is what the requests `rs` make of `w`. */
  ghost predicate Made(cfg: Settings, w: World, rs: seq<Request>, w': World)
    requires ValidSettings(cfg)
  {
    Run(cfg, w, rs) && Exec(cfg, w, rs) == w'
  }

  lemma {:induction false} MadePush(cfg: Settings, w: World, rs: seq<Request>, w': World, r: Request)
    requires ValidSettings(cfg) && Made(cfg, w, rs, w') && Admissible(w', r)
    ensures Made(cfg, w, rs + [r], Step(cfg, w', r).0)
    decreases |rs|
  {
    if rs == [] {
      assert rs + [r] == [r] && [r][1..] == [];
    } else {
      MadePush(cfg, Step(cfg, w, rs[0]).0, rs[1..], w', r);
      assert (rs + [r])[1..] == rs[1..] + [r];
    }
  }

  lemma NothingMade(cfg: Settings, w: World)
    requires ValidSettings(cfg)
    ensures Made(cfg, w, [], w)
  {}

  /** The run `rs` from the empty server, followed by a create. */
  lemma ThenCreate(cfg: Settings, rs: seq<Request>, w: World, id: Id, create: CreateRequest, plan: Session, other: Id)
    returns (w': World)
    requires ValidSettings(cfg) && Made(cfg, START, rs, w) && Unknown(w, id) && other != id
    requires PlanSession(cfg, w.disk.objects, create, 0) == Ok(plan) && plan.status == Initiated
    ensures Made(cfg, START, rs + [Create(id, create, 0, NoFault)], w')
    ensures At(w', id, plan, Initiated, {}, map[]) && Aside(w, w', other)
  {
    w' := CreateSession(cfg, w, id, create, 0, NoFault).0;
    CreateAt(cfg, w, id, create, 0, plan, other);
    MadePush(cfg, START, rs, w, Create(id, create, 0, NoFault));
  }

  /** The run `rs`, followed by sending the first part. */
  lemma ThenSend(cfg: Settings, rs: seq<Request>, w: World, id: Id, plan: Session, body: bytes, other: Id)
    returns (w': World)
    requires ValidSettings(cfg) && Made(cfg, START, rs, w) && At(w, id, plan, Initiated, {}, map[]) && other != id
    requires plan.totalParts >= 1 && !PartSizeRefused(cfg, plan, 1, |body|)
    ensures Made(cfg, START, rs + [SendPart(id, plan.tenant, 1, body, |body|, NoFault)], w')
    ensures At(w', id, plan, Uploading, {1}, map[1 := body]) && Aside(w, w', other)
  {
    w' := ProxyPart(cfg, w, id, plan.tenant, 1, body, |body|, NoFault).0;
    SendAt(cfg, w, id, plan, body, other);
    MadePush(cfg, START, rs, w, SendPart(id, plan.tenant, 1, body, |body|, NoFault));
  }

  /** The run `rs`, followed by declaring the second part of two. */
  lemma ThenDeclare(cfg: Settings, rs: seq<Request>, w: World, id: Id, plan: Session, body: bytes, etag: string,
                    size: int) returns (w': World)
    requires ValidSettings(cfg) && Made(cfg, START, rs, w)
    requires At(w, id, plan, Uploading, {1}, map[1 := body]) && plan.totalParts == 2
    ensures Made(cfg, START, rs + [DeclarePart(id, plan.tenant, 2, etag, size)], w')
    ensures At(w', id, plan, Uploading, {1, 2}, map[1 := body]) && w'.db.files == w.db.files
  {
    w' := CommitPart(cfg, w, id, plan.tenant, 2, etag, size).0;
    DeclareAt(cfg, w, id, plan, body, etag, size);
    MadePush(cfg, START, rs, w, DeclarePart(id, plan.tenant, 2, etag, size));
  }

  /** The run `rs`, followed by a complete. */
  lemma ThenComplete(cfg: Settings, rs: seq<Request>, w: World, id: Id, tenant: string, file: Id, now: int)
    returns (w': World)
    requires ValidSettings(cfg) && Made(cfg, START, rs, w) && file !in w.db.files
    ensures Made(cfg, START, rs + [CompleteUpload(id, tenant, file, now, NoFault)], w')
    ensures w' == Complete(cfg, w, id, tenant, file, now, NoFault).0
  {
    w' := Complete(cfg, w, id, tenant, file, now, NoFault).0;
    MadePush(cfg, START, rs, w, CompleteUpload(id, tenant, file, now, NoFault));
  }

  // ------------------------------------------------------------------ how an object can fall short

  /** Create an upload and send its first part. */
  function SentRun(id: Id, create: CreateRequest, body: bytes): seq<Request> {
    [Create(id, create, 0, NoFault)] + [SendPart(id, create.tenant, 1, body, |body|, NoFault)]
  }

  lemma SentRunMade(cfg: Settings, id: Id, create: CreateRequest, plan: Session, body: bytes) returns (w: World)
    requires ValidSettings(cfg) && PlanSession(cfg, map[], create, 0) == Ok(plan) && plan.status == Initiated
    requires plan.tenant == create.tenant && plan.totalParts >= 1 && !PartSizeRefused(cfg, plan, 1, |body|)
    ensures Made(cfg, START, SentRun(id, create, body), w) && Aside(START, w, id + 1)
    ensures At(w, id, plan, Uploading, {1}, map[1 := body])
  {
    NothingMade(cfg, START);
    var w1 := ThenCreate(cfg, [], START, id, create, plan, id + 1);
    assert [] + [Create(id, create, 0, NoFault)] == [Create(id, create, 0, NoFault)];
    w := ThenSend(cfg, [Create(id, create, 0, NoFault)], w1, id, plan, body, id + 1);
  }

  /** The three requests that make a two-part upload complete with half its bytes. */
  function ShortRun(id: Id, create: CreateRequest, f: bytes, p: nat, etag: string): seq<Request>
    requires p > 0 && TotalParts(|f|, p) == 2
  {
    SentRun(id, create, Slice(f, p, 1)) + [DeclarePart(id, create.tenant, 2, etag, |f| - p)]
  }

  /**
   * The short object, as an input: any two-part upload the server accepts, of which the client sends the
   * first part and only declares the second. Complete answers Ok, the row claims the full size, and the
   * object is the first part alone.
   */
  lemma DeclaredPartGivesShortObject(cfg: Settings, id: Id, create: CreateRequest, f: bytes, p: nat, etag: string,
                                     file: Id, now: int)
    requires ValidSettings(cfg) && p > 0 && TotalParts(|f|, p) == 2 && create.totalSize == |f|
    requires var plan := PlanSession(cfg, map[], create, 0); plan.Ok? && plan.value.partSize == p
    ensures Run(cfg, START, ShortRun(id, create, f, p, etag))
    ensures var w := Exec(cfg, START, ShortRun(id, create, f, p, etag));
      var (w', r) := Complete(cfg, w, id, create.tenant, file, now, NoFault);
      && r == Ok(file) && file in w'.db.files && w'.db.files[file].size == |f|
      && ObjectAt(w', w'.db.files[file].key) == Some(Slice(f, p, 1)) && |Slice(f, p, 1)| < |f|
  {
    var plan := PlanSession(cfg, map[], create, 0).value;
    var body := Slice(f, p, 1);
    PlannedFields(cfg, map[], create, 0, plan);
    SlicePassesGuard(cfg, plan, f, 1);
    var w := DeclaredRunMade(cfg, id, create, plan, body, etag, |f| - p);
    CompleteAt(cfg, w, id, plan, {1, 2}, body, file, now);
    SliceSize(f, p, 1);
    SliceSize(f, p, 2);
  }

  lemma DeclaredRunMade(cfg: Settings, id: Id, create: CreateRequest, plan: Session, body: bytes, etag: string,
                        size: int) returns (w: World)
    requires ValidSettings(cfg) && PlanSession(cfg, map[], create, 0) == Ok(plan) && plan.status == Initiated
    requires plan.tenant == create.tenant && plan.totalParts == 2 && !PartSizeRefused(cfg, plan, 1, |body|)
    ensures Made(cfg, START, SentRun(id, create, body) + [DeclarePart(id, create.tenant, 2, etag, size)], w)
    ensures w.db.files == map[] && At(w, id, plan, Uploading, {1, 2}, map[1 := body])
  {
    var w2 := SentRunMade(cfg, id, create, plan, body);
    w := ThenDeclare(cfg, SentRun(id, create, body), w2, id, plan, body, etag, size);
  }

  /** A server that accepts a two-byte file in parts of one byte. */
  function SmallServer(sha: bytes -> string): Settings {
    var policy := PolicyConfig(NOTHING, false, false, 0, 0, {}, {});
    Settings({("t", "b")}, 10, true, 1, 1, 1, 10, 0, "automatic", false, 1, 1, false, false, policy, policy, false,
             s => s, sha)
  }

  function SmallRequest(size: int): CreateRequest { CreateRequest("t", "b", "a", size, None, "presigned", None) }

  lemma SmallName()
    ensures P.ServerNormalize(s => s, "a", P.DEFAULT_DEPTH, P.DEFAULT_BYTES) == Ok("a")
  {
    assert P.ToPosix("a") == "a" && !P.HasControl("a");
    assert T.Split("a", '/') == ["a"];
    assert "a" !in P.UNSAFE;
  }

  /** It accepts small uploads in parts of one byte. */
  lemma SmallServerAccepts(sha: bytes -> string, size: nat, objects: map<Key, bytes>)
    requires size == 1 || size == 2
    ensures ValidSettings(SmallServer(sha)) && TotalParts(size, 1) == size
    ensures var plan := PlanSession(SmallServer(sha), objects, SmallRequest(size), 0);
      plan.Ok? && plan.value.partSize == 1 && plan.value.key == Key("b", "a")
  {
    SmallName();
  }

  /** Two bytes uploaded, one byte stored, and Ok. */
  lemma ShortObjectOccurs(sha: bytes -> string, a: byte, b: byte)
    ensures TotalParts(|[a, b]|, 1) == 2 && ValidSettings(SmallServer(sha))
    ensures Run(SmallServer(sha), START, ShortRun(0, SmallRequest(2), [a, b], 1, ""))
    ensures var w := Exec(SmallServer(sha), START, ShortRun(0, SmallRequest(2), [a, b], 1, ""));
      var (w', r) := Complete(SmallServer(sha), w, 0, "t", 0, 0, NoFault);
      r == Ok(0) && 0 in w'.db.files && w'.db.files[0].size == 2 && ObjectAt(w', w'.db.files[0].key) == Some([a])
  {
    SmallServerAccepts(sha, 2, map[]);
    DeclaredPartGivesShortObject(SmallServer(sha), 0, SmallRequest(2), [a, b], 1, "", 0, 0);
    assert Slice([a, b], 1, 1) == [a];
  }

  // ------------------------------------------------------------------ two uploads to one key

  /** Both uploads are sent before the first of them completes. */
  function RacingRun(create: CreateRequest, a: bytes, b: bytes): seq<Request> {
    BothSentRun(create, a, b) + [CompleteUpload(0, create.tenant, 0, 0, NoFault)]
  }

  /**
   * The overwrite, as an input: two one-part uploads of equal size to one key. The first completes and has
   * its own bytes; completing the second is refused, the database keeps the first file, and the bytes
   * under its key are the second's.
   */
  lemma RacingUploadsOverwrite(cfg: Settings, create: CreateRequest, plan: Session, a: bytes, b: bytes, now: int)
    requires ValidSettings(cfg) && PlanSession(cfg, map[], create, 0) == Ok(plan) && plan.totalParts == 1
    requires |a| == |b| == create.totalSize
    ensures Run(cfg, START, RacingRun(create, a, b))
    ensures var w := Exec(cfg, START, RacingRun(create, a, b));
      var (w', r) := Complete(cfg, w, 1, create.tenant, 1, now, NoFault);
      && 0 in w.db.files && w.db.files[0].key == plan.key && w.db.files[0].etag == cfg.sha(a)
      && ObjectAt(w, plan.key) == Some(a)
      && r == Err(IntegrityError) && w'.db == w.db && ObjectAt(w', plan.key) == Some(b)
  {
    PlannedFields(cfg, map[], create, 0, plan);
    var w4 := BothSent(cfg, create, plan, a, b);
    var w5 := ThenComplete(cfg, BothSentRun(create, a, b), w4, 0, create.tenant, 0, 0);
    CompleteAt(cfg, w4, 0, plan, {1}, a, 0, 0);
    RunKeepsInv(cfg, START, BothSentRun(create, a, b));
    CompleteAside(cfg, w4, 0, create.tenant, 0, 0, 1);
    RunKeepsInv(cfg, START, RacingRun(create, a, b));
    SecondRefused(cfg, w5, plan, b, now);
  }

  function BothSentRun(create: CreateRequest, a: bytes, b: bytes): seq<Request> {
    SentRun(0, create, a) + SentRun(1, create, b)
  }

  lemma BothSent(cfg: Settings, create: CreateRequest, plan: Session, a: bytes, b: bytes) returns (w: World)
    requires ValidSettings(cfg) && PlanSession(cfg, map[], create, 0) == Ok(plan) && plan.status == Initiated
    requires SessionOk(plan) && plan.totalParts == 1 && plan.tenant == create.tenant
    requires cfg.minimumPartSize <= plan.partSize && |a| == |b| == plan.totalSize
    ensures Made(cfg, START, BothSentRun(create, a, b), w) && w.db.files == map[]
    ensures At(w, 0, plan, Uploading, {1}, map[1 := a]) && At(w, 1, plan, Uploading, {1}, map[1 := b])
  {
    OnePartFits(cfg, plan, a);
    OnePartFits(cfg, plan, b);
    var w2 := SentRunMade(cfg, 0, create, plan, a);
    w := SentRunBeside(cfg, SentRun(0, create, a), w2, create, plan, b);
  }

  /** After the run `rs` that holds upload 0: upload 1 is created and sent, and upload 0 stays. */
  lemma SentRunBeside(cfg: Settings, rs: seq<Request>, w: World, create: CreateRequest, plan: Session, body: bytes)
    returns (w': World)
    requires ValidSettings(cfg) && Made(cfg, START, rs, w) && PlanSession(cfg, w.disk.objects, create, 0) == Ok(plan)
    requires plan.status == Initiated && Unknown(w, 1) && 0 in w.db.sessions
    requires plan.tenant == create.tenant && plan.totalParts >= 1 && !PartSizeRefused(cfg, plan, 1, |body|)
    ensures Made(cfg, START, rs + SentRun(1, create, body), w') && Aside(w, w', 0)
    ensures At(w', 1, plan, Uploading, {1}, map[1 := body])
  {
    var w1 := ThenCreate(cfg, rs, w, 1, create, plan, 0);
    w' := ThenSend(cfg, rs + [Create(1, create, 0, NoFault)], w1, 1, plan, body, 0);
    assert rs + SentRun(1, create, body)
      == rs + [Create(1, create, 0, NoFault)] + [SendPart(1, create.tenant, 1, body, |body|, NoFault)];
  }

  /** The only part of an upload is the whole file. */
  lemma OnePartFits(cfg: Settings, plan: Session, f: bytes)
    requires SessionOk(plan) && plan.totalParts == 1 && plan.totalSize == |f| && cfg.minimumPartSize <= plan.partSize
    ensures !PartSizeRefused(cfg, plan, 1, |f|)
  {
    LastEnd(f, plan.partSize);
    SliceSize(f, plan.partSize, 1);
  }

  lemma SecondRefused(cfg: Settings, w: World, plan: Session, b: bytes, now: int)
    requires ValidSettings(cfg) && Inv(w) && At(w, 1, plan, Uploading, {1}, map[1 := b]) && plan.totalParts == 1
    requires 0 in w.db.files && w.db.files[0].tenant == plan.tenant && w.db.files[0].key == plan.key
    ensures var (w', r) := Complete(cfg, w, 1, plan.tenant, 1, now, NoFault);
      r == Err(IntegrityError) && w'.db == w.db && ObjectAt(w', plan.key) == Some(b)
  {
    OnePartAssembly(1, b);
    RefusedCompleteOverwrites(cfg, w, 1, plan.tenant, 1, now, NoFault, 0);
  }

  /** The first file's row says `a`, its bytes are `b`. */
  lemma OverwriteOccurs(sha: bytes -> string, a: byte, b: byte)
    ensures ValidSettings(SmallServer(sha)) && Run(SmallServer(sha), START, RacingRun(SmallRequest(1), [a], [b]))
    ensures var w := Exec(SmallServer(sha), START, RacingRun(SmallRequest(1), [a], [b]));
      var (w', r) := Complete(SmallServer(sha), w, 1, "t", 1, 0, NoFault);
      && r == Err(IntegrityError) && 0 in w'.db.files && w'.db.files[0].etag == sha([a])
      && ObjectAt(w, w'.db.files[0].key) == Some([a]) && ObjectAt(w', w'.db.files[0].key) == Some([b])
  {
    SmallServerAccepts(sha, 1, map[]);
    var plan := PlanSession(SmallServer(sha), map[], SmallRequest(1), 0).value;
    PlannedFields(SmallServer(sha), map[], SmallRequest(1), 0, plan);
    RacingUploadsOverwrite(SmallServer(sha), SmallRequest(1), plan, [a], [b], 0);
  }

  // ------------------------------------------------------------------ a lifetime counted from creation

  /** The small server, allowing lifetimes of 1 to 10 seconds. */
  function TtlServer(sha: bytes -> string): Settings {
    var policy := PolicyConfig(NOTHING, true, false, 1, 10, {"ttl"}, {"delete"});
    SmallServer(sha).(lifecycleEnabled := true, policy := policy, staticPolicy := policy)
  }

  function TtlRequest(ttl: int): CreateRequest {
    SmallRequest(1).(lifecycle := Some(Requested(Some("ttl"), Some("delete"), Some(ttl), None)))
  }

  lemma TtlServerAccepts(sha: bytes -> string, ttl: int)
    requires 1 <= ttl <= 10
    ensures var plan := PlanSession(TtlServer(sha), map[], TtlRequest(ttl), 0);
      && plan.Ok? && plan.value.totalParts == 1
      && plan.value.effective == Some(Effective("ttl", "delete", Some(ttl), Some(ttl * MICROS)))
  {
    SmallName();
    assert Compute(TtlServer(sha).policy, TtlRequest(ttl).lifecycle, 0)
      == Ok(Effective("ttl", "delete", Some(ttl), Some(ttl * MICROS)));
  }

  /**
   * However much later the upload completes, the file expires `ttl` seconds after the session was created;
   * once more than that has passed, the file is due for deletion at the moment it comes into being.
   */
  lemma ExpiredAtCompletionOccurs(sha: bytes -> string, ttl: int, f: bytes, now: int)
    requires 1 <= ttl <= 10 && |f| == 1
    ensures ValidSettings(TtlServer(sha)) && Run(TtlServer(sha), START, SentRun(0, TtlRequest(ttl), f))
    ensures var (w, r) := Complete(TtlServer(sha), Exec(TtlServer(sha), START, SentRun(0, TtlRequest(ttl), f)), 0, "t",
                                   0, now, NoFault);
      && r == Ok(0) && 0 in w.db.files && w.db.files[0].completedAt == now && w.db.files[0].ttl == Some(ttl)
      && w.db.files[0].expiresAt == Some(ttl * MICROS)
      && (Due(w.db.files[0], now) <==> now >= ttl * MICROS)
  {
    var cfg, create := TtlServer(sha), TtlRequest(ttl);
    TtlServerAccepts(sha, ttl);
    var plan := PlanSession(cfg, map[], create, 0).value;
    PlannedFields(cfg, map[], create, 0, plan);
    OnePartFits(cfg, plan, f);
    var w := SentRunMade(cfg, 0, create, plan, f);
    CompleteAt(cfg, w, 0, plan, {1}, f, 0, now);
  }
}
