/**
 * An upload whose client is not alone: between its requests run those of anyone else. Which parts the
 * server calls missing is decided by the answers the client got, and how the upload ends by what the
 * others did to its session and its key.
 */
module Interleaving {
  import opened Basics
  import opened Slicing
  import opened Server
  import opened Invariants
  import opened Protocol
  import opened Content

  // ------------------------------------------------------------------ rows are answers

  /** The part of upload `id` that a request was answered Ok for, if it was a part request. */
  ghost function Answer(cfg: Settings, w: World, r: Request, id: Id): set<int>
    requires ValidSettings(cfg) && Admissible(w, r)
  {
    if (r.SendPart? || r.DeclarePart?) && r.id == id && Step(cfg, w, r).1.Ok? then {r.part} else {}
  }

  /** The parts of upload `id` that were answered Ok along a run. */
  ghost function Answered(cfg: Settings, w: World, rs: seq<Request>, id: Id): set<int>
    requires ValidSettings(cfg) && Run(cfg, w, rs)
    decreases |rs|
  {
    if rs == [] then {} else Answer(cfg, w, rs[0], id) + Answered(cfg, Step(cfg, w, rs[0]).0, rs[1..], id)
  }

  lemma SendAnswer(cfg: Settings, w: World, id: Id, tenant: string, n: int, body: bytes, declared: int, fault: Fault)
    ensures var (w', r) := ProxyPart(cfg, w, id, tenant, n, body, declared, fault);
      CommittedParts(w'.db, id) == CommittedParts(w.db, id) + if r.Ok? then {n} else {}
  {}

  lemma DeclareAnswer(cfg: Settings, w: World, id: Id, tenant: string, n: int, etag: string, size: int)
    ensures var (w', r) := CommitPart(cfg, w, id, tenant, n, etag, size);
      CommittedParts(w'.db, id) == CommittedParts(w.db, id) + if r.Ok? then {n} else {}
  {}

  lemma StepAnswers(cfg: Settings, w: World, r: Request, id: Id)
    requires ValidSettings(cfg) && Admissible(w, r) && Inv(w)
    ensures CommittedParts(Step(cfg, w, r).0.db, id) == CommittedParts(w.db, id) + Answer(cfg, w, r, id)
  {
    if r.SendPart? && r.id == id {
      SendAnswer(cfg, w, id, r.tenant, r.part, r.body, r.declared, r.fault);
    } else if r.DeclarePart? && r.id == id {
      DeclareAnswer(cfg, w, id, r.tenant, r.part, r.etag, r.size);
    } else {
      RowsAfter(cfg, w, r, id);
    }
  }

  /** Rows never disappear: a run adds to an upload's rows exactly the parts it answered Ok. */
  lemma {:induction false} RowsAreAnswers(cfg: Settings, w: World, rs: seq<Request>, id: Id)
    requires ValidSettings(cfg) && Inv(w) && Run(cfg, w, rs)
    ensures CommittedParts(Exec(cfg, w, rs).db, id) == CommittedParts(w.db, id) + Answered(cfg, w, rs, id)
    decreases |rs|
  {
    if rs != [] {
      StepAnswers(cfg, w, rs[0], id);
      StepKeepsInv(cfg, w, rs[0]);
      RowsAreAnswers(cfg, Step(cfg, w, rs[0]).0, rs[1..], id);
    }
  }

  /** The answer MISSING_PARTS. */
  ghost predicate Misses(r: Result<Id, Error>) { r.Err? && r.error.MissingParts? }

  /** When the checks of complete answer so, and with which parts. */
  lemma MissingDecided(cfg: Settings, w: World, id: Id, tenant: string, file: Id, now: int, fault: Fault)
    requires Inv(w)
    ensures var r := Complete(cfg, w, id, tenant, file, now, fault).1;
      && (Misses(r) <==>
            && Owns(w.db, tenant, id) && !Terminal(w.db.sessions[id].status)
            && |CommittedParts(w.db, id)| < w.db.sessions[id].totalParts)
      && (Misses(r) ==> r.error.missing == Absent(w.db.sessions[id].totalParts, CommittedParts(w.db, id)))
  {
    if Owns(w.db, tenant, id) { assert SessionOk(w.db.sessions[id]); }
  }

  /**
   * Missing parts, over every run from the empty server: complete answers MISSING_PARTS exactly on a live
   * upload of the caller of which some part was never answered Ok, and names exactly those parts.
   */
  lemma MissingAreUnanswered(cfg: Settings, rs: seq<Request>, id: Id, tenant: string, file: Id, now: int, fault: Fault)
    requires ValidSettings(cfg) && Run(cfg, START, rs)
    ensures var w := Exec(cfg, START, rs);
      var (r, answered) := (Complete(cfg, w, id, tenant, file, now, fault).1, Answered(cfg, START, rs, id));
      && (Misses(r) <==>
            && Owns(w.db, tenant, id) && !Terminal(w.db.sessions[id].status)
            && exists n :: 1 <= n <= w.db.sessions[id].totalParts && n !in answered)
      && (Misses(r) ==> r.error.missing != [])
      && (Misses(r) ==> forall n :: n in r.error.missing <==> 1 <= n <= w.db.sessions[id].totalParts && n !in answered)
  {
    var w := Exec(cfg, START, rs);
    ReachableInv(cfg, rs);
    RowsAreAnswers(cfg, START, rs, id);
    MissingDecided(cfg, w, id, tenant, file, now, fault);
    if id in w.db.sessions { CountTestExact(w, id); }
  }

  /** Once every part was answered Ok, no complete ever reports missing parts again, whatever runs in between. */
  lemma NoMissingOnceAnswered(cfg: Settings, rs: seq<Request>, later: seq<Request>, id: Id, tenant: string, file: Id,
                              now: int, fault: Fault)
    requires ValidSettings(cfg) && Run(cfg, START, rs) && Run(cfg, Exec(cfg, START, rs), later)
    requires id in Exec(cfg, START, rs).db.sessions
    requires Interval(1, Exec(cfg, START, rs).db.sessions[id].totalParts) <= Answered(cfg, START, rs, id)
    ensures !Misses(Complete(cfg, Exec(cfg, Exec(cfg, START, rs), later), id, tenant, file, now, fault).1)
  {
    var w := Exec(cfg, START, rs);
    var w' := Exec(cfg, w, later);
    ReachableInv(cfg, rs);
    RowsAreAnswers(cfg, START, rs, id);
    RowsAreAnswers(cfg, w, later, id);
    RunKeepsInv(cfg, w, later);
    RunPersists(cfg, w, later);
    CountTestExact(w', id);
    MissingDecided(cfg, w', id, tenant, file, now, fault);
  }

  // ------------------------------------------------------------------ how the upload ends

  /**
   * The answer to the client's complete, once every part was answered Ok: the end of its session by others
   * (a sweep, an abort, another complete of it), a key that others took meanwhile, or success.
   */
  ghost function Ending(w: World, id: Id, tenant: string, file: Id): Result<Id, Error>
    requires id in w.db.sessions
  {
    var s := w.db.sessions[id];
    match s.status
    case Completed => Ok(s.completedFile.GetOr(file))
    case Aborted => Err(UploadAborted)
    case Expired => Err(UploadExpired)
    case _ =>
      if !KeyTaken(w.db, tenant, s.key) then Ok(file)
      else if Stored(w.disk, id) == map[] then Err(PartFileMissing) else Err(IntegrityError)
  }

  lemma EndingDecided(cfg: Settings, w: World, id: Id, tenant: string, file: Id, now: int)
    requires Inv(w) && Owns(w.db, tenant, id) && Backed(w, id)
    requires CommittedParts(w.db, id) == Interval(1, w.db.sessions[id].totalParts)
    ensures Complete(cfg, w, id, tenant, file, now, NoFault).1 == Ending(w, id, tenant, file)
  {
    var s := w.db.sessions[id];
    assert SessionOk(s);
    CountTestExact(w, id);
    if s.status == Completed {
      CompleteAgain(cfg, w, id, file, now, NoFault);
    } else if !Terminal(s.status) {
      LiveEnding(cfg, w, id, tenant, file, now);
    }
  }

  lemma LiveEnding(cfg: Settings, w: World, id: Id, tenant: string, file: Id, now: int)
    requires Inv(w) && Owns(w.db, tenant, id) && Backed(w, id) && !Terminal(w.db.sessions[id].status)
    requires |CommittedParts(w.db, id)| >= w.db.sessions[id].totalParts
    ensures Complete(cfg, w, id, tenant, file, now, NoFault).1 == Ending(w, id, tenant, file)
  {
    var s := w.db.sessions[id];
    assert SessionOk(s);
    if !KeyTaken(w.db, tenant, s.key) {
      BackedFull(w, id);
      assert 1 in Interval(1, s.totalParts);
    }
  }

  /** What a run keeps of an upload: its owner and size, and its rows grow by what was answered. */
  lemma UploadKept(cfg: Settings, w: World, rs: seq<Request>, id: Id)
    requires ValidSettings(cfg) && Inv(w) && Run(cfg, w, rs) && id in w.db.sessions
    requires Interval(1, w.db.sessions[id].totalParts) <= Answered(cfg, w, rs, id)
    ensures var w' := Exec(cfg, w, rs);
      && Inv(w') && id in w'.db.sessions && Evolves(w.db.sessions[id], w'.db.sessions[id])
      && CommittedParts(w'.db, id) == Interval(1, w'.db.sessions[id].totalParts)
  {
    var w' := Exec(cfg, w, rs);
    RunKeepsInv(cfg, w, rs);
    RunPersists(cfg, w, rs);
    RowsAreAnswers(cfg, w, rs, id);
    CommittedInRange(w', id);
  }

  /**
   * An upload among others: create it in any reachable state, and let its own requests and anyone else's
   * follow in any order and with any faults, so long as its owner sends slices of `f`, re-sends what was
   * left in doubt, and got an Ok for every part. The answer to complete is then `Ending`; and when it makes
   * the file, the object, its size and its hash are those of `f`.
   */
  lemma UploadAmongOthers(cfg: Settings, w: World, id: Id, create: CreateRequest, t: int, w1: World, f: bytes,
                          rs: seq<Request>, file: Id, now: int)
    requires ValidSettings(cfg) && Inv(w) && id !in w.db.sessions && create.totalSize == |f|
    requires CreateSession(cfg, w, id, create, t, NoFault) == (w1, Ok(id))
    requires id in w1.db.sessions && w1.db.sessions[id].partSize > 0 && Run(cfg, w1, rs)
    requires Faithful(rs, id, w1.db.sessions[id], f)
    requires Interval(1, w1.db.sessions[id].totalParts) <= Answered(cfg, w1, rs, id)
    ensures var before := Exec(cfg, w1, rs);
      var (after, r) := Complete(cfg, before, id, create.tenant, file, now, NoFault);
      && id in before.db.sessions && r == Ending(before, id, create.tenant, file)
      && (r.Ok? && before.db.sessions[id].status != Completed ==>
            var key := before.db.sessions[id].key;
            && key in after.disk.objects && after.disk.objects[key] == f
            && file in after.db.files && after.db.files[file].key == key
            && after.db.files[file].size == |f| && after.db.files[file].etag == cfg.sha(f))
  {
    var before := Exec(cfg, w1, rs);
    FreshUpload(cfg, w, id, create, t);
    CreateKeepsInv(cfg, w, id, create, t, NoFault);
    FaithfulRun(cfg, w1, id, f, rs);
    UploadKept(cfg, w1, rs, id);
    EndingDecided(cfg, before, id, create.tenant, file, now);
    if Completes(cfg, before, id, create.tenant, file, now, NoFault) {
      BackedCompletes(cfg, before, id, create.tenant, file, now, NoFault, f);
    }
  }
}
