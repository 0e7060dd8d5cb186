/** What holds over whole runs of directory requests: status paths, frozen manifests, agreement with the client. */
module DirectoryRuns {
  import opened Basics
  import opened Sorting
  import opened Json
  import opened Manifest
  import opened Directory
  import Paths

  // ------------------------------------------------------------------ one step, seen from one job

  /** A non-empty chain of statuses in which every step is in the transition table. */
  ghost predicate Chain(path: seq<JobStatus>) {
    path != [] && forall i :: 0 <= i < |path| - 1 ==> Allowed(path[i], path[i + 1])
  }

  ghost predicate Connected(from: JobStatus, to: JobStatus) {
    exists path :: Chain(path) && path[0] == from && path[|path| - 1] == to
  }

  lemma ConnectedBy(path: seq<JobStatus>)
    requires Chain(path)
    ensures Connected(path[0], path[|path| - 1])
  {}

  lemma ConnectedTrans(a: JobStatus, b: JobStatus, c: JobStatus)
    requires Connected(a, b) && Connected(b, c)
    ensures Connected(a, c)
  {
    var p :| Chain(p) && p[0] == a && p[|p| - 1] == b;
    var q :| Chain(q) && q[0] == b && q[|q| - 1] == c;
    var r := p + q[1..];
    forall i | 0 <= i < |r| - 1 ensures Allowed(r[i], r[i + 1]) {
      if i >= |p| - 1 {
        assert r[i] == q[i - |p| + 1] && r[i + 1] == q[i - |p| + 2];
      } else {
        assert r[i] == p[i] && r[i + 1] == p[i + 1];
      }
    }
    assert r[|r| - 1] == c;
  }

  /** How a job may change: its status along the table, its rows by growing, its hash by being set once. */
  ghost predicate Evolves(a: Job, aItems: seq<Item>, b: Job, bItems: seq<Item>) {
    && b.tenant == a.tenant && b.prefix == a.prefix
    && Connected(a.status, b.status)
    && aItems <= bItems
    && (a.manifestHash.Some? ==> b.manifestHash == a.manifestHash && bItems == aItems)
    && (!a.status.Open() ==> !b.status.Open() && bItems == aItems)
  }

  lemma EvolvesTrans(a: Job, ai: seq<Item>, b: Job, bi: seq<Item>, c: Job, ci: seq<Item>)
    requires Evolves(a, ai, b, bi) && Evolves(b, bi, c, ci)
    ensures Evolves(a, ai, c, ci)
  {
    ConnectedTrans(a.status, b.status, c.status);
  }

  /** The part of the invariant that decides how a job can move. */
  ghost predicate Settled(job: Job, items: seq<Item>) {
    job.status.Committed() && (job.status.Open() ==> job.manifestHash.None?) && (job.status == Created ==> items == [])
  }

  lemma SettledAlways(env: Env, t: Tables, k: nat)
    requires Inv(env, t) && k < |t.jobs|
    ensures Settled(t.jobs[k], Items(t.rows, k))
  {
    JobHolds(env, t, k);
  }

  lemma Unmoved(a: Job, items: seq<Item>, b: Job)
    requires b == a.(totalEntries := b.totalEntries, totalBytes := b.totalBytes, uploadedFiles := b.uploadedFiles,
                     failedFiles := b.failedFiles, skippedFiles := b.skippedFiles)
    ensures Evolves(a, items, b, items)
  {
    ConnectedBy([a.status]);
  }

  lemma Moved(a: Job, items: seq<Item>, b: Job, path: seq<JobStatus>)
    requires Chain(path) && path[0] == a.status && path[|path| - 1] == b.status && !a.status.Open()
    requires !b.status.Open()
    requires b.manifestHash == a.manifestHash && b.tenant == a.tenant && b.prefix == a.prefix
    ensures Evolves(a, items, b, items)
  {
    ConnectedBy(path);
  }

  /** What a successful add_entries does: the job grows by the admitted items. */
  lemma AddShape(env: Env, t: Tables, tenant: string, j: nat, ds: seq<Document>)
    requires AddEntries(env, t, tenant, j, ds).1.Ok?
    ensures j < |t.jobs| && t.jobs[j].status.Open() && Admit(env, t.jobs[j].prefix, ds, PathSet(Items(t.rows, j))).Ok?
    ensures var more := Admit(env, t.jobs[j].prefix, ds, PathSet(Items(t.rows, j))).value;
      AddEntries(env, t, tenant, j, ds).0 == t.(jobs := t.jobs[j := Grow(t.jobs[j], more)],
                                                rows := t.rows + NewRows(j, more))
  {}

  lemma AddRefused(env: Env, t: Tables, tenant: string, j: nat, ds: seq<Document>)
    requires AddEntries(env, t, tenant, j, ds).1.Err?
    ensures AddEntries(env, t, tenant, j, ds).0 == t
  {}

  lemma GrowEvolves(a: Job, items: seq<Item>, more: seq<Item>)
    requires a.status.Open() && a.manifestHash.None?
    ensures Evolves(a, items, Grow(a, more), items + more)
  {
    assert Chain([Created, ManifestUploading]);
    ConnectedBy(if a.status == Created then [a.status, ManifestUploading] else [a.status]);
  }

  lemma AddEvolves(env: Env, t: Tables, tenant: string, j: nat, ds: seq<Document>, k: nat)
    requires k < |t.jobs| && Settled(t.jobs[k], Items(t.rows, k))
    ensures var t' := AddEntries(env, t, tenant, j, ds).0;
      |t'.jobs| == |t.jobs| && Evolves(t.jobs[k], Items(t.rows, k), t'.jobs[k], Items(t'.rows, k))
  {
    Unmoved(t.jobs[k], Items(t.rows, k), t.jobs[k]);
    if AddEntries(env, t, tenant, j, ds).1.Ok? {
      AddShape(env, t, tenant, j, ds);
      var more := Admit(env, t.jobs[j].prefix, ds, PathSet(Items(t.rows, j))).value;
      ItemsGrow(t.rows, j, more, k);
      if k == j { GrowEvolves(t.jobs[j], Items(t.rows, j), more); }
    } else {
      AddRefused(env, t, tenant, j, ds);
    }
  }

  lemma {:induction false} CompleteManifestEvolves(env: Env, t: Tables, tenant: string, j: nat,
                                                   expected: Option<string>, counts: Option<Counts>, listed: seq<Item>,
                                                   k: nat)
    requires k < |t.jobs| && Settled(t.jobs[k], Items(t.rows, k))
    ensures var t' := CompleteManifest(env, t, tenant, j, expected, counts, listed).0;
      |t'.jobs| == |t.jobs| && Evolves(t.jobs[k], Items(t.rows, k), t'.jobs[k], Items(t'.rows, k))
  {
    ManifestShape(env, t, tenant, j, expected, counts, listed);
    Unmoved(t.jobs[k], Items(t.rows, k), t.jobs[k]);
    if CompleteManifest(env, t, tenant, j, expected, counts, listed).1.Ok? && k == j {
      FreezeEvolves(t.jobs[j], Items(t.rows, j), env.sha(HashInput(HashedFiles(listed))));
    }
  }

  lemma FreezeEvolves(a: Job, items: seq<Item>, hash: string)
    requires a.status == ManifestUploading && a.manifestHash.None?
    ensures Evolves(a, items, a.(manifestHash := Some(hash), status := Ready), items)
  {
    ConnectedBy([ManifestUploading, Ready]);
  }

  lemma InitiateEvolves(t: Tables, tenant: string, j: nat, entry: nat, k: nat)
    requires k < |t.jobs| && Settled(t.jobs[k], Items(t.rows, k))
    ensures var t' := InitiateEntry(t, tenant, j, entry).0;
      |t'.jobs| == |t.jobs| && Evolves(t.jobs[k], Items(t.rows, k), t'.jobs[k], Items(t'.rows, k))
  {
    var (t', r) := InitiateEntry(t, tenant, j, entry);
    Unmoved(t.jobs[k], Items(t.rows, k), t.jobs[k]);
    if r.Ok? {
      ItemsKept(t.rows, entry, t'.rows[entry].progress, k);
      ItemPresent(t.rows, entry);
    }
  }

  lemma MarkEvolves(t: Tables, tenant: string, j: nat, entry: nat, status: EntryStatus, file: Option<nat>,
                    error: Option<string>, k: nat)
    requires k < |t.jobs|
    ensures var t' := MarkEntry(t, tenant, j, entry, status, file, error).0;
      |t'.jobs| == |t.jobs| && Evolves(t.jobs[k], Items(t.rows, k), t'.jobs[k], Items(t'.rows, k))
  {
    var (t', r) := MarkEntry(t, tenant, j, entry, status, file, error);
    Unmoved(t.jobs[k], Items(t.rows, k), t'.jobs[k]);
    if r.Ok? {
      ItemsKept(t.rows, entry, t'.rows[entry].progress, k);
    }
  }

  lemma RetryEvolves(t: Tables, tenant: string, j: nat, k: nat)
    requires k < |t.jobs|
    ensures var t' := Retry(t, tenant, j).0;
      |t'.jobs| == |t.jobs| && Evolves(t.jobs[k], Items(t.rows, k), t'.jobs[k], Items(t'.rows, k))
  {
    RetryShape(t, tenant, j);
    Unmoved(t.jobs[k], Items(t.rows, k), t.jobs[k]);
    if Retry(t, tenant, j).1.Ok? && k == j {
      Moved(t.jobs[j], Items(t.rows, j), t.jobs[j].(status := Uploading), [t.jobs[j].status, Uploading]);
    }
  }

  lemma CompleteEvolves(t: Tables, tenant: string, j: nat, k: nat)
    requires k < |t.jobs| && Settled(t.jobs[k], Items(t.rows, k))
    ensures var t' := CompleteJob(t, tenant, j).0;
      |t'.jobs| == |t.jobs| && Evolves(t.jobs[k], Items(t.rows, k), t'.jobs[k], Items(t'.rows, k))
  {
    var t' := CompleteJob(t, tenant, j).0;
    Unmoved(t.jobs[k], Items(t.rows, k), t.jobs[k]);
    if t' != t && k == j {
      assert t.jobs[j].status == Uploading;
      Moved(t.jobs[j], Items(t.rows, j), t'.jobs[j], [Uploading, Finalizing, Completed]);
    }
  }

  lemma CancelEvolves(t: Tables, tenant: string, j: nat, k: nat)
    requires k < |t.jobs| && Settled(t.jobs[k], Items(t.rows, k))
    ensures var t' := CancelJob(t, tenant, j).0;
      |t'.jobs| == |t.jobs| && Evolves(t.jobs[k], Items(t.rows, k), t'.jobs[k], Items(t'.rows, k))
  {
    var t' := CancelJob(t, tenant, j).0;
    Unmoved(t.jobs[k], Items(t.rows, k), t.jobs[k]);
    if t' != t && k == j {
      var s := t.jobs[j].status;
      assert Allowed(s, Cancelling) && Allowed(Cancelling, Cancelled);
      ConnectedBy([s, Cancelling, Cancelled]);
    }
  }

  lemma {:induction false} StepEvolves(env: Env, t: Tables, r: Request, k: nat)
    requires k < |t.jobs| && Settled(t.jobs[k], Items(t.rows, k))
    ensures var t' := Step(env, t, r).0;
      |t.jobs| <= |t'.jobs| && Evolves(t.jobs[k], Items(t.rows, k), t'.jobs[k], Items(t'.rows, k))
  {
    match r
    case Create(_, _, _, _) => Unmoved(t.jobs[k], Items(t.rows, k), t.jobs[k]);
    case Add(tenant, j, ds) => AddEvolves(env, t, tenant, j, ds, k);
    case CompleteManifestOf(tenant, j, expected, counts, listed) =>
      CompleteManifestEvolves(env, t, tenant, j, expected, counts, listed, k);
    case Initiate(tenant, j, entry) => InitiateEvolves(t, tenant, j, entry, k);
    case Mark(tenant, j, entry, status, file, error) => MarkEvolves(t, tenant, j, entry, status, file, error, k);
    case RetryJob(tenant, j) => RetryEvolves(t, tenant, j, k);
    case Complete(tenant, j) => CompleteEvolves(t, tenant, j, k);
    case Cancel(tenant, j) => CancelEvolves(t, tenant, j, k);
  }

  /** Over any run a job's status moves along the transition table and its rows only grow. */
  lemma {:induction false} RunEvolves(env: Env, t: Tables, rs: seq<Request>, t': Tables, k: nat)
    requires Inv(env, t) && Run(env, t, rs, t') && k < |t.jobs|
    ensures |t.jobs| <= |t'.jobs| && Evolves(t.jobs[k], Items(t.rows, k), t'.jobs[k], Items(t'.rows, k))
    decreases |rs|
  {
    if rs == [] {
      Unmoved(t.jobs[k], Items(t.rows, k), t.jobs[k]);
    } else {
      var mid := Step(env, t, rs[0]).0;
      StepKeepsInv(env, t, rs[0]);
      SettledAlways(env, t, k);
      StepEvolves(env, t, rs[0], k);
      RunEvolves(env, mid, rs[1..], t', k);
      EvolvesTrans(t.jobs[k], Items(t.rows, k), mid.jobs[k], Items(mid.rows, k), t'.jobs[k], Items(t'.rows, k));
    }
  }

  /**
   * Frozen manifest: in any run from the empty tables, once a job's manifest hash is set it stays, the
   * entries stay, and it is the hash of the file entries then and in every later state.
   */
  lemma FrozenManifest(env: Env, before: seq<Request>, t: Tables, after: seq<Request>, t': Tables, k: nat)
    requires Run(env, EMPTY, before, t) && Run(env, t, after, t')
    requires k < |t.jobs| && t.jobs[k].manifestHash.Some?
    ensures k < |t'.jobs| && t'.jobs[k].manifestHash == t.jobs[k].manifestHash
    ensures Items(t'.rows, k) == Items(t.rows, k) != []
    ensures t'.jobs[k].manifestHash == Some(env.sha(HashInput(HashedFiles(Items(t'.rows, k)))))
  {
    ReachableInv(env, before, t);
    RunEvolves(env, t, after, t', k);
    RunKeepsInv(env, t, after, t');
    JobHolds(env, t', k);
  }

  lemma {:induction false} EndOfTable(path: seq<JobStatus>)
    requires Chain(path) && path[0].Finished()
    ensures |path| == 1
  {
    assert |path| > 1 ==> Allowed(path[0], path[1]);
  }

  /** Status safety: only six statuses are ever committed, changes follow the table, two are terminal. */
  lemma JobStatusSafety(env: Env, before: seq<Request>, t: Tables, after: seq<Request>, t': Tables, k: nat)
    requires Run(env, EMPTY, before, t) && Run(env, t, after, t') && k < |t.jobs|
    ensures k < |t'.jobs| && t.jobs[k].status.Committed() && t'.jobs[k].status.Committed()
    ensures Connected(t.jobs[k].status, t'.jobs[k].status)
    ensures t.jobs[k].status.Finished() ==> t'.jobs[k].status == t.jobs[k].status
  {
    ReachableInv(env, before, t);
    RunEvolves(env, t, after, t', k);
    RunKeepsInv(env, t, after, t');
    JobHolds(env, t, k);
    JobHolds(env, t', k);
    if t.jobs[k].status.Finished() {
      var path :| Chain(path) && path[0] == t.jobs[k].status && path[|path| - 1] == t'.jobs[k].status;
      EndOfTable(path);
    }
  }

  /** In every reachable state the gauge is the number of unfinished jobs and the counters are the true counts. */
  lemma TrueCountsAlways(env: Env, rs: seq<Request>, t: Tables, k: nat)
    requires Run(env, EMPTY, rs, t) && k < |t.jobs|
    ensures t.active == ActiveJobs(t.jobs)
    ensures TrueCounts(t.jobs[k], Items(t.rows, k))
    ensures t.jobs[k].status == Created ==> Items(t.rows, k) == []
  {
    ReachableInv(env, rs, t);
    JobHolds(env, t, k);
  }

  /** No two entries of a job ever share a path or an object key, so the unique constraints never fire. */
  lemma KeysDistinct(env: Env, rs: seq<Request>, t: Tables, k: nat, a: nat, b: nat)
    requires Paths.NfcLike(env.nfc) && Run(env, EMPTY, rs, t) && k < |t.jobs|
    requires a < b < |Items(t.rows, k)|
    ensures Items(t.rows, k)[a].path != Items(t.rows, k)[b].path
    ensures Items(t.rows, k)[a].objectKey != Items(t.rows, k)[b].objectKey
  {
    ReachableInv(env, rs, t);
    JobHolds(env, t, k);
    KeysApart(env, t.jobs[k].prefix, Items(t.rows, k), a, b);
  }

  lemma KeysApart(env: Env, prefix: string, items: seq<Item>, a: nat, b: nat)
    requires Paths.NfcLike(env.nfc) && GoodItems(env, prefix, items) && a < b < |items|
    ensures items[a].path != items[b].path && items[a].objectKey != items[b].objectKey
  {
    var x, y := items[a], items[b];
    assert WellPlaced(env, prefix, x) && WellPlaced(env, prefix, y);
    Paths.JoinPrefixInjective(env.nfc, prefix, x.relativePath, y.relativePath, env.maximumDepth, env.maximumBytes);
  }

  /** The status transition inside complete_manifest is never the thing that refuses it in a reachable state. */
  lemma ManifestConflictOnlyWhenClosed(env: Env, t: Tables, tenant: string, k: nat, expected: Option<string>,
                                       counts: Option<Counts>, listed: seq<Item>)
    requires k < |t.jobs| && Settled(t.jobs[k], Items(t.rows, k)) && t.jobs[k].tenant == tenant
    requires multiset(listed) == multiset(Items(t.rows, k))
    ensures CompleteManifest(env, t, tenant, k, expected, counts, listed).1 == Err(StateConflict) <==>
      !t.jobs[k].status.Open()
  {
    SameElements(listed, Items(t.rows, k));
  }

  /**
   * When complete and cancel succeed. Completing needs an uploading job with no failed entry (or an
   * already completed one): ready is refused. Cancelling works once, on any unfinished job.
   */
  lemma FinishingRules(t: Tables, tenant: string, k: nat)
    requires k < |t.jobs| && Settled(t.jobs[k], Items(t.rows, k)) && t.jobs[k].tenant == tenant
    ensures CompleteJob(t, tenant, k).1.Ok? <==>
      t.jobs[k].status == Completed || (t.jobs[k].status == Uploading && CountStatus(t.rows, k, Failed) == 0)
    ensures CancelJob(t, tenant, k).1.Ok? <==> !t.jobs[k].status.Finished()
  {}

  lemma {:induction false} CountAtLeast(rows: seq<Row>, i: nat, status: EntryStatus)
    requires i < |rows| && rows[i].progress.status == status
    ensures CountStatus(rows, rows[i].job, status) >= 1
  {
    var n := |rows| - 1;
    if i < n { CountAtLeast(rows[..n], i, status); }
  }

  /** Marking an entry asks nothing of the job: a completed job can still come to show failed files. */
  lemma CompletedJobStillMarked(t: Tables, tenant: string, j: nat, entry: nat, error: Option<string>)
    requires Visible(t, tenant, j) && t.jobs[j].status == Completed && entry < |t.rows| && t.rows[entry].job == j
    ensures var (t', r) := MarkEntry(t, tenant, j, entry, Failed, None, error);
      r.Ok? && t'.jobs[j].status == Completed && t'.jobs[j].failedFiles >= 1
  {
    var t' := MarkEntry(t, tenant, j, entry, Failed, None, error).0;
    CountAtLeast(t'.rows, entry, Failed);
  }

  function DirectorySize(items: seq<Item>): int {
    if items == [] then 0
    else
      var n := |items| - 1;
      DirectorySize(items[..n]) + if items[n].kind == Kind.Directory then items[n].size else 0
  }

  lemma {:induction false} SizesSplit(items: seq<Item>)
    ensures TotalSize(items) == FileSize(items) + DirectorySize(items)
  {
    if items != [] { SizesSplit(items[..|items| - 1]); }
  }

  /** After a marked entry total_bytes is the files' sum exactly when the directories' sizes add up to 0. */
  lemma BytesAfterMark(t: Tables, tenant: string, j: nat, entry: nat, status: EntryStatus, file: Option<nat>,
                       error: Option<string>)
    requires MarkEntry(t, tenant, j, entry, status, file, error).1.Ok?
    ensures j < |t.jobs| && var job := MarkEntry(t, tenant, j, entry, status, file, error).0.jobs[j];
      job.totalBytes == FileSize(Items(t.rows, j)) <==> DirectorySize(Items(t.rows, j)) == 0
  {
    var t' := MarkEntry(t, tenant, j, entry, status, file, error).0;
    ItemsKept(t.rows, entry, t'.rows[entry].progress, j);
    SizesSplit(Items(t.rows, j));
  }

  // ------------------------------------------------------------------ agreement with the SDK's walk

  /** What the SDK's walk yields for one path: already normalised by the SDK. */
  datatype Walked = WalkedFile(path: string, size: nat, modified: int, fingerprint: string)
    | WalkedDirectory(path: string)

  /** The entry as submitted. */
  function Submitted(w: Walked): Document {
    match w
    case WalkedFile(path, size, modified, fingerprint) =>
      Object(map[TYPE := Text("file")][PATH := Text(path)][SIZE := Number(size)][MODIFIED := Number(modified)]
             [FINGERPRINT := Text(fingerprint)])
    case WalkedDirectory(path) =>
      Object(map[TYPE := Text("directory")][PATH := Text(path)][SIZE := Number(0)])
  }

  function SubmittedAll(ws: seq<Walked>): (ds: seq<Document>)
    ensures |ds| == |ws| && forall i :: 0 <= i < |ws| ==> ds[i] == Submitted(ws[i])
  {
    seq(|ws|, i requires 0 <= i < |ws| => Submitted(ws[i]))
  }

  /** What the client hashes: its files. */
  function ClientHashed(ws: seq<Walked>): seq<Hashed> {
    if ws == [] then []
    else
      ClientHashed(ws[..|ws| - 1]) +
      match ws[|ws| - 1]
      case WalkedFile(path, size, _, fingerprint) => [Hashed(path, size, Some(fingerprint))]
      case WalkedDirectory(_) => []
  }

  function CountFiles(ws: seq<Walked>): nat { |ClientHashed(ws)| }

  ghost predicate SdkPath(nfc: string -> string, path: string) {
    exists raw :: Paths.SdkNormalize(nfc, raw, Paths.DEFAULT_DEPTH, Paths.DEFAULT_BYTES) == Ok(path)
  }

  ghost predicate SdkWalk(nfc: string -> string, ws: seq<Walked>) {
    forall i :: 0 <= i < |ws| ==> SdkPath(nfc, ws[i].path)
  }

  /** The stored row says what the client said. */
  ghost predicate Same(i: Item, w: Walked) {
    match w
    case WalkedFile(path, size, modified, fingerprint) =>
      i.kind == File && i.path == path && i.relativePath == path && i.size == size
      && i.modified == Some(modified) && i.fingerprint == Some(fingerprint)
    case WalkedDirectory(path) =>
      i.kind == Kind.Directory && i.path == path && i.relativePath == path && i.size == 0 && i.fingerprint == None
  }

  ghost predicate SameAll(items: seq<Item>, ws: seq<Walked>) {
    |items| == |ws| && forall i :: 0 <= i < |ws| ==> Same(items[i], ws[i])
  }

  lemma KindTexts()
    ensures KindOf(Text("file")) == Some(File) && KindOf(Text("directory")) == Some(Kind.Directory)
  {
    assert |"file"| != |"directory"|;
  }

  /** If the server accepts the path it keeps it as it is. */
  ghost predicate KeptPath(env: Env, path: string) {
    var r := Paths.ServerNormalize(env.nfc, path, env.maximumDepth, env.maximumBytes);
    r.Ok? ==> r.value == path
  }

  ghost predicate KeptWalk(env: Env, ws: seq<Walked>) { forall i :: 0 <= i < |ws| ==> KeptPath(env, ws[i].path) }

  lemma SdkWalkKept(env: Env, ws: seq<Walked>)
    requires Paths.NfcLike(env.nfc) && SdkWalk(env.nfc, ws)
    ensures KeptWalk(env, ws)
  {
    forall i | 0 <= i < |ws| ensures KeptPath(env, ws[i].path) {
      SdkPathKept(env, ws[i].path);
    }
  }

  lemma SdkPathKept(env: Env, path: string)
    requires Paths.NfcLike(env.nfc) && SdkPath(env.nfc, path)
    ensures KeptPath(env, path)
  {
    var raw :| Paths.SdkNormalize(env.nfc, raw, Paths.DEFAULT_DEPTH, Paths.DEFAULT_BYTES) == Ok(path);
    Paths.SdkOutputKept(env.nfc, raw, Paths.DEFAULT_DEPTH, Paths.DEFAULT_BYTES, env.maximumDepth, env.maximumBytes);
  }

  lemma AdmittedSame(env: Env, prefix: string, w: Walked, existing: set<string>)
    requires KeptPath(env, w.path)
    requires AdmitOne(env, prefix, Submitted(w), existing).Ok?
    ensures Same(AdmitOne(env, prefix, Submitted(w), existing).value, w)
  {
    KeysDiffer();
    var e := Submitted(w).members;
    assert Get(e, PATH, Text("")) == Text(w.path);
    DescribedSame(env, prefix, w, w.path);
  }

  lemma DescribedSame(env: Env, prefix: string, w: Walked, path: string)
    requires path == w.path && Describe(env, prefix, Submitted(w).members, path, path).Ok?
    ensures Same(Describe(env, prefix, Submitted(w).members, path, path).value, w)
  {
    KeysDiffer();
    KindTexts();
  }

  /** What a request delivers to job `k`: its entries, if it is an add_entries of that job and succeeds. */
  function Delivery(env: Env, t: Tables, r: Request, k: nat): seq<Document> {
    if r.Add? && r.job == k && AddEntries(env, t, r.tenant, k, r.entries).1.Ok? then r.entries else []
  }

  /** The entries delivered to job `k` along a run, in order. */
  ghost function Delivered(env: Env, t: Tables, rs: seq<Request>, k: nat): seq<Document>
    decreases |rs|
  {
    if rs == [] then [] else Delivery(env, t, rs[0], k) + Delivered(env, Step(env, t, rs[0]).0, rs[1..], k)
  }

  /** The rows job `k` gains from a request. */
  function Gain(env: Env, t: Tables, r: Request, k: nat): seq<Item> {
    if r.Add? && r.job == k && AddEntries(env, t, r.tenant, k, r.entries).1.Ok? then
      Admit(env, t.jobs[k].prefix, r.entries, PathSet(Items(t.rows, k))).value
    else []
  }

  ghost function Gained(env: Env, t: Tables, rs: seq<Request>, k: nat): seq<Item>
    decreases |rs|
  {
    if rs == [] then [] else Gain(env, t, rs[0], k) + Gained(env, Step(env, t, rs[0]).0, rs[1..], k)
  }

  lemma AddGains(env: Env, t: Tables, tenant: string, j: nat, ds: seq<Document>, k: nat)
    ensures Items(AddEntries(env, t, tenant, j, ds).0.rows, k) == Items(t.rows, k) + Gain(env, t, Add(tenant, j, ds), k)
  {
    if AddEntries(env, t, tenant, j, ds).1.Ok? {
      ItemsGrow(t.rows, j, Admit(env, t.jobs[j].prefix, ds, PathSet(Items(t.rows, j))).value, k);
    }
    assert Items(t.rows, k) + [] == Items(t.rows, k);
  }

  lemma OnlyAddGrows(env: Env, t: Tables, r: Request, k: nat)
    requires !r.Add?
    ensures Items(Step(env, t, r).0.rows, k) == Items(t.rows, k)
  {
    var (t', res) := Step(env, t, r);
    if (r.Initiate? || r.Mark?) && res.Ok? {
      ItemsKept(t.rows, r.entry, t'.rows[r.entry].progress, k);
    }
  }

  lemma StepGains(env: Env, t: Tables, r: Request, k: nat)
    ensures Items(Step(env, t, r).0.rows, k) == Items(t.rows, k) + Gain(env, t, r, k)
  {
    if r.Add? {
      AddGains(env, t, r.tenant, r.job, r.entries, k);
    } else {
      OnlyAddGrows(env, t, r, k);
      assert Items(t.rows, k) + [] == Items(t.rows, k);
    }
  }

  lemma RunUnfold(env: Env, t: Tables, rs: seq<Request>, t': Tables) returns (mid: Tables)
    requires rs != [] && Run(env, t, rs, t')
    ensures mid == Step(env, t, rs[0]).0 && Run(env, mid, rs[1..], t')
  {
    mid := Step(env, t, rs[0]).0;
  }

  lemma GainedUnfold(env: Env, t: Tables, rs: seq<Request>, k: nat, mid: Tables) returns (first: seq<Item>)
    requires rs != [] && mid == Step(env, t, rs[0]).0
    ensures Gained(env, t, rs, k) == first + Gained(env, mid, rs[1..], k)
    ensures Items(mid.rows, k) == Items(t.rows, k) + first
  {
    StepGains(env, t, rs[0], k);
    first := Gain(env, t, rs[0], k);
  }

  /** A job's rows are those it started with and those it gained, in order. */
  lemma {:induction false} RunGains(env: Env, t: Tables, rs: seq<Request>, t': Tables, k: nat)
    requires Run(env, t, rs, t')
    ensures Items(t'.rows, k) == Items(t.rows, k) + Gained(env, t, rs, k)
    decreases |rs|
  {
    if rs == [] {
      assert Items(t.rows, k) + [] == Items(t.rows, k);
    } else {
      var mid := RunUnfold(env, t, rs, t');
      var first := GainedUnfold(env, t, rs, k, mid);
      RunGains(env, mid, rs[1..], t', k);
      Regroup(Items(t.rows, k), first, Gained(env, mid, rs[1..], k));
    }
  }

  lemma Regroup<T>(a: seq<T>, b: seq<T>, c: seq<T>)
    ensures (a + b) + c == a + (b + c)
  {}

  /** Some admission turned `d` into `item`. */
  ghost predicate Admitted(env: Env, d: Document, item: Item) {
    exists prefix, existing :: AdmitOne(env, prefix, d, existing) == Ok(item)
  }

  ghost predicate AdmittedAll(env: Env, ds: seq<Document>, items: seq<Item>) {
    |items| == |ds| && forall i :: 0 <= i < |ds| ==> Admitted(env, ds[i], items[i])
  }

  lemma AdmittedConcat(env: Env, a: seq<Document>, x: seq<Item>, b: seq<Document>, y: seq<Item>)
    requires AdmittedAll(env, a, x) && AdmittedAll(env, b, y)
    ensures AdmittedAll(env, a + b, x + y)
  {}

  lemma {:induction false} AdmitAdmits(env: Env, prefix: string, ds: seq<Document>, existing: set<string>)
    requires Admit(env, prefix, ds, existing).Ok?
    ensures AdmittedAll(env, ds, Admit(env, prefix, ds, existing).value)
    decreases |ds|
  {
    if ds != [] {
      var item := AdmitOne(env, prefix, ds[0], existing).value;
      var rest := Admit(env, prefix, ds[1..], existing + {item.path}).value;
      AdmitAdmits(env, prefix, ds[1..], existing + {item.path});
      OneAdmitted(env, prefix, ds[0], existing);
      AdmittedConcat(env, [ds[0]], [item], ds[1..], rest);
      assert [ds[0]] + ds[1..] == ds;
    }
  }

  lemma OneAdmitted(env: Env, prefix: string, d: Document, existing: set<string>)
    requires AdmitOne(env, prefix, d, existing).Ok?
    ensures AdmittedAll(env, [d], [AdmitOne(env, prefix, d, existing).value])
  {
    assert Admitted(env, d, AdmitOne(env, prefix, d, existing).value);
  }

  lemma GainAdmitted(env: Env, t: Tables, r: Request, k: nat)
    ensures AdmittedAll(env, Delivery(env, t, r, k), Gain(env, t, r, k))
  {
    if Delivery(env, t, r, k) != [] {
      AdmitAdmits(env, t.jobs[k].prefix, r.entries, PathSet(Items(t.rows, k)));
    }
  }

  /** Gained rows and delivered entries correspond one to one along a run. */
  lemma {:induction false} GainedAdmitted(env: Env, t: Tables, rs: seq<Request>, k: nat)
    ensures AdmittedAll(env, Delivered(env, t, rs, k), Gained(env, t, rs, k))
    decreases |rs|
  {
    if rs != [] {
      var mid := Step(env, t, rs[0]).0;
      GainAdmitted(env, t, rs[0], k);
      GainedAdmitted(env, mid, rs[1..], k);
      AdmittedConcat(env, Delivery(env, t, rs[0], k), Gain(env, t, rs[0], k), Delivered(env, mid, rs[1..], k),
                     Gained(env, mid, rs[1..], k));
    }
  }

  lemma AdmittedWalk(env: Env, ws: seq<Walked>, items: seq<Item>)
    requires KeptWalk(env, ws) && AdmittedAll(env, SubmittedAll(ws), items)
    ensures SameAll(items, ws)
  {
    forall i | 0 <= i < |ws| ensures Same(items[i], ws[i]) {
      AdmittedOneSame(env, ws[i], items[i], SubmittedAll(ws)[i]);
    }
  }

  lemma AdmittedOneSame(env: Env, w: Walked, item: Item, d: Document)
    requires KeptPath(env, w.path) && d == Submitted(w) && Admitted(env, d, item)
    ensures Same(item, w)
  {
    var prefix, existing :| AdmitOne(env, prefix, d, existing) == Ok(item);
    AdmittedSame(env, prefix, w, existing);
  }

  /** Equal contents give equal hashed lists and equal counts. */
  lemma {:induction false} SameMeasures(items: seq<Item>, ws: seq<Walked>)
    requires SameAll(items, ws)
    ensures HashedFiles(items) == ClientHashed(ws)
    ensures CountKind(items, File) == CountFiles(ws) && CountKind(items, Kind.Directory) == |ws| - CountFiles(ws)
  {
    if ws != [] {
      var n := |ws| - 1;
      SameMeasures(items[..n], ws[..n]);
      assert Same(items[n], ws[n]);
    }
  }

  /**
   * Manifest agreement: in any run from the empty tables, whatever else happens between, if the add_entries
   * calls of job `k` that succeeded carry exactly a non-empty SDK walk, however it was cut into batches,
   * and the job is still open, then complete_manifest accepts the client's hash and counts, for every
   * order in which the database returns the rows.
   */
  lemma ManifestAgreement(env: Env, rs: seq<Request>, t: Tables, tenant: string, k: nat, walk: seq<Walked>,
                          listed: seq<Item>)
    requires Paths.NfcLike(env.nfc) && Run(env, EMPTY, rs, t) && Visible(t, tenant, k)
    requires walk != [] && SdkWalk(env.nfc, walk) && Delivered(env, EMPTY, rs, k) == SubmittedAll(walk)
    requires t.jobs[k].status.Open()
    requires multiset(listed) == multiset(Items(t.rows, k))
    ensures CompleteManifest(env, t, tenant, k, Some(env.sha(HashInput(ClientHashed(walk)))),
                             Some(Counts(Some(CountFiles(walk)), Some(|walk| - CountFiles(walk)))), listed).1 == Ok(k)
  {
    SdkWalkKept(env, walk);
    DeliveredWalk(env, EMPTY, rs, t, k, walk);
    ReachableInv(env, rs, t);
    JobHolds(env, t, k);
    OpenJobAccepts(env, t, tenant, k, walk, listed);
  }

  /** What a job holds when exactly a kept walk was delivered to it. */
  lemma DeliveredWalk(env: Env, start: Tables, rs: seq<Request>, t: Tables, k: nat, walk: seq<Walked>)
    requires Items(start.rows, k) == [] && Run(env, start, rs, t)
    requires KeptWalk(env, walk) && Delivered(env, start, rs, k) == SubmittedAll(walk)
    ensures SameAll(Items(t.rows, k), walk)
  {
    var gained := Gained(env, start, rs, k);
    RunGains(env, start, rs, t, k);
    GainedAdmitted(env, start, rs, k);
    AdmittedWalk(env, walk, gained);
    assert [] + gained == gained;
  }

  lemma OpenJobAccepts(env: Env, t: Tables, tenant: string, k: nat, walk: seq<Walked>, listed: seq<Item>)
    requires Visible(t, tenant, k) && t.jobs[k].status.Open() && JobInv(env, t.jobs[k], Items(t.rows, k))
    requires walk != [] && SameAll(Items(t.rows, k), walk) && multiset(listed) == multiset(Items(t.rows, k))
    ensures CompleteManifest(env, t, tenant, k, Some(env.sha(HashInput(ClientHashed(walk)))),
                             Some(Counts(Some(CountFiles(walk)), Some(|walk| - CountFiles(walk)))), listed).1 == Ok(k)
  {
    JobFacts(env, t.jobs[k], Items(t.rows, k));
    SameHash(env, t.jobs[k].prefix, Items(t.rows, k), listed, walk);
    SameMeasures(Items(t.rows, k), walk);
    Accepted(env, t, tenant, k, CountFiles(walk), |walk| - CountFiles(walk), listed, HashInput(ClientHashed(walk)));
  }

  lemma JobFacts(env: Env, job: Job, items: seq<Item>)
    requires JobInv(env, job, items)
    ensures GoodItems(env, job.prefix, items) && (items != [] ==> job.status != Created)
    ensures job.totalFiles == CountKind(items, File) && job.totalDirectories == CountKind(items, Kind.Directory)
  {}

  lemma SameHash(env: Env, prefix: string, items: seq<Item>, listed: seq<Item>, walk: seq<Walked>)
    requires GoodItems(env, prefix, items) && multiset(listed) == multiset(items) && SameAll(items, walk)
    ensures HashInput(HashedFiles(listed)) == HashInput(ClientHashed(walk)) && |listed| == |walk|
  {
    SameMeasures(items, walk);
    OrderIrrelevant(env, prefix, items, listed);
    SameElements(listed, items);
  }

  lemma Accepted(env: Env, t: Tables, tenant: string, k: nat, files: int, directories: int, listed: seq<Item>,
                 text: string)
    requires Visible(t, tenant, k) && t.jobs[k].status == ManifestUploading
    requires listed != [] && HashInput(HashedFiles(listed)) == text
    requires t.jobs[k].totalFiles == files && t.jobs[k].totalDirectories == directories
    ensures CompleteManifest(env, t, tenant, k, Some(env.sha(text)), Some(Counts(Some(files), Some(directories))),
                             listed).1 == Ok(k)
  {
    var hash := env.sha(text);
    assert ManifestRefused(t.jobs[k], Some(hash), Some(Counts(Some(files), Some(directories))), listed, hash).None?;
  }

  /**
   * Conversely, when the hash function has no collisions, an accepted hash means that the job holds
   * exactly the files the client hashed: same paths, sizes and fingerprints, nothing missing or extra.
   */
  lemma AcceptedHashMeansSameFiles(env: Env, t: Tables, tenant: string, k: nat, client: seq<Hashed>,
                                   counts: Option<Counts>, listed: seq<Item>)
    requires forall x, y :: env.sha(x) == env.sha(y) ==> x == y
    requires k < |t.jobs| && GoodItems(env, t.jobs[k].prefix, Items(t.rows, k)) && env.sha(HashInput(client)) != ""
    requires multiset(listed) == multiset(Items(t.rows, k))
    requires CompleteManifest(env, t, tenant, k, Some(env.sha(HashInput(client))), counts, listed).1.Ok?
    ensures multiset(client) == multiset(HashedFiles(Items(t.rows, k)))
  {
    var items := Items(t.rows, k);
    OrderIrrelevant(env, t.jobs[k].prefix, items, listed);
    SameText(env, HashInput(client), HashInput(HashedFiles(items)));
    HashedDistinct(items);
    HashInputFaithful(HashedFiles(items), client);
  }

  lemma SameText(env: Env, x: string, y: string)
    requires forall x, y :: env.sha(x) == env.sha(y) ==> x == y
    requires env.sha(x) == env.sha(y)
    ensures x == y
  {}
}
