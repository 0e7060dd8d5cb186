/**
 * Directory upload jobs: the requests as functions on the job and entry tables, and what every
 * reachable state satisfies. A request either succeeds and commits or fails and leaves no trace.
 */
module Directory {
  import opened Basics
  import opened Sorting
  import opened Json
  import opened Manifest
  import Paths
  import Decimal

  // ------------------------------------------------------------------ tables

  datatype JobStatus =
    | Created | ManifestUploading | Ready | Uploading | Paused | Finalizing
    | Completed | CompletedWithErrors | Cancelling | Cancelled
  {
    predicate Open() { Created? || ManifestUploading? }
    predicate Uploadable() { Uploading? || Ready? || Paused? }
    predicate Frozen() { Ready? || Uploading? || Completed? }
    predicate Finished() { Completed? || Cancelled? }
    /** The statuses a committed job can have; the others occur only inside a request, or not at all. */
    predicate Committed() { Open() || Ready? || Uploading? || Finished() }
  }

  datatype EntryStatus = Pending | InProgress | Uploaded | Skipped | Failed

  datatype Kind = File | Directory

  /** The columns of an entry that no request ever changes. */
  datatype Item = Item(kind: Kind, relativePath: string, path: string, objectKey: string, size: int,
                       modified: Option<int>, fingerprint: Option<string>)

  /** The columns that uploading changes. */
  datatype Progress = Progress(status: EntryStatus, attempts: nat, file: Option<nat>, error: Option<string>)

  /** A row of the entry table; its id is its position there. */
  datatype Row = Row(job: nat, item: Item, progress: Progress)

  datatype Job = Job(tenant: string, prefix: string, status: JobStatus,
                     totalEntries: int, totalFiles: int, totalDirectories: int, totalBytes: int,
                     uploadedFiles: int, failedFiles: int, skippedFiles: int, manifestHash: Option<string>)

  /** Jobs by id, entry rows by id, and the gauge of active jobs. */
  datatype Tables = Tables(jobs: seq<Job>, rows: seq<Row>, active: int)

  const EMPTY := Tables([], [], 0)
  const NEW := Progress(Pending, 0, None, None)

  datatype JobError =
    | Disabled | InvalidBucket | InvalidConflictPolicy | InvalidPath(reason: Paths.PathError)
    | DuplicatePath(path: string)
    | JobNotFound | EntryNotFound | StateConflict | TooManyEntries | ManifestIncomplete
    | HashMismatch(expected: string, actual: string) | HasFailedEntries(n: nat) | Unhandled

  /** Configuration, and the two external functions. */
  datatype Env = Env(nfc: string -> string, sha: string -> string, enabled: bool, buckets: set<string>,
                     policies: set<string>,
                     maximumEntries: int, maximumDepth: int, maximumBytes: int)

  // ------------------------------------------------------------------ job state machine

  /** The transition table. */
  predicate Allowed(from: JobStatus, to: JobStatus) {
    match from
    case Created => to.ManifestUploading? || to.Cancelling?
    case ManifestUploading => to.Ready? || to.Cancelling?
    case Ready => to.Uploading? || to.Cancelling? || to.Completed?
    case Uploading => to.Paused? || to.Finalizing? || to.Cancelling?
    case Paused => to.Uploading?
    case Finalizing => to.Completed? || to.CompletedWithErrors?
    case Cancelling => to.Cancelled?
    case _ => false
  }

  // ------------------------------------------------------------------ queries

  /** The unchanging part of a job's rows, in insertion order. */
  function Items(rows: seq<Row>, j: nat): seq<Item> {
    if rows == [] then []
    else
      var n := |rows| - 1;
      Items(rows[..n], j) + if rows[n].job == j then [rows[n].item] else []
  }

  function CountStatus(rows: seq<Row>, j: nat, status: EntryStatus): nat {
    if rows == [] then 0
    else
      var n := |rows| - 1;
      CountStatus(rows[..n], j, status) + if rows[n].job == j && rows[n].progress.status == status then 1 else 0
  }

  function CountKind(items: seq<Item>, kind: Kind): nat {
    if items == [] then 0
    else CountKind(items[..|items| - 1], kind) + if items[|items| - 1].kind == kind then 1 else 0
  }

  function TotalSize(items: seq<Item>): int {
    if items == [] then 0 else TotalSize(items[..|items| - 1]) + items[|items| - 1].size
  }

  function FileSize(items: seq<Item>): int {
    if items == [] then 0
    else FileSize(items[..|items| - 1]) + if items[|items| - 1].kind == File then items[|items| - 1].size else 0
  }

  function HashedItem(i: Item): Hashed { Hashed(i.path, i.size, i.fingerprint) }

  /** What the manifest hash is taken of: the file items, in the order the rows come in. */
  function HashedFiles(items: seq<Item>): seq<Hashed> {
    if items == [] then []
    else
      var n := |items| - 1;
      HashedFiles(items[..n]) + if items[n].kind == File then [HashedItem(items[n])] else []
  }

  function PathSet(items: seq<Item>): set<string> { set i | 0 <= i < |items| :: items[i].path }

  predicate Visible(t: Tables, tenant: string, j: nat) { j < |t.jobs| && t.jobs[j].tenant == tenant }

  // ------------------------------------------------------------------ requests

  function CreateJob(env: Env, t: Tables, tenant: string, bucket: string, prefix: string, policy: string)
    : (Tables, Result<int, JobError>)
  {
    var clean := Paths.StripSlashes(prefix);
    if !env.enabled then (t, Err(Disabled))
    else if bucket !in env.buckets then (t, Err(InvalidBucket))
    else if policy !in env.policies then (t, Err(InvalidConflictPolicy))
    else if clean != "" && Paths.ServerNormalize(env.nfc, clean, Paths.DEFAULT_DEPTH, 1024).Err? then
      (t, Err(InvalidPath(Paths.ServerNormalize(env.nfc, clean, Paths.DEFAULT_DEPTH, 1024).error)))
    else
      (t.(jobs := t.jobs + [Job(tenant, clean, Created, 0, 0, 0, 0, 0, 0, 0, None)], active := t.active + 1),
       Ok(|t.jobs|))
  }

  /** `int(value)` */
  function ToInt(v: Value): Option<int> {
    match v
    case Number(n) => Some(n)
    case Boolean(b) => Some(if b then 1 else 0)
    case Text(s) => Decimal.PyInt(s)
    case Null => None
  }

  function KindOf(v: Value): Option<Kind> {
    if v == Text("file") then Some(File) else if v == Text("directory") then Some(Directory) else None
  }

  /** A submitted entry as a row, or the error that aborts the request. */
  function AdmitOne(env: Env, prefix: string, d: Document, existing: set<string>): Result<Item, JobError> {
    if d.Scalar? || !Get(d.members, PATH, Text("")).Text? then Err(Unhandled)
    else
      var raw := Get(d.members, PATH, Text("")).s;
      match Paths.ServerNormalize(env.nfc, raw, env.maximumDepth, env.maximumBytes)
      case Err(e) => Err(InvalidPath(e))
      case Ok(path) =>
        if path in existing then Err(DuplicatePath(path)) else Describe(env, prefix, d.members, raw, path)
  }

  function Describe(env: Env, prefix: string, e: Entry, raw: string, path: string): Result<Item, JobError> {
    var size, kind := ToInt(Get(e, SIZE, Number(0))), KindOf(Get(e, TYPE, Text("file")));
    var modified, fingerprint := Get(e, MODIFIED, Null), Get(e, FINGERPRINT, Null);
    if size.None? then Err(Unhandled)
    else match Paths.JoinPrefix(env.nfc, prefix, path)
      case Err(reason) => Err(InvalidPath(reason))
      case Ok(key) =>
        if kind.None? || !(modified.Null? || modified.Number?) || !(fingerprint.Null? || fingerprint.Text?) then
          Err(Unhandled)
        else Ok(Item(kind.value, raw, path, key, size.value,
                     if modified.Number? then Some(modified.n) else None,
                     if fingerprint.Text? then Some(fingerprint.s) else None))
  }

  /** All entries of one request, each checked against the paths before it; the first error wins. */
  function Admit(env: Env, prefix: string, ds: seq<Document>, existing: set<string>): Result<seq<Item>, JobError> {
    if ds == [] then Ok([])
    else match AdmitOne(env, prefix, ds[0], existing)
      case Err(e) => Err(e)
      case Ok(item) =>
        match Admit(env, prefix, ds[1..], existing + {item.path})
        case Err(e) => Err(e)
        case Ok(rest) => Ok([item] + rest)
  }

  function NewRows(j: nat, items: seq<Item>): (rows: seq<Row>)
    ensures |rows| == |items| && forall i :: 0 <= i < |rows| ==> rows[i] == Row(j, items[i], NEW)
  {
    seq(|items|, i requires 0 <= i < |items| => Row(j, items[i], NEW))
  }

  function Grow(job: Job, items: seq<Item>): Job {
    job.(status := ManifestUploading,
         totalFiles := job.totalFiles + CountKind(items, File),
         totalDirectories := job.totalDirectories + CountKind(items, Directory),
         totalBytes := job.totalBytes + FileSize(items),
         totalEntries := job.totalEntries + |items|)
  }

  function AddEntries(env: Env, t: Tables, tenant: string, j: nat, ds: seq<Document>): (Tables, Result<int, JobError>) {
    if !Visible(t, tenant, j) then (t, Err(JobNotFound))
    else if !t.jobs[j].status.Open() then (t, Err(StateConflict))
    else if |ds| > env.maximumEntries then (t, Err(TooManyEntries))
    else match Admit(env, t.jobs[j].prefix, ds, PathSet(Items(t.rows, j)))
      case Err(e) => (t, Err(e))
      case Ok(items) =>
        (t.(jobs := t.jobs[j := Grow(t.jobs[j], items)], rows := t.rows + NewRows(j, items)), Ok(|items|))
  }

  /** Counts the client declares; an absent field is None. */
  datatype Counts = Counts(files: Option<int>, directories: Option<int>)

  /** `listed` is the job's rows in the order the database happens to return them. */
  function CompleteManifest(env: Env, t: Tables, tenant: string, j: nat, expected: Option<string>,
                            counts: Option<Counts>, listed: seq<Item>)
    : (Tables, Result<int, JobError>)
  {
    if !Visible(t, tenant, j) then (t, Err(JobNotFound))
    else
      var actual := env.sha(HashInput(HashedFiles(listed)));
      var refused := ManifestRefused(t.jobs[j], expected, counts, listed, actual);
      if refused.Some? then (t, Err(refused.value))
      else (t.(jobs := t.jobs[j := t.jobs[j].(manifestHash := Some(actual), status := Ready)]), Ok(j))
  }

  /** The checks of complete_manifest, in order. */
  function ManifestRefused(job: Job, expected: Option<string>, counts: Option<Counts>, listed: seq<Item>,
                           actual: string)
    : Option<JobError>
  {
    if !job.status.Open() then Some(StateConflict)
    else if listed == [] then Some(ManifestIncomplete)
    else if expected.GetOr("") != "" && expected.value != actual then Some(HashMismatch(expected.value, actual))
    else if counts.Some? && counts.value != Counts(Some(job.totalFiles), Some(job.totalDirectories)) then
      Some(ManifestIncomplete)
    else if !Allowed(job.status, Ready) then Some(StateConflict)
    else None
  }

  function InitiateEntry(t: Tables, tenant: string, j: nat, entry: nat): (Tables, Result<int, JobError>) {
    if entry >= |t.rows| || t.rows[entry].job != j then (t, Err(EntryNotFound))
    else if !Visible(t, tenant, j) then (t, Err(JobNotFound))
    else
      var row := t.rows[entry];
      var job := t.jobs[j];
      var started := if job.status == Created then job.(status := ManifestUploading) else job;
      var begun := row.progress.(status := InProgress, attempts := row.progress.attempts + 1);
      (t.(jobs := t.jobs[j := started], rows := t.rows[entry := row.(progress := begun)]), Ok(entry))
  }

  /** `aggregate_progress`: the counters of a job row recomputed from its entries. */
  function Aggregate(rows: seq<Row>, j: nat, job: Job): Job {
    job.(totalEntries := |Items(rows, j)|, totalBytes := TotalSize(Items(rows, j)),
         uploadedFiles := CountStatus(rows, j, Uploaded), failedFiles := CountStatus(rows, j, Failed),
         skippedFiles := CountStatus(rows, j, Skipped))
  }

  function MarkEntry(t: Tables, tenant: string, j: nat, entry: nat, status: EntryStatus, file: Option<nat>,
                     error: Option<string>)
    : (Tables, Result<int, JobError>)
  {
    if entry >= |t.rows| || t.rows[entry].job != j then (t, Err(EntryNotFound))
    else if !Visible(t, tenant, j) then (t, Err(JobNotFound))
    else
      var row := t.rows[entry];
      var rows := t.rows[entry := row.(progress := Progress(status, row.progress.attempts, file, error))];
      (t.(jobs := t.jobs[j := Aggregate(rows, j, t.jobs[j])], rows := rows), Ok(entry))
  }

  function Retry(t: Tables, tenant: string, j: nat): (Tables, Result<int, JobError>) {
    if !Visible(t, tenant, j) then (t, Err(JobNotFound))
    else if (t.jobs[j].status.Finished() || t.jobs[j].status == CompletedWithErrors) then (t, Err(StateConflict))
    else if !Allowed(t.jobs[j].status, Uploading) then (t, Err(StateConflict))
    else (t.(jobs := t.jobs[j := t.jobs[j].(status := Uploading)]), Ok(j))
  }

  function CompleteJob(t: Tables, tenant: string, j: nat): (Tables, Result<int, JobError>) {
    if !Visible(t, tenant, j) then (t, Err(JobNotFound))
    else if t.jobs[j].status == Completed then (t, Ok(j))
    else if !t.jobs[j].status.Uploadable() then (t, Err(StateConflict))
    else if CountStatus(t.rows, j, Failed) > 0 then (t, Err(HasFailedEntries(CountStatus(t.rows, j, Failed))))
    else if !Allowed(t.jobs[j].status, Finalizing) || !Allowed(Finalizing, Completed) then (t, Err(StateConflict))
    else (t.(jobs := t.jobs[j := Aggregate(t.rows, j, t.jobs[j]).(status := Completed)], active := t.active - 1), Ok(j))
  }

  function CancelJob(t: Tables, tenant: string, j: nat): (Tables, Result<int, JobError>) {
    if !Visible(t, tenant, j) then (t, Err(JobNotFound))
    else if (t.jobs[j].status == Completed || t.jobs[j].status == CompletedWithErrors) then (t, Err(StateConflict))
    else
      var before := t.jobs[j].status;
      var between := if before != Cancelled then Cancelling else before;
      if (before != Cancelled && !Allowed(before, Cancelling)) || !Allowed(between, Cancelled) then
        (t, Err(StateConflict))
      else (t.(jobs := t.jobs[j := t.jobs[j].(status := Cancelled)], active := t.active - 1), Ok(j))
  }

  datatype Request =
    | Create(tenant: string, bucket: string, prefix: string, policy: string)
    | Add(tenant: string, job: nat, entries: seq<Document>)
    | CompleteManifestOf(tenant: string, job: nat, expected: Option<string>, counts: Option<Counts>, listed: seq<Item>)
    | Initiate(tenant: string, job: nat, entry: nat)
    | Mark(tenant: string, job: nat, entry: nat, status: EntryStatus, file: Option<nat>, error: Option<string>)
    | RetryJob(tenant: string, job: nat)
    | Complete(tenant: string, job: nat)
    | Cancel(tenant: string, job: nat)

  /** The database returns each row of the job once, in any order. */
  ghost predicate Admissible(t: Tables, r: Request) {
    r.CompleteManifestOf? ==> multiset(r.listed) == multiset(Items(t.rows, r.job))
  }

  function Step(env: Env, t: Tables, r: Request): (Tables, Result<int, JobError>) {
    match r
    case Create(tenant, bucket, prefix, policy) => CreateJob(env, t, tenant, bucket, prefix, policy)
    case Add(tenant, j, ds) => AddEntries(env, t, tenant, j, ds)
    case CompleteManifestOf(tenant, j, expected, counts, listed) =>
      CompleteManifest(env, t, tenant, j, expected, counts, listed)
    case Initiate(tenant, j, entry) => InitiateEntry(t, tenant, j, entry)
    case Mark(tenant, j, entry, status, file, error) => MarkEntry(t, tenant, j, entry, status, file, error)
    case RetryJob(tenant, j) => Retry(t, tenant, j)
    case Complete(tenant, j) => CompleteJob(t, tenant, j)
    case Cancel(tenant, j) => CancelJob(t, tenant, j)
  }

  ghost predicate Run(env: Env, t: Tables, rs: seq<Request>, t': Tables)
    decreases |rs|
  {
    if rs == [] then t' == t
    else Admissible(t, rs[0]) && Run(env, Step(env, t, rs[0]).0, rs[1..], t')
  }

  // ------------------------------------------------------------------ queries under updates

  lemma {:induction false} ItemsAppend(rows: seq<Row>, more: seq<Row>, j: nat)
    ensures Items(rows + more, j) == Items(rows, j) + Items(more, j)
    decreases |more|
  {
    if more == [] {
      assert rows + more == rows && Items(rows, j) + [] == Items(rows, j);
    } else {
      var n := |more| - 1;
      ItemsAppend(rows, more[..n], j);
      assert (rows + more)[..|rows| + n] == rows + more[..n];
      assert (rows + more)[|rows| + n] == more[n];
    }
  }

  lemma {:induction false} ItemsOfNew(k: nat, items: seq<Item>, j: nat)
    ensures Items(NewRows(k, items), j) == if j == k then items else []
  {
    var rows := NewRows(k, items);
    if items != [] {
      var n := |items| - 1;
      ItemsOfNew(k, items[..n], j);
      assert rows[..n] == NewRows(k, items[..n]) && rows[n] == Row(k, items[n], NEW);
      assert items == items[..n] + [items[n]];
    }
  }

  lemma {:induction false} ItemsKept(rows: seq<Row>, i: nat, p: Progress, j: nat)
    requires i < |rows|
    ensures Items(rows[i := rows[i].(progress := p)], j) == Items(rows, j)
  {
    var n := |rows| - 1;
    var rows' := rows[i := rows[i].(progress := p)];
    if i < n {
      ItemsKept(rows[..n], i, p, j);
      assert rows'[..n] == rows[..n][i := rows[..n][i].(progress := p)];
    } else {
      assert rows'[..n] == rows[..n];
    }
  }

  lemma {:induction false} ItemsNone(rows: seq<Row>, j: nat)
    requires forall i :: 0 <= i < |rows| ==> rows[i].job != j
    ensures Items(rows, j) == []
  {
    if rows != [] { ItemsNone(rows[..|rows| - 1], j); }
  }

  lemma {:induction false} ItemPresent(rows: seq<Row>, i: nat)
    requires i < |rows|
    ensures rows[i].item in Items(rows, rows[i].job)
  {
    var n := |rows| - 1;
    if i < n { ItemPresent(rows[..n], i); }
  }

  lemma {:induction false} MeasuresConcat(a: seq<Item>, b: seq<Item>)
    ensures CountKind(a + b, File) == CountKind(a, File) + CountKind(b, File)
    ensures CountKind(a + b, Directory) == CountKind(a, Directory) + CountKind(b, Directory)
    ensures TotalSize(a + b) == TotalSize(a) + TotalSize(b)
    ensures FileSize(a + b) == FileSize(a) + FileSize(b)
    decreases |b|
  {
    if b == [] {
      assert a + b == a;
    } else {
      var n := |b| - 1;
      MeasuresConcat(a, b[..n]);
      assert (a + b)[..|a + b| - 1] == a + b[..n] && (a + b)[|a + b| - 1] == b[n];
    }
  }

  // ------------------------------------------------------------------ the invariant

  ghost predicate WellPlaced(env: Env, prefix: string, i: Item) {
    && Paths.ServerNormalize(env.nfc, i.relativePath, env.maximumDepth, env.maximumBytes) == Ok(i.path)
    && Paths.JoinPrefix(env.nfc, prefix, i.path) == Ok(i.objectKey)
  }

  /** Distinct normalised paths, each made from its raw path, each object key made from its path. */
  ghost predicate GoodItems(env: Env, prefix: string, items: seq<Item>) {
    && (forall i {:trigger WellPlaced(env, prefix, items[i])} :: 0 <= i < |items| ==> WellPlaced(env, prefix, items[i]))
    && (forall i, j :: 0 <= i < j < |items| ==> items[i].path != items[j].path)
  }

  ghost predicate TrueCounts(job: Job, items: seq<Item>) {
    && job.totalEntries == |items|
    && job.totalFiles == CountKind(items, File)
    && job.totalDirectories == CountKind(items, Directory)
    && ((forall i :: 0 <= i < |items| && items[i].kind == Directory ==> items[i].size == 0) ==>
          job.totalBytes == FileSize(items))
  }

  ghost predicate HashState(env: Env, job: Job, items: seq<Item>) {
    && (job.status.Open() ==> job.manifestHash.None?)
    && (job.status.Frozen() ==> job.manifestHash.Some?)
    && (job.manifestHash.Some? ==> items != [] && job.manifestHash.value == env.sha(HashInput(HashedFiles(items))))
  }

  ghost predicate JobInv(env: Env, job: Job, items: seq<Item>) {
    && job.status.Committed()
    && (job.status == Created ==> items == [])
    && TrueCounts(job, items) && HashState(env, job, items) && GoodItems(env, job.prefix, items)
  }

  function ActiveJobs(jobs: seq<Job>): nat {
    if jobs == [] then 0
    else ActiveJobs(jobs[..|jobs| - 1]) + if jobs[|jobs| - 1].status.Finished() then 0 else 1
  }

  ghost predicate Inv(env: Env, t: Tables) {
    && (forall j {:trigger JobInv(env, t.jobs[j], Items(t.rows, j))} :: 0 <= j < |t.jobs| ==>
          JobInv(env, t.jobs[j], Items(t.rows, j)))
    && (forall i :: 0 <= i < |t.rows| ==> t.rows[i].job < |t.jobs|)
    && t.active == ActiveJobs(t.jobs)
  }

  lemma {:induction false} ActiveUpdate(jobs: seq<Job>, j: nat, job: Job)
    requires j < |jobs|
    ensures ActiveJobs(jobs[j := job]) == ActiveJobs(jobs)
      - (if jobs[j].status.Finished() then 0 else 1) + (if job.status.Finished() then 0 else 1)
  {
    var n := |jobs| - 1;
    if j < n {
      ActiveUpdate(jobs[..n], j, job);
      assert jobs[j := job][..n] == jobs[..n][j := job];
    } else {
      assert jobs[j := job][..n] == jobs[..n];
    }
  }

  // ------------------------------------------------------------------ admitted items

  lemma AdmittedOne(env: Env, prefix: string, d: Document, existing: set<string>)
    requires AdmitOne(env, prefix, d, existing).Ok?
    ensures WellPlaced(env, prefix, AdmitOne(env, prefix, d, existing).value)
    ensures AdmitOne(env, prefix, d, existing).value.path !in existing
  {}

  lemma {:induction false} AdmittedGood(env: Env, prefix: string, ds: seq<Document>, existing: set<string>)
    requires Admit(env, prefix, ds, existing).Ok?
    ensures var items := Admit(env, prefix, ds, existing).value;
      && |items| == |ds| && GoodItems(env, prefix, items)
      && forall i :: 0 <= i < |items| ==> items[i].path !in existing
    decreases |ds|
  {
    if ds != [] {
      var item := AdmitOne(env, prefix, ds[0], existing).value;
      AdmittedOne(env, prefix, ds[0], existing);
      AdmittedGood(env, prefix, ds[1..], existing + {item.path});
      GoodFirst(env, prefix, item, Admit(env, prefix, ds[1..], existing + {item.path}).value);
    }
  }

  lemma GoodFirst(env: Env, prefix: string, item: Item, rest: seq<Item>)
    requires WellPlaced(env, prefix, item) && GoodItems(env, prefix, rest)
    requires forall i :: 0 <= i < |rest| ==> rest[i].path != item.path
    ensures GoodItems(env, prefix, [item] + rest)
  {}

  lemma GoodConcat(env: Env, prefix: string, a: seq<Item>, b: seq<Item>)
    requires GoodItems(env, prefix, a) && GoodItems(env, prefix, b)
    requires forall i :: 0 <= i < |b| ==> b[i].path !in PathSet(a)
    ensures GoodItems(env, prefix, a + b)
  {
    var s := a + b;
    forall i, j | 0 <= i < j < |s| ensures s[i].path != s[j].path {
      if i < |a| <= j {
        assert a[i].path in PathSet(a) && s[j] == b[j - |a|];
      }
    }
  }

  lemma AddKeepsJob(env: Env, job: Job, items: seq<Item>, ds: seq<Document>)
    requires JobInv(env, job, items) && job.status.Open()
    requires Admit(env, job.prefix, ds, PathSet(items)).Ok?
    ensures var more := Admit(env, job.prefix, ds, PathSet(items)).value;
      JobInv(env, Grow(job, more), items + more)
  {
    var more := Admit(env, job.prefix, ds, PathSet(items)).value;
    AdmittedGood(env, job.prefix, ds, PathSet(items));
    GoodConcat(env, job.prefix, items, more);
    GrowCounts(job, items, more);
  }

  lemma GrowCounts(job: Job, items: seq<Item>, more: seq<Item>)
    requires TrueCounts(job, items)
    ensures TrueCounts(Grow(job, more), items + more)
  {
    MeasuresConcat(items, more);
    var all := items + more;
    if forall i :: 0 <= i < |all| && all[i].kind == Directory ==> all[i].size == 0 {
      assert forall i :: 0 <= i < |items| ==> items[i] == all[i];
    }
  }

  // ------------------------------------------------------------------ each request keeps the invariant

  lemma JobHolds(env: Env, t: Tables, j: nat)
    requires Inv(env, t) && j < |t.jobs|
    ensures JobInv(env, t.jobs[j], Items(t.rows, j))
  {}

  /** Only job `j`'s row and items change. */
  lemma OneJobChanged(env: Env, t: Tables, t': Tables, j: nat, job: Job, items: seq<Item>)
    requires Inv(env, t) && j < |t.jobs|
    requires t'.jobs == t.jobs[j := job] && JobInv(env, job, items)
    requires forall k :: 0 <= k < |t.jobs| ==> Items(t'.rows, k) == if k == j then items else Items(t.rows, k)
    requires forall i :: 0 <= i < |t'.rows| ==> t'.rows[i].job < |t.jobs|
    requires t'.active == t.active - (if t.jobs[j].status.Finished() then 0 else 1)
                       + (if job.status.Finished() then 0 else 1)
    ensures Inv(env, t')
  {
    ActiveUpdate(t.jobs, j, job);
  }

  lemma CreateKeeps(env: Env, t: Tables, tenant: string, bucket: string, prefix: string, policy: string)
    requires Inv(env, t)
    ensures Inv(env, CreateJob(env, t, tenant, bucket, prefix, policy).0)
  {
    var t' := CreateJob(env, t, tenant, bucket, prefix, policy).0;
    if t' != t {
      var j := |t.jobs|;
      ItemsNone(t.rows, j);
      assert t'.jobs[..j] == t.jobs;
      forall k | 0 <= k < |t'.jobs| ensures JobInv(env, t'.jobs[k], Items(t'.rows, k)) {
        if k < j { assert t'.jobs[k] == t.jobs[k]; }
      }
    }
  }

  lemma ItemsGrow(rows: seq<Row>, j: nat, more: seq<Item>, k: nat)
    ensures Items(rows + NewRows(j, more), k) == if k == j then Items(rows, k) + more else Items(rows, k)
  {
    ItemsAppend(rows, NewRows(j, more), k);
    ItemsOfNew(j, more, k);
    assert Items(rows, k) + [] == Items(rows, k);
  }

  lemma AddKeeps(env: Env, t: Tables, tenant: string, j: nat, ds: seq<Document>)
    requires Inv(env, t)
    ensures Inv(env, AddEntries(env, t, tenant, j, ds).0)
  {
    if AddEntries(env, t, tenant, j, ds).1.Ok? {
      var items := Items(t.rows, j);
      JobHolds(env, t, j);
      AddKeepsJob(env, t.jobs[j], items, ds);
      GrowKeeps(env, t, j, Admit(env, t.jobs[j].prefix, ds, PathSet(items)).value);
    }
  }

  lemma GrowKeeps(env: Env, t: Tables, j: nat, more: seq<Item>)
    requires Inv(env, t) && j < |t.jobs| && t.jobs[j].status.Open()
    requires JobInv(env, Grow(t.jobs[j], more), Items(t.rows, j) + more)
    ensures Inv(env, t.(jobs := t.jobs[j := Grow(t.jobs[j], more)], rows := t.rows + NewRows(j, more)))
  {
    GrowTables(env, t, j, Grow(t.jobs[j], more), more);
  }

  lemma GrowTables(env: Env, t: Tables, j: nat, job: Job, more: seq<Item>)
    requires Inv(env, t) && j < |t.jobs| && !t.jobs[j].status.Finished() && job.status == ManifestUploading
    requires JobInv(env, job, Items(t.rows, j) + more)
    ensures Inv(env, t.(jobs := t.jobs[j := job], rows := t.rows + NewRows(j, more)))
  {
    var rows := t.rows + NewRows(j, more);
    forall k | 0 <= k < |t.jobs|
      ensures Items(rows, k) == if k == j then Items(t.rows, j) + more else Items(t.rows, k)
    {
      ItemsGrow(t.rows, j, more, k);
    }
    forall i | 0 <= i < |rows| ensures rows[i].job < |t.jobs| {
      if i >= |t.rows| { assert rows[i] == NewRows(j, more)[i - |t.rows|]; }
    }
    OneJobChanged(env, t, t.(jobs := t.jobs[j := job], rows := rows), j, job, Items(t.rows, j) + more);
  }

  /** The order of the rows does not show in the hash. */
  lemma {:induction false} OrderIrrelevant(env: Env, prefix: string, a: seq<Item>, b: seq<Item>)
    requires multiset(a) == multiset(b) && GoodItems(env, prefix, a)
    ensures HashInput(HashedFiles(a)) == HashInput(HashedFiles(b))
  {
    HashedMultiset(a, b);
    HashedDistinct(a);
    HashInputCanonical(HashedFiles(a), HashedFiles(b));
  }

  lemma {:induction false} HashedConcat(a: seq<Item>, b: seq<Item>)
    ensures HashedFiles(a + b) == HashedFiles(a) + HashedFiles(b)
    decreases |b|
  {
    if b == [] {
      assert a + b == a;
    } else {
      var n := |b| - 1;
      HashedConcat(a, b[..n]);
      assert (a + b)[..|a + b| - 1] == a + b[..n];
    }
  }

  lemma HashedWithout(b: seq<Item>, i: nat)
    requires i < |b|
    ensures multiset(HashedFiles(b)) == multiset(HashedFiles(b[..i] + b[i + 1..])) + multiset(HashedFiles([b[i]]))
  {
    var l, x, r := b[..i], [b[i]], b[i + 1..];
    Taken(b, i);
    HashedConcat(l, x + r);
    HashedConcat(x, r);
    HashedConcat(l, r);
  }

  lemma {:induction false} HashedMultiset(a: seq<Item>, b: seq<Item>)
    requires multiset(a) == multiset(b)
    ensures multiset(HashedFiles(a)) == multiset(HashedFiles(b))
    decreases |a|
  {
    SameElements(a, b);
    if a != [] {
      var x := a[0];
      assert x in b;
      var k :| 0 <= k < |b| && b[k] == x;
      var a', b' := a[..0] + a[1..], b[..k] + b[k + 1..];
      SameTaken(a, 0, b, k);
      HashedMultiset(a', b');
      HashedPair(a, 0, a', b, k, b');
    } else {
      assert b == [];
    }
  }

  lemma HashedPair(a: seq<Item>, i: nat, a': seq<Item>, b: seq<Item>, k: nat, b': seq<Item>)
    requires i < |a| && k < |b| && a[i] == b[k]
    requires a' == a[..i] + a[i + 1..] && b' == b[..k] + b[k + 1..]
    requires multiset(HashedFiles(a')) == multiset(HashedFiles(b'))
    ensures multiset(HashedFiles(a)) == multiset(HashedFiles(b))
  {
    HashedWithout(a, i);
    HashedWithout(b, k);
  }

  lemma {:induction false} HashedFrom(items: seq<Item>, h: Hashed)
    requires h in HashedFiles(items)
    ensures exists i :: 0 <= i < |items| && items[i].kind == File && HashedItem(items[i]) == h
  {
    var n := |items| - 1;
    if !(items[n].kind == File && HashedItem(items[n]) == h) {
      HashedFrom(items[..n], h);
      var i :| 0 <= i < |items[..n]| && items[..n][i].kind == File && HashedItem(items[..n][i]) == h;
      assert items[i] == items[..n][i];
    }
  }

  lemma {:induction false} HashedDistinct(items: seq<Item>)
    requires forall i, j :: 0 <= i < j < |items| ==> items[i].path != items[j].path
    ensures DistinctPaths(HashedFiles(items))
  {
    if items != [] {
      var n := |items| - 1;
      HashedDistinct(items[..n]);
      var hs := HashedFiles(items[..n]);
      forall k | 0 <= k < |hs| ensures hs[k].path != items[n].path {
        HashedFrom(items[..n], hs[k]);
      }
    }
  }

  lemma {:induction false} CompleteManifestKeeps(env: Env, t: Tables, tenant: string, j: nat, expected: Option<string>,
                                                 counts: Option<Counts>, listed: seq<Item>)
    requires Inv(env, t) && multiset(listed) == multiset(Items(t.rows, j))
    ensures Inv(env, CompleteManifest(env, t, tenant, j, expected, counts, listed).0)
  {
    ManifestShape(env, t, tenant, j, expected, counts, listed);
    if CompleteManifest(env, t, tenant, j, expected, counts, listed).1.Ok? {
      var hash := env.sha(HashInput(HashedFiles(listed)));
      JobHolds(env, t, j);
      FreezeKeeps(env, t.jobs[j], Items(t.rows, j), listed, hash);
      OnlyJobRow(env, t, j, t.jobs[j].(manifestHash := Some(hash), status := Ready), t.active);
    }
  }

  /** Completing a manifest freezes its hash and makes the job ready, or changes nothing. */
  lemma ManifestShape(env: Env, t: Tables, tenant: string, j: nat, expected: Option<string>, counts: Option<Counts>,
                      listed: seq<Item>)
    ensures var (t', r) := CompleteManifest(env, t, tenant, j, expected, counts, listed);
      var hash := env.sha(HashInput(HashedFiles(listed)));
      if r.Ok? then
        && j < |t.jobs| && t.jobs[j].status == ManifestUploading && listed != []
        && t' == t.(jobs := t.jobs[j := t.jobs[j].(manifestHash := Some(hash), status := Ready)])
      else t' == t
  {}

  lemma FreezeKeeps(env: Env, job: Job, items: seq<Item>, listed: seq<Item>, hash: string)
    requires JobInv(env, job, items) && multiset(listed) == multiset(items) && listed != []
    requires hash == env.sha(HashInput(HashedFiles(listed)))
    ensures JobInv(env, job.(manifestHash := Some(hash), status := Ready), items)
  {
    OrderIrrelevant(env, job.prefix, items, listed);
    SameElements(listed, items);
  }

  lemma InitiateKeeps(env: Env, t: Tables, tenant: string, j: nat, entry: nat)
    requires Inv(env, t)
    ensures Inv(env, InitiateEntry(t, tenant, j, entry).0)
  {
    var (t', r) := InitiateEntry(t, tenant, j, entry);
    if r.Ok? {
      forall k ensures Items(t'.rows, k) == Items(t.rows, k) {
        ItemsKept(t.rows, entry, t'.rows[entry].progress, k);
      }
      ItemPresent(t.rows, entry);
      JobHolds(env, t, j);
      OneJobChanged(env, t, t', j, t'.jobs[j], Items(t.rows, j));
    }
  }

  lemma {:induction false} DirectoriesWeighNothing(items: seq<Item>)
    requires forall i :: 0 <= i < |items| && items[i].kind == Directory ==> items[i].size == 0
    ensures TotalSize(items) == FileSize(items)
  {
    if items != [] { DirectoriesWeighNothing(items[..|items| - 1]); }
  }

  lemma AggregateKeeps(env: Env, rows: seq<Row>, j: nat, job: Job)
    requires JobInv(env, job, Items(rows, j))
    ensures JobInv(env, Aggregate(rows, j, job), Items(rows, j))
  {
    var items := Items(rows, j);
    if forall i :: 0 <= i < |items| && items[i].kind == Directory ==> items[i].size == 0 {
      DirectoriesWeighNothing(items);
    }
  }

  lemma MarkKeeps(env: Env, t: Tables, tenant: string, j: nat, entry: nat, status: EntryStatus, file: Option<nat>,
                  error: Option<string>)
    requires Inv(env, t)
    ensures Inv(env, MarkEntry(t, tenant, j, entry, status, file, error).0)
  {
    var (t', r) := MarkEntry(t, tenant, j, entry, status, file, error);
    if r.Ok? {
      forall k ensures Items(t'.rows, k) == Items(t.rows, k) {
        ItemsKept(t.rows, entry, t'.rows[entry].progress, k);
      }
      JobHolds(env, t, j);
      AggregateKeeps(env, t'.rows, j, t.jobs[j]);
      OneJobChanged(env, t, t', j, t'.jobs[j], Items(t.rows, j));
    }
  }

  lemma StatusOnly(env: Env, job: Job, items: seq<Item>, status: JobStatus)
    requires JobInv(env, job, items) && status.Committed() && !status.Open()
    requires status.Frozen() ==> job.manifestHash.Some?
    ensures JobInv(env, job.(status := status), items)
  {}

  lemma HashPresent(env: Env, job: Job, items: seq<Item>)
    requires JobInv(env, job, items) && (job.status == Ready || job.status == Paused)
    ensures job.manifestHash.Some?
  {}

  /** Only job `j`'s row changes. */
  lemma OnlyJobRow(env: Env, t: Tables, j: nat, job: Job, active: int)
    requires Inv(env, t) && j < |t.jobs| && JobInv(env, job, Items(t.rows, j))
    requires active == t.active - (if t.jobs[j].status.Finished() then 0 else 1)
                     + (if job.status.Finished() then 0 else 1)
    ensures Inv(env, t.(jobs := t.jobs[j := job], active := active))
  {
    OneJobChanged(env, t, t.(jobs := t.jobs[j := job], active := active), j, job, Items(t.rows, j));
  }

  lemma RetryShape(t: Tables, tenant: string, j: nat)
    ensures var (t', r) := Retry(t, tenant, j);
      if r.Ok? then
        j < |t.jobs| && (t.jobs[j].status == Ready || t.jobs[j].status == Paused)
        && t' == t.(jobs := t.jobs[j := t.jobs[j].(status := Uploading)])
      else t' == t
  {}

  lemma RetryKeeps(env: Env, t: Tables, tenant: string, j: nat)
    requires Inv(env, t)
    ensures Inv(env, Retry(t, tenant, j).0)
  {
    RetryShape(t, tenant, j);
    if Retry(t, tenant, j).1.Ok? {
      StartUploading(env, t, j);
    }
  }

  lemma StartUploading(env: Env, t: Tables, j: nat)
    requires Inv(env, t) && j < |t.jobs| && (t.jobs[j].status == Ready || t.jobs[j].status == Paused)
    ensures Inv(env, t.(jobs := t.jobs[j := t.jobs[j].(status := Uploading)]))
  {
    var job, items := t.jobs[j], Items(t.rows, j);
    JobHolds(env, t, j);
    HashPresent(env, job, items);
    StatusOnly(env, job, items, Uploading);
    OnlyJobRow(env, t, j, job.(status := Uploading), t.active);
  }

  lemma CompleteKeeps(env: Env, t: Tables, tenant: string, j: nat)
    requires Inv(env, t)
    ensures Inv(env, CompleteJob(t, tenant, j).0)
  {
    if CompleteJob(t, tenant, j).0 != t {
      JobHolds(env, t, j);
      AggregateKeeps(env, t.rows, j, t.jobs[j]);
      StatusOnly(env, Aggregate(t.rows, j, t.jobs[j]), Items(t.rows, j), Completed);
      OnlyJobRow(env, t, j, Aggregate(t.rows, j, t.jobs[j]).(status := Completed), t.active - 1);
    }
  }

  lemma CancelKeeps(env: Env, t: Tables, tenant: string, j: nat)
    requires Inv(env, t)
    ensures Inv(env, CancelJob(t, tenant, j).0)
  {
    if CancelJob(t, tenant, j).0 != t {
      JobHolds(env, t, j);
      StatusOnly(env, t.jobs[j], Items(t.rows, j), Cancelled);
      OnlyJobRow(env, t, j, t.jobs[j].(status := Cancelled), t.active - 1);
    }
  }

  lemma StepKeepsInv(env: Env, t: Tables, r: Request)
    requires Inv(env, t) && Admissible(t, r)
    ensures Inv(env, Step(env, t, r).0)
  {
    match r
    case Create(tenant, bucket, prefix, policy) => CreateKeeps(env, t, tenant, bucket, prefix, policy);
    case Add(tenant, j, ds) => AddKeeps(env, t, tenant, j, ds);
    case CompleteManifestOf(tenant, j, expected, counts, listed) =>
      CompleteManifestKeeps(env, t, tenant, j, expected, counts, listed);
    case Initiate(tenant, j, entry) => InitiateKeeps(env, t, tenant, j, entry);
    case Mark(tenant, j, entry, status, file, error) => MarkKeeps(env, t, tenant, j, entry, status, file, error);
    case RetryJob(tenant, j) => RetryKeeps(env, t, tenant, j);
    case Complete(tenant, j) => CompleteKeeps(env, t, tenant, j);
    case Cancel(tenant, j) => CancelKeeps(env, t, tenant, j);
  }

  /** In every state any run reaches the invariant holds: counts are true, hashes are right, paths are distinct. */
  lemma {:induction false} RunKeepsInv(env: Env, t: Tables, rs: seq<Request>, t': Tables)
    requires Inv(env, t) && Run(env, t, rs, t')
    ensures Inv(env, t')
    decreases |rs|
  {
    if rs != [] {
      StepKeepsInv(env, t, rs[0]);
      RunKeepsInv(env, Step(env, t, rs[0]).0, rs[1..], t');
    }
  }

  /** Every state reached from the empty tables. */
  lemma ReachableInv(env: Env, rs: seq<Request>, t: Tables)
    requires Run(env, EMPTY, rs, t)
    ensures Inv(env, t)
  {
    EmptyInv(env);
    RunKeepsInv(env, EMPTY, rs, t);
  }

  lemma EmptyInv(env: Env)
    ensures Inv(env, EMPTY)
  {}
}
