/**
 * What a caller of the directory requests can rely on: which answer comes when, and what is left. The
 * numbers are taken from the entry rows themselves.
 */
module DirectoryDecisions {
  import opened Basics
  import opened Sorting
  import opened Json
  import opened Manifest
  import opened Directory
  import opened DirectoryRuns
  import Decimal
  import Paths

  // ------------------------------------------------------------------ vocabulary

  /** The caller has job `j`. */
  predicate Theirs(t: Tables, tenant: string, j: nat) { j < |t.jobs| && t.jobs[j].tenant == tenant }

  /** The caller has job `j`, and it still takes entries. */
  predicate TakesEntries(t: Tables, tenant: string, j: nat) {
    Theirs(t, tenant, j) && (t.jobs[j].status == Created || t.jobs[j].status == ManifestUploading)
  }

  /** Job `j` is now `job`, and nothing else changed but perhaps the gauge. */
  predicate OnlyJob(t: Tables, t': Tables, j: nat, job: Job) {
    j < |t.jobs| && t'.jobs == t.jobs[j := job] && t'.rows == t.rows
  }

  /** Each request of a run is served by the function of its name. */
  lemma ServedBy(env: Env, t: Tables, r: Request)
    ensures match r
      case Create(tenant, bucket, prefix, policy) =>
        Step(env, t, r) == CreateJob(env, t, tenant, bucket, prefix, policy)
      case Add(tenant, j, ds) => Step(env, t, r) == AddEntries(env, t, tenant, j, ds)
      case CompleteManifestOf(tenant, j, expected, counts, listed) =>
        Step(env, t, r) == CompleteManifest(env, t, tenant, j, expected, counts, listed)
      case Initiate(tenant, j, entry) => Step(env, t, r) == InitiateEntry(t, tenant, j, entry)
      case Mark(tenant, j, entry, status, file, error) =>
        Step(env, t, r) == MarkEntry(t, tenant, j, entry, status, file, error)
      case RetryJob(tenant, j) => Step(env, t, r) == Retry(t, tenant, j)
      case Complete(tenant, j) => Step(env, t, r) == CompleteJob(t, tenant, j)
      case Cancel(tenant, j) => Step(env, t, r) == CancelJob(t, tenant, j)
  {}

  // ------------------------------------------------------------------ counting rows

  function Positions(items: seq<Item>, kind: Kind): set<nat> { set i: nat | i < |items| && items[i].kind == kind }

  lemma {:induction false} PositionsCounted(items: seq<Item>, kind: Kind)
    ensures |Positions(items, kind)| == CountKind(items, kind)
  {
    if items == [] {
      assert Positions(items, kind) == {};
    } else {
      var n := |items| - 1;
      PositionsCounted(items[..n], kind);
      assert Positions(items, kind) == Positions(items[..n], kind) + if items[n].kind == kind then {n} else {};
    }
  }

  /** The entries of job `j` in a status. */
  function InStatus(rows: seq<Row>, j: nat, status: EntryStatus): set<nat> {
    set i: nat | i < |rows| && rows[i].job == j && rows[i].progress.status == status
  }

  lemma {:induction false} StatusCounted(rows: seq<Row>, j: nat, status: EntryStatus)
    ensures |InStatus(rows, j, status)| == CountStatus(rows, j, status)
  {
    if rows == [] {
      assert InStatus(rows, j, status) == {};
    } else {
      var n := |rows| - 1;
      StatusCounted(rows[..n], j, status);
      StatusPush(rows[..n], rows[n], j, status);
      assert rows[..n] + [rows[n]] == rows;
    }
  }

  lemma {:induction false} StatusPush(rows: seq<Row>, row: Row, j: nat, status: EntryStatus)
    ensures InStatus(rows + [row], j, status)
      == InStatus(rows, j, status) + if row.job == j && row.progress.status == status then {|rows|} else {}
  {
    var all := rows + [row];
    assert all[|rows|] == row && forall i: nat :: i < |rows| ==> all[i] == rows[i];
  }

  // ------------------------------------------------------------------ create

  /** The prefix, stripped of slashes at both ends, is empty or a safe path. */
  predicate PrefixOk(env: Env, prefix: string) {
    Paths.StripSlashes(prefix) == "" || Paths.ServerNormalize(env.nfc, Paths.StripSlashes(prefix), 64, 1024).Ok?
  }

  /** A job without entries. */
  function NewJob(tenant: string, prefix: string): Job { Job(tenant, prefix, Created, 0, 0, 0, 0, 0, 0, 0, None) }

  /** Every answer of create, and the job it makes. */
  lemma CreateDecided(env: Env, t: Tables, tenant: string, bucket: string, prefix: string, policy: string)
    ensures var (t', a) := CreateJob(env, t, tenant, bucket, prefix, policy);
      var open := env.enabled && bucket in env.buckets && policy in env.policies;
      && (a == Err(Disabled) <==> !env.enabled)
      && (a == Err(InvalidBucket) <==> env.enabled && bucket !in env.buckets)
      && (a == Err(InvalidConflictPolicy) <==> env.enabled && bucket in env.buckets && policy !in env.policies)
      && (a.Err? && a.error.InvalidPath? <==> open && !PrefixOk(env, prefix))
      && (a == Ok(|t.jobs|) <==> open && PrefixOk(env, prefix))
      && (a.Err? ==> t' == t)
      && (a.Ok? ==> t'.rows == t.rows && t'.active == t.active + 1
                    && t'.jobs == t.jobs + [NewJob(tenant, Paths.StripSlashes(prefix))])
  {}

  // ------------------------------------------------------------------ adding entries

  /** The submitted entry can be read: a safe path, a size, a key, a known type, optional fields of their types. */
  predicate Readable(env: Env, prefix: string, d: Document) {
    && d.Object? && Get(d.members, PATH, Text("")).Text?
    && Paths.ServerNormalize(env.nfc, Get(d.members, PATH, Text("")).s, env.maximumDepth, env.maximumBytes).Ok?
    && ToInt(Get(d.members, SIZE, Number(0))).Some?
    && Paths.JoinPrefix(env.nfc, prefix, PathOf(env, d)).Ok?
    && (Get(d.members, TYPE, Text("file")) == Text("file") || Get(d.members, TYPE, Text("file")) == Text("directory"))
    && (Get(d.members, MODIFIED, Null).Null? || Get(d.members, MODIFIED, Null).Number?)
    && (Get(d.members, FINGERPRINT, Null).Null? || Get(d.members, FINGERPRINT, Null).Text?)
  }

  /** Its normalised path. */
  function PathOf(env: Env, d: Document): string
    requires d.Object? && Get(d.members, PATH, Text("")).Text?
    requires Paths.ServerNormalize(env.nfc, Get(d.members, PATH, Text("")).s, env.maximumDepth, env.maximumBytes).Ok?
  {
    Paths.ServerNormalize(env.nfc, Get(d.members, PATH, Text("")).s, env.maximumDepth, env.maximumBytes).value
  }

  /** Which values are sizes: numbers, truth values as 1 and 0, and decimal text with a sign and blanks around it. */
  lemma SizesRead(n: int, l: string, sign: string, d: string, r: string)
    requires Decimal.Blank(l) && Decimal.Blank(r) && Decimal.AllDigits(d) && d != []
    requires sign == "" || sign == "+" || sign == "-"
    ensures ToInt(Number(n)) == Some(n) && ToInt(Null) == None
    ensures ToInt(Boolean(true)) == Some(1) && ToInt(Boolean(false)) == Some(0)
    ensures var value: int := Decimal.FromDigits(d);
      ToInt(Text(l + (sign + d) + r)) == Some(if sign == "-" then -value else value)
  {
    Decimal.PyIntSigned(l, sign, d, r);
  }

  /** The row says what the entry says; absent fields have their defaults. */
  ghost predicate Describes(env: Env, prefix: string, i: Item, d: Document) {
    && Readable(env, prefix, d)
    && i.relativePath == Get(d.members, PATH, Text("")).s && i.path == PathOf(env, d)
    && Paths.JoinPrefix(env.nfc, prefix, i.path) == Ok(i.objectKey)
    && Some(i.size) == ToInt(Get(d.members, SIZE, Number(0)))
    && (i.kind == Kind.Directory <==> Get(d.members, TYPE, Text("file")) == Text("directory"))
    && (if Get(d.members, MODIFIED, Null).Number? then i.modified == Some(Get(d.members, MODIFIED, Null).n)
        else i.modified == None)
    && (if Get(d.members, FINGERPRINT, Null).Text? then i.fingerprint == Some(Get(d.members, FINGERPRINT, Null).s)
        else i.fingerprint == None)
  }

  /** One entry is admitted exactly when it can be read and its path is new. */
  lemma OneAdmitted(env: Env, prefix: string, d: Document, existing: set<string>)
    ensures var a := AdmitOne(env, prefix, d, existing);
      && (a.Ok? <==> Readable(env, prefix, d) && PathOf(env, d) !in existing)
      && (a.Ok? ==> Describes(env, prefix, a.value, d))
      && (Readable(env, prefix, d) && PathOf(env, d) in existing ==> a == Err(DuplicatePath(PathOf(env, d))))
  {
    KindTexts();
  }

  /** The entries can all be read, and their paths are new and differ. */
  ghost predicate Admissible(env: Env, prefix: string, ds: seq<Document>, existing: set<string>) {
    && (forall i :: 0 <= i < |ds| ==> Readable(env, prefix, ds[i]) && PathOf(env, ds[i]) !in existing)
    && (forall i, k :: 0 <= i < k < |ds| && Readable(env, prefix, ds[i]) && Readable(env, prefix, ds[k]) ==>
          PathOf(env, ds[i]) != PathOf(env, ds[k]))
  }

  lemma AdmissibleFirst(env: Env, prefix: string, ds: seq<Document>, existing: set<string>)
    requires ds != []
    ensures Admissible(env, prefix, ds, existing) <==>
      && Readable(env, prefix, ds[0]) && PathOf(env, ds[0]) !in existing
      && Admissible(env, prefix, ds[1..], existing + {PathOf(env, ds[0])})
  {
    if Readable(env, prefix, ds[0]) && Admissible(env, prefix, ds[1..], existing + {PathOf(env, ds[0])}) {
      forall i | 0 <= i < |ds|
        ensures Readable(env, prefix, ds[i])
        ensures i > 0 ==> PathOf(env, ds[i]) !in existing + {PathOf(env, ds[0])}
      {
        if i > 0 { assert ds[i] == ds[1..][i - 1]; }
      }
      forall i, k | 0 < i < k < |ds| ensures PathOf(env, ds[i]) != PathOf(env, ds[k]) {
        assert ds[i] == ds[1..][i - 1] && ds[k] == ds[1..][k - 1];
      }
    }
    if Admissible(env, prefix, ds, existing) {
      forall i | 0 <= i < |ds[1..]|
        ensures Readable(env, prefix, ds[1..][i]) && PathOf(env, ds[1..][i]) !in existing + {PathOf(env, ds[0])}
      {
        assert ds[1..][i] == ds[i + 1];
      }
    }
  }

  /** A whole request is admitted exactly when all its entries are, each in its turn; the rows describe them. */
  lemma {:induction false} AllAdmitted(env: Env, prefix: string, ds: seq<Document>, existing: set<string>)
    ensures var a := Admit(env, prefix, ds, existing);
      && (a.Ok? <==> Admissible(env, prefix, ds, existing))
      && (a.Ok? ==> |a.value| == |ds| && forall i :: 0 <= i < |ds| ==> Describes(env, prefix, a.value[i], ds[i]))
    decreases |ds|
  {
    if ds != [] {
      OneAdmitted(env, prefix, ds[0], existing);
      AdmissibleFirst(env, prefix, ds, existing);
      if Readable(env, prefix, ds[0]) { AllAdmitted(env, prefix, ds[1..], existing + {PathOf(env, ds[0])}); }
    }
  }

  /** The paths of a job's entries. */
  function PathsIn(rows: seq<Row>, j: nat): set<string> {
    set i: nat | i < |rows| && rows[i].job == j :: rows[i].item.path
  }

  lemma {:induction false} PathsOfRows(rows: seq<Row>, j: nat)
    ensures PathsIn(rows, j) == PathSet(Items(rows, j))
  {
    if rows == [] {
      assert PathsIn(rows, j) == {} && PathSet(Items(rows, j)) == {};
    } else {
      var n := |rows| - 1;
      PathsOfRows(rows[..n], j);
      PathsPush(rows[..n], rows[n], j);
      PathSetPush(Items(rows[..n], j), rows[n].item);
      assert rows[..n] + [rows[n]] == rows;
      assert Items(rows[..n], j) + [] == Items(rows[..n], j);
    }
  }

  lemma {:induction false} PathsPush(rows: seq<Row>, row: Row, j: nat)
    ensures PathsIn(rows + [row], j) == PathsIn(rows, j) + if row.job == j then {row.item.path} else {}
  {
    var all := rows + [row];
    assert all[|rows|] == row && forall i: nat :: i < |rows| ==> all[i] == rows[i];
  }

  lemma {:induction false} PathSetPush(items: seq<Item>, item: Item)
    ensures PathSet(items + [item]) == PathSet(items) + {item.path}
  {
    var all := items + [item];
    assert all[|items|] == item && forall i :: 0 <= i < |items| ==> all[i] == items[i];
  }

  /**
   * The answers of add_entries that do not look at the entries; entries that fit are appended, each as a
   * pending row.
   */
  lemma AddDecided(env: Env, t: Tables, tenant: string, j: nat, ds: seq<Document>)
    ensures var (t', a) := AddEntries(env, t, tenant, j, ds);
      var looked := TakesEntries(t, tenant, j) && |ds| <= env.maximumEntries;
      && (a == Err(JobNotFound) <==> !Theirs(t, tenant, j))
      && (a == Err(StateConflict) <==> Theirs(t, tenant, j) && !TakesEntries(t, tenant, j))
      && (a == Err(TooManyEntries) <==> TakesEntries(t, tenant, j) && |ds| > env.maximumEntries)
      && (a == Ok(|ds|) <==> looked && Admissible(env, t.jobs[j].prefix, ds, PathsIn(t.rows, j)))
      && (a.Err? ==> t' == t)
      && (a.Ok? ==> t'.active == t.active && |t'.rows| == |t.rows| + |ds| && t'.rows[..|t.rows|] == t.rows)
      && (a.Ok? ==> forall i :: 0 <= i < |ds| ==>
            Appended(env, t.jobs[j].prefix, t'.rows[|t.rows| + i], j, ds[i]))
  {
    var existing := PathSet(Items(t.rows, j));
    PathsOfRows(t.rows, j);
    if Theirs(t, tenant, j) {
      AllAdmitted(env, t.jobs[j].prefix, ds, existing);
      AdmitErrors(env, t.jobs[j].prefix, ds, existing);
    }
    if AddEntries(env, t, tenant, j, ds).1.Ok? {
      AddShape(env, t, tenant, j, ds);
      var items := Admit(env, t.jobs[j].prefix, ds, existing).value;
      assert (t.rows + NewRows(j, items))[..|t.rows|] == t.rows;
    } else {
      AddRefused(env, t, tenant, j, ds);
    }
  }

  /** A fresh row for the entry. */
  ghost predicate Appended(env: Env, prefix: string, row: Row, j: nat, d: Document) {
    row.job == j && row.progress == Progress(Pending, 0, None, None) && Describes(env, prefix, row.item, d)
  }

  lemma {:induction false} AdmitErrors(env: Env, prefix: string, ds: seq<Document>, existing: set<string>)
    ensures var a := Admit(env, prefix, ds, existing);
      a.Err? ==> a.error.Unhandled? || a.error.InvalidPath? || a.error.DuplicatePath?
    decreases |ds|
  {
    if ds != [] && AdmitOne(env, prefix, ds[0], existing).Ok? {
      AdmitErrors(env, prefix, ds[1..], existing + {AdmitOne(env, prefix, ds[0], existing).value.path});
    }
  }

  // ------------------------------------------------------------------ completing the manifest

  /** No hash is expected, or the one the entries have. */
  predicate HashOk(env: Env, expected: Option<string>, items: seq<Item>) {
    expected.None? || expected.value == "" || expected.value == env.sha(HashInput(HashedFiles(items)))
  }

  /** No counts are declared, or the numbers of file and directory entries. */
  predicate CountsOk(counts: Option<Counts>, items: seq<Item>) {
    counts.Some? ==>
      && counts.value.files == Some(|Positions(items, File)|)
      && counts.value.directories == Some(|Positions(items, Kind.Directory)|)
  }

  /**
   * Every answer of complete_manifest, for every order in which the rows are listed: declared counts and an
   * expected hash are held against the job's entries; a success freezes the hash and makes the job ready.
   */
  lemma ManifestDecided(env: Env, t: Tables, tenant: string, j: nat, expected: Option<string>, counts: Option<Counts>,
                        listed: seq<Item>)
    requires Inv(env, t) && multiset(listed) == multiset(Items(t.rows, j))
    ensures var (t', a) := CompleteManifest(env, t, tenant, j, expected, counts, listed);
      var (items, open) := (Items(t.rows, j), TakesEntries(t, tenant, j));
      && (a == Err(JobNotFound) <==> !Theirs(t, tenant, j))
      && (a == Err(StateConflict) <==> Theirs(t, tenant, j) && !open)
      && (a.Err? && a.error.HashMismatch? <==> open && items != [] && !HashOk(env, expected, items))
      && (a == Err(ManifestIncomplete) <==>
            open && (items == [] || (HashOk(env, expected, items) && !CountsOk(counts, items))))
      && (a == Ok(j) <==> open && items != [] && HashOk(env, expected, items) && CountsOk(counts, items))
      && (a.Err? ==> t' == t)
      && (a.Ok? ==> Frozen(env, t, t', j))
  {
    SameElements(listed, Items(t.rows, j));
    if j < |t.jobs| {
      JobHolds(env, t, j);
      OrderIrrelevant(env, t.jobs[j].prefix, Items(t.rows, j), listed);
      PositionsCounted(Items(t.rows, j), File);
      PositionsCounted(Items(t.rows, j), Kind.Directory);
    }
    ManifestShape(env, t, tenant, j, expected, counts, listed);
    ManifestAnswers(env, t, tenant, j, expected, counts, listed, Items(t.rows, j));
  }

  /** The manifest's hash is frozen and the job is ready. */
  ghost predicate Frozen(env: Env, t: Tables, t': Tables, j: nat) {
    && j < |t.jobs| && t'.active == t.active
    && OnlyJob(t, t', j,
               t.jobs[j].(manifestHash := Some(env.sha(HashInput(HashedFiles(Items(t.rows, j))))), status := Ready))
  }

  lemma {:induction false} ManifestAnswers(env: Env, t: Tables, tenant: string, j: nat, expected: Option<string>,
                                           counts: Option<Counts>, listed: seq<Item>, items: seq<Item>)
    requires j < |t.jobs| ==> HashInput(HashedFiles(listed)) == HashInput(HashedFiles(items))
    requires listed == [] <==> items == []
    requires j < |t.jobs| ==>
      t.jobs[j].totalFiles == |Positions(items, File)|
      && t.jobs[j].totalDirectories == |Positions(items, Kind.Directory)|
    requires j < |t.jobs| && t.jobs[j].status == Created ==> items == []
    ensures var a := CompleteManifest(env, t, tenant, j, expected, counts, listed).1;
      var open := TakesEntries(t, tenant, j);
      && (a == Err(JobNotFound) <==> !Theirs(t, tenant, j))
      && (a == Err(StateConflict) <==> Theirs(t, tenant, j) && !open)
      && (a.Err? && a.error.HashMismatch? <==> open && items != [] && !HashOk(env, expected, items))
      && (a == Err(ManifestIncomplete) <==>
            open && (items == [] || (HashOk(env, expected, items) && !CountsOk(counts, items))))
      && (a == Ok(j) <==> open && items != [] && HashOk(env, expected, items) && CountsOk(counts, items))
      && (a.Ok? ==> a == Ok(j))
  {
    if Theirs(t, tenant, j) {
      RefusedManifest(env, t.jobs[j], expected, counts, listed, items, env.sha(HashInput(HashedFiles(listed))));
    }
  }

  lemma {:induction false} RefusedManifest(env: Env, job: Job, expected: Option<string>, counts: Option<Counts>,
                                           listed: seq<Item>, items: seq<Item>, actual: string)
    requires actual == env.sha(HashInput(HashedFiles(items))) && (listed == [] <==> items == [])
    requires job.totalFiles == |Positions(items, File)| && job.totalDirectories == |Positions(items, Kind.Directory)|
    requires job.status == Created ==> items == []
    ensures var r := ManifestRefused(job, expected, counts, listed, actual);
      var open := job.status == Created || job.status == ManifestUploading;
      && (r == Some(StateConflict) <==> !open)
      && (r.Some? && r.value.HashMismatch? <==> open && items != [] && !HashOk(env, expected, items))
      && (r == Some(ManifestIncomplete) <==>
            open && (items == [] || (HashOk(env, expected, items) && !CountsOk(counts, items))))
      && (r.None? <==> open && items != [] && HashOk(env, expected, items) && CountsOk(counts, items))
      && (r.Some? ==> r.value != JobNotFound)
  {}

  // ------------------------------------------------------------------ entries

  /** The entry belongs to job `j`. */
  predicate EntryOf(t: Tables, j: nat, entry: nat) { entry < |t.rows| && t.rows[entry].job == j }

  /** Starting an entry: its status, one attempt more, and nothing else. */
  lemma InitiateDecided(env: Env, t: Tables, tenant: string, j: nat, entry: nat)
    requires Inv(env, t)
    ensures var (t', a) := InitiateEntry(t, tenant, j, entry);
      && (a == Err(EntryNotFound) <==> !EntryOf(t, j, entry))
      && (a == Err(JobNotFound) <==> EntryOf(t, j, entry) && !Theirs(t, tenant, j))
      && (a == Ok(entry) <==> EntryOf(t, j, entry) && Theirs(t, tenant, j))
      && (a.Err? ==> t' == t)
      && (a.Ok? ==> EntryOf(t, j, entry))
      && (a.Ok? ==> t' == t.(rows := t.rows[entry := t.rows[entry].(progress :=
                     t.rows[entry].progress.(status := InProgress, attempts := t.rows[entry].progress.attempts + 1))]))
  {
    if EntryOf(t, j, entry) && j < |t.jobs| {
      ItemPresent(t.rows, entry);
      JobHolds(env, t, j);
      assert t.jobs[j := t.jobs[j]] == t.jobs;
    }
  }

  /** The counters that say how far a job has come are those of its rows. */
  ghost predicate CountersOf(job: Job, rows: seq<Row>, j: nat) {
    && job.totalEntries == |Items(rows, j)| && job.totalBytes == TotalSize(Items(rows, j))
    && job.uploadedFiles == |InStatus(rows, j, Uploaded)| && job.failedFiles == |InStatus(rows, j, Failed)|
    && job.skippedFiles == |InStatus(rows, j, Skipped)|
  }

  /** Only those counters differ. */
  predicate SameBut(job: Job, job': Job) {
    job' == job.(totalEntries := job'.totalEntries, totalBytes := job'.totalBytes, uploadedFiles := job'.uploadedFiles,
                 failedFiles := job'.failedFiles, skippedFiles := job'.skippedFiles)
  }

  lemma AggregateCounts(rows: seq<Row>, j: nat, job: Job)
    ensures CountersOf(Aggregate(rows, j, job), rows, j) && SameBut(job, Aggregate(rows, j, job))
  {
    StatusCounted(rows, j, Uploaded);
    StatusCounted(rows, j, Failed);
    StatusCounted(rows, j, Skipped);
  }

  /** The reported result, with the attempts there were. */
  function ProgressOf(t: Tables, entry: nat, status: EntryStatus, file: Option<nat>, error: Option<string>): Progress
    requires entry < |t.rows|
  {
    Progress(status, t.rows[entry].progress.attempts, file, error)
  }

  /** Reporting a result: the entry's row takes it, and the job's counters are recomputed. */
  lemma MarkDecided(t: Tables, tenant: string, j: nat, entry: nat, status: EntryStatus, file: Option<nat>,
                    error: Option<string>)
    ensures var (t', a) := MarkEntry(t, tenant, j, entry, status, file, error);
      && (a == Err(EntryNotFound) <==> !EntryOf(t, j, entry))
      && (a == Err(JobNotFound) <==> EntryOf(t, j, entry) && !Theirs(t, tenant, j))
      && (a == Ok(entry) <==> EntryOf(t, j, entry) && Theirs(t, tenant, j))
      && (a.Err? ==> t' == t)
      && (a.Ok? ==> EntryOf(t, j, entry) && Theirs(t, tenant, j) && j < |t'.jobs| && t'.active == t.active)
      && (a.Ok? ==> t'.rows == t.rows[entry := t.rows[entry].(progress := ProgressOf(t, entry, status, file, error))])
      && (a.Ok? ==>
            t'.jobs == t.jobs[j := t'.jobs[j]] && SameBut(t.jobs[j], t'.jobs[j]) && CountersOf(t'.jobs[j], t'.rows, j))
  {
    if EntryOf(t, j, entry) && j < |t.jobs| {
      AggregateCounts(MarkEntry(t, tenant, j, entry, status, file, error).0.rows, j, t.jobs[j]);
    }
  }

  // ------------------------------------------------------------------ the end of a job

  /** Retry: from ready or paused, to uploading. */
  lemma RetryDecided(t: Tables, tenant: string, j: nat)
    ensures var (t', a) := Retry(t, tenant, j);
      var ready := Theirs(t, tenant, j) && (t.jobs[j].status == Ready || t.jobs[j].status == Paused);
      && (a == Err(JobNotFound) <==> !Theirs(t, tenant, j))
      && (a == Err(StateConflict) <==> Theirs(t, tenant, j) && !ready)
      && (a == Ok(j) <==> ready)
      && (a.Err? ==> t' == t)
      && (a.Ok? ==> ready && t'.active == t.active && OnlyJob(t, t', j, t.jobs[j].(status := Uploading)))
  {
    RetryShape(t, tenant, j);
  }

  /** The job has finished uploading without a failed entry. */
  ghost predicate Completable(t: Tables, tenant: string, j: nat) {
    Theirs(t, tenant, j) && t.jobs[j].status == Uploading && InStatus(t.rows, j, Failed) == {}
  }

  /** The job is in a status that complete looks into. */
  predicate LookedInto(t: Tables, tenant: string, j: nat) {
    Theirs(t, tenant, j) && (t.jobs[j].status == Uploading || t.jobs[j].status == Ready || t.jobs[j].status == Paused)
  }

  /** Every answer of complete; a success recomputes the counters and ends the job. */
  lemma CompleteDecided(t: Tables, tenant: string, j: nat)
    ensures var (t', a) := CompleteJob(t, tenant, j);
      var again := Theirs(t, tenant, j) && t.jobs[j].status == Completed;
      var failed := |InStatus(t.rows, j, Failed)|;
      && (a == Err(JobNotFound) <==> !Theirs(t, tenant, j))
      && (a == Err(HasFailedEntries(failed)) <==> LookedInto(t, tenant, j) && failed > 0)
      && (a == Err(StateConflict) <==>
            Theirs(t, tenant, j) && !again && !(LookedInto(t, tenant, j) && failed > 0) && !Completable(t, tenant, j))
      && (a == Ok(j) <==> again || Completable(t, tenant, j))
      && (a.Err? || again ==> t' == t)
      && (Completable(t, tenant, j) ==> j < |t'.jobs| && t'.active == t.active - 1 && t'.rows == t.rows)
      && (Completable(t, tenant, j) ==> t'.jobs == t.jobs[j := t'.jobs[j]] && CountersOf(t'.jobs[j], t.rows, j))
      && (Completable(t, tenant, j) ==> SameBut(t.jobs[j].(status := Completed), t'.jobs[j]))
  {
    StatusCounted(t.rows, j, Failed);
    if j < |t.jobs| { AggregateCounts(t.rows, j, t.jobs[j]); }
  }

  /** Cancel: once, on any job that is not finished; only its status changes, and the gauge falls by one. */
  lemma CancelDecided(env: Env, t: Tables, tenant: string, j: nat)
    requires Inv(env, t)
    ensures var (t', a) := CancelJob(t, tenant, j);
      var going := Theirs(t, tenant, j) && t.jobs[j].status != Completed && t.jobs[j].status != Cancelled;
      && (a == Err(JobNotFound) <==> !Theirs(t, tenant, j))
      && (a == Err(StateConflict) <==> Theirs(t, tenant, j) && !going)
      && (a == Ok(j) <==> going)
      && (a.Err? ==> t' == t)
      && (a.Ok? ==> going && t'.active == t.active - 1 && OnlyJob(t, t', j, t.jobs[j].(status := Cancelled)))
  {
    if j < |t.jobs| { JobHolds(env, t, j); }
  }

  /**
   * Cancelled for good: after a cancel and any further run, adding entries, completing the manifest,
   * retrying, completing and cancelling the job answer with a state conflict and change nothing.
   */
  lemma CancelledForGood(env: Env, before: seq<Request>, t: Tables, tenant: string, j: nat, rs: seq<Request>,
                         t': Tables, r: Request)
    requires Run(env, EMPTY, before, t) && CancelJob(t, tenant, j).1.Ok?
    requires Run(env, CancelJob(t, tenant, j).0, rs, t') && Directory.Admissible(t', r)
    requires (r.Add? || r.CompleteManifestOf? || r.RetryJob? || r.Complete? || r.Cancel?)
    requires r.tenant == tenant && r.job == j
    ensures Step(env, t', r) == (t', Err(StateConflict))
  {
    var t1 := CancelJob(t, tenant, j).0;
    ReachableInv(env, before, t);
    CancelDecided(env, t, tenant, j);
    CancelKeeps(env, t, tenant, j);
    RunEvolves(env, t1, rs, t', j);
    RunKeepsInv(env, t1, rs, t');
    StaysCancelled(t1.jobs[j].status, t'.jobs[j].status);
    CancelledRefuses(env, t', tenant, j, r);
  }

  lemma StaysCancelled(a: JobStatus, b: JobStatus)
    requires a == Cancelled && Connected(a, b)
    ensures b == Cancelled
  {
    var path :| Chain(path) && path[0] == a && path[|path| - 1] == b;
    EndOfTable(path);
  }

  lemma CancelledRefuses(env: Env, t: Tables, tenant: string, j: nat, r: Request)
    requires Inv(env, t) && Theirs(t, tenant, j) && t.jobs[j].status == Cancelled && Directory.Admissible(t, r)
    requires (r.Add? || r.CompleteManifestOf? || r.RetryJob? || r.Complete? || r.Cancel?)
    requires r.tenant == tenant && r.job == j
    ensures Step(env, t, r) == (t, Err(StateConflict))
  {
    match r
    case Add(_, _, ds) => AddDecided(env, t, tenant, j, ds);
    case CompleteManifestOf(_, _, expected, counts, listed) =>
      ManifestDecided(env, t, tenant, j, expected, counts, listed);
    case RetryJob(_, _) => RetryDecided(t, tenant, j);
    case Complete(_, _) => CompleteDecided(t, tenant, j);
    case Cancel(_, _) => CancelDecided(env, t, tenant, j);
  }
}
