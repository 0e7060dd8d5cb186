/**
 * The directory upload service as an object that updates the job and entry tables in place. Each method
 * is tied to the request function of module Directory; what a failing request changed is not committed.
 */
module DirectoryService {
  import opened Basics
  import opened Sorting
  import opened Json
  import opened Manifest
  import opened Directory
  import opened DirectoryPages
  import Paths

  class DirectoryUploadService {
    const env: Env
    var jobs: seq<Job>
    var rows: seq<Row>
    var active: int

    function State(): Tables
      reads this
    {
      Tables(jobs, rows, active)
    }

    constructor (env: Env)
      ensures State() == EMPTY && this.env == env
    {
      this.env := env;
      jobs, rows, active := [], [], 0;
    }

    method CreateJob(tenant: string, bucket: string, prefix: string, policy: string) returns (r: Result<int, JobError>)
      modifies this
      ensures (State(), r) == Directory.CreateJob(env, old(State()), tenant, bucket, prefix, policy)
    {
      if !env.enabled {
        return Err(Disabled);
      }
      if bucket !in env.buckets {
        return Err(InvalidBucket);
      }
      if policy !in env.policies {
        return Err(InvalidConflictPolicy);
      }
      var clean := Paths.StripSlashes(prefix);
      if clean != "" {
        var checked := Paths.NormalizeOnServer(env.nfc, clean, Paths.DEFAULT_DEPTH, 1024);
        if checked.Err? {
          return Err(InvalidPath(checked.error));
        }
      }
      jobs := jobs + [Job(tenant, clean, Created, 0, 0, 0, 0, 0, 0, 0, None)];
      active := active + 1;
      return Ok(|jobs| - 1);
    }

    method AddEntries(tenant: string, j: nat, entries: seq<Document>) returns (r: Result<int, JobError>)
      modifies this
      ensures (State(), r) == Directory.AddEntries(env, old(State()), tenant, j, entries)
    {
      if !Visible(State(), tenant, j) {
        return Err(JobNotFound);
      }
      var job := jobs[j];
      if !job.status.Open() {
        return Err(StateConflict);
      }
      if |entries| > env.maximumEntries {
        return Err(TooManyEntries);
      }
      var existing := PathSet(Items(rows, j));
      var admitted := AdmitAll(env, job.prefix, entries, existing);
      if admitted.Err? {
        return Err(admitted.error);
      }
      Insert(j, admitted.value);
      return Ok(|admitted.value|);
    }

    /** Adds the admitted rows and moves the job's counters. */
    method Insert(j: nat, items: seq<Item>)
      requires j < |jobs|
      modifies this
      ensures State()
        == old(State()).(jobs := old(jobs)[j := Grow(old(jobs)[j], items)], rows := old(rows) + NewRows(j, items))
    {
      var files, directories, bytes := Tally(items);
      var job := jobs[j];
      rows := rows + NewRows(j, items);
      jobs := jobs[j := job.(status := ManifestUploading,
                             totalFiles := job.totalFiles + files,
                             totalDirectories := job.totalDirectories + directories,
                             totalBytes := job.totalBytes + bytes,
                             totalEntries := job.totalEntries + |items|)];
    }

    method CompleteManifest(tenant: string, j: nat, expected: Option<string>, counts: Option<Counts>, listed: seq<Item>)
      returns (r: Result<int, JobError>)
      modifies this
      ensures (State(), r) == Directory.CompleteManifest(env, old(State()), tenant, j, expected, counts, listed)
    {
      if !Visible(State(), tenant, j) {
        return Err(JobNotFound);
      }
      var job := jobs[j];
      if !job.status.Open() {
        return Err(StateConflict);
      }
      if listed == [] {
        return Err(ManifestIncomplete);
      }
      var files := SelectFiles(listed);
      var actual := ManifestHash(env.sha, files);
      if expected.GetOr("") != "" && expected.value != actual {
        return Err(HashMismatch(expected.value, actual));
      }
      if counts.Some?
         && (counts.value.files != Some(job.totalFiles) || counts.value.directories != Some(job.totalDirectories)) {
        return Err(ManifestIncomplete);
      }
      if !Allowed(job.status, Ready) {
        return Err(StateConflict);
      }
      jobs := jobs[j := job.(manifestHash := Some(actual), status := Ready)];
      return Ok(j);
    }

    /** The entries of one page and the cursor of the next: PageMeans says what they are to a caller. */
    method ListEntries(tenant: string, j: nat, cursor: Option<string>, limit: int)
      returns (r: Result<(seq<Listed>, Option<string>), JobError>)
      ensures r == if Visible(State(), tenant, j) then Ok(Page(rows, j, cursor, limit)) else Err(JobNotFound)
    {
      if !Visible(State(), tenant, j) {
        return Err(JobNotFound);
      }
      var size := Min(Max(limit, 1), 1000);
      var matching := Numbered(rows, j);
      if cursor.GetOr("") != "" {
        matching := Past(matching, cursor.value);
      }
      var page, next := FirstOf(SortBy(DirectoryPages.ByPath(), matching), size);
      r := Ok((page, next));
    }

    method InitiateEntry(tenant: string, j: nat, entry: nat) returns (r: Result<int, JobError>)
      modifies this
      ensures (State(), r) == Directory.InitiateEntry(old(State()), tenant, j, entry)
    {
      if entry >= |rows| || rows[entry].job != j {
        return Err(EntryNotFound);
      }
      if !Visible(State(), tenant, j) {
        return Err(JobNotFound);
      }
      var row := rows[entry];
      jobs := jobs[j := if jobs[j].status == Created then jobs[j].(status := ManifestUploading) else jobs[j]];
      var begun := row.progress.(status := InProgress, attempts := row.progress.attempts + 1);
      rows := rows[entry := row.(progress := begun)];
      return Ok(entry);
    }

    method MarkEntryResult(tenant: string, j: nat, entry: nat, status: EntryStatus, file: Option<nat>,
                           error: Option<string>)
      returns (r: Result<int, JobError>)
      modifies this
      ensures (State(), r) == MarkEntry(old(State()), tenant, j, entry, status, file, error)
    {
      if entry >= |rows| || rows[entry].job != j {
        return Err(EntryNotFound);
      }
      if !Visible(State(), tenant, j) {
        return Err(JobNotFound);
      }
      rows := rows[entry := rows[entry].(progress := Progress(status, rows[entry].progress.attempts, file, error))];
      jobs := jobs[j := Aggregate(rows, j, jobs[j])];
      return Ok(entry);
    }

    method Retry(tenant: string, j: nat) returns (r: Result<int, JobError>)
      modifies this
      ensures (State(), r) == Directory.Retry(old(State()), tenant, j)
    {
      if !Visible(State(), tenant, j) {
        return Err(JobNotFound);
      }
      var status := jobs[j].status;
      if status.Finished() || status == CompletedWithErrors || !Allowed(status, Uploading) {
        return Err(StateConflict);
      }
      jobs := jobs[j := jobs[j].(status := Uploading)];
      return Ok(j);
    }

    method Complete(tenant: string, j: nat) returns (r: Result<int, JobError>)
      modifies this
      ensures (State(), r) == CompleteJob(old(State()), tenant, j)
    {
      if !Visible(State(), tenant, j) {
        return Err(JobNotFound);
      }
      if jobs[j].status == Completed {
        return Ok(j);
      }
      if !jobs[j].status.Uploadable() {
        return Err(StateConflict);
      }
      var failed := CountStatus(rows, j, Failed);
      if failed > 0 {
        return Err(HasFailedEntries(failed));
      }
      if !Allowed(jobs[j].status, Finalizing) {
        return Err(StateConflict);
      }
      var job := jobs[j].(status := Finalizing);
      job := Aggregate(rows, j, job);
      job := job.(status := Completed);
      jobs := jobs[j := job];
      active := active - 1;
      return Ok(j);
    }

    method Cancel(tenant: string, j: nat) returns (r: Result<int, JobError>)
      modifies this
      ensures (State(), r) == CancelJob(old(State()), tenant, j)
    {
      if !Visible(State(), tenant, j) {
        return Err(JobNotFound);
      }
      var status := jobs[j].status;
      if status == Completed || status == CompletedWithErrors {
        return Err(StateConflict);
      }
      if status != Cancelled {
        if !Allowed(status, Cancelling) {
          return Err(StateConflict);
        }
        status := Cancelling;
      }
      if !Allowed(status, Cancelled) {
        return Err(StateConflict);
      }
      jobs := jobs[j := jobs[j].(status := Cancelled)];
      active := active - 1;
      return Ok(j);
    }
  }

  // ------------------------------------------------------------------ queries and loops

  /** `.limit(size + 1)`: one row more than the page shows whether a next cursor is needed. */
  method FirstOf(found: seq<Listed>, size: nat) returns (page: seq<Listed>, next: Option<string>)
    requires size >= 1
    ensures (page, next) == Cut(found, size)
  {
    page, next := found[..Min(|found|, size + 1)], None;
    if |page| > size {
      page := page[..size];
      next := Some(page[|page| - 1].row.item.path);
    }
  }

  /** The entry loop of add_entries: `existing` grows with every entry, the first bad entry ends it. */
  method AdmitAll(env: Env, prefix: string, entries: seq<Document>, paths: set<string>)
    returns (r: Result<seq<Item>, JobError>)
    ensures r == Admit(env, prefix, entries, paths)
  {
    var existing := paths;
    var items: seq<Item> := [];
    assert entries[0..] == entries;
    AfterNothing(Admit(env, prefix, entries, paths));
    for i := 0 to |entries|
      invariant Admit(env, prefix, entries, paths) == After(items, Admit(env, prefix, entries[i..], existing))
    {
      assert entries[i..][0] == entries[i] && entries[i..][1..] == entries[i + 1..];
      var item := AdmitOne(env, prefix, entries[i], existing);
      if item.Err? {
        return Err(item.error);
      }
      AfterOne(items, item.value, Admit(env, prefix, entries[i + 1..], existing + {item.value.path}));
      existing := existing + {item.value.path};
      items := items + [item.value];
    }
    assert items + [] == items;
    return Ok(items);
  }

  ghost function After(done: seq<Item>, r: Result<seq<Item>, JobError>): Result<seq<Item>, JobError> {
    match r case Err(e) => Err(e) case Ok(rest) => Ok(done + rest)
  }

  lemma AfterNothing(r: Result<seq<Item>, JobError>)
    ensures After([], r) == r
  {
    if r.Ok? { assert [] + r.value == r.value; }
  }

  lemma AfterOne(done: seq<Item>, item: Item, r: Result<seq<Item>, JobError>)
    ensures After(done + [item], r) == After(done, After([item], r))
  {
    if r.Ok? { assert done + [item] + r.value == done + ([item] + r.value); }
  }

  /** The counters of one add_entries request. */
  method Tally(items: seq<Item>) returns (files: nat, directories: nat, bytes: int)
    ensures files == CountKind(items, File)
    ensures directories == CountKind(items, Kind.Directory) && bytes == FileSize(items)
  {
    files, directories, bytes := 0, 0, 0;
    for i := 0 to |items|
      invariant files == CountKind(items[..i], File) && directories == CountKind(items[..i], Kind.Directory)
      invariant bytes == FileSize(items[..i])
    {
      assert items[..i + 1][..i] == items[..i];
      if items[i].kind == File {
        files := files + 1;
        bytes := bytes + items[i].size;
      } else {
        directories := directories + 1;
      }
    }
    assert items[..|items|] == items;
  }

  /** The file entries, as the manifest hash takes them. */
  method SelectFiles(items: seq<Item>) returns (files: seq<Hashed>)
    ensures files == HashedFiles(items)
  {
    files := [];
    for i := 0 to |items|
      invariant files == HashedFiles(items[..i])
    {
      assert items[..i + 1][..i] == items[..i];
      if items[i].kind == File {
        files := files + [HashedItem(items[i])];
      }
    }
    assert items[..|items|] == items;
  }
}
